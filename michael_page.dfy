/**
 * The homepage variant stored in the CMS: the seeding script writes the
 * page with its eighteen top-level blocks, and the integration script
 * swaps selected blocks for animated components.
 */
module MichaelPage {
  import opened Wrappers

  datatype Padding = Padding(top: bool, bottom: bool)

  /** A top-level page block: its type, key and the two layout settings every block shares. */
  datatype Block = Block(blockType: string, key: Option<string>, padding: Option<Padding>, colorVariant: Option<string>)

  datatype Page = Page(id: string, title: string, slug: string, blocks: Option<seq<Block>>)

  /** The CMS dataset: documents by id. */
  type Documents = map<string, Page>

  const PageId := "michael-version-page"
  const PageSlug := "michael-version"

  function Seeded(blockType: string, key: string, top: bool, bottom: bool, colorVariant: string): Block {
    Block(blockType, Some(key), Some(Padding(top, bottom)), Some(colorVariant))
  }

  /** The seeded blocks, in page order. */
  const SeededBlocks: seq<Block> := [
    Seeded("hero-1", "hero1", true, true, "background"),
    Seeded("logo-cloud-1", "logo-cloud", true, false, "background"),
    Seeded("grid-row", "value-props", true, true, "background"),
    Seeded("section-header", "paradigm", true, true, "muted"),
    Seeded("timeline-row", "journey", true, true, "background"),
    Seeded("section-header", "realization", true, true, "muted"),
    Seeded("section-header", "conversational-os-header", true, false, "background"),
    Seeded("split-row", "conversational-os", false, true, "background"),
    Seeded("grid-row", "capabilities", true, true, "muted"),
    Seeded("section-header", "evolution-header", true, false, "background"),
    Seeded("split-row", "evolution", false, true, "background"),
    Seeded("section-header", "industries-header", true, false, "muted"),
    Seeded("grid-row", "industries", false, true, "muted"),
    Seeded("section-header", "closing", true, true, "background"),
    Seeded("grid-row", "opportunity", true, true, "muted"),
    Seeded("grid-row", "final-cta", true, true, "background"),
    Seeded("cta-1", "developer-cta", true, true, "primary"),
    Seeded("form-newsletter", "newsletter", true, true, "background")
  ]

  const SeededPage := Page(PageId, "Michael Donovan Homepage Version", PageSlug, Some(SeededBlocks))

  /** `createOrReplace`: the seeded page replaces any document with its id. */
  method CreateMichaelVersion(docs: Documents) returns (docs': Documents)
    ensures docs'.Keys == docs.Keys + {PageId}
    ensures docs'[PageId] == SeededPage
    ensures forall id :: id in docs && id != PageId ==> docs'[id] == docs[id]
  {
    docs' := docs[PageId := SeededPage];
  }

  /** The seeded page: its id and slug, eighteen blocks, each with padding and a colour variant. */
  lemma SeededPageShape()
    ensures SeededPage.id == PageId && SeededPage.slug == PageSlug
    ensures |SeededBlocks| == 18
    ensures forall i :: 0 <= i < |SeededBlocks| ==>
      SeededBlocks[i].key.Some? && SeededBlocks[i].padding.Some? && SeededBlocks[i].colorVariant.Some?
  {
  }

  /**
   * An enhancement: the position it applies to, the block type expected
   * there, the component that replaces it, and the prefix of the key made
   * up when the original block has none.
   */
  datatype Enhancement = Enhancement(index: nat, fromType: string, toType: string, keyPrefix: string)

  const Enhancements: seq<Enhancement> := [
    Enhancement(6, "timeline-row", "aceternity.timeline", "aceternity-timeline-"),
    Enhancement(8, "grid-row", "aceternity.bento-grid", "aceternity-bento-"),
    Enhancement(12, "section-header", "aceternity.text-generate-effect", "aceternity-text-generate-")
  ]

  /** The enhancement for a position, if one is defined there. */
  function EnhancementAt(index: nat): (e: Option<Enhancement>)
    ensures e.Some? ==> e.value in Enhancements && e.value.index == index
    ensures e.None? ==> forall k :: 0 <= k < |Enhancements| ==> Enhancements[k].index != index
  {
    if index == 6 then Some(Enhancements[0])
    else if index == 8 then Some(Enhancements[1])
    else if index == 12 then Some(Enhancements[2])
    else None
  }

  /** Does the block at `index` get replaced? */
  predicate IsTarget(block: Block, index: nat) {
    EnhancementAt(index).Some? && block.blockType == EnhancementAt(index).value.fromType
  }

  /**
   * One step of the `map`: the block at a listed position with the listed
   * type is replaced, keeping its key when that is non-empty; every other
   * block is returned as it was. `stamp` is the rendering of the clock.
   */
  function Enhance(block: Block, index: nat, stamp: string): (r: Block)
    ensures !IsTarget(block, index) ==> r == block
    ensures IsTarget(block, index) ==>
      && r.blockType == EnhancementAt(index).value.toType
      && r.padding == Some(Padding(true, true))
      && r.colorVariant == Some("background")
      && r.key == (if Truthy(block.key) then block.key else Some(EnhancementAt(index).value.keyPrefix + stamp))
  {
    match EnhancementAt(index)
    case Some(e) =>
      if block.blockType == e.fromType then
        var key := if Truthy(block.key) then block.key.value else e.keyPrefix + stamp;
        Block(e.toType, Some(key), Some(Padding(true, true)), Some("background"))
      else block
    case None => block
  }

  /** `blocks.map(...)`. */
  function EnhanceBlocks(blocks: seq<Block>, stamp: string): (r: seq<Block>)
    ensures |r| == |blocks|
    ensures forall i :: 0 <= i < |blocks| ==> r[i] == Enhance(blocks[i], i, stamp)
  {
    seq(|blocks|, i requires 0 <= i < |blocks| => Enhance(blocks[i], i, stamp))
  }

  /** Only the three listed (position, type) pairs change; everything else is left as it was. */
  lemma EnhanceChangesOnlyTargets(blocks: seq<Block>, stamp: string, i: nat)
    requires i < |blocks|
    ensures EnhanceBlocks(blocks, stamp)[i] != blocks[i] ==>
      exists k :: 0 <= k < |Enhancements| && Enhancements[k].index == i && Enhancements[k].fromType == blocks[i].blockType
  {
    if EnhanceBlocks(blocks, stamp)[i] != blocks[i] {
      var e := EnhancementAt(i).value;
      var k :| 0 <= k < |Enhancements| && Enhancements[k] == e;
    }
  }

  /**
   * Running the integration a second time changes nothing: a replaced
   * block has a type that no enhancement expects.
   */
  lemma EnhanceIdempotent(blocks: seq<Block>, stamp: string, stamp': string)
    ensures EnhanceBlocks(EnhanceBlocks(blocks, stamp), stamp') == EnhanceBlocks(blocks, stamp)
  {
    var once := EnhanceBlocks(blocks, stamp);
    forall i | 0 <= i < |once|
      ensures Enhance(once[i], i, stamp') == once[i]
    {
      if IsTarget(once[i], i) {
        assert IsTarget(blocks[i], i);
      }
    }
  }

  const BentoCapabilities := Block("aceternity.bento-grid", Some("capabilities"), Some(Padding(true, true)), Some("background"))

  /**
   * On the seeded page only the capabilities grid is replaced: position 6
   * holds a section header rather than the timeline, and position 12 a
   * grid row rather than a section header.
   */
  lemma SeededEnhancement(blocks: seq<Block>, stamp: string)
    requires blocks == SeededBlocks
    ensures EnhanceBlocks(blocks, stamp) == blocks[8 := BentoCapabilities]
  {
    var r := EnhanceBlocks(blocks, stamp);
    forall i | 0 <= i < |blocks|
      ensures r[i] == blocks[8 := BentoCapabilities][i]
    {
      if i != 8 {
        assert !IsTarget(blocks[i], i);
      }
    }
  }

  /**
   * The integration script: a missing page is left alone; otherwise its
   * blocks (none when the field is absent) are enhanced and written back.
   */
  method IntegrateMichaelHomepage(docs: Documents, stamp: string) returns (docs': Documents, patched: bool)
    ensures patched <==> PageId in docs
    ensures !patched ==> docs' == docs
    ensures patched ==> docs'.Keys == docs.Keys
    ensures patched ==> docs'[PageId] == docs[PageId].(blocks := Some(EnhanceBlocks(docs[PageId].blocks.GetOr([]), stamp)))
    ensures forall id :: id in docs && id != PageId ==> docs'[id] == docs[id]
  {
    if PageId !in docs {
      return docs, false;
    }
    var page := docs[PageId];
    var blocks := page.blocks.GetOr([]);
    var updated := EnhanceBlocks(blocks, stamp);
    docs' := docs[PageId := page.(blocks := Some(updated))];
    patched := true;
  }
}
