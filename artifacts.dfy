/**
 * The generated artifacts as records, with the renderers that turn them
 * into the file text the generators write: a CMS object-type schema
 * (`defineType` with groups, fields and a preview) and a block wrapper
 * component. Also the repository layout the generators write into.
 */
module Artifacts {
  import opened Wrappers
  import opened Strings

  /** The display group a schema field is shown in. */
  datatype Group = Content | Settings | Style

  function GroupName(g: Group): string {
    match g
    case Content => "content"
    case Settings => "settings"
    case Style => "style"
  }

  /**
   * A literal written into a schema (`JSON.stringify` of an initial value);
   * numbers keep the text they have in the source (`0.4`), since no
   * arithmetic is done on them.
   */
  datatype Literal = Number(digits: string) | Text(s: string) | Flag(b: bool)

  function LiteralText(l: Literal): string {
    match l
    case Number(d) => d
    case Text(s) => "\"" + s + "\""
    case Flag(b) => if b then "true" else "false"
  }

  /** `validation: (rule) => rule.min(lo).max(hi)`. */
  datatype Bounds = Bounds(lo: nat, hi: nat)

  function NatText(n: nat): string
    decreases n
  {
    var d := ["0", "1", "2", "3", "4", "5", "6", "7", "8", "9"][n % 10];
    if n < 10 then d else NatText(n / 10) + d
  }

  /** One `defineField({...})` entry. */
  datatype SchemaField = SchemaField(
    name: string,
    title: string,
    ftype: string,
    description: Option<string>,
    initialValue: Option<Literal>,
    validation: Option<Bounds>,
    group: Group)

  datatype GroupDecl = GroupDecl(group: Group, title: string, isDefault: bool)

  /** The three groups every generated schema declares; `content` is selected by default. */
  const StandardGroups: seq<GroupDecl> :=
    [GroupDecl(Content, "Content", true), GroupDecl(Settings, "Settings", false), GroupDecl(Style, "Style", false)]

  /** The preview subtitle: a fixed string, or `Intensity: ${intensity || 5}`. */
  datatype Subtitle = FixedSubtitle(text: string) | IntensityOrFive

  /** `preview`: the selected `title`, falling back to `fallbackTitle` when empty. */
  datatype Preview = Preview(fallbackTitle: string, subtitle: Subtitle, media: string)

  datatype Schema = Schema(
    name: string,
    title: string,
    icon: string,
    groups: seq<GroupDecl>,
    fields: seq<SchemaField>,
    preview: Preview)

  function FieldNames(fields: seq<SchemaField>): (names: seq<string>)
    ensures |names| == |fields|
    ensures forall i :: 0 <= i < |fields| ==> names[i] == fields[i].name
  {
    seq(|fields|, i requires 0 <= i < |fields| => fields[i].name)
  }

  /** A prop passed to the wrapped component: `p={stegaClean(p)}` or `p={stegaClean(p) || fallback}`. */
  datatype ForwardedProp = Cleaned(name: string) | CleanedOr(name: string, fallback: string)

  /**
   * The names of the forwarded props. It mirrors `FieldNames` over a
   * different record type; the two records share no common type to
   * project the name from.
   */
  function ForwardedNames(fwd: seq<ForwardedProp>): (names: seq<string>)
    ensures |names| == |fwd|
    ensures forall i :: 0 <= i < |fwd| ==> names[i] == fwd[i].name
  {
    seq(|fwd|, i requires 0 <= i < |fwd| => fwd[i].name)
  }

  /**
   * A block wrapper: a component named `componentName` that declares
   * `params`, renders a section container from `colorVariant` and
   * `padding`, and mounts `coreName` (imported from `coreImport`) with the
   * forwarded props and a fixed class name.
   */
  datatype BlockComponent = BlockComponent(
    componentName: string,
    coreName: string,
    coreImport: string,
    typeName: string,
    params: seq<string>,
    forwarded: seq<ForwardedProp>,
    coreClassName: string,
    importsCn: bool,
    titleOverlay: bool)

  // Repository layout, relative to the working directory.

  function SchemaFilePath(kebab: string): string {
    "sanity/schemas/blocks/aceternity/" + kebab + ".ts"
  }

  function BlockFilePath(kebab: string): string {
    "components/blocks/aceternity/" + kebab + "-block.tsx"
  }

  function CoreFilePath(category: string, kebab: string): string {
    "components/aceternity/" + category + "/" + kebab + ".tsx"
  }

  /** The schema, block and core paths of a component never coincide. */
  lemma ArtifactPathsDistinct(kebab: string, category: string)
    ensures SchemaFilePath(kebab) != BlockFilePath(kebab)
    ensures SchemaFilePath(kebab) != CoreFilePath(category, kebab)
    ensures BlockFilePath(kebab) != CoreFilePath(category, kebab)
  {
    assert SchemaFilePath(kebab)[0] == 's';
    assert BlockFilePath(kebab)[0] == 'c' && CoreFilePath(category, kebab)[0] == 'c';
    assert BlockFilePath(kebab)[11] == 'b' && CoreFilePath(category, kebab)[11] == 'a';
  }

  // Rendering. Each artifact is rendered in the layout of the generators'
  // templates; the fixed stretches of template text are named constants.

  const FieldOpen := "    defineField({\n      name: \""
  const FieldTitle := "\",\n      title: \""
  const FieldType := "\",\n      type: \""
  const FieldDescription := "\n      description: \""
  const FieldInitialValue := "\n      initialValue: "
  const FieldValidationMin := "\n      validation: (rule) => rule.min("
  const FieldGroup := "\n      group: \""
  const FieldClose := "\",\n    }),\n"

  function RenderField(f: SchemaField): string {
    FieldOpen + f.name + FieldTitle + f.title + FieldType + f.ftype + "\","
    + (match f.description case Some(d) => FieldDescription + d + "\"," case None => "")
    + (match f.initialValue case Some(v) => FieldInitialValue + LiteralText(v) + "," case None => "")
    + (match f.validation
       case Some(b) => FieldValidationMin + NatText(b.lo) + ").max(" + NatText(b.hi) + "),"
       case None => "")
    + FieldGroup + GroupName(f.group) + FieldClose
  }

  function RenderFields(fields: seq<SchemaField>): string {
    if fields == [] then [] else RenderField(fields[0]) + RenderFields(fields[1..])
  }

  function RenderGroup(g: GroupDecl): string {
    "    { name: \"" + GroupName(g.group) + "\", title: \"" + g.title + "\""
    + (if g.isDefault then ", default: true },\n" else " },\n")
  }

  function RenderGroups(gs: seq<GroupDecl>): string {
    if gs == [] then [] else RenderGroup(gs[0]) + RenderGroups(gs[1..])
  }

  const PreviewSelect := "  preview: {\n    select: {\n      title: \"title\",\n"
  const PreviewSelectIntensity := "      intensity: \"intensity\",\n"
  const PreviewPrepare := "    },\n    prepare({ title"
  const PreviewReturn := " }) {\n      return {\n        title: title || \""
  const PreviewIntensitySubtitle := "`Intensity: ${intensity || 5}`"
  const PreviewClose := ",\n      };\n    },\n  },\n"

  function RenderPreview(p: Preview): string {
    var intensity := p.subtitle.IntensityOrFive?;
    PreviewSelect
    + (if intensity then PreviewSelectIntensity else "")
    + PreviewPrepare + (if intensity then ", intensity" else "")
    + PreviewReturn + p.fallbackTitle + "\",\n        subtitle: "
    + (match p.subtitle
       case FixedSubtitle(t) => "\"" + t + "\""
       case IntensityOrFive => PreviewIntensitySubtitle)
    + ",\n        media: " + p.media + PreviewClose
  }

  const SchemaImports := "import { defineField, defineType } from \"sanity\";\nimport { "
  const SchemaDefine := " } from \"lucide-react\";\n\nexport default defineType({\n  name: \""
  const SchemaObjectType := "\",\n  type: \"object\",\n  icon: "
  const SchemaFieldsOpen := "  ],\n  fields: [\n"

  function RenderSchema(s: Schema): string {
    SchemaImports + s.icon + SchemaDefine + s.name + "\",\n  title: \"" + s.title
    + SchemaObjectType + s.icon + ",\n  groups: [\n"
    + RenderGroups(s.groups)
    + SchemaFieldsOpen
    + RenderFields(s.fields)
    + "  ],\n"
    + RenderPreview(s.preview)
    + "});\n"
  }

  function RenderForwarded(f: ForwardedProp): string {
    match f
    case Cleaned(n) => "          " + n + "={stegaClean(" + n + ")}\n"
    case CleanedOr(n, d) => "          " + n + "={stegaClean(" + n + ") || " + d + "}\n"
  }

  function RenderParams(ps: seq<string>): string {
    if ps == [] then [] else "  " + ps[0] + ",\n" + RenderParams(ps[1..])
  }

  function RenderForwardedList(fs: seq<ForwardedProp>): string {
    if fs == [] then [] else RenderForwarded(fs[0]) + RenderForwardedList(fs[1..])
  }

  const BlockHead := "\"use client\";\n\nimport { "
  const BlockTypesImport := "\";\nimport { "
  const BlockStegaImport := " } from \"@/sanity.types\";\nimport { stegaClean } from \"@sanity/client/stega\";\n"
  const BlockCnImport := "import { cn } from \"@/lib/utils\";\n"
  const BlockContainerImport := "import SectionContainer from \"@/components/ui/section-container\";\n\nexport default function "
  const BlockContainerOpen := ") {\n  return (\n    <SectionContainer color={colorVariant} padding={padding}>\n      <div className=\"relative\">\n        <"
  const BlockTitleOverlay :=
    "        {title && (\n          <div className=\"relative z-10\">\n            <h2 className=\"text-4xl font-bold\">{title}</h2>\n          </div>\n        )}\n"
  const BlockClose := "      </div>\n    </SectionContainer>\n  );\n}\n"

  function RenderBlock(b: BlockComponent): string {
    BlockHead + b.coreName + " } from \"" + b.coreImport + BlockTypesImport + b.typeName + BlockStegaImport
    + (if b.importsCn then BlockCnImport else "")
    + BlockContainerImport + b.componentName + "({\n"
    + RenderParams(b.params)
    + "}: " + b.typeName + BlockContainerOpen + b.coreName + "\n"
    + RenderForwardedList(b.forwarded)
    + "          className=\"" + b.coreClassName + "\"\n        />\n"
    + (if b.titleOverlay then BlockTitleOverlay else "")
    + BlockClose
  }

  /**
   * A file's content. A generated schema or block is kept as the record the
   * generator built; its text is what the renderer produces from it.
   */
  datatype File = Source(text: string) | SchemaFile(schema: Schema) | BlockFile(block: BlockComponent)

  /** The text a reader of the file sees. */
  function Contents(f: File): string {
    match f
    case Source(t) => t
    case SchemaFile(s) => RenderSchema(s)
    case BlockFile(b) => RenderBlock(b)
  }

  /** A path-to-content map standing for the working tree. */
  type FileSystem = map<string, File>
}
