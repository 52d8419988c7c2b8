/**
 * Field classification for the component-integration generator: each
 * prop name is looked up, by exact name, in a fixed table of CMS field
 * descriptions; names not in the table become plain string settings.
 */
module FieldClassifier {
  import opened Wrappers
  import opened Strings
  import opened Casing
  import opened Artifacts

  /** An entry of the lookup table: field type, group, optional initial value and options. */
  datatype FieldInfo = FieldInfo(ftype: string, group: Group, initialValue: Option<Literal>, options: seq<string>)

  /** `fieldMap`. */
  const FieldMap: map<string, FieldInfo> := map[
    "title" := FieldInfo("string", Content, None, []),
    "heading" := FieldInfo("string", Content, None, []),
    "subtitle" := FieldInfo("string", Content, None, []),
    "description" := FieldInfo("text", Content, None, []),
    "text" := FieldInfo("text", Content, None, []),
    "intensity" := FieldInfo("number", Settings, Some(Number("5")), []),
    "speed" := FieldInfo("number", Settings, Some(Number("1")), []),
    "duration" := FieldInfo("number", Settings, Some(Number("1000")), []),
    "count" := FieldInfo("number", Settings, Some(Number("100")), []),
    "particleDensity" := FieldInfo("number", Settings, Some(Number("100")), []),
    "particleCount" := FieldInfo("number", Settings, Some(Number("100")), []),
    "minSize" := FieldInfo("number", Settings, Some(Number("0.4")), []),
    "maxSize" := FieldInfo("number", Settings, Some(Number("1")), []),
    "color" := FieldInfo("string", Style, Some(Text("#00d71c")), []),
    "particleColor" := FieldInfo("string", Style, Some(Text("#00d71c")), []),
    "backgroundColor" := FieldInfo("string", Style, None, ["transparent", "black", "white"]),
    "enabled" := FieldInfo("boolean", Settings, Some(Flag(true)), []),
    "autoPlay" := FieldInfo("boolean", Settings, Some(Flag(true)), []),
    "loop" := FieldInfo("boolean", Settings, Some(Flag(true)), []),
    "className" := FieldInfo("string", Style, None, [])
  ]

  /** `fieldMap[prop] || { type: "string", group: "settings" }`. */
  function Classify(prop: string): FieldInfo {
    if prop in FieldMap then FieldMap[prop] else FieldInfo("string", Settings, None, [])
  }

  /** `s.replace(/([A-Z])/g, " $1")`. */
  function SpaceBeforeCapitals(s: string): string {
    if s == [] then []
    else (if IsUpper(s[0]) then [' ', s[0]] else [s[0]]) + SpaceBeforeCapitals(s[1..])
  }

  /** The field title: the first character upper-cased, a space before every later capital. */
  function Label(prop: string): string {
    if prop == [] then [] else [ToUpper(prop[0])] + SpaceBeforeCapitals(prop[1..])
  }

  function RemoveSpaces(s: string): string {
    if s == [] then [] else (if s[0] == ' ' then [] else [s[0]]) + RemoveSpaces(s[1..])
  }

  function CountCapitals(s: string): nat {
    if s == [] then 0 else (if IsUpper(s[0]) then 1 else 0) + CountCapitals(s[1..])
  }

  lemma {:induction false} SpaceBeforeCapitalsShape(s: string)
    ensures |SpaceBeforeCapitals(s)| == |s| + CountCapitals(s)
    ensures ' ' !in s ==> RemoveSpaces(SpaceBeforeCapitals(s)) == s
    ensures ' ' !in s ==> forall i :: 0 <= i < |SpaceBeforeCapitals(s)| && SpaceBeforeCapitals(s)[i] == ' ' ==>
              i + 1 < |SpaceBeforeCapitals(s)| && IsUpper(SpaceBeforeCapitals(s)[i + 1])
  {
    if s != [] {
      SpaceBeforeCapitalsShape(s[1..]);
      var head := if IsUpper(s[0]) then [' ', s[0]] else [s[0]];
      var t := SpaceBeforeCapitals(s[1..]);
      assert SpaceBeforeCapitals(s) == head + t;
      if ' ' !in s {
        assert RemoveSpaces(head + t) == RemoveSpaces(head) + RemoveSpaces(t) by {
          RemoveSpacesAppend(head, t);
        }
        forall i | 0 <= i < |head + t| && (head + t)[i] == ' '
          ensures i + 1 < |head + t| && IsUpper((head + t)[i + 1])
        {
          if i >= |head| {
            assert t[i - |head|] == ' ';
          }
        }
      }
    }
  }

  lemma {:induction false} RemoveSpacesAppend(a: string, b: string)
    ensures RemoveSpaces(a + b) == RemoveSpaces(a) + RemoveSpaces(b)
  {
    if a == [] {
      assert a + b == b;
    } else {
      assert (a + b)[1..] == a[1..] + b;
      RemoveSpacesAppend(a[1..], b);
    }
  }

  /**
   * The label of a name without spaces is that name capitalized, with one
   * space inserted before each later capital: removing the spaces gives the
   * capitalized name back, every space stands before a capital, and the
   * label is longer by the number of later capitals, and it starts with the
   * capitalized first letter.
   */
  lemma LabelInverse(prop: string)
    requires ' ' !in prop
    ensures RemoveSpaces(Label(prop)) == Capitalize(prop)
    ensures prop != [] ==> Label(prop)[0] == ToUpper(prop[0])
    ensures prop != [] ==> |Label(prop)| == |prop| + CountCapitals(prop[1..])
    ensures forall i :: 0 <= i < |Label(prop)| && Label(prop)[i] == ' ' ==>
              i + 1 < |Label(prop)| && IsUpper(Label(prop)[i + 1])
  {
    if prop != [] {
      var t := SpaceBeforeCapitals(prop[1..]);
      assert ' ' !in prop[1..];
      SpaceBeforeCapitalsShape(prop[1..]);
      assert ToUpper(prop[0]) != ' ';
      RemoveSpacesAppend([ToUpper(prop[0])], t);
      assert Label(prop) == [ToUpper(prop[0])] + t;
    }
  }

  lemma LabelExample()
    ensures Label("minSize") == "Min Size"
  {
    assert SpaceBeforeCapitals("ize") == "ize";
    assert SpaceBeforeCapitals("Size") == " Size";
    assert SpaceBeforeCapitals("inSize") == "in Size";
  }

  lemma {:induction false} SpaceBeforeCapitalsAppend(a: string, b: string)
    ensures SpaceBeforeCapitals(a + b) == SpaceBeforeCapitals(a) + SpaceBeforeCapitals(b)
  {
    if a == [] {
      assert a + b == b;
    } else {
      assert (a + b)[1..] == a[1..] + b;
      SpaceBeforeCapitalsAppend(a[1..], b);
    }
  }

  /** One `defineField` per prop: its name, its label, and the looked-up type, group and initial value. */
  function GeneratedField(prop: string): SchemaField {
    var info := Classify(prop);
    SchemaField(prop, Label(prop), info.ftype, None, info.initialValue, None, info.group)
  }

  /**
   * Classification depends only on the exact name: a name outside the table
   * becomes a string field in the settings group with no initial value; a
   * name in the table takes its type and group; an initial value is emitted
   * exactly when the table defines one; the table's `options` are never
   * emitted (a generated field has no place for them).
   */
  lemma GeneratedFieldSpec(prop: string)
    ensures var f := GeneratedField(prop);
      && f.name == prop && f.title == Label(prop)
      && (prop !in FieldMap ==> f.ftype == "string" && f.group == Settings && f.initialValue == None)
      && (prop in FieldMap ==> f.ftype == FieldMap[prop].ftype && f.group == FieldMap[prop].group)
      && (f.initialValue.Some? <==> prop in FieldMap && FieldMap[prop].initialValue.Some?)
      && f.description == None && f.validation == None
  {
  }

  /** A number field from the table, with its default as written there. */
  lemma ClassifyMinSize()
    ensures GeneratedField("minSize") == SchemaField("minSize", "Min Size", "number", None, Some(Number("0.4")), None, Settings)
  {
    LabelExample();
  }

  /** `backgroundColor` is in the table with options, which are not emitted. */
  lemma ClassifyBackgroundColor()
    ensures GeneratedField("backgroundColor").ftype == "string"
    ensures GeneratedField("backgroundColor").group == Style
    ensures GeneratedField("backgroundColor").initialValue == None
  {
  }
}
