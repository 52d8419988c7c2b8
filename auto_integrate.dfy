/**
 * The component-integration generator: from a component's source it
 * derives the prop list, synthesizes a CMS schema and a block wrapper,
 * and writes both files.
 */
module AutoIntegrate {
  import opened Wrappers
  import opened Strings
  import opened Casing
  import opened PropExtraction
  import opened Artifacts
  import opened FieldClassifier

  /** Identity of one integration run, from the command line. */
  datatype ComponentConfig = ComponentConfig(
    name: string, displayName: string, description: string, icon: string, category: string)

  /** Props that become schema fields and block parameters: all but `children` and `className`. */
  function SchemaProps(props: seq<string>): seq<string> {
    Remove(props, {"children", "className"})
  }

  /** Props forwarded to the wrapped component: the schema props without `colorVariant` and `padding`. */
  function ForwardedProps(props: seq<string>): seq<string> {
    Remove(props, {"children", "className", "colorVariant", "padding"})
  }

  const TitleField := SchemaField("title", "Internal Title", "string",
    Some("For organization only (not displayed)"), None, None, Content)

  const ColorVariantField := SchemaField("colorVariant", "Background Color", "color-variant",
    None, Some(Text("background")), None, Style)

  const PaddingField := SchemaField("padding", "Section Padding", "section-padding", None, None, None, Style)

  function GeneratedFields(props: seq<string>): (fields: seq<SchemaField>)
    ensures |fields| == |props|
    ensures forall i :: 0 <= i < |props| ==> fields[i] == GeneratedField(props[i])
  {
    seq(|props|, i requires 0 <= i < |props| => GeneratedField(props[i]))
  }

  /** The schema's field list: `title`, the generated fields, `colorVariant`, `padding`. */
  function SmartFields(props: seq<string>): seq<SchemaField> {
    [TitleField] + GeneratedFields(SchemaProps(props)) + [ColorVariantField, PaddingField]
  }

  lemma FieldNamesAppend(a: seq<SchemaField>, b: seq<SchemaField>)
    ensures FieldNames(a + b) == FieldNames(a) + FieldNames(b)
  {
  }

  lemma SmartFieldsLayout(props: seq<string>)
    ensures FieldNames(SmartFields(props)) == ["title"] + SchemaProps(props) + ["colorVariant", "padding"]
    ensures |SmartFields(props)| == |SchemaProps(props)| + 3
    ensures forall i :: 0 <= i < |SchemaProps(props)| ==> SmartFields(props)[i + 1] == GeneratedField(SchemaProps(props)[i])
    ensures SmartFields(props)[|SmartFields(props)| - 2] == ColorVariantField
    ensures SmartFields(props)[|SmartFields(props)| - 1] == PaddingField
  {
    var gen := GeneratedFields(SchemaProps(props));
    assert FieldNames(gen) == SchemaProps(props);
    FieldNamesAppend([TitleField], gen);
    FieldNamesAppend([TitleField] + gen, [ColorVariantField, PaddingField]);
  }

  /** `generateSmartSchema`. */
  function GenerateSmartSchema(cfg: ComponentConfig, props: seq<string>): Schema {
    Schema(
      "aceternity-" + ToKebabCase(cfg.name),
      cfg.displayName,
      cfg.icon,
      StandardGroups,
      SmartFields(props),
      Preview(cfg.displayName, FixedSubtitle(cfg.description), cfg.icon))
  }

  /**
   * Schema layout: named `aceternity-<kebab>`, with the groups content
   * (default), settings and style; the fields are `title`, then one field
   * per prop in extraction order without `children` and `className`, then
   * `colorVariant` of type `color-variant`, then `padding` of type
   * `section-padding`.
   */
  lemma SmartSchemaLayout(cfg: ComponentConfig, props: seq<string>)
    ensures var s := GenerateSmartSchema(cfg, props);
      && s.name == "aceternity-" + ToKebabCase(cfg.name)
      && s.groups == StandardGroups
      && FieldNames(s.fields) == ["title"] + SchemaProps(props) + ["colorVariant", "padding"]
      && (forall i :: 0 <= i < |SchemaProps(props)| ==> s.fields[i + 1] == GeneratedField(SchemaProps(props)[i]))
      && s.fields[|s.fields| - 2].ftype == "color-variant"
      && s.fields[|s.fields| - 1].ftype == "section-padding"
      && "children" !in FieldNames(s.fields) && "className" !in FieldNames(s.fields)
  {
    SmartFieldsLayout(props);
    RemoveElements(props, {"children", "className"});
  }

  /** `generateBlockComponent`. */
  function GenerateBlockComponent(cfg: ComponentConfig, props: seq<string>): BlockComponent {
    var pascal := ToPascalCase(cfg.name);
    var fwd := ForwardedProps(props);
    BlockComponent(
      pascal + "Block",
      pascal + "Core",
      // the core is always imported from the `animations` folder, whatever the category
      "@/components/aceternity/animations/" + ToKebabCase(cfg.name),
      "Aceternity" + pascal,
      ["colorVariant", "padding"] + SchemaProps(props),
      seq(|fwd|, i requires 0 <= i < |fwd| => Cleaned(fwd[i])),
      "w-full h-full",
      false,
      false)
  }

  /**
   * The block declares `colorVariant`, `padding`, then the schema props, so
   * its declared tail is exactly the generated field names of the schema.
   * It forwards, each through `stegaClean`, exactly the declared names other
   * than `colorVariant` and `padding`.
   */
  lemma BlockForwardsDeclared(cfg: ComponentConfig, props: seq<string>)
    ensures var b := GenerateBlockComponent(cfg, props);
      var fields := FieldNames(GenerateSmartSchema(cfg, props).fields);
      && b.params[..2] == ["colorVariant", "padding"]
      && b.params[2..] == fields[1..|fields| - 2]
      && (forall f :: f in b.forwarded ==> f.Cleaned?)
      && (forall n :: n in ForwardedNames(b.forwarded) <==> n in b.params && n != "colorVariant" && n != "padding")
  {
    var b := GenerateBlockComponent(cfg, props);
    SmartFieldsLayout(props);
    RemoveElements(props, {"children", "className"});
    RemoveElements(props, {"children", "className", "colorVariant", "padding"});
    var fwd := ForwardedProps(props);
    assert ForwardedNames(b.forwarded) == fwd;
  }

  /**
   * A component with its own `colorVariant` prop gets it declared twice:
   * once as the fixed container parameter and once as a schema prop.
   */
  lemma ColorVariantDeclaredTwice(cfg: ComponentConfig, props: seq<string>)
    requires "colorVariant" in props
    ensures multiset(GenerateBlockComponent(cfg, props).params)["colorVariant"] >= 2
  {
    RemoveElements(props, {"children", "className"});
    var kept := SchemaProps(props);
    assert multiset(kept)["colorVariant"] >= 1;
    assert multiset(["colorVariant", "padding"] + kept) == multiset(["colorVariant", "padding"]) + multiset(kept);
  }

  /** The generated block does not depend on the category the component was found in. */
  lemma BlockIgnoresCategory(cfg: ComponentConfig, props: seq<string>, category: string)
    ensures GenerateBlockComponent(cfg.(category := category), props) == GenerateBlockComponent(cfg, props)
    ensures GenerateBlockComponent(cfg, props).coreImport == "@/components/aceternity/animations/" + ToKebabCase(cfg.name)
  {
  }

  /** The manual follow-up steps printed at the end. */
  datatype Checklist = Checklist(schemaImport: string, blockImport: string, blockRegistration: string, pageBlockType: string)

  function RegistrationChecklist(cfg: ComponentConfig): (c: Checklist)
    ensures c.pageBlockType == GenerateSmartSchema(cfg, []).name
  {
    var pascal := ToPascalCase(cfg.name);
    var kebab := ToKebabCase(cfg.name);
    Checklist(
      "import aceternity" + pascal + " from \"./blocks/aceternity/" + kebab + "\";",
      "import " + pascal + "Block from \"./aceternity/" + kebab + "-block\";",
      "\"aceternity-" + kebab + "\": " + pascal + "Block",
      "aceternity-" + kebab)
  }

  datatype IntegrateResult =
    | ComponentMissing(expectedPath: string)
    | Integrated(props: seq<string>, schemaPath: string, blockPath: string, checklist: Checklist)

  function ExitCode(r: IntegrateResult): nat {
    if r.ComponentMissing? then 1 else 0
  }

  /**
   * `autoIntegrate`: a missing component source aborts before anything is
   * written; otherwise the schema and the block are written, replacing any
   * file already at those paths, and nothing else changes.
   */
  method AutoIntegrate(cfg: ComponentConfig, files: FileSystem)
    returns (result: IntegrateResult, files': FileSystem)
    ensures var source := CoreFilePath(cfg.category, ToKebabCase(cfg.name));
      source !in files ==> result == ComponentMissing(source) && files' == files
    ensures var source := CoreFilePath(cfg.category, ToKebabCase(cfg.name));
      var kebab := ToKebabCase(cfg.name);
      source in files ==>
        var props := ExtractedProps(Contents(files[source]));
        && result == Integrated(props, SchemaFilePath(kebab), BlockFilePath(kebab), RegistrationChecklist(cfg))
        && files' == files[SchemaFilePath(kebab) := SchemaFile(GenerateSmartSchema(cfg, props))]
                          [BlockFilePath(kebab) := BlockFile(GenerateBlockComponent(cfg, props))]
  {
    var kebab := ToKebabCase(cfg.name);
    var componentPath := CoreFilePath(cfg.category, kebab);
    files' := files;
    if componentPath !in files {
      result := ComponentMissing(componentPath);
      return;
    }
    var props := AnalyzeComponentProps(Contents(files[componentPath]));
    var schemaPath := SchemaFilePath(kebab);
    files' := files'[schemaPath := SchemaFile(GenerateSmartSchema(cfg, props))];
    var blockPath := BlockFilePath(kebab);
    files' := files'[blockPath := BlockFile(GenerateBlockComponent(cfg, props))];
    result := Integrated(props, schemaPath, blockPath, RegistrationChecklist(cfg));
  }

  /**
   * Writing the two artifacts leaves both in place whether or not they
   * existed before (there is no existence check), and every other file as
   * it was.
   */
  lemma IntegrationOverwrites(files: FileSystem, kebab: string, category: string, schema: File, block: File)
    ensures var files' := files[SchemaFilePath(kebab) := schema][BlockFilePath(kebab) := block];
      && files'[SchemaFilePath(kebab)] == schema
      && files'[BlockFilePath(kebab)] == block
      && files'.Keys == files.Keys + {SchemaFilePath(kebab), BlockFilePath(kebab)}
      && (forall p :: p in files && p != SchemaFilePath(kebab) && p != BlockFilePath(kebab) ==> files'[p] == files[p])
      && (CoreFilePath(category, kebab) in files ==> files'[CoreFilePath(category, kebab)] == files[CoreFilePath(category, kebab)])
  {
    ArtifactPathsDistinct(kebab, category);
  }

  /** Command-line arguments: fewer than three is a usage error; icon and category have defaults. */
  function ParseArgs(args: seq<string>): (cfg: Option<ComponentConfig>)
    ensures cfg.None? <==> |args| < 3
    ensures cfg.Some? ==> cfg.value.name == args[0] && cfg.value.displayName == args[1] && cfg.value.description == args[2]
    ensures cfg.Some? ==> cfg.value.icon == (if |args| > 3 && args[3] != "" then args[3] else "Component")
    ensures cfg.Some? ==> cfg.value.category == (if |args| > 4 && args[4] != "" then args[4] else "animations")
  {
    if |args| < 3 then None
    else Some(ComponentConfig(args[0], args[1], args[2], ArgOr(args, 3, "Component"), ArgOr(args, 4, "animations")))
  }

  /**
   * The whole command: a usage error or a missing source exits with 1 and
   * writes nothing; otherwise it exits with 0 having written the schema and
   * the block generated from the source's props.
   */
  method IntegrateCommand(args: seq<string>, files: FileSystem)
    returns (exitCode: nat, files': FileSystem)
    ensures |args| < 3 ==> exitCode == 1 && files' == files
    ensures exitCode == 1 ==> files' == files
    ensures |args| >= 3 ==>
      var cfg := ParseArgs(args).value;
      (exitCode == 1 <==> CoreFilePath(cfg.category, ToKebabCase(cfg.name)) !in files)
    ensures |args| >= 3 && exitCode == 0 ==>
      var cfg := ParseArgs(args).value;
      var kebab := ToKebabCase(cfg.name);
      var source := CoreFilePath(cfg.category, kebab);
      && source in files
      && var props := ExtractedProps(Contents(files[source]));
      files' == files[SchemaFilePath(kebab) := SchemaFile(GenerateSmartSchema(cfg, props))]
                     [BlockFilePath(kebab) := BlockFile(GenerateBlockComponent(cfg, props))]
  {
    var cfg := ParseArgs(args);
    if cfg.None? {
      return 1, files;
    }
    var result;
    result, files' := AutoIntegrate(cfg.value, files);
    exitCode := ExitCode(result);
  }

  /** The props declared by the sparkles component, in extraction order. */
  const SparklesProps := ["particleDensity", "minSize", "maxSize", "children", "className"]

  /** The sparkles component keeps and forwards `particleDensity`, `minSize` and `maxSize`. */
  lemma SparklesKept()
    ensures SchemaProps(SparklesProps) == ["particleDensity", "minSize", "maxSize"]
    ensures ForwardedProps(SparklesProps) == ["particleDensity", "minSize", "maxSize"]
  {
  }

  lemma SmartSchemaFields(cfg: ComponentConfig, props: seq<string>)
    ensures GenerateSmartSchema(cfg, props).fields == SmartFields(props)
  {
  }

  /**
   * A component that keeps the sparkles props (such as the sparkles
   * component itself, by `SparklesKept`) gets its three generated fields
   * between the fixed ones.
   */
  lemma SparklesSchema(cfg: ComponentConfig, props: seq<string>)
    requires SchemaProps(props) == ["particleDensity", "minSize", "maxSize"]
    ensures FieldNames(GenerateSmartSchema(cfg, props).fields)
         == ["title", "particleDensity", "minSize", "maxSize", "colorVariant", "padding"]
  {
    var names := FieldNames(GenerateSmartSchema(cfg, props).fields);
    assert names == FieldNames(SmartFields(props)) by {
      SmartSchemaFields(cfg, props);
    }
    assert names == ["title"] + SchemaProps(props) + ["colorVariant", "padding"] by {
      SmartFieldsLayout(props);
    }
  }

  /**
   * Its block declares the container parameters then the three props, and
   * forwards the three through `stegaClean`.
   */
  lemma SparklesBlock(cfg: ComponentConfig, props: seq<string>)
    requires SchemaProps(props) == ["particleDensity", "minSize", "maxSize"]
    requires ForwardedProps(props) == ["particleDensity", "minSize", "maxSize"]
    ensures GenerateBlockComponent(cfg, props).params == ["colorVariant", "padding", "particleDensity", "minSize", "maxSize"]
    ensures GenerateBlockComponent(cfg, props).forwarded
         == [Cleaned("particleDensity"), Cleaned("minSize"), Cleaned("maxSize")]
  {
  }
}
