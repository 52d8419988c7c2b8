/**
 * The component scaffolder: from a name, a display name, a description and
 * an icon it generates a fixed schema, a block wrapper and a placeholder
 * core component, and writes each of the three only where no file exists.
 */
module Scaffold {
  import opened Wrappers
  import opened Strings
  import opened Casing
  import opened Artifacts
  import AutoIntegrate

  datatype ScaffoldConfig = ScaffoldConfig(name: string, displayName: string, description: string, icon: string)

  const TitleField := SchemaField("title", "Internal Title", "string",
    Some("For organization only (not displayed on frontend)"), None, None, Content)

  const IntensityField := SchemaField("intensity", "Effect Intensity", "number",
    Some("Intensity of the effect (1-10)"), Some(Number("5")), Some(Bounds(1, 10)), Settings)

  const ColorVariantField := SchemaField("colorVariant", "Color Variant", "colorVariant",
    None, Some(Text("background")), None, Style)

  const PaddingField := SchemaField("padding", "Section Padding", "sectionPadding", None, None, None, Style)

  /** `generateSchema`: a fixed field list, with the intensity shown in the preview subtitle. */
  function GenerateSchema(cfg: ScaffoldConfig): Schema {
    Schema(
      "aceternity-" + ToKebabCase(cfg.name),
      cfg.displayName,
      cfg.icon,
      StandardGroups,
      [TitleField, IntensityField, ColorVariantField, PaddingField],
      Preview(cfg.displayName, IntensityOrFive, cfg.icon))
  }

  /**
   * The scaffolded schema has the same name as the one the integrator would
   * generate for the same component, exactly the fields `title`,
   * `intensity`, `colorVariant`, `padding`, an intensity starting at 5 and
   * bounded to 1..10, and structural field types spelled differently from
   * the integrator's.
   */
  lemma ScaffoldSchemaLayout(cfg: ScaffoldConfig, props: seq<string>)
    ensures var s := GenerateSchema(cfg);
      var integrated := AutoIntegrate.GenerateSmartSchema(
        AutoIntegrate.ComponentConfig(cfg.name, cfg.displayName, cfg.description, cfg.icon, "animations"), props);
      && s.name == integrated.name
      && s.groups == integrated.groups
      && FieldNames(s.fields) == ["title", "intensity", "colorVariant", "padding"]
      && s.fields[1].initialValue == Some(Number("5")) && s.fields[1].validation == Some(Bounds(1, 10))
      && s.fields[2].ftype == "colorVariant" && s.fields[3].ftype == "sectionPadding"
      && s.fields[2].ftype != AutoIntegrate.ColorVariantField.ftype
      && s.fields[3].ftype != AutoIntegrate.PaddingField.ftype
  {
    var s := GenerateSchema(cfg);
    assert FieldNames(s.fields) == ["title", "intensity", "colorVariant", "padding"];
  }

  /** `generateBlockComponent` of the scaffolder. */
  function GenerateBlockComponent(cfg: ScaffoldConfig): BlockComponent {
    var pascal := ToPascalCase(cfg.name);
    BlockComponent(
      pascal + "Block",
      pascal + "Core",
      "@/components/aceternity/animations/" + ToKebabCase(cfg.name),
      "Aceternity" + pascal,
      ["title", "intensity", "colorVariant", "padding"],
      [CleanedOr("intensity", "5")],
      "w-full h-full",
      true,
      true)
  }

  /**
   * The scaffolded block declares exactly the schema's fields, in order,
   * and forwards only `intensity`, falling back to 5 when it is falsy.
   */
  lemma ScaffoldBlockMatchesSchema(cfg: ScaffoldConfig)
    ensures var b := GenerateBlockComponent(cfg);
      && b.params == FieldNames(GenerateSchema(cfg).fields)
      && b.forwarded == [CleanedOr("intensity", "5")]
      && (forall n :: n in ForwardedNames(b.forwarded) ==> n in b.params && n != "colorVariant" && n != "padding")
      && b.coreImport == "@/components/aceternity/animations/" + ToKebabCase(cfg.name)
  {
    ScaffoldSchemaLayout(cfg, []);
    var b := GenerateBlockComponent(cfg);
    assert ForwardedNames(b.forwarded) == ["intensity"];
  }

  const PlaceholderHead := "\"use client\";\n\n// TODO: Add Aceternity "
  const PlaceholderSource :=
    " component code here\n// Source: https://ui.aceternity.com/components or https://pro.aceternity.com/components\n\nexport function "
  const PlaceholderBody := "Core() {\n  return (\n    <div>\n      <p>Placeholder for "
  const PlaceholderClose := " - Add Aceternity component code</p>\n    </div>\n  );\n}\n"

  /** The placeholder core component, exporting `<Pascal>Core`. */
  function CorePlaceholder(pascal: string): string {
    PlaceholderHead + pascal + PlaceholderSource + pascal + PlaceholderBody + pascal + PlaceholderClose
  }

  /** `toISOString().split("T")[0]`. */
  function DatePart(iso: string): string {
    Split(iso, 'T')[0]
  }

  /** A `toISOString()` result: `YYYY-MM-DDTHH:mm:ss.sssZ`. */
  predicate IsIsoTimestamp(iso: string) {
    && |iso| == 24
    && iso[10] == 'T'
    && (forall k :: 0 <= k < 10 ==> ('0' <= iso[k] <= '9' || iso[k] == '-'))
  }

  /** The documentation entry printed at the end; the date is the run's timestamp, passed in. */
  datatype ReadmeEntry = ReadmeEntry(
    displayName: string, schemaPath: string, blockPath: string, corePath: string,
    description: string, added: string)

  function GenerateReadmeEntry(cfg: ScaffoldConfig, iso: string): ReadmeEntry {
    var kebab := ToKebabCase(cfg.name);
    ReadmeEntry(cfg.displayName, SchemaFilePath(kebab), BlockFilePath(kebab), CoreFilePath("animations", kebab),
      cfg.description, DatePart(iso))
  }

  /**
   * The entry names the three paths the scaffolder writes, and its date is
   * the `YYYY-MM-DD` prefix of the timestamp.
   */
  lemma ReadmeEntryDate(cfg: ScaffoldConfig, iso: string)
    requires IsIsoTimestamp(iso)
    ensures GenerateReadmeEntry(cfg, iso).added == iso[..10]
    ensures |GenerateReadmeEntry(cfg, iso).added| == 10
  {
    SplitHead(iso, 'T');
  }

  /** What happened at one path. */
  datatype WriteStatus =
    | Created        // absent, written with the generator's output
    | ExistsWarned   // present, left alone with a warning
    | ExistsSilent   // present, left alone without a message

  /** Check-then-write: a file is written only where none exists. */
  function WriteIfAbsent(files: FileSystem, path: string, content: File): (files': FileSystem)
    ensures files'.Keys == files.Keys + {path}
    ensures path in files ==> files' == files
    ensures path !in files ==> files'[path] == content
    ensures forall p :: p in files ==> files'[p] == files[p]
  {
    if path in files then files else files[path := content]
  }

  /** The file system after a scaffold run. */
  function ScaffoldFiles(cfg: ScaffoldConfig, files: FileSystem): FileSystem {
    var kebab := ToKebabCase(cfg.name);
    var f1 := WriteIfAbsent(files, SchemaFilePath(kebab), SchemaFile(GenerateSchema(cfg)));
    var f2 := WriteIfAbsent(f1, BlockFilePath(kebab), BlockFile(GenerateBlockComponent(cfg)));
    WriteIfAbsent(f2, CoreFilePath("animations", kebab), Source(CorePlaceholder(ToPascalCase(cfg.name))))
  }

  /**
   * No existing file is ever changed; afterwards the three paths exist; a
   * path that was absent holds the generator's output.
   */
  lemma ScaffoldNeverClobbers(cfg: ScaffoldConfig, files: FileSystem)
    ensures var kebab := ToKebabCase(cfg.name);
      var files' := ScaffoldFiles(cfg, files);
      && files'.Keys == files.Keys + {SchemaFilePath(kebab), BlockFilePath(kebab), CoreFilePath("animations", kebab)}
      && (forall p :: p in files ==> files'[p] == files[p])
      && (SchemaFilePath(kebab) !in files ==> files'[SchemaFilePath(kebab)] == SchemaFile(GenerateSchema(cfg)))
      && (BlockFilePath(kebab) !in files ==> files'[BlockFilePath(kebab)] == BlockFile(GenerateBlockComponent(cfg)))
      && (CoreFilePath("animations", kebab) !in files ==>
            files'[CoreFilePath("animations", kebab)] == Source(CorePlaceholder(ToPascalCase(cfg.name))))
  {
    ArtifactPathsDistinct(ToKebabCase(cfg.name), "animations");
  }

  /** Running the scaffolder a second time changes nothing. */
  lemma ScaffoldIdempotent(cfg: ScaffoldConfig, files: FileSystem)
    ensures ScaffoldFiles(cfg, ScaffoldFiles(cfg, files)) == ScaffoldFiles(cfg, files)
  {
    var files' := ScaffoldFiles(cfg, files);
    ScaffoldNeverClobbers(cfg, files);
  }

  function StatusOf(files: FileSystem, path: string, silent: bool): WriteStatus {
    if path !in files then Created else if silent then ExistsSilent else ExistsWarned
  }

  /**
   * `scaffoldComponent`: the schema, then the block, then the core
   * placeholder, each written only when absent (an existing schema or
   * block gets a warning, an existing core does not); then the README entry.
   */
  method ScaffoldComponent(cfg: ScaffoldConfig, iso: string, files: FileSystem)
    returns (schema: WriteStatus, block: WriteStatus, core: WriteStatus, entry: ReadmeEntry, files': FileSystem)
    ensures files' == ScaffoldFiles(cfg, files)
    ensures var kebab := ToKebabCase(cfg.name);
      && schema == StatusOf(files, SchemaFilePath(kebab), false)
      && block == StatusOf(files, BlockFilePath(kebab), false)
      && core == StatusOf(files, CoreFilePath("animations", kebab), true)
    ensures entry == GenerateReadmeEntry(cfg, iso)
  {
    var kebab := ToKebabCase(cfg.name);
    var pascal := ToPascalCase(cfg.name);
    files' := files;

    var schemaPath := SchemaFilePath(kebab);
    if schemaPath in files' {
      schema := ExistsWarned;
    } else {
      files' := files'[schemaPath := SchemaFile(GenerateSchema(cfg))];
      schema := Created;
    }

    var blockPath := BlockFilePath(kebab);
    if blockPath in files' {
      block := ExistsWarned;
    } else {
      files' := files'[blockPath := BlockFile(GenerateBlockComponent(cfg))];
      block := Created;
    }

    var corePath := CoreFilePath("animations", kebab);
    if corePath !in files' {
      files' := files'[corePath := Source(CorePlaceholder(pascal))];
      core := Created;
    } else {
      core := ExistsSilent;
    }

    ArtifactPathsDistinct(kebab, "animations");
    entry := GenerateReadmeEntry(cfg, iso);
  }

  /** Command-line arguments: fewer than three is a usage error; the icon defaults to `Component`. */
  function ParseArgs(args: seq<string>): (cfg: Option<ScaffoldConfig>)
    ensures cfg.None? <==> |args| < 3
    ensures cfg.Some? ==> cfg.value.name == args[0] && cfg.value.displayName == args[1] && cfg.value.description == args[2]
    ensures cfg.Some? ==> cfg.value.icon == (if |args| > 3 && args[3] != "" then args[3] else "Component")
  {
    if |args| < 3 then None
    else Some(ScaffoldConfig(args[0], args[1], args[2], ArgOr(args, 3, "Component")))
  }

  /** The whole command: a usage error exits with 1 and writes nothing. */
  method ScaffoldCommand(args: seq<string>, iso: string, files: FileSystem)
    returns (exitCode: nat, files': FileSystem)
    ensures |args| < 3 ==> exitCode == 1 && files' == files
    ensures |args| >= 3 ==> exitCode == 0 && files' == ScaffoldFiles(ParseArgs(args).value, files)
  {
    var cfg := ParseArgs(args);
    if cfg.None? {
      return 1, files;
    }
    var schema, block, core, entry;
    schema, block, core, entry, files' := ScaffoldComponent(cfg.value, iso, files);
    exitCode := 0;
  }
}
