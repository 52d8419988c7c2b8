# Aceternity component automation, modelled in Dafny

This project models the command-line scripts that bring animated
"Aceternity" React components into a Sanity CMS site:

- **the integrator** (`aceternity-auto-integrate.ts`): reads a copied component, extracts its prop
  names, and generates a Sanity schema and a block wrapper for it;
- **the scaffolder** (`aceternity-automation-sanity/scaffold-aceternity-component.ts`): writes a
  fixed schema, block and placeholder core component, but only where no file exists yet;
- **the fetcher** (`aceternity-fetch.ts`): resolves an API key, downloads a component, rewrites its
  imports and saves it;
- **the two page scripts** (`scripts/create-michael-version.ts`,
  `scripts/integrate-aceternity-michael.ts`): read `.env.local`, seed a homepage document, then
  swap selected blocks for animated components.

Modules, one per concern:

| file | module | contents |
|---|---|---|
| `wrappers.dfy` | `Wrappers` | `Option`, and JavaScript truthiness of an optional string |
| `strings.dfy` | `Strings` | JavaScript string built-ins used by the scripts (`\s`, `\w`, `trim`, `split`, ...) |
| `casing.dfy` | `Casing` | `toPascalCase`, `toKebabCase` |
| `prop_extraction.dfy` | `PropExtraction` | `analyzeComponentProps`: the interface scan, the destructuring scan, de-duplication |
| `field_classifier.dfy` | `FieldClassifier` | the prop-name → field-type table and field labels |
| `artifacts.dfy` | `Artifacts` | generated schema and block records, their text rendering, artifact paths, the file system |
| `auto_integrate.dfy` | `AutoIntegrate` | `generateSmartSchema`, `generateBlockComponent`, `autoIntegrate`, argument parsing |
| `scaffold.dfy` | `Scaffold` | the scaffolder's generators, its check-then-write sequence, the README entry |
| `import_rewrite.dfy` | `ImportRewrite` | the global `from '...'` import replacement used by the fetcher |
| `fetch.dfy` | `AceternityFetch` | API-key resolution, argument parsing, the overwrite guard, status dispatch, saving |
| `env_file.dfy` | `EnvFile` | the `.env.local` line grammar and the line-by-line dictionary fill |
| `michael_page.dfy` | `MichaelPage` | the seeded page and the block-replacement transform |

The file system is a map from relative paths to files. A generated schema or block is stored as
a record, and `Artifacts.Contents` renders it to text. The clock, the HTTP reply and the CMS
dataset are parameters.

Several messages, paths and type names in the scripts are written with escaped backticks outside
any template literal (for example `aceternity-fetch.ts:59`,
`aceternity-automation-sanity/scaffold-aceternity-component.ts:104`). The model reads them as the
interpolated strings they are evidently meant to be.

## Model

| member | source | states |
|---|---|---|
| Casing.PascalScan | aceternity-auto-integrate.ts:31-36 | the character-scan reference for Pascal casing never yields a `-` and is no longer than its input |
| Casing.PascalCaseIsScan | aceternity-auto-integrate.ts:31-36 | split on `-`, capitalise each word and join equals the one-pass scan that drops each `-` and upper-cases the next character; so the result holds no `-` |
| Casing.PascalScanAtWordStart | aceternity-auto-integrate.ts:31-36 | at a word start the scan equals the first word capitalised followed by the remaining words capitalised |
| Casing.PascalScanInsideWord | aceternity-auto-integrate.ts:31-36 | inside a word the scan keeps the rest of the word as is and capitalises the later words |
| Casing.ReplaceSpaceRunsClean | aceternity-auto-integrate.ts:39 | replacing each whitespace run by `-` leaves no whitespace, changes nothing in text without whitespace, and keeps text free of capitals |
| Casing.LowerStringFixed | aceternity-auto-integrate.ts:39 | lower-casing text that holds no capital changes nothing |
| Casing.KebabCaseIdempotent | aceternity-auto-integrate.ts:38-40 | the kebab form holds no whitespace, and kebab-casing it again changes nothing |
| Casing.KebabCaseOfKebabName | aceternity-auto-integrate.ts:38-40 | a lower-case name without whitespace is its own kebab form |
| PropExtraction.ScanPropTokens | aceternity-auto-integrate.ts:50-53 | the loop over `(\w+)[?]?\s*:` matches collects exactly the reference list of names |
| PropExtraction.Deduplicate | aceternity-auto-integrate.ts:64 | `[...new Set(found)]` keeps the first occurrence of each name, in order: no duplicates, and the same elements as the input |
| PropExtraction.AnalyzeComponentProps | aceternity-auto-integrate.ts:42-65 | the interface names followed by the destructured names, de-duplicated; a name is returned iff one of the two scans finds it; no match of either pattern gives `[]` |
| PropExtraction.FirstOccurrencesElements | aceternity-auto-integrate.ts:64 | de-duplication keeps exactly the elements of its input |
| PropExtraction.FirstOccurrencesDistinct | aceternity-auto-integrate.ts:64 | the de-duplicated list holds no value twice |
| PropExtraction.FirstOccurrencesOfDistinct | aceternity-auto-integrate.ts:64 | a list without duplicates comes back unchanged |
| PropExtraction.FirstOccurrencesAppend | aceternity-auto-integrate.ts:64 | de-duplicating `a + b` gives `a` de-duplicated, then the new values of `b` |
| PropExtraction.PropTokensAreWords | aceternity-auto-integrate.ts:50 | every name the interface scan yields is a non-empty run of word characters |
| PropExtraction.DestructureEntryShape | aceternity-auto-integrate.ts:60 | a destructured entry's name holds no `:` and has no surrounding whitespace; an entry without `:` gives its own trimmed text, so a default such as `a = 1` is kept as written |
| PropExtraction.DestructureEntryBeforeColon | aceternity-auto-integrate.ts:60 | an entry `a:b`, where `a` holds no `:`, gives the trimmed text `a` |
| FieldClassifier.SpaceBeforeCapitalsShape | aceternity-auto-integrate.ts:110 | inserting a space before each capital adds one character per capital, removing the spaces gives the input back, and every space precedes a capital |
| FieldClassifier.LabelInverse | aceternity-auto-integrate.ts:110 | the label of a space-free name, without its spaces, is the capitalised name; it starts with the capitalised first letter; each space stands before a capital; its length grows by the number of later capitals |
| FieldClassifier.LabelExample | aceternity-auto-integrate.ts:110 | `minSize` is labelled `Min Size` |
| FieldClassifier.GeneratedFieldSpec | aceternity-auto-integrate.ts:72-113 | a generated field has the prop's name and label; a name outside the table becomes a string field in the settings group with no initial value; a name in the table gets its type and group; an initial value is emitted iff the table defines one |
| FieldClassifier.ClassifyMinSize | aceternity-auto-integrate.ts:86 | `minSize` becomes a number field in the settings group with initial value `0.4` |
| FieldClassifier.ClassifyBackgroundColor | aceternity-auto-integrate.ts:92 | `backgroundColor` becomes a string field in the style group; its options are not emitted |
| Artifacts.ArtifactPathsDistinct | aceternity-auto-integrate.ts:214-266 | the schema, block and core component paths of one name are pairwise different |
| AutoIntegrate.GeneratedFields | aceternity-auto-integrate.ts:103-115 | one generated field per kept prop, in prop order |
| AutoIntegrate.SmartFieldsLayout | aceternity-auto-integrate.ts:103-152 | the schema fields are `title`, one field per kept prop in order, then `colorVariant` and `padding` |
| AutoIntegrate.SmartSchemaLayout | aceternity-auto-integrate.ts:67-167 | the schema is named `aceternity-<kebab>`, has the three standard groups, lists `title`, the props other than `children`/`className`, `colorVariant` and `padding`, and types the last two `color-variant` and `section-padding` |
| AutoIntegrate.SmartSchemaFields | aceternity-auto-integrate.ts:103-152 | the generated schema's fields are the field list above |
| AutoIntegrate.BlockForwardsDeclared | aceternity-auto-integrate.ts:169-203 | the block declares `colorVariant`, `padding`, then exactly the schema's prop fields; every forwarded prop goes through `stegaClean`; a name is forwarded iff it is declared and is not `colorVariant`/`padding` |
| AutoIntegrate.ColorVariantDeclaredTwice | aceternity-auto-integrate.ts:176 | a component with its own `colorVariant` prop gets that parameter declared twice |
| AutoIntegrate.BlockIgnoresCategory | aceternity-auto-integrate.ts:169-180 | the block imports its core from the `animations` folder whatever the category |
| AutoIntegrate.RegistrationChecklist | aceternity-auto-integrate.ts:278-287 | the page block type printed in the checklist is the generated schema's name |
| AutoIntegrate.AutoIntegrate | aceternity-auto-integrate.ts:205-271 | a missing component aborts with nothing written; otherwise the props are extracted from the source file and the schema and block are written at their paths, overwriting, with nothing else changed |
| AutoIntegrate.IntegrationOverwrites | aceternity-auto-integrate.ts:251-270 | after the two writes both artifacts are in place whether or not they existed; every other file, including the component source, is unchanged |
| AutoIntegrate.ParseArgs | aceternity-auto-integrate.ts:301-328 | fewer than three arguments is a usage error; name, display name and description are the first three; the icon is the fourth argument unless it is absent or empty, then `Component`; the category is the fifth unless absent or empty, then `animations` |
| AutoIntegrate.IntegrateCommand | aceternity-auto-integrate.ts:298-330 | exit code 1 with no write on a usage error or a missing source, and only then; on exit 0 the schema and the block generated from the source's props are written at their paths and nothing else changes |
| AutoIntegrate.SparklesKept | aceternity-auto-integrate.ts:103-104 | for the sparkles props, `children` and `className` are dropped from both the schema list and the forwarded list |
| AutoIntegrate.SparklesSchema | aceternity-auto-integrate.ts:103-152 | the sparkles schema lists `title`, `particleDensity`, `minSize`, `maxSize`, `colorVariant`, `padding` |
| AutoIntegrate.SparklesBlock | aceternity-auto-integrate.ts:176-195 | the sparkles block declares and forwards exactly those props |
| Scaffold.ScaffoldSchemaLayout | aceternity-automation-sanity/scaffold-aceternity-component.ts:30-98 | the scaffolded schema has the integrator's name and groups, the fields `title`, `intensity`, `colorVariant`, `padding`, an intensity starting at 5 bounded to 1..10, and structural types spelled differently from the integrator's |
| Scaffold.ScaffoldBlockMatchesSchema | aceternity-automation-sanity/scaffold-aceternity-component.ts:100-140 | the block declares exactly the schema's fields in order and forwards only `intensity`, falling back to 5 |
| Scaffold.ReadmeEntryDate | aceternity-automation-sanity/scaffold-aceternity-component.ts:142-156 | the entry's date is the `YYYY-MM-DD` prefix of the ISO timestamp |
| Scaffold.WriteIfAbsent | aceternity-automation-sanity/scaffold-aceternity-component.ts:189-197 | an existing file is left untouched; an absent path gets the content; no other file changes |
| Scaffold.ScaffoldNeverClobbers | aceternity-automation-sanity/scaffold-aceternity-component.ts:171-247 | no existing file is changed; the three paths exist afterwards; each absent path holds the generator's output |
| Scaffold.ScaffoldIdempotent | aceternity-automation-sanity/scaffold-aceternity-component.ts:171-247 | a second scaffold run changes nothing |
| Scaffold.ScaffoldComponent | aceternity-automation-sanity/scaffold-aceternity-component.ts:171-276 | the sequence of three checked writes gives the reference file system, reports created / warned / silent per path, and produces the README entry |
| Scaffold.ParseArgs | aceternity-automation-sanity/scaffold-aceternity-component.ts:279-306 | fewer than three arguments is a usage error; the icon defaults to `Component` when absent or empty |
| Scaffold.ScaffoldCommand | aceternity-automation-sanity/scaffold-aceternity-component.ts:278-308 | a usage error exits 1 with no write; otherwise the scaffold runs and exits 0 |
| ImportRewrite.ImportMatch | aceternity-fetch.ts:115-124 | a match of `from\s+['"]M['"]` at the start of the text has a positive length within the text |
| ImportRewrite.ImportMatchOfParts | aceternity-fetch.ts:115-124 | `from`, any non-empty whitespace run, a quote of either kind, the module and a quote of either kind is matched in full |
| ImportRewrite.ImportMatchSound | aceternity-fetch.ts:115-124 | whatever the pattern matches is `from`, whitespace, a quote, the module and a quote |
| ImportRewrite.ImportMatchIff | aceternity-fetch.ts:115-124 | the pattern matches a prefix of length n exactly when that prefix is such an import (both directions) |
| ImportRewrite.ImportReplaced | aceternity-fetch.ts:115-124 | an import of the module at the front is replaced by the replacement text and the rest is rewritten on |
| ImportRewrite.FramerImportRewritten | aceternity-fetch.ts:115-118 | `from 'framer-motion'` becomes `from "motion/react"` |
| ImportRewrite.UtilsImportNormalised | aceternity-fetch.ts:121-124 | a utils import with any spacing and either quotes becomes `from "@/lib/utils"`: the module is kept and only the spacing and quotes change |
| ImportRewrite.MatchDependsOnPrefix | aceternity-fetch.ts:115-124 | whether a match of length n occurs depends only on the first n characters |
| ImportRewrite.UtilsImportMatchesItself | aceternity-fetch.ts:121-124 | the canonical `from "@/lib/utils"` is itself a match of the utils pattern |
| ImportRewrite.NoFramerMatchInMotionImport | aceternity-fetch.ts:115-118 | no framer-motion match starts inside the replacement `from "motion/react"` |
| ImportRewrite.CopiedThrough | aceternity-fetch.ts:115-124 | a prefix where no match starts is copied unchanged ahead of the rewritten rest |
| ImportRewrite.ReplacementPassesThrough | aceternity-fetch.ts:115-124 | for both rewrites, the replacement text at the front is copied through unchanged |
| ImportRewrite.NoNewMatch | aceternity-fetch.ts:115-124 | rewriting a suffix creates no match that reaches back into the text before it |
| ImportRewrite.ReplaceImportsIdempotent | aceternity-fetch.ts:115-124 | for both rewrites, rewriting a second time changes nothing |
| AceternityFetch.KeyCaptureFrom | aceternity-fetch.ts:20 | `/ACETERNITY_API_KEY=(.+)/` fails iff no position matches; the capture is non-empty and holds no line terminator |
| AceternityFetch.RemoveQuotes | aceternity-fetch.ts:22 | the result holds no quote and no character absent from the input, and a quote-free input comes back unchanged |
| AceternityFetch.RemoveQuotesAppend | aceternity-fetch.ts:22 | quotes are removed piece by piece, so the other characters keep their order |
| AceternityFetch.RemoveSurroundingQuotes | aceternity-fetch.ts:22 | a quote-free value between two quotes comes back without them |
| AceternityFetch.PlainKeyRead | aceternity-fetch.ts:20-22 | a plain key such as `ACETERNITY_API_KEY=sk-123` on the first line is read as written |
| AceternityFetch.ApiKey | aceternity-fetch.ts:15-24 | a truthy environment key wins; otherwise the env file, when present and matching, supplies the key, trimmed and with quotes removed; otherwise the environment value stays |
| AceternityFetch.ResolveApiKey | aceternity-fetch.ts:15-24 | the step-by-step resolution gives the key `ApiKey` defines |
| AceternityFetch.QuotedEmptyKeyIsMissing | aceternity-fetch.ts:18-23 | a file assigning `""` yields the empty key, which counts as no key |
| AceternityFetch.FileKeyHasNoQuotes | aceternity-fetch.ts:20-22 | a key read from the file holds no quote character |
| AceternityFetch.KeyFoundAfterPrefix | aceternity-fetch.ts:20 | the match is unanchored: after any prefix with no earlier match, such as a comment marker, the rest of the line is the capture |
| AceternityFetch.KeyCaptureAdvance | aceternity-fetch.ts:20 | positions without a match are skipped over by the leftmost search |
| AceternityFetch.ParseFetchArgs | aceternity-fetch.ts:180-204 | no arguments is a usage error; the component is the first argument; `force` iff `--force` appears; the category is the argument after the first `--category` (undefined when trailing), `animations` without `--category` |
| AceternityFetch.TrailingCategoryDefaults | aceternity-fetch.ts:33 | a trailing `--category` falls back to the `animations` folder |
| AceternityFetch.SelectCode | aceternity-fetch.ts:112 | the code is `code` when truthy, else `source` when truthy, else empty |
| AceternityFetch.FramerRewriteIdempotent | aceternity-fetch.ts:115-118 | rewriting framer-motion imports twice is the same as once |
| AceternityFetch.UtilsRewriteIdempotent | aceternity-fetch.ts:121-124 | rewriting utils imports twice is the same as once |
| AceternityFetch.FetchComponent | aceternity-fetch.ts:32-176 | no key aborts first; an existing output without `--force` returns before any request; 401 and 404 abort with their own outcomes; other failures abort; only a successful reply writes (the reply's `dependencies` taken to be an array), and it writes the rewritten code at the output path |
| AceternityFetch.FetchMain | aceternity-fetch.ts:179-206 | for a given key: no arguments exits 1; every exit code 1 leaves the files as they were (for replies whose `dependencies` is an array); an untruthy key exits 1; an existing output without `--force` exits 0 unchanged; an OK reply with a JSON body exits 0 with the rewritten code saved at the output path; any other reply exits 1 |
| AceternityFetch.FetchCommand | aceternity-fetch.ts:15-24 | the same outcomes, for the key `ApiKey` resolves from the environment and `.env.local`, so a missing file, a file without a match and a file key that is empty after trimming and quote removal all exit 1 |
| EnvFile.SplitAssignment | scripts/create-michael-version.ts:10 | the line splits at its first `=` iff it has one |
| EnvFile.StripQuotes | scripts/create-michael-version.ts:10 | the value text is an optional quote, the middle and an optional quote |
| EnvFile.MatchEnvLine | scripts/create-michael-version.ts:10 | a match's pieces obey the pattern and rebuild the line |
| EnvFile.MatchComplete | scripts/create-michael-version.ts:10 | every line made of well-formed pieces matches and yields exactly those pieces |
| EnvFile.MatchIff | scripts/create-michael-version.ts:10 | a line matches iff it is made of well-formed pieces |
| EnvFile.CommentLineIgnored | scripts/create-michael-version.ts:10-11 | a line starting with `#` assigns nothing |
| EnvFile.NoAssignmentIgnored | scripts/create-michael-version.ts:10-11 | a line without `=` assigns nothing |
| EnvFile.QuotesOnlyValueIgnored | scripts/create-michael-version.ts:10-11 | `KEY=`, `KEY=""` and `KEY=''` assign nothing |
| EnvFile.EmbeddedQuoteIgnored | scripts/create-michael-version.ts:10-11 | a quote inside the value, wrapped in quotes or not (`KEY="it's"`), makes the line assign nothing |
| EnvFile.ParseEnvFile | scripts/create-michael-version.ts:9-14 | the loop over the newline-separated lines builds the reference dictionary |
| EnvFile.FoldKeys | scripts/create-michael-version.ts:9-14 | a key is stored iff some contribution names it |
| EnvFile.FoldLastWins | scripts/create-michael-version.ts:9-14 | the stored value comes from the last contribution naming the key |
| EnvFile.EnvKeys | scripts/integrate-aceternity-michael.ts:10-15 | a key is defined iff some line assigns it |
| EnvFile.LastMatchWins | scripts/integrate-aceternity-michael.ts:10-15 | a later line assigning the same key overwrites an earlier one |
| MichaelPage.CreateMichaelVersion | scripts/create-michael-version.ts:544-548 | `createOrReplace` puts the seeded page under its id and leaves other documents alone |
| MichaelPage.SeededPageShape | scripts/create-michael-version.ts:24-541 | the seeded page has its id and slug and 18 blocks, each with a key, padding and a colour variant |
| MichaelPage.EnhancementAt | scripts/integrate-aceternity-michael.ts:52-171 | only positions 6, 8 and 12 have an enhancement |
| MichaelPage.Enhance | scripts/integrate-aceternity-michael.ts:52-171 | a non-target block is returned unchanged; a target becomes the listed component type with padding top and bottom, colour variant `background`, and its own key when truthy, else prefix plus timestamp |
| MichaelPage.EnhanceBlocks | scripts/integrate-aceternity-michael.ts:52-171 | the list keeps its length and each element is enhanced at its own position |
| MichaelPage.EnhanceChangesOnlyTargets | scripts/integrate-aceternity-michael.ts:52-171 | a block changes only when its (position, type) pair is one of the three listed |
| MichaelPage.EnhanceIdempotent | scripts/integrate-aceternity-michael.ts:52-171 | running the transform again changes nothing |
| MichaelPage.SeededEnhancement | scripts/create-michael-version.ts:194-406 | on the seeded blocks only position 8 is replaced, by a bento grid keeping the key `capabilities`; positions 6 and 12 hold the wrong types |
| MichaelPage.IntegrateMichaelHomepage | scripts/integrate-aceternity-michael.ts:25-181 | a missing page is left alone; otherwise its blocks, or none when absent, are enhanced and written back; other documents are unchanged |

## Left out

- Console output and `process.exit`: messages are not modelled. Exits are outcome values with exit codes.
- Directory creation (`mkdirSync`): directories are not modelled, so paths are relative and the working directory is dropped.
- The unused `execSync` import of the integrator: it has no behaviour.
- Network and CMS calls are inputs: the HTTP reply of the fetcher, and the CMS dataset of the page scripts.
- A failing CMS call is not modelled. The seeding script catches it, logs it and exits with 1; the integration script catches it and logs it.
- The CMS client construction that reads `SANITY_API_DEVELOPER_TOKEN` from the env dictionary is not modelled.
- The clock is a parameter: `toISOString()` for the scaffolder, and the rendered `Date.now()` for the page transform.
- MichaelPage.Enhance: uses one timestamp for the whole run, whereas the script reads the clock at each replacement.
- Artifacts.CoreFilePath: paths, here and in `AceternityFetch.OutputPath`, are joined by plain concatenation with `/` and not normalised as `path.join` does. Component names and categories are taken to be plain path segments: not empty, not `.` or `..`, and without `/`. For other inputs, such as an empty `--category`, the script and the model look at different paths.
- Block content (titles, bodies, items, the replacements' texts) is not modelled; blocks carry their type, key, padding and colour variant. The seeded page's `_type: "page"`, `title`, `meta_title` and `meta_description` (scripts/create-michael-version.ts:25, 27, 32-33) are not modelled either; the page carries its id, slug and blocks.
- Case maps are ASCII-only; JavaScript's `toUpperCase`/`toLowerCase` are Unicode-aware.
- Strings are sequences of Unicode scalar values, while JavaScript strings are UTF-16 code units: a character outside the Basic Multilingual Plane counts as one character here and two in the scripts (lengths, indices, `.` in a regex).
- FieldClassifier.GeneratedFieldSpec: the table lookup is an exact-key map. In JavaScript a name such as `constructor` would hit an `Object.prototype` member instead of the fallback.
- EnvFile.EnvVars: the env dictionary is an exact-key map. In JavaScript, assigning `envVars["__proto__"]` stores nothing (scripts/create-michael-version.ts:12, scripts/integrate-aceternity-michael.ts:13), whereas the model stores that key. The scripts read no such key.
- Initial values such as `0.4` are kept as literal text; no arithmetic is done on them.
- Artifacts.Contents: the rendered text follows the templates' structure but is not byte-exact in blank lines, comment lines and indentation.
- Generated schema and block files are stored as records and rendered on demand, not as raw text.
- AutoIntegrate.SparklesSchema: states its result for any prop list whose kept props are the sparkles props, not for the literal extraction result.
- A fetched reply whose `code` is not a string, or whose JSON is `null`, is folded into the generic request failure.
- The fetched `dependencies` list is reported back but only printed by the script.
- AceternityFetch.FetchComponent: the reply's `dependencies` is typed as a list of strings; a truthy non-array value (a string, say) makes the script save the file first and then fail in its dependency report, exiting with 1 (aceternity-fetch.ts:131, 136-140, 161-175). That write-then-exit-1 path is not modelled, so `FetchMain`'s and `FetchCommand`'s "exit code 1 leaves the files as they were" holds only for array-valued dependencies.
