# Embedded Rust multi-core project generator — Dafny model

The repository's Python scripts create an embedded Rust project from a JSON
configuration. The project has one Cargo sub-project per microcontroller
core, plus a global Makefile that drives the cores' own Makefiles. This
project models the logic inside those scripts:

- **The two configuration schemas.**
  - In the richer schema, the validators (`validate_non_empty`,
    `validate_field_type`, `validate_hexadecimal`, `validate_memory_size`,
    `validate_memory_section`, `validate_list_elements`) are functions
    returning a pass/fail outcome. The dataclass constructors run them in
    source order and return a `Result`. Their `serialize` methods build
    dict values.
  - The simpler schema's `ProjectConfig.validate` is a method with a loop
    over the four memory attributes.
- **The JSON loader** (`create_project.py`). It starts from an
  already-parsed JSON value and does the dict-or-list normalisation, the
  `.get` field mapping and the argument-count check.
- **The template rewriters**, each mapping a file's lines to new lines:
  - `memory.x`: deny-list deletion, FLASH/RAM rewriting, extra-section
    insertion, then placeholder substitution;
  - `.cargo/config.toml`: the three-flag state machine over `[build]`;
  - `openocd.cfg`: a per-line map.
- **Makefile text generation.** This covers rendering a rule table,
  appending only the rules whose names are new, prepending variable
  declarations, and sanitising rule names. A Makefile is its string
  content.
- **`normalize_string`.**
- **The planning in `project_creator`.** It computes:
  - the project and core directory names and the directory list;
  - which `arch` and debugger option each updater receives;
  - each core's Makefile, its three global rules and the `SUBDIRS` value;
  - the global Makefile the run leaves behind.

Each module is one source file:

| module | file |
|---|---|
| `ProjectTypes` | `project_types.dfy` |
| `SimpleProjectTypes` | `simple_project_types.dfy` |
| `CreateProject` | `create_project.dfy` |
| `UpdateMemory` | `update_memory.dfy` |
| `UpdateCargoToml` | `update_cargo_toml.dfy` |
| `UpdateOpenOcdCfg` | `update_openocd_cfg.dfy` |
| `Makefile` | `create_makefile.dfy` |
| `Utils` | `utils.dfy` |
| `ProjectCreator` | `project_creator.dfy` |

Two helper modules sit beside them:

- `Wrappers` holds `Option`, `Result` and a pass/fail `Outcome`.
- `Text` models the Python `str` operations the scripts use: `strip`,
  `lstrip`, `startswith`, `in`, `replace`, `upper` (on ASCII letters only), and ASCII
  case-insensitive search and substitution for the `re.IGNORECASE`
  patterns.

How file updates are modelled:

- A file that is read and rewritten is a `seq<string>` of lines. Each line
  keeps its `"\n"`, as `readlines` returns them.
- A file read whole is a `string`.
- A file that may be missing is an `Option`. `None` means absent, and
  then nothing is written.
- Loops that build new lines become methods with loop invariants. Each is
  proved equal to a specification function, and the properties are
  lemmas about those functions.

The model follows the code where it differs from the written
configuration description:

- Python's `$` also matches just before a final newline. So the hex
  pattern and the memory-size pattern also accept their value followed by
  one `"\n"`.
- `validate_hexadecimal` uses 8 for a missing `lower` or `upper` key. The
  6..8 range comes only from the default `MEMORY_DIGITS_RANGE`.
- In `project_creator.py` the walrus binds the boolean
  `debug_configuration is None`. So a core that sets its own debugger
  option hands `False` to `update_cargo_toml`.
- The project-level `arch` overrides the core's.
- The loader never passes `openocd_cfg` to `CoreConfig`. So cores are
  loaded into argument records, not run through the validated constructor.

Constants from `constants.py` are parameters:

- `DIRECTORIES` and `DEFAULT_DEBUGGER_CONFIGURATION` are
  `ProjectCreator.Constants`.
- `MEMORY_DIGITS_RANGE` and `MEMORY_UNITS` are `ProjectTypes.Limits`.
- The deny list is `deny`.

## Model

| member | source | states |
|---|---|---|
| ProjectTypes.ValidateNonEmpty | Docker/scripts/old/project_types.py:33-39 | fails exactly for `None`, the empty string and the empty list, with a "not set" error naming the field; every truthy value passes |
| ProjectTypes.ValidateFieldType | Docker/scripts/old/project_types.py:41-44 | passes exactly when the value is an instance of the type; otherwise a wrong-type error naming the field |
| ProjectTypes.ValidateHexadecimal | Docker/scripts/old/project_types.py:47-54 | passes exactly for a string that is `0x` (lower-case x) followed by between `lower` and `upper` hex digits of either case (a missing bound is 8), optionally followed by one final newline; a failure names the field |
| ProjectTypes.MatchHexadecimal | Docker/scripts/old/project_types.py:53 | the scanning matcher agrees with the declarative pattern predicate on every string |
| ProjectTypes.HexadecimalExamples | Docker/scripts/old/project_types.py:47-54 | with range 6..8: `0x08000000` and `0x2000aBcD` pass; `0X…`, 5 digits, 9 digits and a non-hex digit fail |
| ProjectTypes.ValidateMemorySize | Docker/scripts/old/project_types.py:58-65 | passes exactly for a string made of decimal digits ending in an even digit, then one listed unit in any ASCII case (one trailing newline allowed) |
| ProjectTypes.MatchSomeUnit | Docker/scripts/old/project_types.py:62-64 | trying the unit alternatives in order accepts exactly when some alternative fits |
| ProjectTypes.AllDigits | Docker/scripts/old/project_types.py:62 | true exactly when every character is a decimal digit |
| ProjectTypes.MemorySizeAccepted | Docker/scripts/old/project_types.py:58-65 | with the units `["K"]`, `128K` and `128k` pass |
| ProjectTypes.MemorySizeRejected | Docker/scripts/old/project_types.py:58-65 | with the units `["K"]`, `127K` (odd), `128M` (unknown unit) and `K` (no number) fail |
| ProjectTypes.ValidateMemorySection | Docker/scripts/old/project_types.py:70-74 | passes exactly for a two-element list whose first item is a valid hex origin and whose second is a valid memory size; any other length fails |
| ProjectTypes.CheckItems | Docker/scripts/old/project_types.py:22-27 | the item loop passes exactly when every item has the element type and, when a per-item validator runs, passes it |
| ProjectTypes.ValidateListElements | Docker/scripts/old/project_types.py:9-30 | passes exactly for a list whose items all have the element type, whose items pass the custom validator when `to_each` is set, and which as a whole passes the custom validator when one is given |
| ProjectTypes.SectionListChecked | Docker/scripts/old/project_types.py:118-119 | a region list passes `validate_list_elements(..., str, ..., validate_memory_section)` exactly when it is a well-formed `[origin, length]` pair |
| ProjectTypes.MemoryChecksPass | Docker/scripts/old/project_types.py:115-121 | the `MemoryConfig` checks pass exactly for a well-formed flash and ram and, when `extra_sections` is not `None`, a list of section objects |
| ProjectTypes.NewOpenOcdCfg | Docker/scripts/old/project_types.py:77-85 | succeeds exactly for two non-empty strings, and keeps them |
| ProjectTypes.NewExtraMemorySection | Docker/scripts/old/project_types.py:87-101 | succeeds exactly for a non-empty type, a valid hex origin and a valid memory size, keeping the three strings; a missing type is the first error |
| ProjectTypes.NewMemoryConfig | Docker/scripts/old/project_types.py:107-121 | succeeds exactly when flash and ram are well-formed pairs and `extra_sections` is `None` or a list of section objects; the result holds those pairs and sections in order |
| ProjectTypes.NewCoreConfig | Docker/scripts/old/project_types.py:126-147 | succeeds exactly for a non-empty `core` and `arch`, a memory object, an OpenOCD object and a `debug_configuration` that is falsy or a string; the fields are kept |
| ProjectTypes.NewProjectConfig | Docker/scripts/old/project_types.py:154-177 | succeeds exactly for a non-empty `mcu_family` string, a non-empty list of cores, and `directories`/`arch`/`debug_configuration` that are falsy or of the right type; a missing `mcu_family` or `config` gives that field's "not set" error |
| ProjectTypes.SerializeSection | Docker/scripts/old/project_types.py:103-104 | the dict maps `memory_type`, `origin` and `length` to the section's strings |
| ProjectTypes.SerializeMemory | Docker/scripts/old/project_types.py:123-124 | the dict maps `flash` and `ram` to the pairs, and `extra_sections` to `None` or the serialized sections in order |
| ProjectTypes.SerializeCore | Docker/scripts/old/project_types.py:150-151 | the dict maps `core`, `arch`, `memory` and `debug_configuration`, and has no `openocd_cfg` |
| ProjectTypes.SerializeProject | Docker/scripts/old/project_types.py:179-180 | the dict maps `mcu_family`, the serialized cores in order, `directories`, `arch` and `debug_configuration` |
| ProjectTypes.SectionRoundTrip | Docker/scripts/old/project_types.py:93-104 | rebuilding a valid section from its serialized dict gives the same section |
| ProjectTypes.SerializeCoreForgetsOpenOcd | Docker/scripts/old/project_types.py:150-151 | two cores that differ only in `openocd_cfg` serialize identically |
| ProjectTypes.DictGetSpec | Docker/scripts/create_project.py:40-42 | `dict.get` returns a value only from an entry with that key, and `None` when no entry has it |
| ProjectTypes.DictGetLast | Docker/scripts/create_project.py:40-42 | `get` finds the last entry with the key, as a parsed JSON object keeps the last duplicate |
| SimpleProjectTypes.Validate | Docker/scripts/project_types.py:19-64 | the loop reports exactly the diagnostics of the specification, in order, and returns True exactly when there are none |
| SimpleProjectTypes.ValidateIff | Docker/scripts/project_types.py:19-64 | `validate` returns True exactly for a well-formed configuration: for one core (a string or a one-element list), four string attributes and a string `arch`; for several cores, four dicts keyed by exactly the core names and a list of string archs |
| SimpleProjectTypes.AttrPasses | Docker/scripts/project_types.py:31-44 | one memory attribute passes exactly when it is a string (one core) or a dict whose keys are the core names (several cores) |
| SimpleProjectTypes.MemoryPasses | Docker/scripts/project_types.py:27-44 | the memory loop reports nothing exactly when each of the four attributes passes |
| SimpleProjectTypes.ArchPasses | Docker/scripts/project_types.py:47-57 | `arch` passes exactly when it is a string (one core) or a list of strings (several cores) |
| SimpleProjectTypes.MemoryDiagnosticsEmpty | Docker/scripts/project_types.py:28-44 | the diagnostics for a list of attributes are empty exactly when every attribute in it passes |
| SimpleProjectTypes.EveryFailureReported | Docker/scripts/project_types.py:28-44 | every failing attribute is reported, whatever failed before it; failures plus passes equal the number of attributes |
| SimpleProjectTypes.AllChecksRun | Docker/scripts/project_types.py:20-64 | a single-core configuration with five bad fields reports all five problems in order |
| CreateProject.ParseArguments | Docker/scripts/create_project.py:86-90 | fails with status 1 exactly when there are not two arguments, and otherwise returns them in order |
| CreateProject.Iterate | Docker/scripts/create_project.py:38-43 | a list is iterated item by item and a string character by character; any other value (dicts are wrapped before this point) fails |
| CreateProject.MapAllSuccess | Docker/scripts/create_project.py:38-44 | a comprehension succeeds exactly when every element succeeds, and then holds each element's value in order |
| CreateProject.CreateMemoryConfig | Docker/scripts/create_project.py:46-53 | `None` gives `None`; otherwise `flash`, `ram` and `extra_sections` are read with `get` (missing means `None`) |
| CreateProject.CoreArgsOf | Docker/scripts/create_project.py:64-70 | a core's `core`, `arch`, `debug_configuration` and loaded `memory` are read with `get`; there is no `openocd_cfg` |
| CreateProject.LoadConfig | Docker/scripts/create_project.py:74-84 | `mcu_family`, `directories`, `arch` and `debug_configuration` pass through unchanged (`None` when absent), and `config` goes through the core loader |
| CreateProject.DictAsList | Docker/scripts/create_project.py:35-36 | a single dict loads as the one-element list holding it, for sections and for cores |
| CreateProject.SectionsPerElement | Docker/scripts/create_project.py:31-44 | a list of dicts loads as one section record per element, in order |
| CreateProject.CoresPerElement | Docker/scripts/create_project.py:56-71 | a list of dicts loads as one core record per element, in order, provided each core's memory loads; each record holds that dict's `core`, `arch`, loaded `memory` and `debug_configuration` |
| CreateProject.BuildSections | Docker/scripts/create_project.py:38-44 | running the section constructor on each record gives one section per record |
| CreateProject.LoadSerializedMemory | Docker/scripts/create_project.py:46-53 | loading a serialized memory configuration gives back its fields |
| CreateProject.BuildSectionsRoundTrip | Docker/scripts/create_project.py:31-44 | building the records of valid sections gives those sections back |
| CreateProject.MemoryRoundTrip | Docker/scripts/create_project.py:46-53 | serializing a valid memory configuration, loading it and running the constructors gives an equal configuration |
| CreateProject.BuildMemoryFor | Docker/scripts/create_project.py:49-53 | the constructors accept the records a valid memory configuration loads as, and rebuild it |
| CreateProject.LoadSerializedCore | Docker/scripts/create_project.py:64-70 | loading a serialized core gives back its core, arch, memory and debug option, and no OpenOCD configuration |
| CreateProject.LoadSerializedProject | Docker/scripts/create_project.py:74-84 | loading a serialized project passes the top-level fields through and loads every core in order |
| UpdateMemory.DeleteLines | Docker/scripts/old/update_memory.py:34-35 | every kept line is an input line whose stripped text is not denied, and every such input line is kept |
| UpdateMemory.DeleteLinesAppend | Docker/scripts/old/update_memory.py:34-35 | deletion distributes over concatenation, so kept lines stay in their original order |
| UpdateMemory.DeleteLinesIdempotent | Docker/scripts/old/update_memory.py:34-35 | a second deletion pass changes nothing |
| UpdateMemory.UpdateFlashAndRam | Docker/scripts/old/update_memory.py:37-45 | the loop's output is the line-wise FLASH/RAM map |
| UpdateMemory.FlashAndRamLines | Docker/scripts/old/update_memory.py:37-45 | the line count is kept; a `FLASH :` line becomes the FLASH line; otherwise a `RAM :` line becomes the RAM line; every other line is unchanged |
| UpdateMemory.GeneratedLinesMatch | Docker/scripts/old/update_memory.py:41-43 | the generated FLASH and RAM lines are recognised again by the same tests |
| UpdateMemory.FlashAndRamIdempotent | Docker/scripts/old/update_memory.py:37-45 | running the pass twice equals running it once |
| UpdateMemory.SectionLines | Docker/scripts/old/update_memory.py:49-52 | one line per extra section, in order |
| UpdateMemory.FirstClosingFrom | Docker/scripts/old/update_memory.py:56-64 | the scan finds the first line after a `MEMORY` line that has `}` but neither `MEMORY` nor `{`, or reports that there is none |
| UpdateMemory.FirstClosing | Docker/scripts/old/update_memory.py:54-64 | the closing line found is the first one in the file, or there is none |
| UpdateMemory.AddExtraMemorySections | Docker/scripts/old/update_memory.py:47-71 | the flag-and-index scan and the splice give the specified insertion |
| UpdateMemory.ExtraSectionsPlacement | Docker/scripts/old/update_memory.py:47-71 | with no sections or no closing line the lines are unchanged; otherwise the lines before the first closing line are kept, then one line per section, then the rest from the closing line on, and the length grows by the number of sections |
| UpdateMemory.ReplaceLineNeedsMatch | Docker/scripts/old/update_memory.py:76-83 | a line that no stripped original matches (ignoring case) is unchanged |
| UpdateMemory.ReplaceLineFirstMatch | Docker/scripts/old/update_memory.py:77-83 | only the first matching tuple is applied, replacing its occurrences in the line |
| UpdateMemory.ReplaceInLine | Docker/scripts/old/update_memory.py:77-83 | the tuple loop with its `break` computes the first-match replacement |
| UpdateMemory.ReplaceLines | Docker/scripts/old/update_memory.py:73-85 | the loop's output is the line-wise replacement |
| UpdateMemory.ReplacedLinesUnchanged | Docker/scripts/old/update_memory.py:73-85 | the line count is kept, and a line that no tuple matches is unchanged |
| UpdateMemory.ModifyMemoryX | Docker/scripts/old/update_memory.py:8-23 | an absent file gives nothing; otherwise the passes run in the order delete, flash/ram, extra sections, replace |
| UpdateMemory.MemoryXLength | Docker/scripts/old/update_memory.py:15-21 | the final line count is the count after deletion plus the number of inserted sections (zero when none are inserted) |
| UpdateCargoToml.UpdateLine | Docker/scripts/old/update_cargo_toml.py:23-47 | one loop iteration updates the three flags and the output as the step function says |
| UpdateCargoToml.UpdateCargoTomlFile | Docker/scripts/old/update_cargo_toml.py:5-54 | an absent file gives nothing; otherwise the output is the loop's lines, plus the target line when the file ended inside `[build]` with no target set |
| UpdateCargoToml.SeenBuildExists | Docker/scripts/old/update_cargo_toml.py:29-30 | `[build]` has been seen exactly when some line, after the runner step, contains it |
| UpdateCargoToml.StepInvariant | Docker/scripts/old/update_cargo_toml.py:29-47 | one step keeps the loop invariant: the output has one line per line read, plus at most one inserted target line and only once the target is set; an existing arch implies a set target; a set target is in the output; once `[build]` is seen the section is open or the target is set |
| UpdateCargoToml.RunInvariant | Docker/scripts/old/update_cargo_toml.py:23-47 | the invariant holds after any prefix of the file |
| UpdateCargoToml.CargoLength | Docker/scripts/old/update_cargo_toml.py:40-51 | the new file has as many lines as the old one or exactly one more |
| UpdateCargoToml.CargoHasTarget | Docker/scripts/old/update_cargo_toml.py:29-51 | once some line opens `[build]`, the new file contains the target line |
| UpdateCargoToml.CargoBeforeBuild | Docker/scripts/old/update_cargo_toml.py:24-31 | until a line opens `[build]`, the only change is uncommenting the runner line |
| UpdateCargoToml.CargoBuildSectionLine | Docker/scripts/old/update_cargo_toml.py:31-39 | inside `[build]`, a commented target line for the arch becomes exactly `target = "<arch>" # <mcu_family>`; before the target is set, any other uncommented `target =` line gets `# ` in front |
| UpdateCargoToml.CargoSectionHeader | Docker/scripts/old/update_cargo_toml.py:40-45 | inside `[build]` before the target is set, a line starting with `[` closes the section; when no matching target line was met, the target line is written just before it and the target counts as set |
| UpdateCargoToml.CargoHeaderInsertsTarget | Docker/scripts/old/update_cargo_toml.py:23-47 | in a run over a file, such a header always gets the target line inserted immediately before it, and the section is closed with the target set |
| UpdateCargoToml.TargetLineNotCommented | Docker/scripts/old/update_cargo_toml.py:20-21 | the generated target line does not match the commented-target pattern |
| UpdateOpenOcdCfg.UpdateOpenOcd | Docker/scripts/old/update_openocd_cfg.py:3-28 | an absent file gives nothing; otherwise there is one output line per input line, each the header/interface/target rewrite of its input line |
| UpdateOpenOcdCfg.OpenOcdLineUntouched | Docker/scripts/old/update_openocd_cfg.py:16-24 | a line that is not the sample header and does not mention the template's interface or target file is copied unchanged |
| UpdateOpenOcdCfg.OpenOcdLineSameFiles | Docker/scripts/old/update_openocd_cfg.py:19-22 | with the template's own file names as replacements, only the header line can change |
| UpdateOpenOcdCfg.HeaderReplacedOnce | Docker/scripts/old/update_openocd_cfg.py:17-18 | the new header line no longer starts with the sample header |
| Makefile.CreateMakefile | Docker/scripts/old/create_makefile.py:24-44 | the loop writes the rendered rules, in the mapping's order |
| Makefile.WriteRule | Docker/scripts/old/create_makefile.py:30-44 | one rule is its header (`name: deps` or `name:`), one tab-indented line per command (a single string is one command), and a blank line |
| Makefile.RenderedAppend | Docker/scripts/old/create_makefile.py:29-44 | rendering distributes over concatenating rule tables |
| Makefile.RenderedNames | Docker/scripts/old/create_makefile.py:29-34 | every rule written under a plain name is found again among the file's rule names |
| Makefile.BeforeColon | Docker/scripts/old/create_makefile.py:74 | the result is the prefix of the line up to its first `:`: a prefix with no `:`, followed in the line by a `:` unless it is the whole line |
| Makefile.HeadedNames | Docker/scripts/old/create_makefile.py:74 | a text that starts with `name:` has `name` among its rule names |
| Makefile.NewRulesFilter | Docker/scripts/old/create_makefile.py:78-79 | the rules written are exactly the given rules whose names are not already in the file |
| Makefile.AppendRulesToMakefile | Docker/scripts/old/create_makefile.py:61-95 | an absent file gives nothing; otherwise the old content is followed by the block of every rule whose name is new |
| Makefile.AppendBlocks | Docker/scripts/old/create_makefile.py:77-93 | the writing loop appends the blocks of the new rules in order, each starting with a newline |
| Makefile.AppendedNames | Docker/scripts/old/create_makefile.py:61-95 | appending keeps every rule name the file had and leaves every requested rule's name in it |
| Makefile.AppendedKeepsContent | Docker/scripts/old/create_makefile.py:77 | appending keeps the old content as a prefix |
| Makefile.AppendIdempotent | Docker/scripts/old/create_makefile.py:73-79 | appending the same rules a second time writes nothing |
| Makefile.AppendAfterCreate | Docker/scripts/old/create_makefile.py:24-95 | appending a table to the file that `create_makefile` wrote from it writes nothing |
| Makefile.SanitizeRuleName | Docker/scripts/old/create_makefile.py:111-126 | same length, no `:` left, and each character is kept except that `:` becomes `_` |
| Makefile.PrependVariablesToMakefile | Docker/scripts/old/create_makefile.py:135-165 | an absent file gives nothing; otherwise the new text is the declarations in order, a blank line, then the old content unchanged |
| Makefile.WriteDeclaration | Docker/scripts/old/create_makefile.py:147-158 | one declaration is `NAME OP VALUE` and a newline, with `:=` and `""` as defaults |
| Makefile.PrependedLines | Docker/scripts/old/create_makefile.py:158-161 | read back line by line, the file is one line per declaration, an empty line, then the old lines |
| Makefile.PrependedNames | Docker/scripts/old/create_makefile.py:135-165 | prepending one-line declarations keeps every rule name of the file |
| Utils.NormalizeString | Docker/scripts/old/utils.py:3-17 | the loop applies the replacements in list order, each to the previous result; with nothing to normalise, the input is returned |
| Utils.NormalizedPointwise | Docker/scripts/old/utils.py:15-16 | with single characters and a single-character normaliser, the length is kept, unlisted characters keep their position, and (when the normaliser is unlisted) listed characters become the normaliser |
| Utils.NormalizedRemovesListed | Docker/scripts/old/utils.py:15-17 | when the normaliser is not listed, no listed character remains |
| Utils.NormalizedIdempotent | Docker/scripts/old/utils.py:15-17 | when the normaliser is not listed, normalising twice equals normalising once |
| Text.LStripSpec | Docker/scripts/old/update_cargo_toml.py:26 | `lstrip()` removes exactly the leading run of whitespace |
| Text.LStripCharSpec | Docker/scripts/old/update_cargo_toml.py:26 | `lstrip('#')` removes exactly the leading run of `#` |
| Text.RStripSpec | Docker/scripts/old/update_memory.py:35 | `rstrip()`, the second half of `strip()`, removes exactly the trailing run of whitespace |
| Text.ReplaceAllChar | Docker/scripts/old/utils.py:16 | `replace` of one character by another keeps the length and changes exactly that character's positions |
| ProjectCreator.ProjectDirectories | Docker/scripts/project_creator.py:34 | the project directories are `DIRECTORIES` followed by the user's directories, in order and without de-duplication |
| ProjectCreator.ProjectDirectoryChars | Docker/scripts/project_creator.py:36-38 | the project directory keeps the name except that every `:` becomes `_` |
| ProjectCreator.CoreDirectoryChars | Docker/scripts/project_creator.py:53-55 | a core directory keeps the name except that every `:` and `_` becomes `-`, so neither is left |
| ProjectCreator.PlanCore | Docker/scripts/project_creator.py:53-116 | one loop turn gives the core's plan, its three global rule names, and the global Makefile with its rules appended |
| ProjectCreator.PlanAllCores | Docker/scripts/project_creator.py:49-119 | the loop gives one plan per core in order, the rule-name triples, `SUBDIRS` and the global Makefile after every core's appends |
| ProjectCreator.FinishGlobalMakefile | Docker/scripts/project_creator.py:121-133 | `SUBDIRS` is prepended, then the aggregate rules, whose dependencies are the collected per-core names, are appended |
| ProjectCreator.ProjectCreatorRun | Docker/scripts/project_creator.py:26-133 | the script computes the plan of the specification, and every core's Makefile is the rendered core rule table |
| ProjectCreator.CoreSettings | Docker/scripts/project_creator.py:53-111 | each core's plan: the installer gets the core's own `arch`; the cargo update gets the project `arch` when set; the debugger is the project's when set, else the default when the core sets none, else `False`; the memory and header are passed through; the three global rules are `build-`, `clean-` and `all-` plus the directory |
| ProjectCreator.AggregateDependencies | Docker/scripts/project_creator.py:124-132 | each aggregate rule depends on the matching per-core rule of every core, in core order |
| ProjectCreator.PlanLayout | Docker/scripts/project_creator.py:34-133 | one plan per core; no `:` in the project directory; no `:` or `_` in a core directory; `SUBDIRS` is the core directories joined by spaces plus a trailing space; aggregate dependencies in core order |
| ProjectCreator.SubdirsJoin | Docker/scripts/project_creator.py:112 | for at least one core, the accumulated `SUBDIRS` is the directories joined by single spaces, with one trailing space |
| ProjectCreator.GlobalMakefileHead | Docker/scripts/project_creator.py:122-133 | the final global Makefile opens with `SUBDIRS := …` and a blank line |
| ProjectCreator.AfterCoresNames | Docker/scripts/project_creator.py:112-115 | after the per-core appends, the global Makefile keeps its old rule names and names every core's three rules |
| ProjectCreator.GlobalMakefileNames | Docker/scripts/project_creator.py:112-133 | the final global Makefile keeps its old rule names and names every core's three rules and the three aggregate rules |
| ProjectCreator.PlanMakefile | Docker/scripts/project_creator.py:112-133 | for core names without whitespace, the run's global Makefile opens with the `SUBDIRS` line, keeps old names and names every per-core and aggregate rule |
| ProjectCreator.CoreMakefileRules | Docker/scripts/project_creator.py:93-101 | a core Makefile rendered from rules named `build`, `clean` and `all` names each of them, and appending those rules again writes nothing |
| ProjectCreator.CoreRulesNames | Docker/scripts/project_creator.py:93-100 | the core rule table has three rules, named `all`, `build` and `clean` |

## Left out

- File I/O is not modelled: `open`, `read`, `readlines`, `write`,
  `writelines` and `os.path.isfile`. Contents are passed in and returned,
  and a missing file is `None`.
- `create_file` (`old/create_makefile.py:3-21`) is reduced to the global
  Makefile's initial content: the existing content, or empty.
- The script's external effects are left out because they are side
  effects outside the program: `create_project_directories`,
  `generate_rust_project` (`cargo generate`), `rustup_add_target_arch`,
  `delete_files_and_directories`, `os.chdir` and `os.getcwd`. The plan
  records the arguments they receive: the directories, the core name, and
  the arch given to the installer. `DIRECTORIES_TO_DELETE_FROM_TEMPLATE`
  is not used.
- Every `print` diagnostic, `sys.exit` (except the exit status of
  `parse_arguments`), `validate_file_exists`, `load_json_data`,
  `add_to_sys_path` and JSON parsing are left out. The model starts from
  a parsed JSON value.
- Regular expressions are encoded as explicit predicates for the few fixed
  patterns. Each is explained below.
  - Case-insensitive matching uses ASCII case folding only.
  - `re.escape` is the identity on a literal search.
  - Memory units are literal alternatives. An empty unit list gives the
    empty alternative.
- Python's dynamic typing is a closed `Value` datatype. It has no floats,
  and other objects count as not being of the requested type.
  - In the simpler schema, a dict is its key set. Comparing sorted key
    lists is comparing multisets, because dict keys are distinct.
  - A non-string item in a dependency list, or in a variable value, is not
    modelled. Every rule name, command and dependency is a string.
  - A `dependencies` value given as one string, not a list, is not
    modelled. Python's `' '.join` would then join its characters with
    spaces; the model's dependencies are always a list of names.
- SimpleProjectTypes.Validate returns its diagnostics as a value instead
  of printing them.
- A rule given as a dict without a `command` key is not modelled. In
  Python, `None` is iterated and raises `TypeError`; the model's rule
  datatype always has commands.
- `splitlines` breaks at every line-break character separately. So
  `"\r\n"` gives an extra empty line, which has no `:` and adds no rule
  name. The set of existing rule names is the same as Python's.
- `CoreConfig` is never constructed from loaded JSON: the loader does not
  pass `openocd_cfg`, so in Python that call raises `TypeError`. Cores are
  loaded as `CoreArgs` records, and the constructor is modelled on its
  own.
- `normalize_string` with a `None` normaliser is not modelled. Python
  raises `TypeError` there; every caller passes a string.
- The OpenOCD interface and target file names the script passes are
  fixed constants (`InterfaceCfg`, `TargetCfg`). They are the same for
  every core and are not repeated in each core's plan.
- UpdateMemory.ModifyMemoryX inserts its replacement text
  `/* Values adjusted for <mcu_family> */` literally, but `re.sub` processes
  backslash escapes in it. `mcu_family` comes from the user's JSON, so a
  backslash there differs: `\1` raises `re.error` (invalid group
  reference), and a backslash followed by `n` writes a newline. The model
  inserts both as written.
- UpdateMemory.SectionLines and its per-section line upper-case
  `memory_type` in ASCII only. Python's `upper()` uses full Unicode case
  mapping, where `é` becomes `É` and `ß` becomes `SS`, which changes the
  length.
- A `cores` value of another type than a string or a list of strings
  cannot be represented in the simpler schema. In Python, `None` gives
  `core_names = None`, and `len(core_names)` then raises `TypeError` as
  soon as a memory attribute is a dict.
- ProjectCreator.CoreSettings follows the walrus as written: a core that
  sets `debug_configuration` gets `False`. In Python, `update_cargo_toml`
  then evaluates `False in line` and raises `TypeError` on its first line
  with `runner =`. The updater is modelled with a string debugger option
  and is not fed this value.
- ProjectCreator.CoreMakefileRules is stated for any rule table whose
  names are `build`, `clean` and `all`. CoreRulesNames shows the core
  table is one, so the literal table is never evaluated inside a proof.
- ProjectCreator.PlanMakefile requires core names without whitespace. A
  name with surrounding whitespace is stripped when the Makefile is read
  back, so its rules would not be recognised.
- Makefile.AppendIdempotent requires plain rule names: no `:`, no line
  break, and nothing for `strip` to remove. Without these, the name read
  back from the header differs from the rule's name, and a second append
  writes the rule again.
- UpdateMemory.FlashAndRamIdempotent requires that the generated RAM line
  does not contain `FLASH :`. Otherwise the second pass would turn it into
  a FLASH line.
