# Pyntel4004 command-line front end: option resolution and validation

This project models the part of the Pyntel4004 command-line interface
(`pyntel4004/src/cli.py`) that decides the effective options of the three
commands and rejects bad ones before the emulation core is called:

- `asm` assembles a 4004 source file and can go on to execute it;
- `dis` disassembles an object file;
- `exe` executes an object file.

Each command takes its options from three places: the command line, an
optional TOML configuration file given with `--config` (one table per
command: `[asm]`, `[dis]`, `[exe]`), and built-in defaults.

The model is split into these files:

- `outcomes.dfy` (module `Outcomes`) holds `Option`, `Result` and the closed set of failures. These are the front end's own exceptions (`CoreNotInstalled`, `ConfigFileNotFound`, `BadFormat`), click's usage errors (`BadOptionUsage`, `BadParameter`), and the Python runtime errors the code can reach (`UnboundLocal`, `TypeError`, `AttributeError`, `OsError`). The module also holds the exact message texts.
- `python_values.dfy` (module `PyValues`) models the Python values the checks handle: None, bool, int, str, list and tuple. It gives their truth value, how `<` treats them (a bool counts as 0 or 1), `str.upper()`, and what a `for` loop visits. A string is visited one character at a time.
- `config.dfy` (module `Config`) holds a configuration section as `map<string, Value>` and the outcome of `get_config`. It also has the documented precedence rule `Precedence` and the per-key `Merge` that the content checks perform.
- `checks.dfy` (module `Checks`) holds the option checks. `check_quiet`, `check_exec`, `check_monitor`, `check_inst`, `check_asm_content` and `check_dis_content` are written as functions. `check_type` is a method whose two loops update `good`, `allFound` and `others`, as the source's loops do. The method is proved equal to a loop-free statement of the verdict.
- `commands.dfy` (module `Commands`) holds `asm`, `dis` and `exe` as methods. Each method reassigns its locals step by step and builds the list of calls it makes to the emulation core, such as `Processor()`, `assemble`, `print_messages`, `execute`, `retrieve` and `disassemble`. Each method is proved equal to a stage-by-stage function: `AsmRun`, `DisRun` or `ExeRun`.
- `command_properties.dfy` (module `CommandProperties`) proves lemmas about those functions.

The values returned by `assemble` and `execute` are inputs. So is whether the core is installed.

Where the documented design and the code differ, the model follows the code:

- An explicit flag value always resolves to True, so an explicit False is not kept. `exe --quiet` defaults to False rather than None, so with a configuration file `exe` always runs quietly.
- `exe` binds `object_file` only inside the `--config` branch. Without a configuration file, `exe` fails with UnboundLocalError after creating the processor, even when `--object` was given.
- `dis` with `--config` fails with UnboundLocalError unless the section has an `object` key and `--object` is absent. A section without `object` therefore fails this way, not with "No object file specified".
- With a `dis` section in use, `labels` becomes True unless `--labels` is off and the section has a `labels` key.
- `dis` without a configuration file hands `--object` to `retrieve` as it is, even when it is None.
- The summary messages after `execute` are always sent to `print_messages` together with the quiet value. The model does not decide whether they are printed.
- A `type` key that holds a string is iterated character by character. It passes `check_type` only when every character is `h` or `H`.
- The range message really reads "Instructions should bebetween 1 and 4096", because the source concatenates two strings with no space between them.

## Model

| member | source | states |
|---|---|---|
| PyValues.AsNumber | pyntel4004/src/cli.py:70 | the number `inst < 1` compares: an int as itself, a bool as 0 or 1; no number (Python raises TypeError) for every other value |
| PyValues.Iterate | pyntel4004/src/cli.py:121 | what `for i in type_type` visits: a string's characters as one-character strings, a list's or tuple's items; nothing for a value that cannot be iterated |
| Config.GetConfig | pyntel4004/src/cli.py:188-198 | a missing file is ConfigFileNotFound; an open failure other than "No such file" is swallowed and comes back as OSError from the TOML loader; a parse failure is BadFormat; otherwise the parsed configuration |
| Config.Merge | pyntel4004/src/cli.py:103-108 | a section key replaces a command-line value only while that value equals its default; this is the documented precedence with "explicit" meaning "not at the default" |
| Checks.ResolveFlag | pyntel4004/src/cli.py:44-52 | any non-None command-line value gives True whatever the section says; None gives the section's value if the key is present, else False |
| Checks.CheckQuiet | pyntel4004/src/cli.py:44-52 | the flag rule for `quiet` |
| Checks.CheckExec | pyntel4004/src/cli.py:55-63 | the flag rule for `exec` |
| Checks.CheckMonitor | pyntel4004/src/cli.py:76-84 | the flag rule for `monitor` |
| Checks.FlagPrecedence | pyntel4004/src/cli.py:44-52 | the flag rule is the documented precedence applied to True-or-absent, and an explicit False is turned into True |
| Checks.CheckInst | pyntel4004/src/cli.py:66-73 | None gives 4096; a number in [1, 4096] comes back unchanged; any other number is BadOptionUsage on --inst; a value `<` cannot compare is a TypeError; every result is a number in [1, 4096] |
| Checks.CheckAsmContent | pyntel4004/src/cli.py:102-113 | `input`, `output` and `type` are each merged from the section only while the command-line value is at its default (None, 'default', ('None',)); the merged triple is returned unless all three are still at their defaults, which is the "Empty 'asm' section" usage error |
| Checks.AsmContentEmptyIff | pyntel4004/src/cli.py:109-112 | the asm section is rejected as empty exactly when each command-line value is at its default and each key is absent or holds that default |
| Checks.ConfiguredTypeNeverDefault | pyntel4004/src/cli.py:107-110 | a `type` key from the file is never the tuple ('None',): with --type at its default the key is always taken and the section is never empty |
| Checks.CheckDisContent | pyntel4004/src/cli.py:87-99 | fails on the unbound `object_file` unless the section has `object` and --object is absent; a None object is "No object file specified"; otherwise the section's object, `inst` from the section only while --inst is None, and `labels` from the section only when --labels is False and the key exists, True in every other case |
| Checks.TokenCheckAccepts | pyntel4004/src/cli.py:116-138 | for string tokens, check_type accepts exactly when the upper-cased tokens lie in {ALL, OBJ, H, BIN} and, if ALL is among them, ALL is the only distinct token, so repeated ALL is accepted |
| Checks.InvalidReportedFirst | pyntel4004/src/cli.py:126-137 | an invalid token is reported as "Invalid output type specified" even when ALL is also combined with others |
| Checks.ConfiguredTypeStringIsCharacters | pyntel4004/src/cli.py:121-125 | a `type` key that holds a plain string is checked character by character and passes exactly when every character upper-cases to H |
| Checks.CheckType | pyntel4004/src/cli.py:116-138 | the two loops give the loop-free verdict TypeCheck: TypeError for a non-iterable value, AttributeError for a non-string item, then the invalid-token error, then the ALL-with-others error, else success |
| Commands.Asm | pyntel4004/src/cli.py:275-321 | the step-by-step asm body makes exactly the calls that AsmRun describes and ends with exactly its failure. The order is the core check, the configuration stage, the processor, the three checks in order, then assemble and the execute chain |
| Commands.ConfigureAsm | pyntel4004/src/cli.py:286-298 | the configuration stage of asm gives what AsmConfigure describes: the loader's failure, the missing-section error, the empty-section error, or the merged options with exec, monitor and quiet resolved against the section |
| Commands.AssembleAndExecute | pyntel4004/src/cli.py:313-321 | the calls after the checks are those AsmDispatch describes: assemble; then, only if it succeeded and exec is truthy, EXEC and execute('rom'); then, only if execute succeeded, BLANK, ACC, CARRY, BLANK |
| Commands.Dis | pyntel4004/src/cli.py:338-358 | the step-by-step dis body agrees with DisRun: core check, configuration stage, check_inst after the merge, then processor, retrieve (not quiet) and disassemble |
| Commands.Exe | pyntel4004/src/cli.py:370-393 | the step-by-step exe body agrees with ExeRun: core check, configuration stage, processor, then retrieve and execute, with the unbound `object_file` when no configuration file was given |
| CommandProperties.CoreCheckedFirst | pyntel4004/src/cli.py:283-284 | without the core every command fails with CoreNotInstalled, whatever the configuration file, before any call |
| CommandProperties.MissingSectionRejected | pyntel4004/src/cli.py:296-298 | a loaded file without the command's section is "No '<cmd>' section in configuration file" on --config, for asm, dis and exe, before any call |
| CommandProperties.LoadFailurePropagates | pyntel4004/src/cli.py:286-287 | a configuration file that fails to load ends every command with the loader's failure, before any call |
| CommandProperties.AsmAssemblesIffNoFailure | pyntel4004/src/cli.py:300-313 | `assemble` is called exactly when asm does not fail, and a failing asm has made no call other than creating the processor |
| CommandProperties.AsmValidationOrder | pyntel4004/src/cli.py:304-312 | after the configuration stage: quiet-and-monitor is checked first (even with no --type), then the ('None',) type, then check_type |
| CommandProperties.AsmExplicitQuietMonitorRejected | pyntel4004/src/cli.py:304-307 | --quiet with --monitor is BadParameter whatever the section holds, once the configuration stage passes |
| CommandProperties.AsmExecuteChain | pyntel4004/src/cli.py:314-321 | `execute` is called exactly when `assemble` succeeded and exec is truthy; the messages are EXEC, then BLANK, ACC, CARRY, BLANK only if `execute` succeeded; EXEC comes directly before `execute` |
| CommandProperties.AsmInputAndTypeScenario | pyntel4004/src/cli.py:300-313 | `asm --input a.asm --type OBJ` without a configuration file assembles once, passing quiet as None, with no execute chain |
| CommandProperties.LowerCaseTypesAccepted | pyntel4004/src/cli.py:119-125 | `--type obj --type h` is accepted, because tokens are compared after upper-casing |
| CommandProperties.AllWithObjRejected | pyntel4004/src/cli.py:131-138 | `--type ALL --type OBJ` is the ALL-with-others usage error |
| CommandProperties.RepeatedAllAccepted | pyntel4004/src/cli.py:131-138 | `--type ALL --type all` is accepted, because repeating ALL does not count as an other type |
| CommandProperties.DisCountInRange | pyntel4004/src/cli.py:354-358 | a dis that succeeds makes exactly processor, retrieve (not quiet), disassemble, with a count in [1, 4096] |
| CommandProperties.DisSectionInstChecked | pyntel4004/src/cli.py:93-94 | an out-of-range `inst` in the section is rejected by check_inst just as --inst would be |
| CommandProperties.DisInstTooLargeScenario | pyntel4004/src/cli.py:354 | `dis --object rom.bin --inst 5000` fails the range check before any call |
| CommandProperties.DisObjectOnlyFromSection | pyntel4004/src/cli.py:88-99 | with --config, giving --object, or a section without `object`, ends in the unbound `object_file` |
| CommandProperties.DisLabelsWithSection | pyntel4004/src/cli.py:95-98 | with a dis section, retrieve gets the section's object and disassemble gets the section's labels only when --labels is off and the key exists, else True |
| CommandProperties.ExeWithoutConfigUnbound | pyntel4004/src/cli.py:376-391 | exe without --config fails on the unbound `object_file` after creating the processor, even with --object |
| CommandProperties.ExeWithSection | pyntel4004/src/cli.py:378-393 | with an exe section, retrieve gets --object if given, else the section's `object`, and retrieve and execute always run quiet |

## Left out

- Argument parsing by click, including the decorators, `--help`, `--version` and the `cli` group. The commands take the already-parsed values.
- `get_config`'s file I/O and TOML parsing. Their outcome is the input `ConfigFile`.
- Top-level configuration keys whose value is not a table are not modelled.
- TOML floats, dates and inline tables used as option values are not among the modelled values.
- `is_core_installed` is replaced by a boolean input, because it is an import-system probe.
- `getcoreversion`, the `pkg_resources` version lookups and `excepthook` are left out. They are package introspection and process-level error printing.
- The emulation core is left out: `Processor`, `assemble`, `disassemble`, `retrieve`, `execute` and `print_messages`. Each call is a trace entry, and the results `asm` branches on are inputs.
- The processor object, the origin argument 0 and `retrieve`'s other results are not recorded in the trace.
- `str(type_type)` is recorded as the value it renders.
- Failures raised inside the emulation core are not modelled, for example `retrieve` given None.
- PyValues.Upper: only ASCII letters are upper-cased. Python's `str.upper` also maps a few other letters to ASCII, for example dotless `ı` to `I`, so Python accepts a token such as `bın` that the model rejects.
- Python's `True == 1` is not modelled. Values are only compared with None, with strings and with the tuple `('None',)`, and for those comparisons the datatype's equality gives Python's answer.
