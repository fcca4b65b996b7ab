# Tutorial compiler model

This project models the core of `tutorial/create_app_from_yml.py`. The script reads a YAML
description of an interactive tutorial: it names dashboard, web service, terminal and IDE
settings, then lists the tutorial's states, and each state holds messages and frontend
instructions. The script then does three things:

- `validate_config` checks the description against a reference schema and a few domain rules.
- `get_frontend_config` derives the frontend's configuration from it.
- `get_app_fsm` compiles the states into the `on_enter_<i>` methods of a finite-state machine.
  Each method queues the state's messages and then sends one frontend payload per instruction.

The model works on the loaded document, not on YAML text. `Values.Value` holds strings,
integers, booleans, lists and mappings, and a mapping is an association list in Python's
insertion order. The few Python operators the script applies are written out:

- `==`, where `True == 1`;
- `in`, as list membership, dict key membership or substring;
- iteration and `len`.

The logger is replaced by a sequence of `Diagnostics.Diagnostic` values in the order the
checks fire. Each value has a severity, which check fired and, where the log line names
them, the key, the value and the state number.

One module per concern:

- `Values`, `Lists`, `Diagnostics`, `Config`: the document, loops as concatenations of
  per-iteration parts, the log, and section access.
- `Validator` (`validate_config`): every loop is a method with invariants. Each method is proved
  equal to a specification function that lists its diagnostics (`Diagnose`). Lemmas then say
  what the diagnostics mean: which inputs are reported, under which name, and that the verdict
  is `True` exactly when the configuration is valid.
- `Frontend` (`get_frontend_config`): a chain of `pop` and item assignments on mappings. Its
  contract says what every key of the result looks up to.
- `Dispatcher`: the `if`/`elif` chain on a state's key in `get_app_fsm`. It is read as a table
  of the keys it matches, and one lemma per branch says exactly which keys select it.
- `Compiler` (`get_app_fsm`): the state loop and the key loop. They are proved against
  specification functions, and lemmas prove these properties:
  - an `ide.read` is sent at most once per state;
  - payloads keep key order;
  - every error and warning is reported with its state number;
  - the program is produced exactly when no entry is a bad instruction.

## Model

| member | source | states |
|---|---|---|
| Values.Lookup | tutorial/create_app_from_yml.py:34 | `d.get(k)` finds a value exactly when `k in d` |
| Values.Put | tutorial/create_app_from_yml.py:109-115 | `d[k] = v`: `k` then looks up `v`, every other key looks up what it did, and distinct keys stay distinct |
| Values.Pop | tutorial/create_app_from_yml.py:103-107 | `d.pop(k)` on a key that is present (a missing key raises `KeyError`): `k` is gone, every other key looks up what it did, and distinct keys stay distinct |
| Values.Eq | tutorial/create_app_from_yml.py:161 | Python `==` on scalars: every value equals itself; two values of one type are equal only when identical (for mappings this includes key order, see Left out); an int and a bool are equal exactly when the int is the bool's 0 or 1; no other two types are ever equal |
| Values.Contains | tutorial/create_app_from_yml.py:61-93 | Python `in`: on a dict it is key membership, on a string it holds exactly when the string occurs at some position |
| Values.SubstringAt | tutorial/create_app_from_yml.py:74-77 | when `deployButtonText` is a string, `'TODEPLOY' in` it is a substring search, which holds exactly when the word occurs at some position |
| Values.IterContained | tutorial/create_app_from_yml.py:33-61 | `Values.Iter` is what `for` visits: every item it visits over a list, a dict or a string is `in` that container, and over a dict it visits exactly the keys `in` the dict |
| Validator.CheckKeys | tutorial/create_app_from_yml.py:33-36 | the loop over one level of the schema logs exactly `KeyDiags`, one error per schema key that is missing or has another type; the flag is cleared exactly when the level does not conform, and exactly when an error was logged |
| Validator.CheckSections | tutorial/create_app_from_yml.py:38-42 | the walk of the four sections logs the concatenation of the per-section reports in section order; the flag holds exactly when every section conforms |
| Validator.CheckLayouts | tutorial/create_app_from_yml.py:60-63 | one error per entry of `enabledLayouts` outside the eight allowed layouts, in order; the flag holds exactly when every entry is allowed |
| Validator.CheckFields | tutorial/create_app_from_yml.py:65-88 | the five single checks log exactly `FieldReport`; the flag holds exactly when the layout is enabled, the menu item is `terminal` or `console`, the four deploy texts are present, and `states` is a list of at least two |
| Validator.CheckState | tutorial/create_app_from_yml.py:91-95 | one state: a warning when it has no messages, an error when its messages are not a list; the flag holds exactly when the messages are well typed |
| Validator.CheckStates | tutorial/create_app_from_yml.py:90-95 | the state loop logs each state's report in order, numbered from 1; the flag holds exactly when every state's messages are well typed, and exactly when no error was logged |
| Validator.CheckDomain | tutorial/create_app_from_yml.py:44-95 | the additional checks log exactly `DomainDiags` in source order; the flag holds exactly when no error was logged |
| Validator.Validate | tutorial/create_app_from_yml.py:25-97 | `validate_config` logs exactly `Diagnose` and returns `True` exactly when no error was logged, and exactly when `ValidConfig` holds |
| Validator.ReportErrors | tutorial/create_app_from_yml.py:34-36 | a single check reports an error exactly when it fires at error severity |
| Validator.StateCheckErrors | tutorial/create_app_from_yml.py:91-95 | a state's report holds an error exactly when its messages are present but not a list |
| Validator.KeyDiagsMembers | tutorial/create_app_from_yml.py:33-42 | a schema level reports exactly one path for each key that is missing or has another type, and nothing else |
| Validator.KeyDiagsErrors | tutorial/create_app_from_yml.py:33-42 | a schema level reports an error exactly when it does not conform |
| Validator.ComponentsErrors | tutorial/create_app_from_yml.py:38-42 | the section walks report an error exactly when some section does not conform |
| Validator.SchemaDiagsErrors | tutorial/create_app_from_yml.py:33-42 | the whole schema walk reports an error exactly when the top level or some section does not conform |
| Validator.LayoutErrors | tutorial/create_app_from_yml.py:60-63 | the layout loop reports an error exactly when some enabled layout is not allowed |
| Validator.StateErrors | tutorial/create_app_from_yml.py:90-95 | the state loop reports an error exactly when some state's messages are not a list |
| Validator.FieldReportEmpty | tutorial/create_app_from_yml.py:65-88 | the single checks report nothing exactly when all five rules hold |
| Validator.FieldErrors | tutorial/create_app_from_yml.py:65-88 | the single checks report an error exactly when one of the five rules fails |
| Validator.DomainDiagsErrors | tutorial/create_app_from_yml.py:44-95 | the additional checks report an error exactly when the domain rules fail; the speed warning never counts |
| Validator.DiagnoseErrorFree | tutorial/create_app_from_yml.py:25-97 | no error is reported exactly when the configuration conforms to the schema at both levels and satisfies the domain rules |
| Validator.TopKeyMembers | tutorial/create_app_from_yml.py:33-36 | the top-level walk reports a one-key path exactly for a schema key missing from the configuration or of another type |
| Validator.SectionKeyMembers | tutorial/create_app_from_yml.py:39-42 | the walk of section `c` reports `[c, k]` exactly for a key `k` of the schema's section that is missing or of another type in the configuration's |
| Validator.SchemaDiagsMembers | tutorial/create_app_from_yml.py:33-42 | the schema walk reports a path exactly when it names a schema violation; every violation is reported, not only the first |
| Validator.LayoutDiagsMembers | tutorial/create_app_from_yml.py:60-63 | the layout loop reports each disallowed layout by value, and nothing else |
| Validator.StateDiagsMembers | tutorial/create_app_from_yml.py:90-95 | a line of the state loop's log comes from the report of one state, numbered from 1 |
| Validator.StateDiagsKinds | tutorial/create_app_from_yml.py:90-95 | the state loop logs only the unnumbered no-messages warning and numbered messages-type errors |
| Validator.MessagesNotListMembers | tutorial/create_app_from_yml.py:93-95 | state number `i` is reported exactly when `1 <= i <= len(states)` and its messages are present but not a list |
| Validator.NoMessagesMembers | tutorial/create_app_from_yml.py:91-92 | the no-messages warning is logged exactly when some state has no messages |
| Validator.SchemaDiagsKinds | tutorial/create_app_from_yml.py:33-42 | the schema walk logs nothing but key mismatches, all errors |
| Validator.FieldReportKinds | tutorial/create_app_from_yml.py:65-88 | the single checks log only their five errors |
| Validator.DomainDiagsKinds | tutorial/create_app_from_yml.py:44-95 | a line of the additional checks comes from one of its four parts; the speed part is exactly the out-of-range warning; each part logs only its own kinds |
| Validator.DiagnoseOutsideSchema | tutorial/create_app_from_yml.py:25-97 | a line other than a key mismatch is in the whole log exactly when the additional checks log it |
| Validator.KeyMismatchReported | tutorial/create_app_from_yml.py:33-42 | `validate_config` reports a key path exactly when that schema key is missing or has another type |
| Validator.UnknownLayoutReported | tutorial/create_app_from_yml.py:60-63 | a layout is reported as not valid exactly when it is in `enabledLayouts` and outside the allowed list |
| Validator.MessagesNotListReported | tutorial/create_app_from_yml.py:93-95 | state number `i` (from 1) is reported exactly when its messages are present but not a list |
| Validator.WarningsReported | tutorial/create_app_from_yml.py:47-48 | the only warnings are the message-speed warning and the no-messages warning |
| Validator.ValidLayoutsAreStrings | tutorial/create_app_from_yml.py:60-65 | on a configuration that validates, every enabled layout is an allowed string, so `==` against an enabled layout is exact equality |
| Validator.SpeedWarned | tutorial/create_app_from_yml.py:45-48 | the speed warning is logged exactly when the speed is below 300 or above 600 |
| Validator.NoMessagesWarned | tutorial/create_app_from_yml.py:91-92 | the no-messages warning is logged exactly when some state has no messages |
| Frontend.FrontendConfig | tutorial/create_app_from_yml.py:99-117 | `get_frontend_config`: no `webservice`, `terminal` or `states`; the dashboard loses `messageSpeed`, gets `hideMessages: False` and the four moved fields with the source values; the ide loses `patterns` and gets `autoSaveInterval: 444`; the fixed `site` block is added; every other key at every level looks up what it did in the input |
| Frontend.ProjectTop | tutorial/create_app_from_yml.py:103-115 | the top level: the three backend sections are gone, the edited `dashboard` and `ide` and the `site` block are in, and every other key is unchanged |
| Frontend.AddFrontendSections | tutorial/create_app_from_yml.py:106-115 | the edited `dashboard` and `ide` sections stand under their keys, the fixed `site` block is added, and every other key is unchanged |
| Frontend.RemoveBackendSections | tutorial/create_app_from_yml.py:103-105 | the three pops leave no `webservice`, `terminal` or `states` and change no other key |
| Frontend.ProjectDashboard | tutorial/create_app_from_yml.py:106-113 | the dashboard: no `messageSpeed`, `hideMessages` is `False`, the four moved fields look up their source values, and other keys are unchanged |
| Frontend.MoveFields | tutorial/create_app_from_yml.py:110-113 | the four copied fields look up their values in `webservice` and `terminal`, and other keys are unchanged |
| Frontend.MoveWebserviceFields | tutorial/create_app_from_yml.py:110-112 | the three fields copied from `webservice` look up their values there, and other keys are unchanged |
| Frontend.ProjectIde | tutorial/create_app_from_yml.py:107-114 | the ide section: `patterns` popped (line 107), `autoSaveInterval` set to 444 (line 114), and other keys unchanged |
| Frontend.ValidatedIsProjectable | tutorial/create_app_from_yml.py:103-113 | when the schema names every key the projection reads, a configuration that validated can be projected without a `KeyError` |
| Frontend.ConformsHasKey | tutorial/create_app_from_yml.py:39-40 | a conforming section has every key its schema section has |
| Dispatcher.Wire | tutorial/create_app_from_yml.py:155-186 | every payload dict has distinct keys and its `'key'` field names the payload's channel |
| Dispatcher.DispatchWireFrontend | tutorial/create_app_from_yml.py:155-173 | the exact dict each dashboard, web service and terminal instruction sends: the channel under `'key'` and the instruction's value under its field (`layout`, `iframeUrl`, `showUrlBar`, `terminalMenuItem`, `command`); `reloadIframe` sends the channel alone |
| Dispatcher.DispatchWireIde | tutorial/create_app_from_yml.py:175-186 | `ide.patterns` sends an `ide.read` with the state's `ide.selectFile` as `filename` when present and the value as `patterns`; `ide.selectFile` alone sends just the `filename`; `ide.showDeployButton` sends its value on `frontend.ide` |
| Dispatcher.Dispatch | tutorial/create_app_from_yml.py:145-189 | one key's outcome: a failure is exactly a disabled-layout or a bad-menu-item error for this state and value, and a warning is exactly an unsupported instruction for this state, key and value |
| Dispatcher.FindFound | tutorial/create_app_from_yml.py:147-186 | a key that selects a branch is matched by a row of the chain with that branch |
| Dispatcher.FindMissing | tutorial/create_app_from_yml.py:187-189 | a key falls through to `else` exactly when no row matches it |
| Dispatcher.ClassifyUnknown | tutorial/create_app_from_yml.py:187-189 | a key reaches `else` exactly when the chain does not match it |
| Dispatcher.ClassifyReserved | tutorial/create_app_from_yml.py:147-148 | exactly `buttons` and `messages` are passed over |
| Dispatcher.ClassifyLayout | tutorial/create_app_from_yml.py:150 | exactly `dashboard.layout` selects the layout branch |
| Dispatcher.ClassifyIframeUrl | tutorial/create_app_from_yml.py:157 | exactly `webservice.iframeUrl` selects its branch |
| Dispatcher.ClassifyShowUrlBar | tutorial/create_app_from_yml.py:159 | exactly `webservice.showUrlBar` selects its branch |
| Dispatcher.ClassifyReloadIframe | tutorial/create_app_from_yml.py:161 | exactly `webservice.reloadIframe` selects its branch |
| Dispatcher.ClassifyMenuItem | tutorial/create_app_from_yml.py:164 | exactly `terminal.terminalMenuItem` selects its branch |
| Dispatcher.ClassifyTerminalWrite | tutorial/create_app_from_yml.py:170 | exactly `terminal.write` selects its branch |
| Dispatcher.ClassifyConsoleWrite | tutorial/create_app_from_yml.py:172 | exactly `console.write` selects its branch |
| Dispatcher.ClassifyPatterns | tutorial/create_app_from_yml.py:175 | exactly `ide.patterns` selects its branch |
| Dispatcher.ClassifySelectFile | tutorial/create_app_from_yml.py:180 | exactly `ide.selectFile` selects its branch |
| Dispatcher.ClassifyShowDeployButton | tutorial/create_app_from_yml.py:185 | exactly `ide.showDeployButton` selects its branch |
| Dispatcher.DispatchFails | tutorial/create_app_from_yml.py:150-168 | a key is an error exactly when it sets a layout not in `enabledLayouts`, or a menu item other than `terminal` and `console` |
| Dispatcher.DispatchWarns | tutorial/create_app_from_yml.py:161-189 | a key is a warning exactly when the chain does not match it, or when it is `webservice.reloadIframe` with a value other than `True` |
| Dispatcher.DispatchSkips | tutorial/create_app_from_yml.py:147-182 | a key is passed over silently exactly when it is `buttons` or `messages`, or `ide.selectFile` in a state that has `ide.patterns` |
| Dispatcher.DispatchFrontendPayloads | tutorial/create_app_from_yml.py:150-173 | the payload each dashboard, web service and terminal instruction sends, carrying the instruction's value |
| Dispatcher.DispatchIdePayloads | tutorial/create_app_from_yml.py:175-186 | `ide.patterns` reads the state's `ide.selectFile` file when there is one; `ide.selectFile` reads on its own only without patterns; `ide.showDeployButton` sends its value |
| Dispatcher.DispatchReads | tutorial/create_app_from_yml.py:175-184 | a key sends an `ide.read` exactly when it is `ide.patterns`, or `ide.selectFile` without patterns |
| Dispatcher.EntryLogged | tutorial/create_app_from_yml.py:150-189 | an entry logs a disabled layout, a bad menu item or an unsupported instruction exactly for its own state number, key and value under the matching condition |
| Dispatcher.DispatchLogs | tutorial/create_app_from_yml.py:145-189 | what a key logs is its `EntryLog`, and it fails exactly on a bad instruction |
| Compiler.OutcomeAt | tutorial/create_app_from_yml.py:145-189 | the outcome of key `j` is the dispatch of that key and its value |
| Compiler.OutcomesAt | tutorial/create_app_from_yml.py:145-189 | the outcome of key `j` is the dispatch of that key in the state's context |
| Compiler.CompileApp | tutorial/create_app_from_yml.py:120-195 | `get_app_fsm` returns exactly `Program(config)` and logs exactly the compile log; it returns a program exactly when no error was logged |
| Compiler.CompileStates | tutorial/create_app_from_yml.py:134-191 | the state loop yields the methods `Steps`, logs `CompileDiags`, and succeeds exactly when no state fails and exactly when no error was logged |
| Compiler.CompileState | tutorial/create_app_from_yml.py:136-191 | one `on_enter_<i>` method: the message batch then the payloads, the state's log, and whether no key failed |
| Compiler.CompileKey | tutorial/create_app_from_yml.py:146-191 | one pass of the key loop adds the key's payload statement and log line, and reports whether it failed |
| Compiler.StateDiagsErrors | tutorial/create_app_from_yml.py:145-189 | a state's log holds an error exactly when one of its keys failed |
| Compiler.ResultsSound | tutorial/create_app_from_yml.py:135-191 | each compiled state's log holds an error exactly when the state fails |
| Compiler.DiagsUpToErrors | tutorial/create_app_from_yml.py:135-195 | the log of the first `n` states holds an error exactly when one of them failed |
| Compiler.SentAreSends | tutorial/create_app_from_yml.py:191 | the key loop only adds `send_message` statements |
| Compiler.MessageBatchFirst | tutorial/create_app_from_yml.py:138-143 | `Compiler.MessageBatch` as placed in a state's actions: the messages are queued once, first, and only when the state has messages, with the state's buttons when it has them |
| Compiler.PayloadSent | tutorial/create_app_from_yml.py:145-191 | a payload is sent exactly when one of the state's keys emits it |
| Compiler.PayloadOrder | tutorial/create_app_from_yml.py:145-191 | payloads are sent in the order of the keys that emit them |
| Compiler.CountSent | tutorial/create_app_from_yml.py:191 | the key loop sends as many `ide.read` payloads as there are keys that emit one |
| Compiler.ReadCountUnique | tutorial/create_app_from_yml.py:175-184 | when only one key can emit an `ide.read`, there is at most one |
| Compiler.ReadAt | tutorial/create_app_from_yml.py:175-184 | which keys of a state send an `ide.read` and what file and patterns it carries |
| Compiler.ReadingEntry | tutorial/create_app_from_yml.py:175-184 | in a state with distinct keys, a single entry sends the read: `ide.patterns` when present, otherwise `ide.selectFile`; it carries the state's file and patterns |
| Compiler.IdeReadOnce | tutorial/create_app_from_yml.py:175-184 | a state with `ide.patterns`, `ide.selectFile` or both sends exactly one `ide.read` with both values; a state with neither sends none |
| Compiler.StepsUpToAt | tutorial/create_app_from_yml.py:135-136 | the `m`-th of the first `n` methods is state number `m + 1`'s |
| Compiler.DiagsUpToHas | tutorial/create_app_from_yml.py:135-189 | what a state logs is in the log of every prefix that contains it |
| Compiler.DiagsUpToSource | tutorial/create_app_from_yml.py:135-189 | every line of a prefix's log comes from one of its states |
| Compiler.CompilesUpToAll | tutorial/create_app_from_yml.py:150-195 | the first `n` states compile exactly when none of them fails |
| Compiler.StepsShape | tutorial/create_app_from_yml.py:135-136 | one `on_enter_<n>` method per state, numbered from 1 in state order, with that state's body |
| Compiler.LoggedExactly | tutorial/create_app_from_yml.py:145-189 | each key logs exactly its `EntryLog` and fails exactly on a bad instruction |
| Compiler.LoggedSource | tutorial/create_app_from_yml.py:145-189 | a line of a state's log comes from one of its keys |
| Compiler.LoggedReported | tutorial/create_app_from_yml.py:145-189 | what one key logs is in its state's log |
| Compiler.DiagSource | tutorial/create_app_from_yml.py:135-189 | every line of the compile log comes from one entry of one state |
| Compiler.DiagReported | tutorial/create_app_from_yml.py:135-189 | whatever any entry logs reaches the compile log; an error does not stop the loop |
| Compiler.StateFailsExactly | tutorial/create_app_from_yml.py:150-168 | a state fails exactly when one of its entries is a bad instruction |
| Compiler.CompilesExactly | tutorial/create_app_from_yml.py:192-195 | `get_app_fsm` returns a program exactly when no entry of any state is a bad instruction, and the program is then one method per state |
| Compiler.DisabledLayoutReported | tutorial/create_app_from_yml.py:150-154 | state number `m + 1` is reported for layout `v` exactly when it has an entry `dashboard.layout: v` and `v` is not enabled |
| Compiler.InvalidMenuItemReported | tutorial/create_app_from_yml.py:164-168 | state number `m + 1` is reported for item `v` exactly when it has an entry `terminal.terminalMenuItem: v` and `v` is neither `terminal` nor `console` |
| Compiler.UnsupportedReported | tutorial/create_app_from_yml.py:161-189 | state number `m + 1` is warned about for `key: v` exactly when it has that entry and the chain does not match the key, or is `webservice.reloadIframe` with a value other than `True` |

## Left out

- Reading files is not modelled: `open_and_parse_config`, the `example_app.yml` schema, `app.yml` and the two output files. The configuration and the schema are parameters.
- The script's top-level sequence and its exit codes (lines 197-213) are not modelled.
- Log text, `LOG.info` progress lines and the logging setup are left out. Each log line is a `Diagnostic` naming its check and the values the text interpolates.
- The text of `app_fsm.py` is not modelled:
  - the class preamble;
  - the `json.dumps(...)[:-2]` rendering of the messages;
  - the `repr` of buttons and payloads.
  Each method is modelled as the statements it would contain (`Compiler.Action`, `Dispatcher.Payload`). So the model does not capture what the `[:-2]` trim produces for an empty message list. Nor does it capture that a state with no `messages` and no key that sends a payload (only `buttons`, say, or only unsupported keys) gets an `on_enter_<i>` header with an empty body (line 136), so the written `app_fsm.py` would not import. The model gives that state an empty action list and compiles it, which is what the return value at lines 192-193 does, since it does not depend on the text.
- The frontend result is the mapping before `yaml.dump`. Key order in the dumped text is not modelled.
- Values.Value: floats, `null` and YAML timestamps (`datetime.date`) are not modelled, and mapping keys are strings only. A YAML document with them is outside the model.
- Values.Value: values have no identity, so YAML anchors and aliases (`&a`/`*a`), which `safe_load` turns into one shared object, are not modelled. When another top-level key aliases `dashboard` or `ide`, the source's `pop` and item assignments at lines 106-114 change that key too. `Frontend.FrontendConfig` instead promises it is unchanged.
- Values.Eq: only a top-level int and bool compare numerically. Lists and mappings compare as identical values: Python's `[1] == [True]` is false in the model, and so is `{'a': 1, 'b': 2} == {'b': 2, 'a': 1}`, because a mapping's key order counts.
  - The difference can only show in `in` on a list that holds containers. That happens at `value in enabledLayouts` (lines 65 and 151).
  - A configuration whose `enabledLayouts` holds a container fails the check at line 61. `Validator.ValidLayoutsAreStrings` proves that on every configuration that validates, the enabled layouts are strings and `==` against them is exact.
  - So the difference never reaches the compile pass that runs after a successful validation.
- Crashes are left out. A `KeyError`, `TypeError` or `AttributeError` the source would raise is excluded by a precondition (`Validatable`, `Projectable`, `Compilable`), not modelled as an outcome.
- Compiler.CompileApp: requires every state to be a mapping (`Compilable`), because `state.items()` at line 145 raises `AttributeError` otherwise. `validate_config` does not check this: a list of two strings as `states` passes validation. The script then ends in a traceback instead of its exit codes. The model does not represent that run.
- Validator.Validate: requires the four sections to be mappings in both files. For `dashboard`, `terminal` and `ide` the source needs this too: the domain checks index them at lines 47, 70 and 74. `webservice` is the exception. The source still runs when the configuration's `webservice` is a list or string that contains none of the schema's keys.
- Validator.NoMessagesMembers: the no-messages warning carries no state number, because the source's text at line 92 is not formatted and names no state.
- Frontend.FrontendConfig: says what every key looks up to. It does not state that the result's keys are distinct or where in the mapping the added keys go.
- `Dispatcher.Context` reads the enabled layouts and the state's `ide.*` lookups before dispatch. The source reads the same values inside the chain, and neither can change during the loop.
