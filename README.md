# A verified model of the Conan client's command core, its Meson helper and its pkg-config tables

This project models three small parts of the Conan package manager in Dafny and proves properties of them.

**The command front end** (`conans/client/command.py`):
- The two argparse actions:
  - `Extender` collects every occurrence of a repeatable flag into one list.
  - `OnceArgument` refuses a flag given twice.
- The command registry (`Command._commands`). It turns the bound methods into a table from public name to handler.
- The dispatcher (`Command.run`). It looks up the first token, calls the handler with the remaining tokens, and maps whatever the handler raised to an exit code. The `except` clauses are tried in order.
- The flag-conflict checks of `inspect`, `create`, `download`, `remove`, `upload` and `get`.

**The Meson build helper** (`conan/tools/meson/meson.py`):
- It turns an option list and positional arguments into `meson ...` command lines.
- It logs each line and hands it to the recipe's `run`.
- `run_setup` and `configure` grow the caller's option list in place.

**The pkg-config package model** (`conan/tools/gnu/pkgconfig_pkg/__init__.py`):
- How a variable and a line print.
- The twelve known keywords.
- The keyword table and the variable table of a package, with their set/remove/return-previous and get operations.

Modules:
- `Common`: shared helpers.
  - `Option` and `Result`.
  - `startswith`.
  - Truthiness of an optional string.
  - `str()` of an integer, and the number its digits denote.
- `ArgActions` (`arg_actions.dfy`): the argparse actions.
  - The namespace and the parser's table of defaults are maps from destination to value.
  - `ParseSession` holds them as fields that the actions update in place.
- `Registry` (`registry.dfy`): `_commands`.
- `Dispatch` (`dispatch.dfy`): `run`.
  - Exceptions are a datatype.
  - The exit codes are abstract constructors, because their numbers are defined in `conans/cli/exit_codes`, which is not part of this model.
- `FlagChecks` (`flag_checks.dfy`): the per-command checks, each a function from the parsed flags to the request or to the exception message.
- `MesonTool` (`meson.dfy`): the Meson helper.
  - `class Meson` keeps the log lines and the commands run.
  - `class OptionList` is the caller's list that `run_setup` and `configure` grow.
- `PkgConfig` (`pkgconfig.dfy`): the pkg-config model. `class PkgConfigPkg` holds the two dictionaries.

Python semantics the model makes explicit:
- **Truthiness.** A flag is "given" when it is neither `None` nor empty.
- **`set_defaults` rewrites the default.** `parser.set_defaults(dest=None)` also rewrites the `default` of every action with that destination. So the default an action compares against is the one in the parser's table when there is one (`EffectiveDefault`).
- **Exception classes.** `isinstance` follows the hierarchy: the two invalid-configuration errors are `ConanException`s, and `KeyboardInterrupt` and `SystemExit` are not `Exception`s.
- **`SystemExit` with no code.** A `SystemExit` whose code is `None` passes the `!= 0` test. The handler then evaluates `"%d" % None`, and the resulting `TypeError` escapes `run` (`Escapes`).
- **Unknown and missing commands.** An unknown command raises `KeyError`, and an empty argument list raises `IndexError`. Both land in the generic `except Exception` clause.

Facts about the code the model keeps:
- `run` never calls `_print_similar`.
- A `SystemExit` returns its own code, not a general error.
- An unknown command's `KeyError` goes through the generic clause, which also prints a traceback.
- A later method with the same public name overwrites the earlier one in the table; nothing refuses the collision.

## Model

| member | source | states |
|---|---|---|
| ArgActions.Extend | conans/client/command.py:33-50 | One `Extender` call leaves a list at the destination and changes no other destination. The parser default for the destination is either unchanged or set to `None`. |
| ArgActions.ExtendFirstOccurrence | conans/client/command.py:35-50 | A destination that holds no list, or still equals its default, restarts as a fresh list holding just this occurrence's strings. That list is `[]`, not `None`, when the occurrence adds nothing. The parser default becomes `None`. |
| ArgActions.ExtendContinues | conans/client/command.py:35-50 | Once the destination holds a list and its default is `None`, every later occurrence appends its strings in order. No other destination and no default changes. |
| ArgActions.ExtendAccumulates | conans/client/command.py:25-50 | However often the flag is given, the destination ends up holding every value in command-line order, and the default becomes `None`. |
| ArgActions.SingleValuesCounted | conans/client/command.py:44-48 | When every occurrence adds exactly one string (a plain flag, or an `nargs=1` flag such as `-o`), the list has one element per occurrence, and element `i` is occurrence `i`'s string. |
| ArgActions.ExtendStopsRestarting | conans/client/command.py:35-42 | After a restart the default reads `None` and the destination holds a list, so the next occurrence appends instead of starting over. |
| ArgActions.OptionsExample | conans/client/command.py:26-31 | `-o qt:value -o mode:2` leaves `['qt:value', 'mode:2']`. |
| ArgActions.Once | conans/client/command.py:57-61 | Fails iff the destination is unset, or it is already non-`None` while the action's default is `None`; the failure message is "`<opt>` can only be specified once", with `<opt>` the spelling this occurrence used (an unset destination gives the missing-attribute error instead). On success only that destination changes, to the new value. |
| ArgActions.OnceAtMostOnce | conans/client/command.py:53-61 | For a flag whose default is `None`, parsing succeeds iff the flag is given at most once. Given once, it holds that value. Given twice or more, it is refused with the once-only message naming the spelling of the second occurrence. |
| ArgActions.OnceNamesRepeatedSpelling | conans/client/command.py:57-60 | `-r a --remote b` is refused with "--remote can only be specified once". |
| ArgActions.OnceOverwrites | conans/client/command.py:57-61 | A flag whose default is not `None` is never refused: the last occurrence wins. |
| ArgActions.ParseSession.Extender | conans/client/command.py:33-50 | The in-place update of the namespace and the defaults equals `Extend` of the old state. |
| ArgActions.ParseSession.OnceArgument | conans/client/command.py:57-61 | The in-place update equals `Once` of the old state. On a refusal it returns the error and leaves the state unchanged. |
| Registry.Registered | conans/client/command.py:719-731 | When the last member is exposed, the table binds its public name to it, whatever earlier members did. |
| Registry.Commands | conans/client/command.py:719-731 | The loop over the members builds exactly the table `Registered` describes. |
| Registry.RegisteredNames | conans/client/command.py:723-730 | A name is a key iff some member whose name has no leading `_`, and whose docstring is non-empty and not `HIDDEN`, is published under it (`export_pkg` as `export-pkg`). |
| Registry.RegisteredHandler | conans/client/command.py:723-730 | A key is bound to the last exposed member published under it. |
| Registry.RegisteredExposed | conans/client/command.py:723-730 | Every entry of the table is an exposed member, stored under its own public name. |
| Registry.PublicNameInjective | conans/client/command.py:726-727 | Two distinct method names share a public name only for `export_pkg` and `export-pkg`. |
| Registry.RegisteredStep | conans/client/command.py:723-730 | Each member adds its public name to the table's keys iff it is exposed. |
| Registry.RegisteredAppend | conans/client/command.py:723-730 | The names offered by a concatenation of member lists are those offered by either part. |
| Registry.CommandTable | conans/client/command.py:719-731 | For the command class's own methods, the table's keys are exactly the eleven public commands. |
| Registry.RunIsHidden | conans/client/command.py:757-760 | `run` is not a key, because its docstring starts with `HIDDEN`. |
| Dispatch.FirstMatch | conans/client/command.py:768-785 | The clause chosen for an exception is one of the clauses, and the exception is an instance of its class. No earlier clause matches it. When no clause is chosen, no clause matches. |
| Dispatch.Handle | conans/client/command.py:763-792 | `run` lets an exception escape iff the handler raised `SystemExit(None)`. It returns the `SUCCESS` code silently iff the handler returned or was interrupted. A `SystemExit(0)`, such as argparse raises for `--help`, also ends silently with code 0; it is kept apart as `Status(0)` because the model's exit codes are abstract. The message is sanitized iff the exception is not a `ConanException`, `KeyboardInterrupt` or `SystemExit`. The general error code comes exactly from a plain `ConanException` or another `Exception`. |
| Dispatch.ClauseForOwnClass | conans/client/command.py:768-785 | The clause chain is total, and every subclass comes before its base class. So each exception is caught by the clause for its own class. |
| Dispatch.HandleByKind | conans/client/command.py:761-792 | No exception and `KeyboardInterrupt` both give success. `SystemExit(n)` gives `n`, reported iff `n != 0`, and `SystemExit(None)` escapes. The two invalid-configuration errors get their own codes. Any other `ConanException` gives the general error with its message. Anything else gives the general error with the sanitized message. |
| Dispatch.Run | conans/client/command.py:757-792 | A handler is invoked iff the argument list is non-empty and its first token is registered. It receives exactly the remaining tokens, and its outcome is mapped by the clause chain. Otherwise the result is the general error. |
| Dispatch.UnknownCommand | conans/client/command.py:762-765 | An unregistered first token invokes nothing and ends in the generic clause, with the `KeyError` text, which is `repr` of the token. |
| Dispatch.Repr | conans/client/command.py:765 | `repr` of a string starts and ends with its quote character: `"` only when the string holds `'` and no `"`, `'` otherwise. |
| Dispatch.ReprPlain | conans/client/command.py:765 | A token without `'`, backslash or control characters is printed as `'<token>'`. |
| Dispatch.ReprApostrophe | conans/client/command.py:765 | `repr("it's")` is `"it's"`, in double quotes. |
| Dispatch.InterruptIsSuccess | conans/client/command.py:768-770 | Cancelling a registered command with Ctrl-C yields success. |
| FlagChecks.CheckInspect | conans/client/command.py:125-132 | `--raw` with a non-empty `-a` or with `--json` is refused; the `-a` message is reported when both apply. Otherwise `--raw` becomes the single attribute, and the request is quiet iff `--raw` is given. |
| FlagChecks.InspectBareAttributeAccepted | conans/client/command.py:125-126 | `--raw` with a bare `-a` (an empty list) is accepted. |
| FlagChecks.CheckCreate | conans/client/command.py:236-243 | Refused iff exactly one of user and channel is given, with the reference in the message (`None` when absent). Otherwise `--test-folder None` skips the test stage, no `--test-folder` uses the default folder, and any other folder is used as named. |
| FlagChecks.CheckDownload | conans/client/command.py:301-323 | A full package reference together with `--package` is refused. A full reference supplies both the recipe text and the package (`id#rev`). Otherwise the reference is used as written, and `--package` draws a deprecation warning. |
| FlagChecks.DownloadReference | conans/client/command.py:311-316 | A reference with a user is sent as its `repr`. Without a user it is `repr` followed by `@`, or `<name>/<version>@#<revision>` when the reference has a revision; either way it carries `@`. |
| FlagChecks.PackageText | conans/client/command.py:317-318 | The text starts with the package id, and is longer than it iff the package has a revision, which then follows after `#`. |
| FlagChecks.CheckGet | conans/client/command.py:654-669 | The same rule as `download`, for a single package id. |
| FlagChecks.CheckRemove | conans/client/command.py:515-547 | Refused iff one of the conflicts applies, reported in checking order: `-q` with `-p` or `-b`; `-t` with ids; a missing pattern; a full package reference with `-p` ids. Otherwise `-t` removes system requirements by reference or by pattern, and anything else removes packages. |
| FlagChecks.RemoveBarePackagesFlag | conans/client/command.py:517-525 | A bare `-p` conflicts with `-q`, which tests whether `-p` is present, but not with `-t`, which tests whether it holds ids. |
| FlagChecks.CheckUpload | conans/client/command.py:594-614 | Refused iff `--query` is given with a full package reference, or `--force` with `--skip-upload`. Otherwise the policy is FORCE iff `--force`, and SKIP iff `--skip-upload`. |
| Common.TextOf | conans/client/command.py:239-240 | `'%s' %` any string, the empty one included, is the string itself, and `None` prints as `None`. |
| Common.IntString | conan/tools/meson/meson.py:82-83 | The decimal text of the job count is non-empty and starts with `-` iff the count is negative. |
| Common.NatString | conan/tools/meson/meson.py:82-83 | The text of a natural number is a non-empty run of digits with no leading zero. |
| Common.NatStringValue | conan/tools/meson/meson.py:82-83 | The digits written for a natural number denote that number. |
| Common.IntStringValue | conan/tools/meson/meson.py:82-83 | The text of a non-negative count denotes it. A negative count is written as `-` and then digits that denote its magnitude. |
| MesonTool.BuildCommandLine | conan/tools/meson/meson.py:14-21 | The loop that builds the command with `+=` produces exactly `CommandLine`: `meson`, then the sub-command, then each option's words in list order, then the positional arguments. |
| MesonTool.AppendOptions | conan/tools/meson/meson.py:15-19 | The option loop appends, in list order, exactly the text of each option's words. |
| MesonTool.AppendArguments | conan/tools/meson/meson.py:20-21 | The argument loop appends each positional argument after one space, in order. |
| MesonTool.CommandLineHead | conan/tools/meson/meson.py:14-21 | Every command line starts with `meson`, and with `meson <cmd>` when a sub-command is given. |
| MesonTool.CommandLineParts | conan/tools/meson/meson.py:14-21 | The command line is `meson`, then ` <cmd>` only when a sub-command is given, then the options' text, then the arguments' text, in that order. |
| MesonTool.OffOptionDropped | conan/tools/meson/meson.py:15-19 | An option whose value is `False` leaves no trace in the command line. |
| MesonTool.ToolchainOptionsShape | conan/tools/meson/meson.py:67-75 | `configure` adds exactly one machine file: `--cross-file` iff the cross file exists, else `--native-file`. It adds `-D prefix="<pkg>"` iff there is a package folder. |
| MesonTool.CompileLineWords | conan/tools/meson/meson.py:78-85 | The compile line is what `run` would build for the sub-command `compile` with the arguments `-C "<bf>"`, then `-j<n>` iff `n` is non-zero, then the target iff one is given. |
| MesonTool.Meson.Run | conan/tools/meson/meson.py:10-25 | Runs exactly `CommandLine(cmd, options, args)`. Logs it as "Meson cmd: …", or "Meson <name> cmd: …", or not at all. |
| MesonTool.Meson.RunSetup | conan/tools/meson/meson.py:27-47 | The caller's list gains a leading `--reconfigure` iff reconfiguring is asked for (the default) and `meson-private` exists. Then runs `meson setup` with the quoted build and source folders before the extra arguments. The default log name is "setup". |
| MesonTool.Meson.RunConfigure | conan/tools/meson/meson.py:49-60 | Runs `meson configure "<bf>"` followed by the extra arguments. The default log name is "configure". |
| MesonTool.Meson.Configure | conan/tools/meson/meson.py:62-76 | The caller's list ends as its old contents plus the toolchain options, with `--reconfigure` in front when it applies. The setup line runs with that list. The default log name is "configure". |
| MesonTool.Meson.Build | conan/tools/meson/meson.py:78-87 | Logs and runs exactly the compile line. |
| MesonTool.Meson.Install | conan/tools/meson/meson.py:89-93 | Runs the configure step's setup line, then `meson install -C "<bf>"`, in that order. |
| MesonTool.Meson.Test | conan/tools/meson/meson.py:95-100 | Runs `meson test -v -C "<bf>"` and logs nothing. |
| PkgConfig.VariableText | conan/tools/gnu/pkgconfig_pkg/__init__.py:4-6 | The text is the key, then `=`, then the value. |
| PkgConfig.SplitVariable | conan/tools/gnu/pkgconfig_pkg/__init__.py:4-6 | Reading a text back splits it at its first `=`; it reads back iff the text has one. |
| PkgConfig.VariableRoundTrip | conan/tools/gnu/pkgconfig_pkg/__init__.py:4-6 | A variable whose key holds no `=` reads back from its text as itself. |
| PkgConfig.LineText | conan/tools/gnu/pkgconfig_pkg/__init__.py:21-24 | The text is the content followed by the comment; an absent part prints as nothing. |
| PkgConfig.Lower | conan/tools/gnu/pkgconfig_pkg/__init__.py:49 | Lower-casing keeps the length and lowers each letter in place. |
| PkgConfig.LowerIdempotent | conan/tools/gnu/pkgconfig_pkg/__init__.py:49 | Lower-casing a lower-cased name changes nothing. |
| PkgConfig.ValidKeywordsLowerCase | conan/tools/gnu/pkgconfig_pkg/__init__.py:27-40 | Every key of the twelve-entry keyword table is already lower-case. |
| PkgConfig.SetEntry | conan/tools/gnu/pkgconfig_pkg/__init__.py:51-56 | A set returns what the key held before. Afterwards the key holds the new value, or is absent for `None`. Every other key is unchanged. |
| PkgConfig.SetEntryUndo | conan/tools/gnu/pkgconfig_pkg/__init__.py:51-56 | Setting a key back to the value the last set returned restores the table. |
| PkgConfig.KeywordKey | conan/tools/gnu/pkgconfig_pkg/__init__.py:49-50 | A name is accepted iff its lower-case form is a known keyword. Otherwise the `KeyError` carries the lower-cased name. |
| PkgConfig.SetKeywordIn | conan/tools/gnu/pkgconfig_pkg/__init__.py:48-56 | Fails with `KeyError` iff the lower-cased name is unknown. Otherwise it sets the entry under the lower-cased name. |
| PkgConfig.GetKeywordIn | conan/tools/gnu/pkgconfig_pkg/__init__.py:58-61 | Fails with `KeyError` iff the lower-cased name is unknown. Otherwise it returns the entry under the lower-cased name, or `None`. |
| PkgConfig.KeywordRoundTrip | conan/tools/gnu/pkgconfig_pkg/__init__.py:48-61 | Set and get reject the same names. After a set, a get under any spelling with the same lower-case form returns the new value, and every other keyword reads as before. |
| PkgConfig.SetKeywordReturnsPrevious | conan/tools/gnu/pkgconfig_pkg/__init__.py:51-61 | `set_keyword` returns exactly what `get_keyword` returned before it. |
| PkgConfig.VariableSetThenGet | conan/tools/gnu/pkgconfig_pkg/__init__.py:63-69 | With the intended lookup, a variable reads back as set, or as absent after removal, and other variables are unchanged. |
| PkgConfig.VariableLostAsWritten | conan/tools/gnu/pkgconfig_pkg/__init__.py:63-72 | As written, a variable set under a name that is not a keyword reads back as `None`. The intended lookup returns it. |
| PkgConfig.PkgConfigPkg.SetKeyword | conan/tools/gnu/pkgconfig_pkg/__init__.py:48-56 | The in-place update equals `SetKeywordIn` of the old table. It returns the previous value or the `KeyError`, leaves the table unchanged on an error, and never touches the variables. |
| PkgConfig.PkgConfigPkg.GetKeyword | conan/tools/gnu/pkgconfig_pkg/__init__.py:58-61 | Returns `GetKeywordIn` of the current table. |
| PkgConfig.PkgConfigPkg.SetVariable | conan/tools/gnu/pkgconfig_pkg/__init__.py:63-69 | The in-place update equals `SetEntry` on the variables. It returns the previous value and never touches the keywords. |
| PkgConfig.PkgConfigPkg.GetVariable | conan/tools/gnu/pkgconfig_pkg/__init__.py:71-72 | As written: looks the name up in the keyword table. |
| PkgConfig.PkgConfigPkg.GetVariableIntended | conan/tools/gnu/pkgconfig_pkg/__init__.py:71-72 | As intended: looks the name up in the variable table. |
| PkgConfig.VariableLookupExhibit | conan/tools/gnu/pkgconfig_pkg/__init__.py:63-72 | On a fresh package, `set_variable("prefix", "/usr")` followed by `get_variable("prefix")` gives `None` as written, and `"/usr"` as intended. |

## Left out

- Building the parsers is not modelled: `add_argument` calls, help texts and `SmartFormatter` text wrapping are library configuration. Each handler's parsed flags are inputs to its check.
- The handlers' calls into the Conan API are not modelled. The same goes for JSON and directory output, `save`, and the `os.getcwd`/`isabs` path handling. These are I/O and external collaborators.
- In `run`, the handlers' own behaviour is a function parameter (`execute`).
- Reference parsing is not modelled: `PkgReference.loads`, `get_reference_fields` and `check_valid_ref` are not part of this model. Whether a text parsed as a full package reference, the user and channel found in it, and whether it is a valid reference are inputs. A reference's `repr` is carried as given text.
- `_print_similar`: it relies on difflib similarity ratios, and `run` never calls it.
- `_warn_python_version` is not modelled: it reads the interpreter version. The model assumes a supported Python, so it never raises.
- Logging, traceback printing and `exception_message_safe` are not modelled. The generic clause's message is recorded as "sanitized": what `exception_message_safe` does to the text is not modelled, since the function is defined outside this model.
- The `editable`, `build`, `source`, `imports` and `test` handlers are not modelled; only their registry entries are.
- The exit codes' numeric values are not modelled: they are defined outside this model.
- Extender: the `ValueError` fallback to `append` is not modelled. For the values the parser hands over (a string, a list of strings, or `None`), `list.extend` cannot raise `ValueError`.
- Dispatch.Handle: a `SystemExit` whose code is neither an integer nor `None`, such as a string, is not modelled.
- Dispatch.Repr: escapes the quote, backslash, tab, newline, carriage return, other characters below space, and DEL. Python also escapes non-printable characters beyond ASCII (as `\x..`, `\u....` or `\U........`), and the model keeps those as they are.
- PkgConfig.Lower: lowers ASCII letters only; Python's `str.lower` also folds non-ASCII letters.
- The `PkgConfigPkg` constructor is not modelled. It iterates `keywords` even when it is `None`, and it stores lists where the methods use dictionary operations. The model's constructor only sets the two tables.
- The pkg-config module cannot be imported as written. Line 16 holds a stray `line)` left over from a commented-out `re.search` call, which is a syntax error. At class creation, line 74 calls `_keyword_property`, which the file does not define, so it raises `NameError`. The model describes the methods as they are written, not behaviour a program can reach.
- `PkgConfigLine.parse` is not modelled: its search call is broken.
- The `_keyword_property` attributes and `content` are not modelled: they refer to names the file does not define.
- `PkgConfigProperty.__str__` is not modelled.
- The `.pc` template in `templates.py` is not modelled: it is rendered by an external template engine.
- Meson: running the command is not modelled; it is recorded as the command line handed to the recipe's `run`.
- What `conanfile.run` returns is not modelled; `run`, `run_setup` and `run_configure` pass it on unchanged.
- Meson: `os.path.exists` is modelled as membership in a set of existing paths, and `os.path.join` as POSIX joining.
- Meson: the result of `build_jobs` and the toolchain's cross and native file names are inputs.
- Meson: when `run_setup` or `configure` is not given a list, the model allocates its own `OptionList`. Sharing a list with other holders is modelled only through the one `OptionList` object the caller passes.
- Meson: option values other than `True` and `False` are modelled by the text `str()` gives them.

## Findings

| source | as written | input that shows it | evidently intended | confidence | as-written member | corrected member |
|---|---|---|---|---|---|---|
| conan/tools/gnu/pkgconfig_pkg/__init__.py:71-72 | `get_variable` returns `self.keywords.get(name, None)`, a lookup in the keyword table | `set_variable("prefix", "/usr")` then `get_variable("prefix")` returns `None` | look the name up in `self.variables`, where `set_variable` stores it, returning `"/usr"` | high (not executed) | PkgConfig.VariableLookupExhibit | PkgConfig.PkgConfigPkg.GetVariableIntended |
