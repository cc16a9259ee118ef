# matrun command-line builder, in Dafny

`matrun.py` runs MATLAB statements by launching the MATLAB executable with a
command line of the form

    <exe_path> <flags> <-r|-batch> "<statement>"

A `MatlabRunner` holds an executable path and a dict of startup flags. The
fifteen flags of `option_defaults` are all `False` by default. Each flag
becomes one token:

- `True` gives `-name`;
- `False` gives nothing;
- a string gives `-name "value"`;
- a number gives `-name value`.

`set_options` rejects unknown flag names and otherwise merges the call's
flags over the defaults and the stored flags. `execute` checks that the
executable exists and builds the header. It joins a list of statements with
`", "` and can wrap the statement in a try/catch block and append an `exit`.
Finally it hands the command line to the process launcher.

This project models that builder.

- `results.dfy`: `Option`, `Result`, and `Outcome` (a call that returns
  nothing or fails).
- `pydict.dfy`: a Python `dict` as an association list in insertion order.
  - `Put` is `d[k] = v`.
  - `Spread` is the literal `{**d, **e}`.
  - Lemmas cover key order and lookup after both operations.
- `text.dfy`: `sep.join(parts)`, the decimal rendering of an integer in an
  f-string, and the parsers that undo it.
- `options.dfy`:
  - the flag registry and `option_defaults`;
  - the per-flag token (`_build_options_parameter`);
  - the token list and options string (`_build_options_string`);
  - the `set_options` merge, with a token parser as its partner.
- `statements.dfy`: the statement joining and the two wrappers
  `try_catch_wrapper` and `exit_wrapper`, with `Unwrap` undoing them.
- `runner.dfy`:
  - the command header (`_build_command_header`) and the full command line;
  - the `MatlabRunner` class, whose fields `exePath` and `options` are
    updated in place by `SetExePath` and `SetOptions`;
  - `Execute`, which returns the command line it would launch.

Flag values are `Bool`, `Str`, `Int` or `Other`. `Other` is any value that
is neither a bool, a string nor a number. `set_options` does not check value
types, so such a value is stored and only rejected when `execute` builds the
flags. Errors are values of `Options.Error`:

- `InvalidOption(key)`: an unknown name met while building a token;
- `InvalidValue(key)`: an unsupported value;
- `InvalidOptions(keys)`: the unknown names of a `set_options` call, all of
  them;
- `ExecutableNotFound(path)`.

## Model

| member | source | states |
|---|---|---|
| Options.AllOff | matrun.py:27-79 | the defaults name exactly the given flags, in order, each one `False` |
| Options.RegistryDistinct | matrun.py:27-79 | the fifteen registry flag names are pairwise distinct |
| Options.FlagNameHasNoSpace | matrun.py:27-79 | no registry flag name contains a space, so the first space of a token ends its name |
| Options.FlagToken | matrun.py:111-126 | an unknown name fails with `InvalidOption`; for a known name, exactly the unsupported values fail, with `InvalidValue`; exactly `False` gives no token |
| Options.TokenRoundTrip | matrun.py:117-124 | every token that is emitted parses back to exactly its flag and value, even though string values are quoted without escaping |
| Options.ParseParameterToken | matrun.py:121-124 | a token `-name param` with a space-free name parses as that name with the parameter's value |
| Text.DecimalString | matrun.py:123-124 | Python's canonical `str(n)`: a minus sign exactly for negatives, no leading zero, no `-0`, `0` only for zero, and never a double quote |
| Text.DecimalRoundTrip | matrun.py:123-124 | the decimal rendering of every integer, negative ones included, reads back as that integer |
| Options.Tokens | matrun.py:133-140 | the token list exists iff every stored flag builds; otherwise the error is the first failing flag's, in dict order |
| Options.OptionsString | matrun.py:128-140 | fails exactly when some token cannot be built, with the first failing flag's error; otherwise empty when there are no tokens and starting with the first token and ending with the last; by `TokensOfActive` each token is exactly the text the per-flag builder gives the matching flag that is not off |
| Text.Join | matrun.py:133-140 | `sep.join(parts)`: empty for no parts, the part itself for one part, starting with the first part and ending with the last |
| Text.JoinAppend | matrun.py:133-140 | joining two non-empty lists puts exactly one separator between their joins; with `Join`'s own contract this determines the join for any number of parts |
| Options.TokensDecode | matrun.py:133-140 | the tokens decode to exactly the stored flags that are not `False`, in the dict's order |
| Options.TokensOfActive | matrun.py:133-140 | the i-th token is exactly the text `_build_options_parameter` builds for the i-th flag that is not off, so integers keep their canonical decimal form |
| Options.TokensActive | matrun.py:133-140 | flags set to `False` contribute nothing to the token list |
| Options.ActiveKeysInOrder | matrun.py:133-140 | the flags that are present keep the order of the dict's keys |
| Options.AllOffOptionsString | matrun.py:133-140 | when every flag is off, the options string is empty |
| Options.MergeOptions | matrun.py:161-169 | the merge fails iff some supplied name is unknown, and the error names every unknown name and only those |
| Options.MergeOptionsKeys | matrun.py:165-169 | after a successful merge, the stored keys are exactly the registry, in registry order |
| Options.MergeOptionsLookup | matrun.py:165-169 | key by key, a supplied value wins over a stored one, which wins over the default `False` |
| Options.MergeOptionsCumulative | matrun.py:155-169 | two successive calls equal one call naming the first call's flags then the second's, so disjoint calls accumulate and a later value overrides |
| Options.MergeOptionsNothing | matrun.py:165-169 | a call with no flags leaves full options unchanged |
| Options.InvalidKeysAppend | matrun.py:161 | when the first call's names are all valid, the offending names of the joined calls are those of the second |
| PyDict.Put | matrun.py:165-169 | no contract of its own; specified by `PutKeys` and `PutGet` (`d[k] = v`) |
| PyDict.Spread | matrun.py:165-169 | no contract of its own; specified by `SpreadKeys`, `SpreadGet`, `SpreadAppend` and `SpreadOnto` (`{**d, **e}`) |
| PyDict.PutKeys | matrun.py:165-169 | storing under a present key keeps the key order; a new key goes to the end |
| PyDict.PutGet | matrun.py:165-169 | after `d[k] = v`, `k` reads `v` and every other key is unchanged |
| PyDict.SpreadKeys | matrun.py:165-169 | spreading entries whose keys are all present keeps the key order |
| PyDict.SpreadGet | matrun.py:165-169 | in `{**d, **e}`, `e` wins wherever it has the key and `d` elsewhere |
| PyDict.SpreadAppend | matrun.py:165-169 | spreading `a + b` equals spreading `a` and then `b` |
| PyDict.SpreadOnto | matrun.py:165-169 | spreading a dict over one with the same keys in the same order gives that dict |
| Statements.Flatten | matrun.py:217-218 | no contract of its own: a single string is kept and a list is `Join(", ", lines)`, which `Join` and `JoinAppend` determine |
| Statements.WrapTryCatch | matrun.py:82-83 | no contract of its own; specified by `ComposeRoundTrip` and `BothWrappersOrder` (`try_catch_wrapper.format(s)`) |
| Statements.WrapExit | matrun.py:84-86 | no contract of its own; specified by `ComposeRoundTrip` and `BothWrappersOrder` (`exit_wrapper.format(s)`) |
| Statements.Compose | matrun.py:217-224 | with no wrapper it is the joined statement; the try/catch wrapper opens it and closes it unless the exit follows, and the exit, when asked for, closes it |
| Statements.ComposeRoundTrip | matrun.py:217-224 | under the same flags, the joined statement is recovered from the wrapped one |
| Statements.BothWrappersOrder | matrun.py:82-86 | with both wrappers, `, exit` comes after the `end` of the try/catch block |
| Statements.JoinExample | matrun.py:200-201 | the docstring's `["myvar=123", "myscript"]` is joined into `myvar=123, myscript`, and an empty list gives the empty statement |
| Runner.RunOption | matrun.py:212-215 | no contract of its own; `NoFlagsCommand` states the command with `-batch` when asked for and with `-r` otherwise |
| Runner.Header | matrun.py:142-147 | fails exactly when a token cannot be built, with the first failing flag's error; otherwise starts with the path and one space |
| Runner.CommandLine | matrun.py:210-226 | fails exactly when a token cannot be built, with the first failing flag's error; otherwise starts with the path and one space and ends with the closing quote of the statement |
| Runner.CommandLineDecodes | matrun.py:210-226 | the command is the path, the tokens, the run flag and the quoted statement; the tokens decode to the flags that are present, each token is the per-flag builder's text for its flag, and the statement unwraps to the joined one |
| Runner.OptionsInRegistryOrder | matrun.py:133-147 | for full options, the flags on the command line follow registry order |
| Runner.NoFlagsCommand | matrun.py:210-226 | with every flag off, the header is the path and a space, so the command has two spaces before the run flag, which is `-batch` when asked for and `-r` otherwise |
| Runner.ExampleTokens | matrun.py:117-122 | `nodesktop=True` and `sd="/work"` give the tokens `-nodesktop` and `-sd "/work"` |
| Runner.ExampleFlags | matrun.py:133-140 | those two flags give the options string `-nodesktop -sd "/work"` |
| Runner.ExampleCommand | matrun.py:210-226 | with those flags, path `/bin/tool` and statement `run`, the command is `/bin/tool -nodesktop -sd "/work" -r "run"` |
| Runner.MatlabRunner.Blank | matrun.py:100-101 | a blank runner keeps the path and stores no options |
| Runner.MatlabRunner.New | matrun.py:94-102 | construction fails exactly when `set_options` on an empty runner would; otherwise the runner holds the path and the defaults merged with the initial flags, keyed by the registry |
| Runner.MatlabRunner.SetExePath | matrun.py:149-153 | the path is replaced and the options are untouched |
| Runner.MatlabRunner.SetOptions | matrun.py:155-169 | an unknown name fails the call, naming every unknown name and leaving the options untouched; otherwise the options become the merge, keyed by the registry, and the stored names stay distinct registry names |
| Runner.MatlabRunner.Execute | matrun.py:171-226 | a missing executable fails first with its path; otherwise the result is the command line, or the error of the first flag that cannot be built |

## Left out

- The file-system probe `isfile` is the `exeExists` parameter of `Execute`.
- `subprocess.call` and its keyword arguments are not modelled. `Execute`
  returns the command string that would be launched.
- Floating-point flag values are not modelled. Integers are unbounded and
  rendered in Python's decimal form.
- Options.FlagToken: an integer flag value of any size gets a token. Python
  versions that limit integer-to-string conversion (4300 digits by default)
  raise `ValueError` at matrun.py:124 for longer values instead.
- Text.DecimalString: renders integers of any size, with no digit limit.
- Options.MergeOptions: a flag named `self` is reported as `InvalidOptions`.
  In Python that keyword clashes with the method's own parameter and raises
  `TypeError` before matrun.py:161 runs.
- Runner.MatlabRunner.New: the same holds for a flag named `self` or
  `exe_path`, which clash with the parameters of `__init__` (matrun.py:94).
- Error messages are not modelled. Apart from the cases above, the model
  states which error is raised and the names it carries. The `set_options` message lists only the unknown names
  (matrun.py:163). The valid names are listed only by the per-flag builder
  (matrun.py:112-115).
- The `Iterable` test on the statement (matrun.py:217) is the `Statement`
  datatype: a single string or a list of strings. Other iterables of strings
  are not modelled.
- Reading a whole command line back is not modelled. `DecodeTokens` works
  on the token list, because a string value containing a space or a quote
  makes the joined string ambiguous.
- Keyword arguments cannot repeat a name in Python. The model's supplied
  dict may repeat one, and then the later entry wins.
- `control.py` is not part of this model.
- `InvalidValue` is reachable through `set_options`, because that call does
  not check value types. A stored value that is not a bool, string or
  number makes `execute` fail while building the flags.
