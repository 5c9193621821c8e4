# Enteletaor command-line builder, modelled in Dafny

This project models the core of Enteletaor's command-line layer
(`enteletaor_lib/libs/core/cmd.py`). That layer turns a registry of
feature modules into an `argparse` parser tree. Each module declares a
field model and, optionally, sub-commands. Once the command line has been
parsed, the layer runs the registered "config" hooks.

The model is organised into six modules:

- `CmdTypes` (`cmd_types.dfy`) holds the shared values: fields, the
  records passed to `add_argument`, the parser tree (`Node`, `Selector`,
  `Branch`), and one `Error` constructor per exception the builder raises.
  Raising an exception is modelled as returning `Err`.
- `FlagTranslator` (`flag_translator.dfy`) is `_resolve_action`. It maps a
  field's class name to an argparse action and a coercion type.
- `ParamExtractor` (`param_extractor.dfy`) is `_extract_parameters`. Its
  loop is the method `ExtractParameters`, proved equal to the fold
  `Extract`. The fold carries the set of claimed first letters (`used_opts`).
- `ExamplesEpilog` (`examples_epilog.dfy`) is `_build_examples`.
- `ParserBuilder` (`parser_builder.dfy`) is `build_arg_parser`:
  - it validates the module collection;
  - it sets up the root parser and its global arguments;
  - it adds the required `module_name` selector, with one branch per module;
  - it adds nested selectors for modules that declare `__submodules__`.

  The parser tree is a value. Each method is proved equal to a function
  that specifies it: `CheckModules` to `ResolveModules` (with `Validate`),
  `BuildModuleNode` to `ModuleNode` (with `SubBranches`),
  `BuildModuleBranches` to `ModuleBranches`, `EmitModel` to `ModelItems`,
  and `BuildArgParser` to `Build`. The lemmas then state what the tree
  holds.
- `HookRunner` (`hook_runner.dfy`) is `STBArgumentParser.run_hooks` and
  `parse_args_and_run_hooks`. The calls made are recorded in order.

The inputs the source reads from process-wide state are passed in as an
explicit `Settings` value:

- `AppSettings.tool_name`
- `AppSettings.parallel_running`
- `AppSettings.modules`
- the fields of a default `GlobalExecutionParameters()`

A field model is passed as the sequence of `vars` entries, in their order.
A dict is passed as its sequence of (key, value) pairs, in insertion order.

Two behaviours of the code are worth spelling out:

- **Bool flags.** A BoolField gets the action `"store_"` followed by
  `str(default).lower()` (cmd.py:221-222), so default `True` gives
  `store_true`: the flag stores the value the field already holds rather
  than toggling it (`FlagTranslator.BoolActionFollowsDefault`).
- **Submodule arguments.** Every submodule branch gets the enclosing
  module's own `__model__`, emitted with the module key as its prefix
  (cmd.py:112-113);
  `ParserBuilder.SubBranchesOutcome` states this.

## Model

| member | source | states |
|---|---|---|
| FlagTranslator.KindOf | enteletaor_lib/libs/core/cmd.py:208-219 | a class name has a table entry exactly when it is one of the six known field classes, and the entry found is that class's |
| FlagTranslator.ResolveAction | enteletaor_lib/libs/core/cmd.py:198-224 | the (action, type) pair for each of the six classes, a BoolField's action being "store_" plus its lower-cased default; an unknown class name, and only that, is a KeyError naming the class |
| FlagTranslator.ResolveActionAsWritten | enteletaor_lib/libs/core/cmd.py:219-224 | as written, every BoolField fails with the TypeError of item assignment on a tuple, and every other class behaves as the corrected translator does |
| FlagTranslator.AsWrittenRejectsBoolField | enteletaor_lib/libs/core/cmd.py:221-222 | for every default, the as-written translator rejects a BoolField while the corrected one accepts it |
| FlagTranslator.BoolActionFollowsDefault | enteletaor_lib/libs/core/cmd.py:221-222 | a BoolField with default True gets store_true and one with default False gets store_false, so the flag stores the default |
| ParamExtractor.Dashed | enteletaor_lib/libs/core/cmd.py:147 | the name with every underscore replaced by a dash and every other character kept, at the same length |
| ParamExtractor.DictKeys | enteletaor_lib/libs/core/cmd.py:173-174 | the choices passed to argparse contain every declared key, nothing else, and no key twice |
| ParamExtractor.DictKeysFirstOccurrenceOrder | enteletaor_lib/libs/core/cmd.py:174 | the keys come out in the order of their first occurrences: a key listed before another occurs in the choices before any occurrence of the other |
| ParamExtractor.DictKeysOfDistinctKeys | enteletaor_lib/libs/core/cmd.py:173-174 | choices whose keys are already distinct come out one for one, in declaration order |
| ParamExtractor.Extract | enteletaor_lib/libs/core/cmd.py:127-176 | one call succeeds exactly when every field is accepted, with one record per field, and otherwise fails with the error of the first rejected field |
| ParamExtractor.ExtractParameters | enteletaor_lib/libs/core/cmd.py:127-176 | the loop emits exactly the records of `Extract`, the fold over the fields with the claimed-letter set, stopping at the first field that raises |
| ParamExtractor.ExtractFromOutcome | enteletaor_lib/libs/core/cmd.py:142-158 | the pass succeeds exactly when every field has a non-empty name and a known class; otherwise the error is that of the first field that lacks either |
| ParamExtractor.ExtractRecords | enteletaor_lib/libs/core/cmd.py:141-176 | one record per field in order, with dest, help, default, required, the translator's action and type, and the choice keys taken from the field; the long flag is "--", then the prefix and a dash only under parallel running, then the dashed name; the short alias is "-" plus the first letter exactly when aliases are allowed and no earlier field has that first letter |
| ParamExtractor.ShortFlagsDistinct | enteletaor_lib/libs/core/cmd.py:141-155 | no two records of one call share a short alias |
| ParamExtractor.PrefixedUnderParallelRunning | enteletaor_lib/libs/core/cmd.py:144-155 | under parallel running, a module's fields get only "--key-name" and no short alias |
| ParamExtractor.SharedInitialLosesAlias | enteletaor_lib/libs/core/cmd.py:150-155 | of two fields sharing an initial, the first keeps the short alias and the second loses it, while a later field with another initial gets its own |
| ParserBuilder.ValidateOutcome | enteletaor_lib/libs/core/cmd.py:66-72 | a dict of modules is accepted exactly when every value is an IModule; it is then kept one for one in key order, and otherwise the error names the type of the first value that is not |
| ParserBuilder.CheckModules | enteletaor_lib/libs/core/cmd.py:66-74 | the validation loop yields the validated dict, the TypeError for a collection that is not a dict, or the registry of the settings when no collection is given |
| ParserBuilder.BuildRejectsBadModules | enteletaor_lib/libs/core/cmd.py:66-72 | a non-dict collection, or a dict with a non-IModule value, makes the whole build fail with that TypeError, whatever the config and the parser |
| ParserBuilder.EmitModel | enteletaor_lib/libs/core/cmd.py:112-121 | the arguments a module's `__model__` contributes are exactly `ModelItems`: none without a model, else the records of `Extract` under the module key |
| ParserBuilder.ModelItemsOutcome | enteletaor_lib/libs/core/cmd.py:112-113 | a module's model is emitted exactly when all its fields are accepted |
| ParserBuilder.ModelItemsFlags | enteletaor_lib/libs/core/cmd.py:113 | a module's model arguments carry its key in the long flag and no alias under parallel running, and the bare dashed name otherwise |
| ParserBuilder.SubBranchesOutcome | enteletaor_lib/libs/core/cmd.py:105-117 | the submodule loop succeeds exactly when every entry has a help and, if there is any entry, the model is accepted; each branch is named by its key, has that help, and holds the model's arguments followed by the cmd_args callback |
| ParserBuilder.ModuleNodeOutcome | enteletaor_lib/libs/core/cmd.py:99-121 | a module's branch is built exactly when the module is accepted; a flat module's branch holds its model arguments, and a compound one's holds only a required "module_key" selector with one branch per submodule |
| ParserBuilder.BuildModuleNode | enteletaor_lib/libs/core/cmd.py:99-121 | the body of the module loop builds exactly the branch parser `ModuleNode` describes, including the submodule loop of `SubBranches` |
| ParserBuilder.ModuleBranchesOutcome | enteletaor_lib/libs/core/cmd.py:94-121 | the module loop succeeds exactly when every module is accepted, and then yields one branch per module in registry order, named by the module's name, with its description as help |
| ParserBuilder.BuildModuleBranches | enteletaor_lib/libs/core/cmd.py:94-121 | the module loop yields exactly the branches `ModuleBranches` describes |
| ParserBuilder.Build | enteletaor_lib/libs/core/cmd.py:52-123 | the build succeeds exactly when the collection validates, the global fields are accepted, a supplied parser has no sub-command selector yet, and every module is accepted |
| ParserBuilder.BuildTree | enteletaor_lib/libs/core/cmd.py:52-123 | a built parser has the examples epilog when it is fresh and keeps its own otherwise; the global arguments follow its existing ones; the root selector is required, has dest "module_name" and has one branch per module, shaped as above |
| ParserBuilder.BuildArgParser | enteletaor_lib/libs/core/cmd.py:52-123 | the builder's steps produce exactly the tree or error `Build` describes |
| ExamplesEpilog.BuildExamples | enteletaor_lib/libs/core/cmd.py:180-194 | the epilog opens with the blank lines and the "Examples:" header and closes with the trailer; with no module it is these alone |
| ExamplesEpilog.ExampleLinesAppend | enteletaor_lib/libs/core/cmd.py:188 | the example lines of two key lists joined are the two texts joined |
| ExamplesEpilog.EpilogLineCount | enteletaor_lib/libs/core/cmd.py:180-194 | with no line break in the tool name or the keys, the epilog has one line break per module key plus three |
| ExamplesEpilog.ExampleLineAt | enteletaor_lib/libs/core/cmd.py:188-194 | the example line of the i-th key sits in the epilog right after the header and the lines of the keys before it, so the lines follow key order |
| HookRunner.RunHooks | enteletaor_lib/libs/core/cmd.py:38-46 | the calls made are, in order, the non-test hooks up to and including the first that raises, each called once with the parsed result, and the raise is reported |
| HookRunner.ParseArgsAndRunHooks | enteletaor_lib/libs/core/cmd.py:30-36 | the hooks run after parsing, and the parsed result is returned unless a hook raised, in which case that hook's exception propagates |
| HookRunner.ProductionHooksMembers | enteletaor_lib/libs/core/cmd.py:44-46 | a hook is run exactly when it is registered and its name does not start with "test_" |
| HookRunner.ProductionHooksCounts | enteletaor_lib/libs/core/cmd.py:44-46 | each non-test hook runs as many times as it is registered, and a test hook never runs |
| HookRunner.ProductionHooksAppend | enteletaor_lib/libs/core/cmd.py:44-46 | filtering a registration list split in two is filtering each part in turn, so order is kept |
| HookRunner.ProductionHooksIdempotent | enteletaor_lib/libs/core/cmd.py:44-46 | filtering the filtered list changes nothing |
| HookRunner.InvokedPrefix | enteletaor_lib/libs/core/cmd.py:44-46 | the hooks called are a prefix of the non-test hooks, in registration order |
| HookRunner.InvokedUntilRaise | enteletaor_lib/libs/core/cmd.py:44-46 | when no non-test hook raises, all of them are called and none raises; otherwise the calls end with the first that raises, which is the one reported, and none before it raises |
| HookRunner.SkipsTestProbe | enteletaor_lib/libs/core/cmd.py:44-46 | with hooks "test_probe" and "apply_env" registered, only "apply_env" runs |

## Left out

- `setup_cmd` has an empty body and is not modelled.
- The parsing done by `argparse` is a foreign call. The parsed result is a parameter of `ParseArgsAndRunHooks`. Help rendering, usage errors and `argparse`'s exit behaviour are not modelled.
- `argparse`'s own checks on `add_argument` are not modelled:
  - it refuses `type=` together with `store_true`/`store_false`/`count`;
  - it refuses an option string that clashes with `-h`/`--help` or with an earlier argument;
  - it refuses two sub-parsers of the same name.

  Only its refusal of a second `add_subparsers` on a supplied parser is modelled.
- What a hook or a `cmd_args` callback does is outside the model. A hook is a name plus whether it raises. A callback is a marker item placed where it runs.
- The `"config"` hook list is taken as given. The lookup of `AppSettings.hooks["config"]` is not modelled.
- `AppSettings`, `IModule` and `GlobalExecutionParameters` are taken as inputs, and their internals are not part of this model. `issubclass` is modelled as a yes/no property of each value.
- The root parser's description, `str(tool_name).capitalize()`, and its formatter class are not modelled. A fresh root is modelled by its epilog only.
- If a supplied parser is rejected part-way, the arguments already added to it before the error are not modelled. The model returns only the error.
- Error messages are kept only as the type names they carry.
- The coercion types (`float`, `str`, `int`, `bool`) are names, and the conversions themselves are not modelled. A float default is carried as its `str()` text.
- FlagTranslator.Lower: lower-cases ASCII letters only, not all of Unicode.
- ParamExtractor.ExtractParameters: `parallel_running` is a boolean here, while the source tests it with `is True` and `is False`; a setting that is neither (such as None) would give a prefixed field neither the prefix nor a short alias, and that case is not modelled.
- Logging and the `six` compatibility layer are not modelled.

## Findings

| source | as written | input that shows it | evidently intended | confidence | as-written member | corrected member |
|---|---|---|---|---|---|---|
| enteletaor_lib/libs/core/cmd.py:219-222 | `results` is a tuple taken from `type_maps`, and `results[0] = ...` assigns an item of it, which raises TypeError | any field of class BoolField, e.g. default False | the BoolField's action replaced by "store_true" or "store_false" after its default, the pair returned | not executed | FlagTranslator.ResolveActionAsWritten (shown by FlagTranslator.AsWrittenRejectsBoolField) | FlagTranslator.ResolveAction |
