/** The parser builder (`build_arg_parser`): validates the module
    collection, emits the global arguments at the root, then one branch per
    module under a required `module_name` selector; a module with
    submodules gets a nested required selector with one branch per
    submodule, each holding the module's own model arguments followed by
    the submodule's `cmd_args` callback. */
module ParserBuilder {
  import opened CmdTypes
  import opened ParamExtractor
  import opened ExamplesEpilog

  /** A `__submodules__` entry: its `help` key, if present, and its
      `cmd_args` callback, if present and not None. */
  datatype Submodule = Submodule(help: Option<string>, cmdArgs: Option<string>)

  /** An IModule subclass: `name`, `description`, the fields of its
      `__model__` if it has one, and its `__submodules__` dict (key order
      kept) if it has one. */
  datatype Module = Module(
    name: string,
    description: string,
    model: Option<seq<Field>>,
    submodules: Option<seq<(string, Submodule)>>)

  /** A value found in a `modules` dict: an IModule subclass or anything else. */
  datatype RegistryValue = ModuleClass(moduleClass: Module) | Foreign(typeName: string)

  /** The `modules` argument: None, something that is not a dict, or a
      dict (key order kept). */
  datatype ModulesArg = Omitted | NotADict(typeName: string) | Dict(entries: seq<(string, RegistryValue)>)

  /** What the builder reads from `AppSettings` and from the default
      `GlobalExecutionParameters()`. */
  datatype Settings = Settings(
    toolName: string,
    parallelRunning: bool,
    registry: seq<(string, Module)>,
    globalConfig: seq<Field>)

  const RootDest: string := "module_name"
  const RootHelp: string := "available commands:"

  // ---------------------------------------------------------------------
  // Validation of the module collection
  // ---------------------------------------------------------------------

  /** Every value must be an IModule subclass; the first that is not raises. */
  function Validate(entries: seq<(string, RegistryValue)>): Result<seq<(string, Module)>>
  {
    if entries == [] then Ok([])
    else
      match entries[0].1
      case Foreign(t) => Err(NotAModule(t))
      case ModuleClass(m) => Prepend([(entries[0].0, m)], Validate(entries[1..]))
  }

  /** The registry the builder works on: the argument once validated, or
      `AppSettings.modules`, unchecked, when the argument is None. */
  function ResolveModules(modules: ModulesArg, s: Settings): Result<seq<(string, Module)>>
  {
    match modules
    case Omitted => Ok(s.registry)
    case NotADict(t) => Err(ModulesNotADict(t))
    case Dict(entries) => Validate(entries)
  }

  lemma {:induction false} ValidateOutcome(entries: seq<(string, RegistryValue)>)
    ensures Validate(entries).Ok? <==> forall i :: 0 <= i < |entries| ==> entries[i].1.ModuleClass?
    ensures Validate(entries).Ok? ==>
              && |Validate(entries).value| == |entries|
              && forall i :: 0 <= i < |entries| ==>
                   Validate(entries).value[i] == (entries[i].0, entries[i].1.moduleClass)
    ensures Validate(entries).Err? ==>
              exists i :: && 0 <= i < |entries| && entries[i].1.Foreign?
                          && (forall j :: 0 <= j < i ==> entries[j].1.ModuleClass?)
                          && Validate(entries).error == NotAModule(entries[i].1.typeName)
  {
    if entries != [] && entries[0].1.ModuleClass? {
      var tail := entries[1..];
      ValidateOutcome(tail);
      forall i | 1 <= i < |entries| ensures entries[i] == tail[i - 1] { }
      if Validate(tail).Err? {
        var i :| && 0 <= i < |tail| && tail[i].1.Foreign?
                 && (forall j :: 0 <= j < i ==> tail[j].1.ModuleClass?)
                 && Validate(tail).error == NotAModule(tail[i].1.typeName);
        assert entries[i + 1] == tail[i];
        assert forall j :: 0 <= j < i + 1 ==> entries[j].1.ModuleClass? by {
          forall j | 0 <= j < i + 1 ensures entries[j].1.ModuleClass? {
            if j > 0 { assert entries[j] == tail[j - 1]; }
          }
        }
      }
    }
  }

  // ---------------------------------------------------------------------
  // The parser tree
  // ---------------------------------------------------------------------

  function Keys(registry: seq<(string, Module)>): (keys: seq<string>)
    ensures |keys| == |registry|
    ensures forall i :: 0 <= i < |registry| ==> keys[i] == registry[i].0
  {
    seq(|registry|, i requires 0 <= i < |registry| => registry[i].0)
  }

  /** The arguments a module's `__model__` contributes under prefix `key`;
      nothing when it has no model. */
  function ModelItems(model: Option<seq<Field>>, key: string, parallelRunning: bool): Result<seq<Item>>
  {
    match model
    case None => Ok([])
    case Some(fields) =>
      match Extract(fields, Some(key), parallelRunning)
      case Err(e) => Err(e)
      case Ok(specs) => Ok(Arguments(specs))
  }

  function CallbackItems(cmdArgs: Option<string>): seq<Item>
  {
    if cmdArgs.Some? then [Extension(cmdArgs.value)] else []
  }

  /** The branches of a compound module's selector, from the given
      submodule on: `y['help']` is read first, then the module's model is
      emitted, then the callback runs. */
  function SubBranches(key: string, model: Option<seq<Field>>, subs: seq<(string, Submodule)>, parallelRunning: bool)
    : Result<seq<Branch>>
    decreases |subs|
  {
    if subs == [] then Ok([])
    else
      match subs[0].1.help
      case None => Err(MissingSubmoduleHelp(subs[0].0))
      case Some(help) =>
        match ModelItems(model, key, parallelRunning)
        case Err(e) => Err(e)
        case Ok(items) =>
          Prepend([Branch(subs[0].0, help, Node(None, items + CallbackItems(subs[0].1.cmdArgs), None))],
                  SubBranches(key, model, subs[1..], parallelRunning))
  }

  /** The parser of one module's branch. */
  function ModuleNode(key: string, m: Module, parallelRunning: bool): Result<Node>
  {
    match m.submodules
    case Some(subs) =>
      (match SubBranches(key, m.model, subs, parallelRunning)
       case Err(e) => Err(e)
       case Ok(branches) => Ok(Node(None, [], Some(Selector("module_" + key, key + " commands:", true, branches)))))
    case None =>
      match ModelItems(m.model, key, parallelRunning)
      case Err(e) => Err(e)
      case Ok(items) => Ok(Node(None, items, None))
  }

  /** The branches of the root selector, one per module in registry order,
      named by the module's `name` with its description as help. */
  function ModuleBranches(registry: seq<(string, Module)>, parallelRunning: bool): Result<seq<Branch>>
    decreases |registry|
  {
    if registry == [] then Ok([])
    else
      var (key, m) := registry[0];
      match ModuleNode(key, m, parallelRunning)
      case Err(e) => Err(e)
      case Ok(node) => Prepend([Branch(m.name, m.description, node)], ModuleBranches(registry[1..], parallelRunning))
  }

  /** The root parser: the supplied one, or a fresh one whose epilog lists
      the examples. */
  function StartNode(parser: Option<Node>, toolName: string, registry: seq<(string, Module)>): Node
  {
    if parser.Some? then parser.value else Node(Some(BuildExamples(toolName, Keys(registry))), [], None)
  }

  function ConfigFields(config: Option<seq<Field>>, s: Settings): seq<Field>
  {
    if config.Some? then config.value else s.globalConfig
  }

  /** `build_arg_parser(config, modules, parser)` as a whole. It succeeds
      exactly when the module collection validates, the global fields are
      accepted, a supplied parser has no selector yet, and every module is
      accepted. */
  function Build(config: Option<seq<Field>>, modules: ModulesArg, parser: Option<Node>, s: Settings): (r: Result<Node>)
    ensures r.Ok?
            <==> && ResolveModules(modules, s).Ok?
                 && AllFieldsOk(ConfigFields(config, s))
                 && (parser.Some? ==> parser.value.selector.None?)
                 && forall i :: 0 <= i < |ResolveModules(modules, s).value| ==>
                      ModuleAccepted(ResolveModules(modules, s).value[i].1)
  {
    match ResolveModules(modules, s)
    case Err(e) => Err(e)
    case Ok(registry) =>
      ModuleBranchesOutcome(registry, s.parallelRunning);
      var root := StartNode(parser, s.toolName, registry);
      match Extract(ConfigFields(config, s), None, s.parallelRunning)
      case Err(e) => Err(e)
      case Ok(specs) =>
        if root.selector.Some? then Err(SubparsersExist)
        else
          match ModuleBranches(registry, s.parallelRunning)
          case Err(e) => Err(e)
          case Ok(branches) =>
            Ok(root.(items := root.items + Arguments(specs),
                     selector := Some(Selector(RootDest, RootHelp, true, branches))))
  }

  // ---------------------------------------------------------------------
  // What the tree holds
  // ---------------------------------------------------------------------

  /** A model whose fields the extraction accepts, or no model at all. */
  predicate ModelOk(model: Option<seq<Field>>)
  {
    model.Some? ==> AllFieldsOk(model.value)
  }

  lemma ModelItemsOutcome(model: Option<seq<Field>>, key: string, parallelRunning: bool)
    ensures ModelItems(model, key, parallelRunning).Ok? <==> ModelOk(model)
  {
    if model.Some? {
      ExtractFromOutcome(model.value, Some(key), parallelRunning, {});
    }
  }

  /** A submodule branch: named by the submodule key, with the entry's help,
      holding the module's model arguments and then the callback marker. */
  predicate SubBranchShape(key: string, model: Option<seq<Field>>, sub: (string, Submodule), parallelRunning: bool, b: Branch)
  {
    && b.name == sub.0
    && sub.1.help == Some(b.help)
    && b.node.epilog.None?
    && b.node.selector.None?
    && ModelItems(model, key, parallelRunning).Ok?
    && b.node.items == ModelItems(model, key, parallelRunning).value + CallbackItems(sub.1.cmdArgs)
  }

  /** A module the builder accepts: a flat module's model has only accepted
      fields; every submodule of a compound module has help, and its model
      has only accepted fields unless it has no submodule to emit it into. */
  predicate ModuleAccepted(m: Module)
  {
    match m.submodules
    case None => ModelOk(m.model)
    case Some(subs) => (forall j :: 0 <= j < |subs| ==> subs[j].1.help.Some?) && (subs != [] ==> ModelOk(m.model))
  }

  /** A module's branch: a flat module's holds its model arguments with the
      key as prefix; a compound module's holds only a required selector with
      dest `module_<key>` and one branch per submodule, in order. */
  predicate ModuleShape(key: string, m: Module, parallelRunning: bool, n: Node)
  {
    && n.epilog.None?
    && match m.submodules
       case None => n.selector.None? && ModelItems(m.model, key, parallelRunning) == Ok(n.items)
       case Some(subs) =>
         && n.items == []
         && n.selector.Some?
         && n.selector.value.dest == "module_" + key
         && n.selector.value.help == key + " commands:"
         && n.selector.value.required
         && |n.selector.value.branches| == |subs|
         && forall j :: 0 <= j < |subs| ==>
              SubBranchShape(key, m.model, subs[j], parallelRunning, n.selector.value.branches[j])
  }

  lemma {:induction false} SubBranchesOutcome(key: string, model: Option<seq<Field>>, subs: seq<(string, Submodule)>, parallelRunning: bool)
    ensures SubBranches(key, model, subs, parallelRunning).Ok?
            <==> (forall j :: 0 <= j < |subs| ==> subs[j].1.help.Some?) && (subs != [] ==> ModelOk(model))
    ensures SubBranches(key, model, subs, parallelRunning).Ok? ==>
              var bs := SubBranches(key, model, subs, parallelRunning).value;
              && |bs| == |subs|
              && forall j :: 0 <= j < |subs| ==> SubBranchShape(key, model, subs[j], parallelRunning, bs[j])
  {
    ModelItemsOutcome(model, key, parallelRunning);
    if subs != [] {
      var tail := subs[1..];
      SubBranchesOutcome(key, model, tail, parallelRunning);
      forall j | 1 <= j < |subs| ensures subs[j] == tail[j - 1] { }
      if subs[0].1.help.Some? && ModelOk(model) && SubBranches(key, model, tail, parallelRunning).Ok? {
        assert forall j :: 0 <= j < |subs| ==> subs[j].1.help.Some? by {
          forall j | 0 <= j < |subs| ensures subs[j].1.help.Some? {
            if j > 0 { assert subs[j] == tail[j - 1]; }
          }
        }
      }
    }
  }

  lemma ModuleNodeOutcome(key: string, m: Module, parallelRunning: bool)
    ensures ModuleNode(key, m, parallelRunning).Ok? <==> ModuleAccepted(m)
    ensures ModuleNode(key, m, parallelRunning).Ok? ==> ModuleShape(key, m, parallelRunning, ModuleNode(key, m, parallelRunning).value)
  {
    ModelItemsOutcome(m.model, key, parallelRunning);
    if m.submodules.Some? {
      SubBranchesOutcome(key, m.model, m.submodules.value, parallelRunning);
    }
  }

  lemma {:induction false} ModuleBranchesOutcome(registry: seq<(string, Module)>, parallelRunning: bool)
    ensures ModuleBranches(registry, parallelRunning).Ok?
            <==> forall i :: 0 <= i < |registry| ==> ModuleAccepted(registry[i].1)
    ensures ModuleBranches(registry, parallelRunning).Ok? ==>
              var bs := ModuleBranches(registry, parallelRunning).value;
              && |bs| == |registry|
              && forall i :: 0 <= i < |registry| ==>
                   && bs[i].name == registry[i].1.name
                   && bs[i].help == registry[i].1.description
                   && ModuleShape(registry[i].0, registry[i].1, parallelRunning, bs[i].node)
  {
    if registry != [] {
      var tail := registry[1..];
      ModuleNodeOutcome(registry[0].0, registry[0].1, parallelRunning);
      ModuleBranchesOutcome(tail, parallelRunning);
      forall i | 1 <= i < |registry| ensures registry[i] == tail[i - 1] { }
      if ModuleAccepted(registry[0].1) && ModuleBranches(tail, parallelRunning).Ok? {
        assert forall i :: 0 <= i < |registry| ==> ModuleAccepted(registry[i].1) by {
          forall i | 0 <= i < |registry| ensures ModuleAccepted(registry[i].1) {
            if i > 0 { assert registry[i] == tail[i - 1]; }
          }
        }
      }
    }
  }

  /** A collection that is not a dict, or a dict with a value that is not
      an IModule, is rejected whatever the config and the parser: with the
      type of the collection, or of the first such value. */
  lemma BuildRejectsBadModules(config: Option<seq<Field>>, modules: ModulesArg, parser: Option<Node>, s: Settings)
    ensures modules.NotADict? ==> Build(config, modules, parser, s) == Err(ModulesNotADict(modules.typeName))
    ensures modules.Dict? ==>
              forall i :: && 0 <= i < |modules.entries| && modules.entries[i].1.Foreign?
                          && (forall j :: 0 <= j < i ==> modules.entries[j].1.ModuleClass?)
                          ==> Build(config, modules, parser, s) == Err(NotAModule(modules.entries[i].1.typeName))
  {
    if modules.Dict? {
      var entries := modules.entries;
      ValidateOutcome(entries);
      forall i | && 0 <= i < |entries| && entries[i].1.Foreign?
                 && (forall j :: 0 <= j < i ==> entries[j].1.ModuleClass?)
        ensures Build(config, modules, parser, s) == Err(NotAModule(entries[i].1.typeName))
      {
        var k :| && 0 <= k < |entries| && entries[k].1.Foreign?
                 && (forall j :: 0 <= j < k ==> entries[j].1.ModuleClass?)
                 && Validate(entries).error == NotAModule(entries[k].1.typeName);
        assert k == i;
      }
    }
  }

  /** The arguments a module's model puts in its branches: one per field,
      with the module key in the long flag and no short alias under
      parallel running (`--scan-verbose`), and the bare field name in the
      long flag otherwise (`--verbose`, with `-v` unless claimed before). */
  lemma ModelItemsFlags(fields: seq<Field>, key: string, parallelRunning: bool)
    requires ModelItems(Some(fields), key, parallelRunning).Ok?
    ensures var items := ModelItems(Some(fields), key, parallelRunning).value;
            && |items| == |fields|
            && NamesNonEmpty(fields)
            && forall i :: 0 <= i < |fields| ==>
                 && items[i].Argument?
                 && items[i].spec.dest == fields[i].name
                 && (parallelRunning ==> items[i].spec.flags == ["--" + key + "-" + Dashed(fields[i].name)])
                 && (!parallelRunning ==>
                       && 1 <= |items[i].spec.flags| <= 2
                       && items[i].spec.flags[0] == "--" + Dashed(fields[i].name)
                       && (|items[i].spec.flags| == 2 <==> ShortGranted(fields, i, {}, Some(key), false)))
  {
    ModelItemsOutcome(Some(fields), key, parallelRunning);
    ExtractRecords(fields, Some(key), parallelRunning);
    if parallelRunning {
      PrefixedUnderParallelRunning(fields, key);
    } else {
      forall n: string ensures "--" + "" + n == "--" + n {
        assert "" + n == n;
      }
    }
  }

  /** The shape of a built parser: the epilog of a fresh root lists the
      module keys; the global arguments follow what the root already held;
      the root selector has dest `module_name`, is required, and has one
      branch per module in registry order, each shaped as ModuleShape says. */
  lemma BuildTree(config: Option<seq<Field>>, modules: ModulesArg, parser: Option<Node>, s: Settings)
    requires Build(config, modules, parser, s).Ok?
    ensures ResolveModules(modules, s).Ok?
    ensures modules.Omitted? ==> ResolveModules(modules, s).value == s.registry
    ensures var registry := ResolveModules(modules, s).value;
            var root := Build(config, modules, parser, s).value;
            && (parser.None? ==> root.epilog == Some(BuildExamples(s.toolName, Keys(registry))))
            && (parser.Some? ==> root.epilog == parser.value.epilog)
            && Extract(ConfigFields(config, s), None, s.parallelRunning).Ok?
            && root.items == StartNode(parser, s.toolName, registry).items
                             + Arguments(Extract(ConfigFields(config, s), None, s.parallelRunning).value)
            && root.selector.Some?
            && root.selector.value.dest == "module_name"
            && root.selector.value.required
            && |root.selector.value.branches| == |registry|
            && forall i :: 0 <= i < |registry| ==>
                 && root.selector.value.branches[i].name == registry[i].1.name
                 && root.selector.value.branches[i].help == registry[i].1.description
                 && ModuleShape(registry[i].0, registry[i].1, s.parallelRunning, root.selector.value.branches[i].node)
  {
    ModuleBranchesOutcome(ResolveModules(modules, s).value, s.parallelRunning);
  }

  // ---------------------------------------------------------------------
  // The loops of build_arg_parser
  // ---------------------------------------------------------------------

  /** The arguments of a model, emitted by the extraction loop. */
  method EmitModel(model: Option<seq<Field>>, key: string, parallelRunning: bool) returns (r: Result<seq<Item>>)
    ensures r == ModelItems(model, key, parallelRunning)
  {
    if model.None? {
      return Ok([]);
    }
    var specs := ExtractParameters(model.value, Some(key), parallelRunning);
    if specs.Err? {
      return Err(specs.error);
    }
    r := Ok(Arguments(specs.value));
  }

  /** The body of the module loop for one module. */
  method BuildModuleNode(key: string, m: Module, parallelRunning: bool) returns (r: Result<Node>)
    ensures r == ModuleNode(key, m, parallelRunning)
  {
    if m.submodules.None? {
      var items := EmitModel(m.model, key, parallelRunning);
      if items.Err? {
        return Err(items.error);
      }
      return Ok(Node(None, items.value, None));
    }
    var subs := m.submodules.value;
    var branches: seq<Branch> := [];
    var j := 0;
    assert subs[j..] == subs;
    PrependNothing(SubBranches(key, m.model, subs, parallelRunning));
    while j < |subs|
      invariant 0 <= j <= |subs|
      invariant SubBranches(key, m.model, subs, parallelRunning)
                == Prepend(branches, SubBranches(key, m.model, subs[j..], parallelRunning))
    {
      var (x, y) := subs[j];
      assert subs[j..][0] == subs[j] && subs[j..][1..] == subs[j + 1..];
      if y.help.None? {
        return Err(MissingSubmoduleHelp(x));
      }
      var items := EmitModel(m.model, key, parallelRunning);
      if items.Err? {
        return Err(items.error);
      }
      var branch := Branch(x, y.help.value, Node(None, items.value + CallbackItems(y.cmdArgs), None));
      PrependTwice(branches, [branch], SubBranches(key, m.model, subs[j + 1..], parallelRunning));
      branches := branches + [branch];
      j := j + 1;
    }
    assert subs[j..] == [];
    assert branches + [] == branches;
    r := Ok(Node(None, [], Some(Selector("module_" + key, key + " commands:", true, branches))));
  }

  /** The validation at the head of `build_arg_parser`: a dict whose
      values are checked one by one, or the registry of the settings. */
  method CheckModules(modules: ModulesArg, s: Settings) returns (r: Result<seq<(string, Module)>>)
    ensures r == ResolveModules(modules, s)
  {
    match modules {
      case Omitted =>
        return Ok(s.registry);
      case NotADict(t) =>
        return Err(ModulesNotADict(t));
      case Dict(entries) =>
        var registry: seq<(string, Module)> := [];
        var k := 0;
        assert entries[k..] == entries;
        PrependNothing(Validate(entries));
        while k < |entries|
          invariant 0 <= k <= |entries|
          invariant Validate(entries) == Prepend(registry, Validate(entries[k..]))
        {
          assert entries[k..][0] == entries[k] && entries[k..][1..] == entries[k + 1..];
          match entries[k].1 {
            case Foreign(t) =>
              return Err(NotAModule(t));
            case ModuleClass(m) =>
              PrependTwice(registry, [(entries[k].0, m)], Validate(entries[k + 1..]));
              registry := registry + [(entries[k].0, m)];
          }
          k := k + 1;
        }
        assert entries[k..] == [];
        assert registry + [] == registry;
        return Ok(registry);
    }
  }

  /** The module loop: one branch per module, in registry order. */
  method BuildModuleBranches(registry: seq<(string, Module)>, parallelRunning: bool) returns (r: Result<seq<Branch>>)
    ensures r == ModuleBranches(registry, parallelRunning)
  {
    var branches: seq<Branch> := [];
    var i := 0;
    assert registry[i..] == registry;
    PrependNothing(ModuleBranches(registry, parallelRunning));
    while i < |registry|
      invariant 0 <= i <= |registry|
      invariant ModuleBranches(registry, parallelRunning)
                == Prepend(branches, ModuleBranches(registry[i..], parallelRunning))
    {
      var (key, m) := registry[i];
      assert registry[i..][0] == registry[i] && registry[i..][1..] == registry[i + 1..];
      var node := BuildModuleNode(key, m, parallelRunning);
      if node.Err? {
        return Err(node.error);
      }
      var branch := Branch(m.name, m.description, node.value);
      PrependTwice(branches, [branch], ModuleBranches(registry[i + 1..], parallelRunning));
      branches := branches + [branch];
      i := i + 1;
    }
    assert registry[i..] == [];
    assert branches + [] == branches;
    r := Ok(branches);
  }

  /** `build_arg_parser`: validation, the root parser and its global
      arguments, the required `module_name` selector, then its branches. */
  method BuildArgParser(config: Option<seq<Field>>, modules: ModulesArg, parser: Option<Node>, s: Settings)
    returns (r: Result<Node>)
    ensures r == Build(config, modules, parser, s)
  {
    var registry := CheckModules(modules, s);
    if registry.Err? {
      return Err(registry.error);
    }
    var root := StartNode(parser, s.toolName, registry.value);
    var specs := ExtractParameters(ConfigFields(config, s), None, s.parallelRunning);
    if specs.Err? {
      return Err(specs.error);
    }
    if root.selector.Some? {
      return Err(SubparsersExist);
    }
    var branches := BuildModuleBranches(registry.value, s.parallelRunning);
    if branches.Err? {
      return Err(branches.error);
    }
    r := Ok(root.(items := root.items + Arguments(specs.value),
                  selector := Some(Selector(RootDest, RootHelp, true, branches.value))));
  }
}
