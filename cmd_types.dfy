/** Values shared by every part of the command-line builder: the fields a
    module's model declares, the argument records emitted for them, the
    parser tree that `build_arg_parser` assembles, and the exceptions the
    builder raises, which this model returns as `Err` values. */
module CmdTypes {

  datatype Option<+T> = None | Some(value: T)

  /** One constructor per exception the builder can raise. */
  datatype Error =
    | ModulesNotADict(typeName: string)        // TypeError: `modules` is not a dict
    | NotAModule(typeName: string)             // TypeError: a registry value is not an IModule
    | EmptyFieldName                           // IndexError: `x[0]` of an empty field name
    | UnknownFieldClass(className: string)     // KeyError: field class missing from `type_maps`
    | TupleItemAssignment                      // TypeError: item assignment on a tuple
    | MissingSubmoduleHelp(submodule: string)  // KeyError: `y['help']` of a submodule entry
    | SubparsersExist                          // argparse: a parser takes one add_subparsers

  datatype Result<+T> = Ok(value: T) | Err(error: Error)

  /** `done` followed by the outcome of the rest of a left-to-right pass:
      the first error wins, otherwise the records concatenate. */
  function Prepend<T>(done: seq<T>, rest: Result<seq<T>>): Result<seq<T>>
  {
    match rest
    case Ok(r) => Ok(done + r)
    case Err(e) => Err(e)
  }

  lemma PrependNothing<T>(rest: Result<seq<T>>)
    ensures Prepend([], rest) == rest
  {
    if rest.Ok? {
      assert [] + rest.value == rest.value;
    }
  }

  lemma PrependTwice<T>(done: seq<T>, next: seq<T>, rest: Result<seq<T>>)
    ensures Prepend(done, Prepend(next, rest)) == Prepend(done + next, rest)
  {
    if rest.Ok? {
      assert done + (next + rest.value) == (done + next) + rest.value;
    }
  }

  /** A Python value, as far as a field default needs one. A float is
      carried by its `str()` text, since its arithmetic plays no part. */
  datatype Value =
    | NoneValue
    | BoolValue(b: bool)
    | IntValue(i: int)
    | TextValue(s: string)
    | FloatValue(text: string)

  /** One entry of a model's `vars`: the attribute name, the class name of
      the field object, and the attributes `_extract_parameters` reads.
      `choices` is present exactly when the field has a `choices`
      attribute, as (key, value) pairs in declaration order. */
  datatype Field = Field(
    name: string,
    className: string,
    labelText: string,
    default: Value,
    required: bool,
    choices: Option<seq<(string, Value)>>)

  /** The `type=` callable handed to argparse. */
  datatype Coercion = FloatType | StrType | IntType | BoolType

  /** The arguments of one `parser.add_argument(*flags, **named)` call. */
  datatype ArgSpec = ArgSpec(
    flags: seq<string>,
    dest: string,
    help: string,
    default: Value,
    action: string,
    required: bool,
    coercion: Option<Coercion>,
    choices: Option<seq<string>>)

  /** What a parser receives, in order: an argument, or the `cmd_args`
      callback of a submodule, recorded by name because its effect is the
      callback's own. */
  datatype Item = Argument(spec: ArgSpec) | Extension(callback: string)

  /** An argparse parser: its epilog (only the root parser gets one), its
      arguments and its sub-command selector, if `add_subparsers` was called. */
  datatype Node = Node(epilog: Option<string>, items: seq<Item>, selector: Option<Selector>)

  /** The action returned by `add_subparsers`: its dest, help and
      `required` flag, and one branch per `add_parser` call. */
  datatype Selector = Selector(dest: string, help: string, required: bool, branches: seq<Branch>)

  datatype Branch = Branch(name: string, help: string, node: Node)

  function Arguments(specs: seq<ArgSpec>): (items: seq<Item>)
    ensures |items| == |specs|
    ensures forall i :: 0 <= i < |specs| ==> items[i] == Argument(specs[i])
  {
    seq(|specs|, i requires 0 <= i < |specs| => Argument(specs[i]))
  }
}
