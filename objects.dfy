/**
 * The older object model of dq/objects.py: nodes that execute themselves.
 * A pipeline calls each item with the previous item's result as its only
 * argument; a block does nothing; a plain device cannot execute; devices
 * are looked up in a registry, falling back to a generic device that keeps
 * its name.
 *
 * The list wrapper and the expression compile cache of this file are the
 * same code as in dq/ast.py and are modelled once, by `Ast.WrappedList` and
 * `Ast.ExpressionObject`.
 */
module Objects {
  import opened Wrappers
  import Ast
  import opened Values

  /** A device constructor argument: a device name or a parsed expression. */
  datatype Arg = NameArg(name: string) | ExprArg(expr: Ast.Expression)

  /** The class a device object is an instance of. */
  datatype DeviceClass = PlainDevice | GenericDevice | Registered(cls: string)

  /**
   * A device object: its class, its `name` attribute (only a generic device
   * sets one), its positional arguments and its keyword arguments.
   */
  datatype DeviceObject = DeviceObject(cls: DeviceClass, name: Option<Arg>, args: seq<Arg>, keywords: map<string, Arg>)

  datatype ObjError =
    | IndexError            // `args[0]` of an empty tuple
    | NotImplementedError   // `Device.execute`

  /**
   * `Device(*args, **keywords)`: keeps the arguments as they are. A plain
   * device cannot run: executing it raises `NotImplementedError`, whatever
   * it is given.
   */
  function NewDevice(args: seq<Arg>, keywords: map<string, Arg>): (d: DeviceObject)
    ensures d.cls == PlainDevice && d.name.None? && d.args == args && d.keywords == keywords
    ensures forall run: Behaviour, xs: seq<Value> :: Exec(run, DeviceNode(d), xs) == Err(NotImplementedError)
  {
    DeviceObject(PlainDevice, None, args, keywords)
  }

  /**
   * `GenericDevice(*args, **kwargs)`: the first positional argument is the
   * name, the others are the arguments; with none, `args[0]` fails.
   */
  function NewGenericDevice(args: seq<Arg>, keywords: map<string, Arg>): (r: Result<DeviceObject, ObjError>)
    ensures |args| == 0 <==> r == Err(IndexError)
    ensures r.Ok? ==> && r.value.cls == GenericDevice && r.value.name == Some(args[0])
                      && [args[0]] + r.value.args == args && r.value.keywords == keywords
  {
    if |args| == 0 then Err(IndexError)
    else Ok(DeviceObject(GenericDevice, Some(args[0]), args[1..], keywords))
  }

  /** `DEVICES_REGISTER`: device name to registered class. */
  type Register = map<string, string>

  /**
   * `get_device(name, args, kwargs)`: an instance of the registered class
   * built from the arguments, or else a generic device named `name`.
   */
  function GetDevice(reg: Register, name: string, args: seq<Arg>, keywords: map<string, Arg>): (d: DeviceObject)
    ensures name in reg ==> d == DeviceObject(Registered(reg[name]), None, args, keywords)
    ensures name !in reg ==> && d.cls == GenericDevice && d.name == Some(NameArg(name))
                             && d.args == args && d.keywords == keywords
  {
    if name in reg then DeviceObject(Registered(reg[name]), None, args, keywords)
    else NewGenericDevice([NameArg(name)] + args, keywords).value
  }

  /** A node of the object model. */
  datatype Node =
    | PipelineNode(items: seq<Node>)
    | BlockNode(branches: seq<Node>)
    | DeviceNode(device: DeviceObject)

  /** What the `execute` of a registered device class returns for its arguments. */
  type Behaviour = (DeviceObject, seq<Value>) -> Value

  // ---------------------------------------------------------------------
  // Specification
  // ---------------------------------------------------------------------

  /** `node.execute(*args)`. */
  function Exec(run: Behaviour, node: Node, args: seq<Value>): Result<Value, ObjError>
    decreases node, 0
  {
    match node
    case PipelineNode(items) => PipelineExec(run, items, args)
    case BlockNode(_) => Ok(NoneValue)
    case DeviceNode(d) => if d.cls.Registered? then Ok(run(d, args)) else Err(NotImplementedError)
  }

  /** The arguments `Pipeline.execute` holds after running the first `k` items. */
  function Stage(run: Behaviour, items: seq<Node>, args: seq<Value>, k: nat): Result<seq<Value>, ObjError>
    requires k <= |items|
    decreases items, k
  {
    if k == 0 then Ok(args)
    else
      match Stage(run, items, args, k - 1)
      case Err(e) => Err(e)
      case Ok(a) =>
        match Exec(run, items[k - 1], a)
        case Err(e) => Err(e)
        case Ok(v) => Ok([v])
  }

  /** `Pipeline.execute(*args)`: the first of the arguments held after the last item. */
  function PipelineExec(run: Behaviour, items: seq<Node>, args: seq<Value>): Result<Value, ObjError>
    decreases items, |items| + 1
  {
    match Stage(run, items, args, |items|)
    case Err(e) => Err(e)
    case Ok(a) => if |a| == 0 then Err(IndexError) else Ok(a[0])
  }

  // ---------------------------------------------------------------------
  // The methods
  // ---------------------------------------------------------------------

  /** `node.execute(*args)`: dispatch on the node's class. */
  method Execute(run: Behaviour, node: Node, args: seq<Value>) returns (r: Result<Value, ObjError>)
    ensures r == Exec(run, node, args)
    decreases node, 0
  {
    match node
    case PipelineNode(items) =>
      r := ExecutePipeline(run, items, args);
    case BlockNode(_) =>
      r := Ok(NoneValue);                 // `PipelineBlock.execute` has an empty body
    case DeviceNode(d) =>
      if d.cls.Registered? {
        r := Ok(run(d, args));
      } else {
        r := Err(NotImplementedError);    // `Device.execute`, inherited by `GenericDevice`
      }
  }

  /** `Pipeline.execute(*args)`: `args = item.execute(*args),` for every item, then `args[0]`. */
  method ExecutePipeline(run: Behaviour, items: seq<Node>, args: seq<Value>) returns (r: Result<Value, ObjError>)
    ensures r == PipelineExec(run, items, args)
    decreases items, |items| + 1
  {
    var current := args;
    for k := 0 to |items|
      invariant Stage(run, items, args, k) == Ok(current)
    {
      var v := Execute(run, items[k], current);
      if v.Err? {
        ErrorStops(run, items, args, k + 1, v.error);
        return Err(v.error);
      }
      current := [v.value];
    }
    if |current| == 0 {
      return Err(IndexError);
    }
    r := Ok(current[0]);
  }

  /** An item that raises ends the pipeline: the exception is what the pipeline raises. */
  lemma {:induction false} ErrorStops(run: Behaviour, items: seq<Node>, args: seq<Value>, k: nat, e: ObjError)
    requires k <= |items| && Stage(run, items, args, k) == Err(e)
    ensures PipelineExec(run, items, args) == Err(e)
    decreases |items| - k
  {
    if k < |items| {
      ErrorStops(run, items, args, k + 1, e);
    }
  }

  // ---------------------------------------------------------------------
  // Properties
  // ---------------------------------------------------------------------

  /**
   * After the first item, every item is called with exactly one argument:
   * the previous item's result.
   */
  lemma {:induction false} SoleArgument(run: Behaviour, items: seq<Node>, args: seq<Value>, k: nat)
    requires 0 < k <= |items|
    ensures Stage(run, items, args, k).Ok? ==>
              && |Stage(run, items, args, k).value| == 1
              && Stage(run, items, args, k - 1).Ok?
              && Exec(run, items[k - 1], Stage(run, items, args, k - 1).value) == Ok(Stage(run, items, args, k).value[0])
  {
  }

  /**
   * A pipeline with items returns what its last item returned, given what
   * the items before it produced; it fails with the first error an item
   * raises.
   */
  lemma LastResult(run: Behaviour, items: seq<Node>, args: seq<Value>)
    requires |items| > 0
    ensures var before := Stage(run, items, args, |items| - 1);
            PipelineExec(run, items, args)
              == if before.Err? then Err(before.error) else Exec(run, items[|items| - 1], before.value)
  {
  }

  /** With no items, `Pipeline.execute` returns its first argument; with no argument either, `IndexError`. */
  lemma EmptyPipeline(run: Behaviour, args: seq<Value>)
    ensures PipelineExec(run, [], args) == if |args| == 0 then Err(IndexError) else Ok(args[0])
  {
  }

  /**
   * `PipelineBlock.execute` returns None whatever it is given, and a device
   * that is not of a registered class (a plain or a generic device) raises
   * `NotImplementedError` when executed.
   */
  lemma BlockAndDeviceExecute(run: Behaviour, bs: seq<Node>, d: DeviceObject, args: seq<Value>)
    ensures Exec(run, BlockNode(bs), args) == Ok(NoneValue)
    ensures !d.cls.Registered? ==> Exec(run, DeviceNode(d), args) == Err(NotImplementedError)
  {
  }

  /** Item `j` of the pipeline is reached and returns without raising. */
  predicate ItemSucceeds(run: Behaviour, items: seq<Node>, args: seq<Value>, j: nat)
    requires j < |items|
  {
    var before := Stage(run, items, args, j);
    before.Ok? && Exec(run, items[j], before.value).Ok?
  }

  /**
   * Every item of a pipeline runs, in order, until one raises: the first
   * `k` items all get through exactly when each of them is reached and
   * returns.
   */
  lemma {:induction false} StagesSucceed(run: Behaviour, items: seq<Node>, args: seq<Value>, k: nat)
    requires k <= |items|
    ensures Stage(run, items, args, k).Ok? <==> forall j :: 0 <= j < k ==> ItemSucceeds(run, items, args, j)
    decreases k
  {
    if k > 0 {
      StagesSucceed(run, items, args, k - 1);
      assert Stage(run, items, args, k).Ok? <==> ItemSucceeds(run, items, args, k - 1);
      if ItemSucceeds(run, items, args, k - 1) {
        assert Stage(run, items, args, k - 1).Ok?;
      }
    }
  }
}
