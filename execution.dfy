/**
 * The tree-walking executor (dq/execution.py): a device is looked up in the
 * registry, constructed from its unevaluated argument expressions and called
 * on the inputs; a block runs every branch pipeline on its own copy of the
 * inputs; a pipeline feeds each item the previous item's output.
 *
 * The specification functions (`ExecNode`, `ExecItem`, `ExecPipeline`) say
 * what a run produces; the methods (`Execute`, `ExecuteItem`,
 * `ExecutePipeline`) are the loops of the source, proved to produce it.
 * Every run also yields the list of device constructions and calls it made,
 * in order, so that "nothing was constructed" and "branch before branch" can
 * be stated.
 */
module Execution {
  import opened Wrappers
  import opened Ast
  import opened Values

  /**
   * A registered device class, constructed with the device's argument
   * expressions (unevaluated) and keyword expressions and then called on the
   * inputs; its result as a function of all three.
   */
  type DeviceClass = (seq<Expression>, map<string, Expression>, seq<Value>) -> Value

  /** `DEVICES_REGISTER`: device name to class. */
  type Registry = map<string, DeviceClass>

  /** What a run does to the outside world: constructions and calls of devices. */
  datatype Event =
    | Constructed(name: string, args: seq<Expression>, keywords: map<string, Expression>)
    | Called(name: string, inputs: seq<Value>)

  datatype ExecError =
    | KeyError(key: string)   // a device name not in the registry
    | TypeError               // `execute` applied to something that is not a node

  /** The outcome of a run and the events it made, up to the error if there was one. */
  datatype Run = Run(result: Result<Value, ExecError>, events: seq<Event>)

  /** What `execute` may be applied to: a pipeline item, a pipeline, or any other object. */
  datatype Node = ItemNode(item: Item) | PipelineNode(pipeline: Pipeline) | Foreign

  // ---------------------------------------------------------------------
  // Specification
  // ---------------------------------------------------------------------

  /** `get_device_instance` and the call of the instance. */
  function DeviceRun(reg: Registry, d: Device, inputs: seq<Value>): (r: Run)
    ensures d.name !in reg ==> r == Run(Err(KeyError(d.name)), [])
    ensures d.name in reg ==> r.result == Ok(reg[d.name](d.args, d.keywords, inputs))
    ensures d.name in reg ==> r.events == [Constructed(d.name, d.args, d.keywords), Called(d.name, inputs)]
  {
    if d.name !in reg then Run(Err(KeyError(d.name)), [])
    else
      var klass := reg[d.name];
      Run(Ok(klass(d.args, d.keywords, inputs)), [Constructed(d.name, d.args, d.keywords), Called(d.name, inputs)])
  }

  /** `(arg,) * count`: the same object once per branch. */
  function Copies(v: Value, count: nat): (r: seq<Value>)
    ensures |r| == count
  {
    seq(count, _ => v)
  }

  /** `itertools.tee(gen, count)`: `count` independent streams over the generator's items. */
  function Tee(items: seq<Value>, count: nat): (r: seq<Value>)
    ensures |r| == count
  {
    seq(count, _ => TeeStream(items))
  }

  /** One row of `_args_matrix`: what each branch gets for the input `v`. */
  function MatrixRow(v: Value, count: nat): (r: seq<Value>)
    ensures |r| == count
  {
    if v.Generator? then Tee(v.items, count) else Copies(v, count)
  }

  /** `_args_matrix` for the inputs `args` and `count` branches. */
  function Matrix(args: seq<Value>, count: nat): (m: seq<seq<Value>>)
    ensures |m| == |args| && forall j :: 0 <= j < |m| ==> |m[j]| == count
  {
    seq(|args|, j requires 0 <= j < |args| => MatrixRow(args[j], count))
  }

  /** `zip(*m)` of rows that all have `count` entries: no rows at all when `m` is empty. */
  function Zip(m: seq<seq<Value>>, count: nat): seq<seq<Value>>
    requires forall j :: 0 <= j < |m| ==> |m[j]| == count
  {
    if |m| == 0 then []
    else seq(count, i requires 0 <= i < count => seq(|m|, j requires 0 <= j < |m| => m[j][i]))
  }

  /** The branch rows of a block with `count` branches given `args`. */
  function Rows(args: seq<Value>, count: nat): seq<seq<Value>> {
    Zip(Matrix(args, count), count)
  }

  /** What one branch is given for the input `v`. */
  function BranchInput(v: Value): Value {
    if v.Generator? then TeeStream(v.items) else v
  }

  /** What one branch is given for the inputs `args`. */
  function BranchInputs(args: seq<Value>): (r: seq<Value>)
    ensures |r| == |args|
  {
    seq(|args|, j requires 0 <= j < |args| => BranchInput(args[j]))
  }

  /** `execute(obj, args)`. */
  function ExecNode(reg: Registry, obj: Node, args: seq<Value>): Run {
    match obj
    case ItemNode(it) => ExecItem(reg, it, args)
    case PipelineNode(p) => ExecPipeline(reg, p, args)
    case Foreign => Run(Err(TypeError), [])
  }

  /** `execute` on a device or a block; a block's result is always a tuple. */
  function ExecItem(reg: Registry, it: Item, args: seq<Value>): (r: Run)
    ensures it.BlockItem? && r.result.Ok? ==> r.result.value.Tuple?
    decreases it, 0
  {
    match it
    case DeviceItem(d) => DeviceRun(reg, d, args)
    case BlockItem(bs) => BranchesFrom(reg, bs, Rows(args, |bs|), 0, [], [])
  }

  /**
   * The loop `for pipe, args in zip(obj, rows)`, from branch `i` on, with the
   * results and events of the branches before it.
   */
  function BranchesFrom(reg: Registry, bs: seq<Pipeline>, rows: seq<seq<Value>>, i: nat,
                        results: seq<Value>, events: seq<Event>): (r: Run)
    ensures r.result.Ok? ==> r.result.value.Tuple?
    decreases bs, |bs| - i
  {
    if i >= |bs| || i >= |rows| then Run(Ok(Tuple(results)), events)
    else
      var b := ExecPipeline(reg, bs[i], rows[i]);
      if b.result.Err? then Run(b.result, events + b.events)
      else BranchesFrom(reg, bs, rows, i + 1, results + [b.result.value], events + b.events)
  }

  /** `execute` on a pipeline: the items run in turn, starting with the inputs as a block's output. */
  function ExecPipeline(reg: Registry, p: Pipeline, args: seq<Value>): Run
    decreases p, 0
  {
    ItemsFrom(reg, p.items, 0, args, true, [])
  }

  /** The inputs the next item gets from an item's result. */
  function Handoff(v: Value, wasblock: bool): seq<Value>
    requires wasblock ==> v.Tuple?
  {
    if wasblock then v.elems else [v]
  }

  /**
   * The loop `for item in obj`, from item `i` on, with the current `args`
   * and `wasblock` and the events so far.
   */
  function ItemsFrom(reg: Registry, items: seq<Item>, i: nat, args: seq<Value>, wasblock: bool,
                     events: seq<Event>): Run
    requires !wasblock ==> |args| == 1
    decreases items, |items| - i
  {
    if i >= |items| then Run(Ok(if wasblock then Tuple(args) else args[0]), events)
    else
      var r := ExecItem(reg, items[i], args);
      if r.result.Err? then Run(r.result, events + r.events)
      else ItemsFrom(reg, items, i + 1, Handoff(r.result.value, items[i].BlockItem?), items[i].BlockItem?,
                     events + r.events)
  }

  // ---------------------------------------------------------------------
  // The executor
  // ---------------------------------------------------------------------

  /** `execute(obj, args)`. */
  method Execute(reg: Registry, obj: Node, args: seq<Value>) returns (r: Result<Value, ExecError>, events: seq<Event>)
    ensures Run(r, events) == ExecNode(reg, obj, args)
  {
    match obj
    case ItemNode(it) =>
      r, events := ExecuteItem(reg, it, args);
    case PipelineNode(p) =>
      r, events := ExecutePipeline(reg, p, args);
    case Foreign =>
      r, events := Err(TypeError), [];
  }

  /** `execute` on a device or a block. */
  method ExecuteItem(reg: Registry, it: Item, args: seq<Value>) returns (r: Result<Value, ExecError>, events: seq<Event>)
    ensures Run(r, events) == ExecItem(reg, it, args)
    decreases it, 0
  {
    match it
    case DeviceItem(d) =>
      if d.name !in reg {
        return Err(KeyError(d.name)), [];
      }
      var klass := reg[d.name];
      events := [Constructed(d.name, d.args, d.keywords)];
      var value := klass(d.args, d.keywords, args);
      events := events + [Called(d.name, args)];
      r := Ok(value);
    case BlockItem(bs) =>
      var count := |bs|;
      var matrix: seq<seq<Value>> := [];
      for j := 0 to |args|
        invariant |matrix| == j
        invariant forall k :: 0 <= k < j ==> matrix[k] == MatrixRow(args[k], count)
      {
        if args[j].Generator? {
          matrix := matrix + [Tee(args[j].items, count)];
        } else {
          matrix := matrix + [Copies(args[j], count)];
        }
      }
      assert matrix == Matrix(args, count);
      var rows := Zip(matrix, count);
      var results: seq<Value> := [];
      events := [];
      var i := 0;
      while i < |bs| && i < |rows|
        invariant i <= |bs|
        invariant BranchesFrom(reg, bs, rows, i, results, events) == ExecItem(reg, it, args)
        decreases |bs| - i
      {
        var b, ev := ExecutePipeline(reg, bs[i], rows[i]);
        events := events + ev;
        if b.Err? {
          return b, events;
        }
        results := results + [b.value];
        i := i + 1;
      }
      r := Ok(Tuple(results));
  }

  /** `execute` on a pipeline. */
  method ExecutePipeline(reg: Registry, p: Pipeline, args: seq<Value>)
    returns (r: Result<Value, ExecError>, events: seq<Event>)
    ensures Run(r, events) == ExecPipeline(reg, p, args)
    decreases p, 1
  {
    var current := args;
    var wasblock := true;
    events := [];
    for i := 0 to |p.items|
      invariant !wasblock ==> |current| == 1
      invariant ItemsFrom(reg, p.items, i, current, wasblock, events) == ExecPipeline(reg, p, args)
    {
      var item := p.items[i];
      var result, ev := ExecuteItem(reg, item, current);
      events := events + ev;
      if result.Err? {
        return result, events;
      }
      if item.BlockItem? {
        wasblock := true;
        current := result.value.elems;
      } else {
        wasblock := false;
        current := [result.value];
      }
    }
    if !wasblock {
      r := Ok(current[0]);
    } else {
      r := Ok(Tuple(current));
    }
  }

  // ---------------------------------------------------------------------
  // Properties
  // ---------------------------------------------------------------------

  /** `execute` on anything that is not a device, a block or a pipeline raises `TypeError`. */
  lemma ForeignRejected(reg: Registry, args: seq<Value>)
    ensures ExecNode(reg, Foreign, args) == Run(Err(TypeError), [])
  {
  }

  /**
   * A device whose name is not registered fails with `KeyError` before
   * anything is constructed; a registered one is constructed from its
   * unevaluated argument expressions, then called on the inputs.
   */
  lemma DeviceExecution(reg: Registry, d: Device, args: seq<Value>)
    ensures var r := ExecItem(reg, DeviceItem(d), args);
            && (d.name !in reg <==> r.result.Err?)
            && (d.name !in reg ==> r.result == Err(KeyError(d.name)) && r.events == [])
            && (d.name in reg ==> (&& |r.events| == 2
                                   && r.events[0] == Constructed(d.name, d.args, d.keywords)
                                   && r.events[1] == Called(d.name, args)))
  {
  }

  /** Given no inputs, a block returns the empty tuple whatever its branches, and runs none of them. */
  lemma BlockWithoutInputs(reg: Registry, bs: seq<Pipeline>)
    ensures ExecItem(reg, BlockItem(bs), []) == Run(Ok(Tuple([])), [])
  {
    assert Rows([], |bs|) == [];
  }

  /**
   * Given at least one input, a block has one row per branch, and every row
   * holds one entry per input, in input order: a generator input becomes a
   * stream over all of its items, any other input is passed as it is.
   */
  lemma BlockRows(args: seq<Value>, count: nat)
    requires |args| > 0
    ensures |Rows(args, count)| == count
    ensures forall i :: 0 <= i < count ==> Rows(args, count)[i] == BranchInputs(args)
  {
    var m := Matrix(args, count);
    forall i | 0 <= i < count
      ensures Rows(args, count)[i] == BranchInputs(args)
    {
      forall j | 0 <= j < |args|
        ensures Rows(args, count)[i][j] == BranchInputs(args)[j]
      {
        assert Rows(args, count)[i][j] == m[j][i];
      }
    }
  }

  /** A branch input is the input itself, or for a generator a stream over the same items. */
  lemma BranchInputShape(v: Value)
    ensures !v.Generator? ==> BranchInput(v) == v
    ensures v.Generator? ==> BranchInput(v).TeeStream? && BranchInput(v).items == v.items
  {
  }

  /** The events of the branches `bs[..n]`, each run on `row`, in branch order. */
  function BranchEvents(reg: Registry, bs: seq<Pipeline>, row: seq<Value>, n: nat): seq<Event>
    requires n <= |bs|
  {
    if n == 0 then [] else BranchEvents(reg, bs, row, n - 1) + ExecPipeline(reg, bs[n - 1], row).events
  }

  /**
   * Given at least one input, a block succeeds exactly when every branch
   * does, and then returns a tuple of one result per branch, in branch order,
   * each branch having run on the same row, one after the other; otherwise
   * it fails with the error of the first branch that fails.
   */
  lemma BlockResults(reg: Registry, bs: seq<Pipeline>, args: seq<Value>)
    requires |args| > 0
    ensures var r := ExecItem(reg, BlockItem(bs), args);
            var row := BranchInputs(args);
            && (r.result.Ok? <==> forall k :: 0 <= k < |bs| ==> ExecPipeline(reg, bs[k], row).result.Ok?)
            && (r.result.Ok? ==>
                  && |r.result.value.elems| == |bs|
                  && (forall k :: 0 <= k < |bs| ==> r.result.value.elems[k] == ExecPipeline(reg, bs[k], row).result.value)
                  && r.events == BranchEvents(reg, bs, row, |bs|))
            && (r.result.Err? ==> exists f :: && 0 <= f < |bs| && ExecPipeline(reg, bs[f], row).result == r.result
                                             && forall k :: 0 <= k < f ==> ExecPipeline(reg, bs[k], row).result.Ok?)
  {
    BlockRows(args, |bs|);
    BranchesFromResults(reg, bs, Rows(args, |bs|), BranchInputs(args), 0, [], []);
  }

  lemma {:induction false} BranchesFromResults(reg: Registry, bs: seq<Pipeline>, rows: seq<seq<Value>>, row: seq<Value>,
                                               i: nat, results: seq<Value>, events: seq<Event>)
    requires |rows| == |bs| && forall k :: 0 <= k < |rows| ==> rows[k] == row
    requires i <= |bs| && |results| == i && events == BranchEvents(reg, bs, row, i)
    requires forall k :: 0 <= k < i ==> ExecPipeline(reg, bs[k], row).result == Ok(results[k])
    ensures var r := BranchesFrom(reg, bs, rows, i, results, events);
            && (r.result.Ok? <==> forall k :: i <= k < |bs| ==> ExecPipeline(reg, bs[k], row).result.Ok?)
            && (r.result.Ok? ==>
                  && |r.result.value.elems| == |bs|
                  && (forall k :: 0 <= k < |bs| ==> r.result.value.elems[k] == ExecPipeline(reg, bs[k], row).result.value)
                  && r.events == BranchEvents(reg, bs, row, |bs|))
            && (r.result.Err? ==> exists f :: && i <= f < |bs| && ExecPipeline(reg, bs[f], row).result == r.result
                                             && forall k :: i <= k < f ==> ExecPipeline(reg, bs[k], row).result.Ok?)
    decreases |bs| - i
  {
    if i < |bs| {
      var b := ExecPipeline(reg, bs[i], row);
      if b.result.Ok? {
        BranchesFromResults(reg, bs, rows, row, i + 1, results + [b.result.value], events + b.events);
      } else {
        assert ExecPipeline(reg, bs[i], row).result == BranchesFrom(reg, bs, rows, i, results, events).result;
      }
    }
  }

  /** With no items, a pipeline returns its inputs, as a tuple. */
  lemma EmptyPipeline(reg: Registry, args: seq<Value>)
    ensures ExecPipeline(reg, Pipeline([]), args) == Run(Ok(Tuple(args)), [])
  {
  }

  /** Whether the item run last before the next one was a block (or nothing ran yet). */
  function EndsWithBlock(items: seq<Item>): bool {
    |items| == 0 || items[|items| - 1].BlockItem?
  }

  /**
   * One more item after a run `pre`: it gets the run's result as its inputs
   * (a block's tuple as it is, a device's value as the only input) and its
   * own result is the result of the whole.
   */
  function Continue(reg: Registry, pre: Run, wasblock: bool, it: Item): Run
    requires pre.result.Ok? && wasblock ==> pre.result.value.Tuple?
  {
    if pre.result.Err? then pre
    else
      var next := ExecItem(reg, it, Handoff(pre.result.value, wasblock));
      Run(next.result, pre.events + next.events)
  }

  /**
   * A pipeline is a left fold: appending an item runs it on what the
   * pipeline before it returned, passed on as a block's tuple or as a lone
   * device value; the longer pipeline returns that item's result, the bare
   * value of a device or the tuple of a block; an error stops the fold.
   */
  lemma PipelineAppend(reg: Registry, items: seq<Item>, it: Item, args: seq<Value>)
    ensures var pre := ExecPipeline(reg, Pipeline(items), args);
            && (pre.result.Ok? && EndsWithBlock(items) ==> pre.result.value.Tuple?)
            && ExecPipeline(reg, Pipeline(items + [it]), args) == Continue(reg, pre, EndsWithBlock(items), it)
  {
    ItemsFromAppend(reg, items, it, 0, args, true, []);
  }

  lemma {:induction false} ItemsFromAppend(reg: Registry, items: seq<Item>, it: Item, i: nat, args: seq<Value>,
                                           wasblock: bool, events: seq<Event>)
    requires i <= |items| && (!wasblock ==> |args| == 1)
    ensures var pre := ItemsFrom(reg, items, i, args, wasblock, events);
            var last := if i < |items| then EndsWithBlock(items) else wasblock;
            && (pre.result.Ok? && last ==> pre.result.value.Tuple?)
            && ItemsFrom(reg, items + [it], i, args, wasblock, events) == Continue(reg, pre, last, it)
    decreases |items| - i
  {
    if i < |items| {
      assert (items + [it])[i] == items[i];
      var r := ExecItem(reg, items[i], args);
      if r.result.Ok? {
        ItemsFromAppend(reg, items, it, i + 1, Handoff(r.result.value, items[i].BlockItem?), items[i].BlockItem?,
                        events + r.events);
      }
    } else {
      assert (items + [it])[i] == it;
      if !wasblock {
        assert [args[0]] == args;
      }
      var next := ExecItem(reg, it, args);
      if next.result.Ok? && it.BlockItem? {
        assert Tuple(next.result.value.elems) == next.result.value;
      }
    }
  }
}
