/**
 * The parse tree of a dq program (dq/ast.py): pipelines, blocks of branch
 * pipelines and devices whose arguments are Python expressions; the list
 * wrapper both node kinds are built on; the reprs; and the compile cache of
 * an expression.
 */
module Ast {
  import opened Wrappers

  // ---------------------------------------------------------------------
  // Nodes
  // ---------------------------------------------------------------------

  /** A Python expression node produced by `ast.parse`, identified by its source text. */
  datatype PyExpr = PyExpr(source: string)

  /** `Expression(node, name)`: a device argument, kept unevaluated. */
  datatype Expression = Expression(node: PyExpr, name: string)

  /** `Device(name, args, keywords)`: `args` is copied into a tuple, in order. */
  datatype Device = Device(name: string, args: seq<Expression>, keywords: map<string, Expression>)

  /** A pipeline item is a device or a block; a block is a list of branch pipelines. */
  datatype Item = DeviceItem(device: Device) | BlockItem(branches: seq<Pipeline>)

  /** A pipeline is a list of items run one after the other. */
  datatype Pipeline = Pipeline(items: seq<Item>)

  /** `Expression.__init__`: a missing or empty name becomes `<none>`. */
  function NewExpression(node: PyExpr, name: Option<string>): (e: Expression)
    ensures e.node == node && e.name != ""
    ensures name.Some? && name.value != "" ==> e.name == name.value
    ensures (name.None? || name.value == "") ==> e.name == "<none>"
  {
    Expression(node, if name.Some? && name.value != "" then name.value else "<none>")
  }

  /** `Device.from_star(name, *a, **kw)`: the same device as `Device(name, a, kw)`. */
  function FromStar(name: string, a: seq<Expression>, kw: map<string, Expression>): (d: Device)
    ensures d.name == name && d.args == a && d.keywords == kw
  {
    Device(name, a, kw)
  }

  // ---------------------------------------------------------------------
  // Reprs
  // ---------------------------------------------------------------------

  /** Python's `sep.join(parts)`. */
  function Join(sep: string, parts: seq<string>): string
  {
    if |parts| == 0 then ""
    else if |parts| == 1 then parts[0]
    else parts[0] + sep + Join(sep, parts[1..])
  }

  /** Joining two non-empty lists puts one separator between the two joins. */
  lemma {:induction false} JoinConcat(sep: string, xs: seq<string>, ys: seq<string>)
    requires |xs| > 0 && |ys| > 0
    ensures Join(sep, xs + ys) == Join(sep, xs) + sep + Join(sep, ys)
    decreases |xs|
  {
    if |xs| == 1 {
      assert xs + ys == [xs[0]] + ys;
      assert (xs + ys)[1..] == ys;
    } else {
      assert (xs + ys)[1..] == xs[1..] + ys;
      JoinConcat(sep, xs[1..], ys);
    }
  }

  /** The length of a join: the parts plus one separator between each neighbouring pair. */
  lemma {:induction false} JoinLength(sep: string, parts: seq<string>)
    requires |parts| > 0
    ensures |Join(sep, parts)| == TotalLength(parts) + (|parts| - 1) * |sep|
    decreases |parts|
  {
    if |parts| > 1 {
      JoinLength(sep, parts[1..]);
    }
  }

  function TotalLength(parts: seq<string>): nat {
    if |parts| == 0 then 0 else |parts[0]| + TotalLength(parts[1..])
  }

  /** `'{{ {0} }}'.format(sep.join(reprs))`, shared by both list node reprs. */
  function Braced(sep: string, reprs: seq<string>): string {
    "{ " + Join(sep, reprs) + " }"
  }

  /** `order` is an iteration order of the dictionary `kw`: every key exactly once. */
  ghost predicate IsKeyOrder(order: seq<string>, kw: map<string, Expression>) {
    && (forall k :: k in kw <==> k in order)
    && (forall a, b :: 0 <= a < b < |order| ==> order[a] != order[b])
  }

  /** `keyOrder` gives an iteration order of every dictionary. */
  ghost predicate KeyOrders(keyOrder: map<string, Expression> -> seq<string>) {
    forall m :: IsKeyOrder(keyOrder(m), m)
  }

  /**
   * `repr` of a tree. The repr of an expression node is the Python object
   * repr of the node, which the caller supplies; `keyOrder` is the order in
   * which the keyword dictionary is iterated.
   */
  function PipelineRepr(p: Pipeline, nodeRepr: PyExpr -> string, keyOrder: map<string, Expression> -> seq<string>): string
    requires KeyOrders(keyOrder)
    decreases p, 2
  {
    Braced(" | ", ItemReprs(p.items, nodeRepr, keyOrder))
  }

  function ItemRepr(i: Item, nodeRepr: PyExpr -> string, keyOrder: map<string, Expression> -> seq<string>): string
    requires KeyOrders(keyOrder)
    decreases i, 0
  {
    match i
    case DeviceItem(d) => DeviceRepr(d, nodeRepr, keyOrder)
    case BlockItem(bs) => Braced(", ", seq(|bs|, k requires 0 <= k < |bs| => PipelineRepr(bs[k], nodeRepr, keyOrder)))
  }

  /** `Expression.__repr__`: `Expression(<node>, name='<name>')`. */
  function ExpressionRepr(e: Expression, nodeRepr: PyExpr -> string): string {
    "Expression(" + nodeRepr(e.node) + ", name=" + StrRepr(e.name) + ")"
  }

  /** Python 2 `repr` of a string holding no quote or backslash. */
  function StrRepr(s: string): string {
    "'" + s + "'"
  }

  /**
   * `Device.__repr__`: `Device('<name>', <args>..., <key>=<value>...)`, the
   * keywords in the order `keyOrder` lists them (the dictionary's iteration
   * order, which is arbitrary but lists every key once).
   */
  function DeviceRepr(d: Device, nodeRepr: PyExpr -> string, keyOrder: map<string, Expression> -> seq<string>): string
    requires IsKeyOrder(keyOrder(d.keywords), d.keywords)
  {
    var names := KeywordReprs(d.keywords, nodeRepr);
    var order := keyOrder(d.keywords);
    var argReprs := seq(|d.args|, k requires 0 <= k < |d.args| => ExpressionRepr(d.args[k], nodeRepr));
    var kwReprs := seq(|order|, k requires 0 <= k < |order| => order[k] + "=" + names[order[k]]);
    "Device(" + Join(", ", [StrRepr(d.name)] + argReprs + kwReprs) + ")"
  }

  function KeywordReprs(kw: map<string, Expression>, nodeRepr: PyExpr -> string): map<string, string> {
    map k | k in kw :: ExpressionRepr(kw[k], nodeRepr)
  }

  /** A block with no branches prints as `{  }`, with two blanks. */
  lemma EmptyBlockRepr(nodeRepr: PyExpr -> string, keyOrder: map<string, Expression> -> seq<string>)
    requires KeyOrders(keyOrder)
    ensures ItemRepr(BlockItem([]), nodeRepr, keyOrder) == "{  }"
  {
  }

  /**
   * Appending an item to a pipeline (what the parser does for each further
   * `| item`) adds ` | <repr of the item>` before the closing brace.
   */
  lemma PipelineReprAppend(items: seq<Item>, i: Item, nodeRepr: PyExpr -> string, keyOrder: map<string, Expression> -> seq<string>)
    requires |items| > 0 && KeyOrders(keyOrder)
    ensures var before := ItemReprs(items, nodeRepr, keyOrder);
      PipelineRepr(Pipeline(items + [i]), nodeRepr, keyOrder)
      == "{ " + Join(" | ", before) + " | " + ItemRepr(i, nodeRepr, keyOrder) + " }"
  {
    var all := ItemReprs(items + [i], nodeRepr, keyOrder);
    var before := ItemReprs(items, nodeRepr, keyOrder);
    assert all == before + [ItemRepr(i, nodeRepr, keyOrder)];
    JoinConcat(" | ", before, [ItemRepr(i, nodeRepr, keyOrder)]);
  }

  function ItemReprs(items: seq<Item>, nodeRepr: PyExpr -> string, keyOrder: map<string, Expression> -> seq<string>): (rs: seq<string>)
    requires KeyOrders(keyOrder)
    ensures |rs| == |items| && forall k :: 0 <= k < |items| ==> rs[k] == ItemRepr(items[k], nodeRepr, keyOrder)
    decreases items, 1
  {
    seq(|items|, k requires 0 <= k < |items| => ItemRepr(items[k], nodeRepr, keyOrder))
  }

  // ---------------------------------------------------------------------
  // WrappedList: Python list semantics of indexing, assignment, deletion
  // and insertion
  // ---------------------------------------------------------------------

  datatype ListError = IndexError

  /** A Python index into a list of length `n`: negative indices count from the end. */
  function Slot(n: nat, pos: int): Option<nat> {
    if pos < 0 && 0 <= pos + n then Some(pos + n)
    else if 0 <= pos < n then Some(pos)
    else None
  }

  /** `lst[pos]`. */
  function Lookup<T>(s: seq<T>, pos: int): Result<T, ListError> {
    match Slot(|s|, pos)
    case Some(k) => Ok(s[k])
    case None => Err(IndexError)
  }

  /** `lst[pos] = x`. */
  function Assigned<T>(s: seq<T>, pos: int, x: T): Result<seq<T>, ListError> {
    match Slot(|s|, pos)
    case Some(k) => Ok(s[k := x])
    case None => Err(IndexError)
  }

  /** `del lst[pos]`. */
  function Deleted<T>(s: seq<T>, pos: int): Result<seq<T>, ListError> {
    match Slot(|s|, pos)
    case Some(k) => Ok(s[..k] + s[k + 1..])
    case None => Err(IndexError)
  }

  /** Where `lst.insert(pos, x)` puts `x`: the index clamped into `0..len`. */
  function InsertSlot(n: nat, pos: int): nat {
    if pos < 0 then (if pos + n < 0 then 0 else pos + n)
    else if pos > n then n
    else pos
  }

  /** `lst.insert(pos, x)`, which never fails. */
  function Inserted<T>(s: seq<T>, pos: int, x: T): seq<T> {
    var k := InsertSlot(|s|, pos);
    s[..k] + [x] + s[k..]
  }

  /** An index is valid exactly for `-len <= pos < len`, and then names a position of the list. */
  lemma SlotRange(n: nat, pos: int)
    ensures Slot(n, pos).Some? <==> -(n as int) <= pos < n
    ensures Slot(n, pos).Some? ==> Slot(n, pos).value < n && Slot(n, pos).value % n == pos % n
  {
    if pos < 0 && 0 <= pos + n {
      WrapsOnce(pos, n);
    }
  }

  /** A negative index no further back than the length is the index plus the length, modulo the length. */
  lemma WrapsOnce(pos: int, n: nat)
    requires -(n as int) <= pos < 0
    ensures pos % n == pos + n && (pos + n) % n == pos + n
  {
    assert pos == -1 * n + (pos + n);
  }

  /** Assignment changes exactly the addressed position, and reading it back gives the new value. */
  lemma AssignedOnlyThere<T>(s: seq<T>, pos: int, x: T)
    ensures Assigned(s, pos, x).Ok? <==> Lookup(s, pos).Ok?
    ensures Assigned(s, pos, x).Ok? ==>
      var r := Assigned(s, pos, x).value;
      && |r| == |s|
      && Lookup(r, pos) == Ok(x)
      && forall k :: 0 <= k < |s| && Some(k) != Slot(|s|, pos) ==> r[k] == s[k]
  {
  }

  /** Deletion removes one element and keeps the others in order. */
  lemma DeletedOne<T>(s: seq<T>, pos: int)
    ensures Deleted(s, pos).Ok? <==> Lookup(s, pos).Ok?
    ensures Deleted(s, pos).Ok? ==>
      var r := Deleted(s, pos).value; var k := Slot(|s|, pos).value;
      && |r| == |s| - 1
      && (forall j :: 0 <= j < k ==> r[j] == s[j])
      && (forall j :: k <= j < |r| ==> r[j] == s[j + 1])
      && multiset(r) + multiset{s[k]} == multiset(s)
  {
    if Deleted(s, pos).Ok? {
      var k := Slot(|s|, pos).value;
      assert s == s[..k] + [s[k]] + s[k + 1..];
    }
  }

  /** Insertion puts `x` at the clamped slot, shifts the rest right and grows the list by one. */
  lemma InsertedShifts<T>(s: seq<T>, pos: int, x: T)
    ensures var r := Inserted(s, pos, x); var k := InsertSlot(|s|, pos);
      && k <= |s|
      && |r| == |s| + 1
      && r[k] == x
      && (forall j :: 0 <= j < k ==> r[j] == s[j])
      && (forall j :: k <= j < |s| ==> r[j + 1] == s[j])
      && (0 <= pos <= |s| ==> k == pos)
      && (-|s| <= pos < 0 ==> k == pos + |s|)
  {
  }

  /** Deleting what was just inserted gives the list back. */
  lemma InsertThenDelete<T>(s: seq<T>, pos: int, x: T)
    ensures Deleted(Inserted(s, pos, x), InsertSlot(|s|, pos)) == Ok(s)
  {
    var k := InsertSlot(|s|, pos);
    var r := Inserted(s, pos, x);
    assert r[..k] + r[k + 1..] == s;
  }

  /**
   * `WrappedList`: a private Python list that the mutators change in place.
   * `Pipeline` and `PipelineBlock` are built on it.
   */
  class WrappedList<T> {
    var items: seq<T>

    /** `WrappedList(iterable)`: the elements of the iterable, in order. */
    constructor (init: seq<T>)
      ensures items == init
    {
      items := init;
    }

    /** `WrappedList()`: empty. */
    constructor Empty()
      ensures items == []
    {
      items := [];
    }

    method Get(pos: int) returns (r: Result<T, ListError>)
      ensures r == Lookup(items, pos)
    {
      if -|items| <= pos < 0 {
        r := Ok(items[pos + |items|]);
      } else if 0 <= pos < |items| {
        r := Ok(items[pos]);
      } else {
        r := Err(IndexError);
      }
    }

    method Len() returns (n: nat)
      ensures n == |items|
    {
      n := |items|;
    }

    /** `__setitem__`: fails with `IndexError`, leaving the list alone, when `pos` is out of range. */
    method Set(pos: int, x: T) returns (r: Result<(), ListError>)
      modifies this
      ensures r.Ok? <==> Assigned(old(items), pos, x).Ok?
      ensures r.Ok? ==> items == Assigned(old(items), pos, x).value
      ensures r.Err? ==> r.error == IndexError && items == old(items)
    {
      match Slot(|items|, pos)
      case Some(k) =>
        items := items[k := x];
        r := Ok(());
      case None =>
        r := Err(IndexError);
    }

    /** `__delitem__`. */
    method Delete(pos: int) returns (r: Result<(), ListError>)
      modifies this
      ensures r.Ok? <==> Deleted(old(items), pos).Ok?
      ensures r.Ok? ==> items == Deleted(old(items), pos).value
      ensures r.Err? ==> r.error == IndexError && items == old(items)
    {
      match Slot(|items|, pos)
      case Some(k) =>
        items := items[..k] + items[k + 1..];
        r := Ok(());
      case None =>
        r := Err(IndexError);
    }

    /** `insert`. */
    method Insert(pos: int, x: T)
      modifies this
      ensures items == Inserted(old(items), pos, x)
    {
      var k := InsertSlot(|items|, pos);
      items := items[..k] + [x] + items[k..];
    }

    /** `append`, which the mutable-sequence mixin defines as `insert(len(self), x)`. */
    method Append(x: T)
      modifies this
      ensures items == old(items) + [x]
    {
      var n := Len();
      Insert(n, x);
      assert items == old(items)[..n] + [x] + old(items)[n..];
    }
  }

  // ---------------------------------------------------------------------
  // The compile cache of an expression
  // ---------------------------------------------------------------------

  /** The code object `compile(ast.Expression(node), name, 'eval')` returns; each call makes a new one. */
  class CodeObject {
    const node: PyExpr
    const filename: string

    constructor (node: PyExpr, filename: string)
      ensures this.node == node && this.filename == filename
    {
      this.node := node;
      this.filename := filename;
    }
  }

  /**
   * An `Expression` object together with its `_compiled` attribute.
   * `compilations` counts the calls to `compile()` made through the cache.
   */
  class ExpressionObject {
    const expr: Expression
    var cache: Option<CodeObject>
    ghost var compilations: nat

    /** A cache holds a compilation of this expression, and was filled by the one compilation made. */
    ghost predicate Valid()
      reads this
    {
      && compilations == (if cache.Some? then 1 else 0)
      && (cache.Some? ==> cache.value.node == expr.node && cache.value.filename == expr.name)
    }

    constructor (e: Expression)
      ensures expr == e && cache == None && compilations == 0 && Valid()
    {
      expr := e;
      cache := None;
      compilations := 0;
    }

    /** `compile()`: a new code object for the node, named after the expression. */
    method Compile() returns (c: CodeObject)
      ensures fresh(c) && c.node == expr.node && c.filename == expr.name
    {
      c := new CodeObject(expr.node, expr.name);
    }

    /** The `compiled` property: compiles on first use, then returns the cached object. */
    method Compiled() returns (c: CodeObject)
      requires Valid()
      modifies this
      ensures Valid() && compilations <= 1
      ensures cache == Some(c) && c.node == expr.node && c.filename == expr.name
      ensures old(cache).Some? ==> c == old(cache).value && compilations == old(compilations)
      ensures old(cache).None? ==> fresh(c) && compilations == old(compilations) + 1
    {
      if cache.Some? {
        c := cache.value;
      } else {
        c := Compile();
        cache := Some(c);
        compilations := compilations + 1;
      }
    }
  }

  /** Two accesses to `compiled` compile once and return the same object. */
  method CompiledTwice(e: ExpressionObject) returns (first: CodeObject, second: CodeObject)
    requires e.Valid()
    modifies e
    ensures first == second && e.compilations <= 1 && e.cache == Some(first)
  {
    first := e.Compiled();
    second := e.Compiled();
  }
}
