/** The Python values that flow through the workflow state: agent outputs,
    extraction records, judge records and compliance reports, together with
    the exceptions Python raises on them. */
module Values {
  import opened Strings

  /** A Python value as the core handles it. A dict keeps its insertion order
      (as Python dicts do) and has string keys. */
  datatype Value =
    | Null                        // None
    | Bool(b: bool)
    | Int(i: int)
    | Str(s: string)
    | List(items: seq<Value>)
    | Dict(entries: seq<Entry>)

  datatype Entry = Entry(key: string, val: Value)

  /** A Python dict as an association list in insertion order. */
  type PyDict = seq<Entry>

  /** An exception: its class name and `str(exception)`. */
  datatype Exc = Exc(kind: string, message: string)

  /** The result of a Python call that either returns or raises. */
  datatype Outcome<+T> = Done(value: T) | Raised(exc: Exc)

  /** `f"{type(e).__name__}: {str(e)}"`. */
  function Describe(e: Exc): string {
    e.kind + ": " + e.message
  }

  /** Python truthiness (`if v:` / `v or w`). */
  predicate Truthy(v: Value) {
    match v
    case Null => false
    case Bool(b) => b
    case Int(i) => i != 0
    case Str(s) => s != ""
    case List(items) => items != []
    case Dict(entries) => entries != []
  }

  /** `type(v).__name__`. */
  function TypeName(v: Value): string {
    match v
    case Null => "NoneType"
    case Bool(_) => "bool"
    case Int(_) => "int"
    case Str(_) => "str"
    case List(_) => "list"
    case Dict(_) => "dict"
  }

  function Keys(d: PyDict): seq<string> {
    seq(|d|, i requires 0 <= i < |d| => d[i].key)
  }

  predicate HasKey(d: PyDict, k: string) {
    exists i | 0 <= i < |d| :: d[i].key == k
  }

  predicate UniqueKeys(d: PyDict) {
    forall i, j | 0 <= i < j < |d| :: d[i].key != d[j].key
  }

  /** `d.get(k)`: the value stored under `k`, if any. */
  function Get(d: PyDict, k: string): Option<Value> {
    if d == [] then None
    else if d[0].key == k then Some(d[0].val)
    else Get(d[1..], k)
  }

  /** `d[k] = v`: an existing key keeps its position, a new key goes last. */
  function Put(d: PyDict, k: string, v: Value): PyDict {
    if d == [] then [Entry(k, v)]
    else if d[0].key == k then [Entry(k, v)] + d[1..]
    else [d[0]] + Put(d[1..], k, v)
  }

  /** Every key of `d` lies in `ks`. */
  predicate KeysWithin(d: PyDict, ks: set<string>) {
    forall i | 0 <= i < |d| :: d[i].key in ks
  }

  /** Storing under a key of `ks` keeps the keys within `ks`. */
  lemma {:induction false} PutKeysWithin(d: PyDict, k: string, v: Value, ks: set<string>)
    requires KeysWithin(d, ks) && k in ks
    ensures KeysWithin(Put(d, k, v), ks)
  {
    if d != [] && d[0].key != k {
      PutKeysWithin(d[1..], k, v, ks);
    }
  }

  /** A key that `Get` finds is one of the keys. */
  lemma {:induction false} GetKeysWithin(d: PyDict, k: string, ks: set<string>)
    requires KeysWithin(d, ks) && Get(d, k).Some?
    ensures k in ks
  {
    if d[0].key != k {
      GetKeysWithin(d[1..], k, ks);
    }
  }

  lemma {:induction false} GetPut(d: PyDict, k: string, v: Value, j: string)
    ensures Get(Put(d, k, v), j) == if j == k then Some(v) else Get(d, j)
  {
    if d != [] && d[0].key != k {
      GetPut(d[1..], k, v, j);
    }
  }

  lemma {:induction false} HasKeyGet(d: PyDict, k: string)
    ensures HasKey(d, k) <==> Get(d, k).Some?
  {
    if d != [] {
      HasKeyGet(d[1..], k);
      if HasKey(d, k) && d[0].key != k {
        var i :| 0 <= i < |d| && d[i].key == k;
        assert d[1..][i - 1].key == k;
      }
      if HasKey(d[1..], k) {
        var i :| 0 <= i < |d[1..]| && d[1..][i].key == k;
        assert d[i + 1].key == k;
      }
    }
  }

  /** The first entry with a key is the one `Get` finds. */
  lemma {:induction false} GetFirstAt(d: PyDict, i: int)
    requires 0 <= i < |d|
    requires forall j | 0 <= j < i :: d[j].key != d[i].key
    ensures Get(d, d[i].key) == Some(d[i].val)
  {
    if i > 0 {
      GetFirstAt(d[1..], i - 1);
    }
  }

  /** `xs[index]` with Python's negative indexing. */
  function PyIndex<T>(xs: seq<T>, index: int): T
    requires -|xs| <= index < |xs|
  {
    if index >= 0 then xs[index] else xs[|xs| + index]
  }

  /** `str(s)` quoted as `repr` does inside a container. */
  function Quote(s: string): string {
    if '\'' in s && '"' !in s then "\"" + s + "\"" else "'" + s + "'"
  }

  /** `str(v)`: a string is itself, everything else is its `repr`. */
  function Repr(v: Value): string {
    match v
    case Str(s) => s
    case _ => ReprInner(v)
  }

  /** `repr(v)`. */
  function ReprInner(v: Value): string {
    match v
    case Null => "None"
    case Bool(b) => if b then "True" else "False"
    case Int(i) => IntToString(i)
    case Str(s) => Quote(s)
    case List(items) => "[" + ReprItems(items) + "]"
    case Dict(entries) => "{" + ReprEntries(entries) + "}"
  }

  function ReprItems(items: seq<Value>): string {
    if items == [] then ""
    else if |items| == 1 then ReprInner(items[0])
    else ReprInner(items[0]) + ", " + ReprItems(items[1..])
  }

  function ReprEntries(entries: seq<Entry>): string {
    if entries == [] then ""
    else
      var first := Quote(entries[0].key) + ": " + ReprInner(entries[0].val);
      if |entries| == 1 then first else first + ", " + ReprEntries(entries[1..])
  }

  /** `KeyError(k)` raised by `d[k]` on a missing key. */
  function KeyError(k: string): Exc {
    Exc("KeyError", Quote(k))
  }

  /** Python's binary `a + b` on the values the core adds: strings and lists
      concatenate, numbers (bools count as ints) sum, anything else raises
      `TypeError` with CPython's message. */
  function Add(a: Value, b: Value): (o: Outcome<Value>)
    ensures a.Str? && b.Str? ==> o == Done(Str(a.s + b.s))
    ensures a.Str? && !b.Str? ==> o.Raised? && o.exc.kind == "TypeError"
    ensures (a.Dict? || a.Null?) ==> o.Raised? && o.exc.kind == "TypeError"
  {
    if a.Str? then
      if b.Str? then Done(Str(a.s + b.s))
      else Raised(Exc("TypeError", "can only concatenate str (not \"" + TypeName(b) + "\") to str"))
    else if a.List? then
      if b.List? then Done(List(a.items + b.items))
      else Raised(Exc("TypeError", "can only concatenate list (not \"" + TypeName(b) + "\") to list"))
    else if IsNumber(a) && IsNumber(b) then Done(Int(AsInt(a) + AsInt(b)))
    else Raised(Exc("TypeError", "unsupported operand type(s) for +: '" + TypeName(a) + "' and '" + TypeName(b) + "'"))
  }

  /** `isinstance(v, int)`: true for ints and for bools. */
  predicate IsNumber(v: Value) {
    v.Int? || v.Bool?
  }

  /** The integer an int or a bool stands for (`True == 1`). */
  function AsInt(v: Value): int
    requires IsNumber(v)
  {
    if v.Int? then v.i else if v.b then 1 else 0
  }
}
