/** The dynamic values the stages exchange: Python's `None`, booleans, integers, strings,
    datetimes, uploaded-file objects, lists and insertion-ordered dictionaries. */
module Values {
  import opened Text

  datatype Option<+T> = None | Some(value: T) {
    function GetOr(default: T): T {
      match this
      case Some(v) => v
      case None => default
    }
  }

  /** A Python value. A `dict` is the list of its entries in insertion order; a datetime is
      its count of seconds; `VObject` is an uploaded file (`UploadFile`), whose `filename`
      and `content_type` attributes always exist and may hold `None`, `repr` being what
      `str()` gives for it; a float is kept as the text `repr` gives for it together with the
      exact value it stands for. */
  datatype Value =
    | VNone
    | VBool(b: bool)
    | VInt(i: int)
    | VFloat(text: string, x: real)
    | VStr(s: string)
    | VTime(seconds: int)
    | VObject(repr: string, filename: Option<string>, contentType: Option<string>)
    | VList(items: seq<Value>)
    | VDict(entries: seq<Entry>)

  datatype Entry = Entry(key: string, val: Value)

  /** Python truthiness. */
  predicate Truthy(v: Value) {
    match v
    case VNone => false
    case VBool(b) => b
    case VInt(i) => i != 0
    case VFloat(_, x) => x != 0.0
    case VStr(s) => s != []
    case VTime(_) => true
    case VObject(_, _, _) => true
    case VList(items) => items != []
    case VDict(entries) => entries != []
  }

  /** `type(v).__name__`, as `json.dumps` names an object it cannot encode. */
  function TypeName(v: Value): string {
    match v
    case VNone => "NoneType"
    case VBool(_) => "bool"
    case VInt(_) => "int"
    case VFloat(_, _) => "float"
    case VStr(_) => "str"
    case VTime(_) => "datetime"
    case VObject(_, _, _) => "UploadFile"
    case VList(_) => "list"
    case VDict(_) => "dict"
  }

  /** The type's name as CPython's own TypeError and AttributeError texts show it: the C type
      `datetime` carries its module, every other type shows `__name__`. */
  function TpName(v: Value): string {
    if v.VTime? then "datetime.datetime" else TypeName(v)
  }

  /** The number a value stands for in an ordered comparison with a number (`bool` is a
      subclass of `int`); None when that comparison raises TypeError. */
  function AsNumber(v: Value): (r: Option<real>)
    ensures r.Some? <==> v.VInt? || v.VBool? || v.VFloat?
    ensures v.VInt? ==> r == Some(v.i as real)
    ensures v.VFloat? ==> r == Some(v.x)
  {
    match v
    case VInt(i) => Some(i as real)
    case VBool(b) => Some(if b then 1.0 else 0.0)
    case VFloat(_, x) => Some(x)
    case _ => None
  }

  // ---------------------------------------------------------------- dictionaries

  function Keys(d: seq<Entry>): (ks: set<string>)
    ensures forall i :: 0 <= i < |d| ==> d[i].key in ks
    ensures forall k :: k in ks ==> exists i :: 0 <= i < |d| && d[i].key == k
  {
    if d == [] then {} else {d[0].key} + Keys(d[1..])
  }

  /** A Python dict never holds a key twice. */
  predicate IsDict(d: seq<Entry>) {
    forall i, j :: 0 <= i < j < |d| ==> d[i].key != d[j].key
  }

  /** `d.get(k)`, None when the key is absent. */
  function Get(d: seq<Entry>, k: string): (r: Option<Value>)
    ensures r.Some? <==> k in Keys(d)
  {
    if d == [] then None else if d[0].key == k then Some(d[0].val) else Get(d[1..], k)
  }

  lemma {:induction false} GetAt(d: seq<Entry>, i: nat)
    requires IsDict(d) && i < |d|
    ensures Get(d, d[i].key) == Some(d[i].val)
  {
    if i > 0 {
      assert d[0].key != d[i].key;
      GetAt(d[1..], i - 1);
    }
  }

  lemma HeadNotInTail(d: seq<Entry>)
    requires IsDict(d) && d != []
    ensures d[0].key !in Keys(d[1..])
  {
    forall j | 0 <= j < |d| - 1 ensures d[1..][j].key != d[0].key {
      assert d[1..][j] == d[j + 1];
    }
  }

  /** `d[k] = v`: an existing key keeps its position, a new key goes last. */
  function Put(d: seq<Entry>, k: string, v: Value): (r: seq<Entry>)
    ensures Keys(r) == Keys(d) + {k}
    ensures |r| == if k in Keys(d) then |d| else |d| + 1
  {
    if d == [] then [Entry(k, v)]
    else if d[0].key == k then [Entry(k, v)] + d[1..]
    else [d[0]] + Put(d[1..], k, v)
  }

  lemma {:induction false} PutGet(d: seq<Entry>, k: string, v: Value, x: string)
    ensures Get(Put(d, k, v), x) == if x == k then Some(v) else Get(d, x)
  {
    if d != [] && d[0].key != k {
      PutGet(d[1..], k, v, x);
    }
  }

  lemma {:induction false} PutKeepsDict(d: seq<Entry>, k: string, v: Value)
    requires IsDict(d)
    ensures IsDict(Put(d, k, v))
  {
    if d != [] && d[0].key == k {
      var r := [Entry(k, v)] + d[1..];
      forall i, j | 0 <= i < j < |r| ensures r[i].key != r[j].key {
        assert r[j] == d[j];
        if i > 0 {
          assert r[i] == d[i];
        }
      }
    } else if d != [] {
      var tail := Put(d[1..], k, v);
      PutKeepsDict(d[1..], k, v);
      HeadNotInTail(d);
      assert Keys(tail) == Keys(d[1..]) + {k};
      var r := [d[0]] + tail;
      forall i, j | 0 <= i < j < |r| ensures r[i].key != r[j].key {
        assert r[j] == tail[j - 1];
        if i == 0 {
          assert tail[j - 1].key in Keys(tail);
        } else {
          assert r[i] == tail[i - 1];
        }
      }
    }
  }

  /** Entries of `d` are kept in order by Put when their key is not the one written. */
  lemma {:induction false} PutKeepsPrefixOrder(d: seq<Entry>, k: string, v: Value)
    requires k in Keys(d)
    ensures |Put(d, k, v)| == |d|
    ensures forall i :: 0 <= i < |d| ==> Put(d, k, v)[i].key == d[i].key
  {
    if d[0].key != k {
      PutKeepsPrefixOrder(d[1..], k, v);
    }
  }

  /** `ctx.update(d)`: each entry of `d`, in order, is written into `ctx`. */
  function Update(ctx: seq<Entry>, d: seq<Entry>): (r: seq<Entry>)
    ensures Keys(r) == Keys(ctx) + Keys(d)
    decreases d
  {
    if d == [] then ctx else Update(Put(ctx, d[0].key, d[0].val), d[1..])
  }

  /** After `ctx.update(d)` a key of `d` maps to its value in `d`; every other key keeps
      its value in `ctx` (absent keys stay absent). */
  lemma {:induction false} UpdateGet(ctx: seq<Entry>, d: seq<Entry>, x: string)
    requires IsDict(d)
    ensures Get(Update(ctx, d), x) == if x in Keys(d) then Get(d, x) else Get(ctx, x)
    decreases d
  {
    if d != [] {
      UpdateGet(Put(ctx, d[0].key, d[0].val), d[1..], x);
      PutGet(ctx, d[0].key, d[0].val, x);
      HeadNotInTail(d);
    }
  }

  lemma {:induction false} UpdateKeepsDict(ctx: seq<Entry>, d: seq<Entry>)
    requires IsDict(ctx)
    ensures IsDict(Update(ctx, d))
    decreases d
  {
    if d != [] {
      PutKeepsDict(ctx, d[0].key, d[0].val);
      UpdateKeepsDict(Put(ctx, d[0].key, d[0].val), d[1..]);
    }
  }

  /** A mutable Python dict object; two names may refer to the same one. */
  class Dict {
    var entries: seq<Entry>

    constructor (entries: seq<Entry>)
      ensures this.entries == entries
    {
      this.entries := entries;
    }

    /** `self.update(d)`. */
    method UpdateWith(d: seq<Entry>)
      modifies this
      ensures entries == Update(old(entries), d)
    {
      entries := Update(entries, d);
    }
  }

  // ---------------------------------------------------------------- str() and repr()

  /** Python `str(v)`; a datetime prints as its seconds. */
  function Str(v: Value): string
    decreases v, 1
  {
    match v
    case VStr(s) => s
    case _ => Repr(v)
  }

  /** Python `repr(v)`; string quoting ignores escaping of quotes inside the string. */
  function Repr(v: Value): string
    decreases v, 0
  {
    match v
    case VNone => "None"
    case VBool(b) => if b then "True" else "False"
    case VInt(i) => IntToString(i)
    case VFloat(t, _) => t
    case VStr(s) => "'" + s + "'"
    case VTime(t) => IntToString(t)
    case VObject(r, _, _) => r
    case VList(items) => "[" + ReprItems(items) + "]"
    case VDict(entries) => "{" + ReprEntries(entries) + "}"
  }

  function ReprItems(items: seq<Value>): string
    decreases items
  {
    if items == [] then ""
    else if |items| == 1 then Repr(items[0])
    else Repr(items[0]) + ", " + ReprItems(items[1..])
  }

  function ReprEntries(entries: seq<Entry>): string
    decreases entries
  {
    if entries == [] then ""
    else
      var e := entries[0];
      var first := "'" + e.key + "': " + Repr(e.val);
      if |entries| == 1 then first else first + ", " + ReprEntries(entries[1..])
  }

  /** A list of strings as a Python list value. */
  function StrList(xs: seq<string>): (v: Value)
    ensures v.VList? && |v.items| == |xs|
  {
    VList(seq(|xs|, i requires 0 <= i < |xs| => VStr(xs[i])))
  }
}
