// The configuration data the integration manipulates: Python values as
// read from YAML/JSON (None, bool, int, str, list, dict).  A dict keeps its
// insertion order, as Python's does, and its keys are strings.

module PyValues {
  import opened Outcomes

  datatype Value =
    | Nil
    | Bool(b: bool)
    | Int(i: int)
    | Str(s: string)
    | List(items: seq<Value>)
    | Dict(entries: seq<Entry>)

  datatype Entry = Entry(key: string, val: Value)

  const EmptyDict: Value := Dict([])

  /** Python's truth value of a configuration value. */
  predicate Truthy(v: Value)
  {
    match v
    case Nil => false
    case Bool(b) => b
    case Int(i) => i != 0
    case Str(s) => s != ""
    case List(items) => items != []
    case Dict(entries) => entries != []
  }

  /** `v or default` */
  function OrElse(v: Value, default: Value): (r: Value)
    ensures Truthy(v) ==> r == v
    ensures !Truthy(v) ==> r == default
  {
    if Truthy(v) then v else default
  }

  predicate IsScalar(v: Value)
  {
    !v.List? && !v.Dict?
  }

  /** Python `==` between a scalar and any value: a bool equals the integer
    * 0 or 1, and a scalar never equals a list or a dict. */
  predicate ScalarEq(a: Value, b: Value)
    requires IsScalar(a)
  {
    match a
    case Nil => b.Nil?
    case Str(s) => b.Str? && b.s == s
    case Bool(_) => (b.Bool? || b.Int?) && NumberOf(a) == NumberOf(b)
    case Int(_) => (b.Bool? || b.Int?) && NumberOf(a) == NumberOf(b)
  }

  function NumberOf(v: Value): int
    requires v.Bool? || v.Int?
  {
    if v.Int? then v.i else if v.b then 1 else 0
  }

  // ---------------------------------------------------------------------
  // Dicts as insertion-ordered entry sequences

  function Keys(es: seq<Entry>): (ks: seq<string>)
    ensures |ks| == |es|
    ensures forall i :: 0 <= i < |es| ==> ks[i] == es[i].key
  {
    if es == [] then [] else [es[0].key] + Keys(es[1..])
  }

  predicate HasKey(es: seq<Entry>, k: string)
  {
    k in Keys(es)
  }

  /** No key occurs twice: every Python dict has this shape. */
  predicate UniqueKeys(es: seq<Entry>)
  {
    forall i, j :: 0 <= i < j < |es| ==> es[i].key != es[j].key
  }

  /** `d.get(k)`: the value stored under `k`. */
  function Lookup(es: seq<Entry>, k: string): (r: Option<Value>)
    ensures r.None? <==> !HasKey(es, k)

  {
    if es == [] then None
    else if es[0].key == k then Some(es[0].val)
    else
      assert Keys(es) == [es[0].key] + Keys(es[1..]);
      Lookup(es[1..], k)
  }

  lemma ConsEntry(e: Entry, rest: seq<Entry>)
    ensures Keys([e] + rest) == [e.key] + Keys(rest)
    ensures forall j :: Lookup([e] + rest, j) == if e.key == j then Some(e.val) else Lookup(rest, j)
  {
    assert ([e] + rest)[1..] == rest;
  }

  lemma KeysAppend(a: seq<Entry>, b: seq<Entry>)
    ensures Keys(a + b) == Keys(a) + Keys(b)
  {
  }

  /** The first entry decides the lookup of its own key; others look past it. */
  lemma HasKeyCons(es: seq<Entry>)
    requires es != []
    ensures forall j :: HasKey(es, j) <==> j == es[0].key || HasKey(es[1..], j)
    ensures forall j :: j != es[0].key ==> Lookup(es, j) == Lookup(es[1..], j)
  {
    ConsEntry(es[0], es[1..]);
    assert es == [es[0]] + es[1..];
  }

  /** `d[k] = v`: an existing key keeps its position, a new key goes last. */
  function Assign(es: seq<Entry>, k: string, v: Value): (r: seq<Entry>)
    ensures Lookup(r, k) == Some(v)
    ensures forall j :: j != k ==> Lookup(r, j) == Lookup(es, j)
    ensures HasKey(es, k) ==> Keys(r) == Keys(es)
    ensures !HasKey(es, k) ==> Keys(r) == Keys(es) + [k]
  {
    if es == [] then [Entry(k, v)]
    else
      ConsEntry(es[0], es[1..]);
      assert es == [es[0]] + es[1..];
      if es[0].key == k then
        ConsEntry(Entry(k, v), es[1..]);
        [Entry(k, v)] + es[1..]
      else
        var rest := Assign(es[1..], k, v);
        ConsEntry(es[0], rest);
        [es[0]] + rest
  }

  /** `d.pop(k, None)` without its value: every entry under `k` is removed. */
  function Remove(es: seq<Entry>, k: string): (r: seq<Entry>)
    ensures !HasKey(r, k)
    ensures forall j :: j != k ==> Lookup(r, j) == Lookup(es, j)
    ensures forall j :: HasKey(r, j) <==> j != k && HasKey(es, j)
    ensures |r| <= |es|
  {
    if es == [] then []
    else
      ConsEntry(es[0], es[1..]);
      assert es == [es[0]] + es[1..];
      if es[0].key == k then Remove(es[1..], k)
      else
        var rest := Remove(es[1..], k);
        ConsEntry(es[0], rest);
        assert forall j :: HasKey([es[0]] + rest, j) <==> j == es[0].key || HasKey(rest, j);
        assert forall j :: HasKey(es, j) <==> j == es[0].key || HasKey(es[1..], j);
        [es[0]] + rest
  }

  /** `d.pop(k, default)`: the value (or the default) and the dict afterwards. */
  function Pop(es: seq<Entry>, k: string, default: Value): (r: (Value, seq<Entry>))
    ensures r.0 == Lookup(es, k).GetOr(default)
    ensures r.1 == Remove(es, k)
  {
    (Lookup(es, k).GetOr(default), Remove(es, k))
  }

  // ---------------------------------------------------------------------
  // Python operators on values of any type

  predicate OccursAt(needle: string, hay: string, i: nat)
  {
    i + |needle| <= |hay| && hay[i..i + |needle|] == needle
  }

  /** `needle in hay` for two strings. */
  predicate IsSubstring(needle: string, hay: string)
  {
    exists i: nat | i <= |hay| :: OccursAt(needle, hay, i)
  }

  /** `k in container` for a string `k`: a dict looks at its keys, a list at
    * its elements, a string at its substrings; anything else raises. */
  function ContainsKey(container: Value, k: string): (r: Result<bool>)
    ensures container.Dict? ==> r == Ok(HasKey(container.entries, k))
    ensures r.Err? <==> IsScalar(container) && !container.Str?
  {
    match container
    case Dict(es) => Ok(HasKey(es, k))
    case List(items) => Ok(Str(k) in items)
    case Str(s) => Ok(IsSubstring(k, s))
    case _ => Err(TypeError)
  }

  /** `container[k]` for a string `k`. */
  function GetItem(container: Value, k: string): (r: Result<Value>)
    ensures container.Dict? && HasKey(container.entries, k) ==> r == Ok(Lookup(container.entries, k).value)
    ensures r.Ok? <==> container.Dict? && HasKey(container.entries, k)
  {
    match container
    case Dict(es) => if HasKey(es, k) then Ok(Lookup(es, k).value) else Err(KeyError)
    case _ => Err(TypeError)
  }

  /** `container[k] = v` for a string `k`; only a dict accepts it. */
  function SetItem(container: Value, k: string, v: Value): (r: Result<Value>)
    ensures r.Ok? <==> container.Dict?
    ensures r.Ok? ==> r.value == Dict(Assign(container.entries, k, v))
  {
    if container.Dict? then Ok(Dict(Assign(container.entries, k, v))) else Err(TypeError)
  }

  /** `container.setdefault(k, default)`: the dict afterwards and the node under `k`. */
  function SetDefault(container: Value, k: string, default: Value): (r: Result<(Value, Value)>)
    ensures r.Ok? <==> container.Dict?
    ensures r.Ok? && HasKey(container.entries, k) ==> r.value == (container, Lookup(container.entries, k).value)
    ensures r.Ok? && !HasKey(container.entries, k) ==> r.value == (Dict(Assign(container.entries, k, default)), default)
  {
    match container
    case Dict(es) =>
      if HasKey(es, k) then Ok((container, Lookup(es, k).value))
      else Ok((Dict(Assign(es, k, default)), default))
    case _ => Err(AttributeError)
  }

  /** `for x in container`: a dict yields its keys, a string its characters. */
  function Iterate(container: Value): (r: Result<seq<Value>>)
    ensures r.Err? <==> IsScalar(container) && !container.Str?
    ensures container.List? ==> r == Ok(container.items)
    ensures container.Dict? ==> r.Ok? && |r.value| == |container.entries|
  {
    match container
    case Dict(es) => Ok(seq(|es|, i requires 0 <= i < |es| => Str(es[i].key)))
    case List(items) => Ok(items)
    case Str(s) => Ok(seq(|s|, i requires 0 <= i < |s| => Str([s[i]])))
    case _ => Err(TypeError)
  }

  /** Python's `s[lo:hi]` for 0 <= lo <= hi: clamped to the sequence. */
  function Slice<T>(s: seq<T>, lo: nat, hi: nat): (r: seq<T>)
    requires lo <= hi
    ensures hi <= |s| ==> r == s[lo..hi]
    ensures |r| <= hi - lo
    ensures |s| <= lo ==> r == []
    ensures lo <= |s| <= hi ==> r == s[lo..]
  {
    if |s| <= lo then [] else if |s| <= hi then s[lo..] else s[lo..hi]
  }
}
