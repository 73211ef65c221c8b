// The legacy configuration helpers of custom_components/ramses_cc/schema.py:
// the subset test, the schema merge, and the normalisation of the
// integration's YAML configuration into what the RF library expects.

module LegacySchema {
  import opened Outcomes
  import opened PyValues

  // ---------------------------------------------------------------------
  // _is_subset

  /** `_is_subset(sub, sup)`: a dict is a subset when each of its keys is in
    * `sup` with a value that is a subset of `sup`'s; a list when each item
    * is a subset of some item of `sup`; anything else by `==`.  Python's
    * `all`/`any` stop at the first decisive answer, and a TypeError from
    * `in`, `[]` or iteration escapes. */
  function IsSubset(sub: Value, sup: Value): Result<bool>
    decreases sub, 0
  {
    match sub
    case Dict(es) => AllKeysIn(es, sup)
    case List(items) => AllItemsCovered(items, sup)
    case _ => Ok(ScalarEq(sub, sup))
  }

  /** `all(key in sup and _is_subset(val, sup[key]) for key, val in es)` */
  function AllKeysIn(es: seq<Entry>, sup: Value): Result<bool>
    decreases es, 2
  {
    if es == [] then Ok(true)
    else
      match ContainsKey(sup, es[0].key)
      case Err(e) => Err(e)
      case Ok(false) => Ok(false)
      case Ok(true) =>
        match GetItem(sup, es[0].key)
        case Err(e) => Err(e)
        case Ok(node) =>
          match IsSubset(es[0].val, node)
          case Err(e) => Err(e)
          case Ok(false) => Ok(false)
          case Ok(true) => AllKeysIn(es[1..], sup)
  }

  /** `all(any(_is_subset(x, y) for y in sup) for x in items)` */
  function AllItemsCovered(items: seq<Value>, sup: Value): Result<bool>
    decreases items, 2
  {
    if items == [] then Ok(true)
    else
      match Iterate(sup)
      case Err(e) => Err(e)
      case Ok(sups) =>
        match AnyCovers(items[0], sups)
        case Err(e) => Err(e)
        case Ok(false) => Ok(false)
        case Ok(true) => AllItemsCovered(items[1..], sup)
  }

  /** `any(_is_subset(x, y) for y in sups)` */
  function AnyCovers(x: Value, sups: seq<Value>): Result<bool>
    decreases x, 1, sups
  {
    if sups == [] then Ok(false)
    else
      match IsSubset(x, sups[0])
      case Err(e) => Err(e)
      case Ok(true) => Ok(true)
      case Ok(false) => AnyCovers(x, sups[1..])
  }

  /** A dict is a subset of a dict exactly when every one of its keys is in
    * the superset with a value that is recursively a subset; the superset's
    * other keys play no part. */
  lemma {:induction false} DictSubsetMeaning(es: seq<Entry>, ss: seq<Entry>)
    ensures IsSubset(Dict(es), Dict(ss)).Ok? ==>
      (IsSubset(Dict(es), Dict(ss)).value <==>
        forall i :: 0 <= i < |es| ==>
          HasKey(ss, es[i].key) && IsSubset(es[i].val, Lookup(ss, es[i].key).value) == Ok(true))
    decreases es
  {
    if es != [] {
      DictSubsetMeaning(es[1..], ss);
      assert forall i :: 1 <= i < |es| ==> es[1..][i - 1] == es[i];
    }
  }

  /** The answer for a dict depends only on what the superset holds under
    * the subset's own keys. */
  lemma {:induction false} DictSubsetOnlyReadsOwnKeys(es: seq<Entry>, s1: seq<Entry>, s2: seq<Entry>)
    requires forall i :: 0 <= i < |es| ==> Lookup(s1, es[i].key) == Lookup(s2, es[i].key)
    ensures IsSubset(Dict(es), Dict(s1)) == IsSubset(Dict(es), Dict(s2))
    decreases es
  {
    if es != [] {
      assert Lookup(s1, es[0].key) == Lookup(s2, es[0].key);
      assert forall i :: 0 <= i < |es| - 1 ==> es[1..][i] == es[i + 1];
      DictSubsetOnlyReadsOwnKeys(es[1..], s1, s2);
    }
  }

  /** A list is a subset exactly when each of its items is a subset of some
    * item of the superset (whenever the test returns at all). */
  lemma {:induction false} ListSubsetMeaning(items: seq<Value>, sup: Value)
    requires items != []
    ensures IsSubset(List(items), sup).Ok? ==>
      Iterate(sup).Ok? &&
      (IsSubset(List(items), sup).value <==>
        forall i :: 0 <= i < |items| ==>
          exists j :: 0 <= j < |Iterate(sup).value| && IsSubset(items[i], Iterate(sup).value[j]) == Ok(true))
  {
    AllItemsCoveredMeaning(items, sup);
  }

  lemma {:induction false} AllItemsCoveredMeaning(items: seq<Value>, sup: Value)
    requires items != []
    ensures AllItemsCovered(items, sup).Ok? ==>
      Iterate(sup).Ok? &&
      (AllItemsCovered(items, sup).value <==>
        forall i :: 0 <= i < |items| ==>
          exists j :: 0 <= j < |Iterate(sup).value| && IsSubset(items[i], Iterate(sup).value[j]) == Ok(true))
    decreases items
  {
    if AllItemsCovered(items, sup).Ok? {
      var sups := Iterate(sup).value;
      AnyCoversMeaning(items[0], sups);
      if |items| > 1 && AnyCovers(items[0], sups) == Ok(true) {
        AllItemsCoveredMeaning(items[1..], sup);
        assert forall i :: 1 <= i < |items| ==> items[1..][i - 1] == items[i];
      }
    }
  }

  lemma {:induction false} AnyCoversMeaning(x: Value, sups: seq<Value>)
    ensures AnyCovers(x, sups).Ok? ==>
      (AnyCovers(x, sups).value <==> exists j :: 0 <= j < |sups| && IsSubset(x, sups[j]) == Ok(true))
    decreases sups
  {
    if sups != [] {
      AnyCoversMeaning(x, sups[1..]);
      assert forall j :: 1 <= j < |sups| ==> sups[1..][j - 1] == sups[j];
    }
  }

  // ---------------------------------------------------------------------
  // _merge

  /** `list(set(xs))`: one copy of each element, where Python's `==` decides
    * what counts as a copy; a list or dict element is unhashable.  The
    * model keeps the first copy in order of appearance. */
  function Dedup(xs: seq<Value>): (r: Result<seq<Value>>)
    ensures r.Err? <==> exists i :: 0 <= i < |xs| && !IsScalar(xs[i])
    ensures r.Ok? ==> forall i :: 0 <= i < |xs| ==> exists j :: 0 <= j < |r.value| && ScalarEq(xs[i], r.value[j])
    ensures r.Ok? ==> forall j :: 0 <= j < |r.value| ==> r.value[j] in xs
    ensures r.Ok? ==> forall i, j :: 0 <= i < j < |r.value| ==> !ScalarEq(r.value[i], r.value[j])
  {
    var r := DedupInto(xs, []);
    if r.Ok? then DedupIntoCovers(xs, []); r else r
  }

  predicate Scalars(xs: seq<Value>)
  {
    forall i :: 0 <= i < |xs| ==> IsScalar(xs[i])
  }

  /** Pairwise distinct under Python `==`. */
  predicate Distinct(kept: seq<Value>)
    requires Scalars(kept)
  {
    forall i, j :: 0 <= i < j < |kept| ==> !ScalarEq(kept[i], kept[j])
  }

  /** One step of `set(...)`: `x` is added unless an equal value is there. */
  function Keep(x: Value, kept: seq<Value>): (r: seq<Value>)
    requires IsScalar(x) && Scalars(kept) && Distinct(kept)
    ensures Scalars(r) && Distinct(r) && kept <= r
    ensures forall j :: |kept| <= j < |r| ==> r[j] == x
    ensures exists j :: 0 <= j < |r| && ScalarEq(x, r[j])
  {
    if exists j :: 0 <= j < |kept| && ScalarEq(x, kept[j]) then kept
    else
      var r := kept + [x];
      assert Distinct(r) by {
        forall i, j | 0 <= i < j < |r| ensures !ScalarEq(r[i], r[j]) {
          if j == |kept| { ScalarEqSymmetric(kept[i], x); }
        }
      }
      ScalarEqReflexive(x);
      assert ScalarEq(x, r[|kept|]);
      r
  }

  function DedupInto(xs: seq<Value>, kept: seq<Value>): (r: Result<seq<Value>>)
    requires Scalars(kept) && Distinct(kept)
    ensures r.Err? <==> exists i :: 0 <= i < |xs| && !IsScalar(xs[i])
    ensures r.Ok? ==> Scalars(r.value) && Distinct(r.value) && kept <= r.value
    decreases xs
  {
    if xs == [] then Ok(kept)
    else if !IsScalar(xs[0]) then Err(TypeError)
    else
      var r := DedupInto(xs[1..], Keep(xs[0], kept));
      assert forall i :: 1 <= i < |xs| ==> xs[i] == xs[1..][i - 1];
      r
  }

  /** Every element of `xs` has an equal in the result, and whatever the
    * result adds to `kept` comes from `xs`. */
  lemma {:induction false} DedupIntoCovers(xs: seq<Value>, kept: seq<Value>)
    requires Scalars(kept) && Distinct(kept)
    requires DedupInto(xs, kept).Ok?
    ensures var r := DedupInto(xs, kept).value;
      forall i :: 0 <= i < |xs| ==> exists j :: 0 <= j < |r| && ScalarEq(xs[i], r[j])
    ensures var r := DedupInto(xs, kept).value;
      forall j :: |kept| <= j < |r| ==> r[j] in xs
    decreases xs
  {
    if xs != [] {
      var kept' := Keep(xs[0], kept);
      var r := DedupInto(xs[1..], kept').value;
      DedupIntoCovers(xs[1..], kept');
      assert forall i :: 1 <= i < |xs| ==> xs[i] == xs[1..][i - 1];
      var j :| 0 <= j < |kept'| && ScalarEq(xs[0], kept'[j]);
      assert r[j] == kept'[j];
      forall j | |kept| <= j < |r| ensures r[j] in xs {
        if j < |kept'| { assert r[j] == xs[0]; } else { assert r[j] in xs[1..]; }
      }
    }
  }

  lemma ScalarEqSymmetric(a: Value, b: Value)
    requires IsScalar(a) && IsScalar(b)
    ensures ScalarEq(a, b) <==> ScalarEq(b, a)
  {
  }

  lemma ScalarEqReflexive(a: Value)
    requires IsScalar(a)
    ensures ScalarEq(a, a)
  {
  }

  /** What `_merge` does with one item of `src` to (its copy of) `dst`. */
  function MergeEntry(e: Entry, d: Value): (r: Result<Value>)
    ensures r.Ok? ==> d.Dict? && r.value.Dict? && HasKey(r.value.entries, e.key)
    ensures r.Ok? ==> forall j :: j != e.key ==> Lookup(r.value.entries, j) == Lookup(d.entries, j)
    decreases e, 0
  {
    match e.val
    case Dict(inner) =>
      // node = dst.setdefault(key, {}); _merge(value, node): result dropped
      var node := SetDefault(d, e.key, EmptyDict);
      if node.Err? then Err(node.error)
      else
        var sub := MergeSpec(inner, node.value.1);
        if sub.Err? then Err(sub.error) else Ok(node.value.0)
    case List(xs) =>
      // dst[key] = list(set(src[key] + dst[key]))
      var cur := GetItem(d, e.key);
      if cur.Err? then Err(cur.error)
      else if !cur.value.List? then Err(TypeError)
      else
        var union := Dedup(xs + cur.value.items);
        if union.Err? then Err(union.error)
        else SetItem(d, e.key, List(union.value))
    case _ =>
      SetItem(d, e.key, e.val)
  }

  /** The loop of `_merge` over the items of `src`, in order. */
  function MergeLoop(src: seq<Entry>, d: Value): (r: Result<Value>)
    ensures r.Ok? && d.Dict? ==> r.value.Dict?
    ensures r.Ok? && d.Dict? ==>
      forall j :: j !in Keys(src) ==> Lookup(r.value.entries, j) == Lookup(d.entries, j)
    decreases src, 1
  {
    if src == [] then Ok(d)
    else
      var next := MergeEntry(src[0], d);
      if next.Err? then next else MergeLoop(src[1..], next.value)
  }

  /** `_merge(src, dst)`: the loop, then `assert _is_subset(src, dst)`. */
  function MergeSpec(src: seq<Entry>, dst: Value): (r: Result<Value>)
    ensures r.Ok? ==> IsSubset(Dict(src), r.value) == Ok(true)
    ensures r.Ok? && dst.Dict? ==> r.value.Dict?
    ensures r.Ok? && dst.Dict? ==>
      forall j :: j !in Keys(src) ==> Lookup(r.value.entries, j) == Lookup(dst.entries, j)
    decreases src, 2
  {
    var d := MergeLoop(src, dst);
    if d.Err? then d
    else
      var ok := IsSubset(Dict(src), d.value);
      if ok.Err? then Err(ok.error)
      else if ok.value then d
      else Err(AssertionError)
  }

  /** `_merge`: copy `dst`, then fold every item of `src` into the copy. */
  method Merge(src: seq<Entry>, dst: Value) returns (r: Result<Value>)
    ensures r == MergeSpec(src, dst)
    ensures r.Ok? ==> IsSubset(Dict(src), r.value) == Ok(true)
    decreases src
  {
    var d := dst;  // deepcopy(dst): values are never shared
    var i := 0;
    while i < |src|
      invariant 0 <= i <= |src|
      invariant MergeLoop(src, dst) == MergeLoop(src[i..], d)
    {
      var key, value := src[i].key, src[i].val;
      assert src[i..][1..] == src[i + 1..];
      if value.Dict? {
        var node := SetDefault(d, key, EmptyDict);
        if node.Err? {
          return Err(node.error);
        }
        var inner := Merge(value.entries, node.value.1);
        if inner.Err? {
          return Err(inner.error);
        }
        d := node.value.0;
      } else if value.List? {
        var cur := GetItem(d, key);
        if cur.Err? {
          return Err(cur.error);
        }
        if !cur.value.List? {
          return Err(TypeError);
        }
        var union := Dedup(value.items + cur.value.items);
        if union.Err? {
          return Err(union.error);
        }
        d := Dict(Assign(d.entries, key, List(union.value)));
      } else {
        var next := SetItem(d, key, value);
        if next.Err? {
          return Err(next.error);
        }
        d := next.value;
      }
      i := i + 1;
    }
    var ok := IsSubset(Dict(src), d);
    if ok.Err? {
      return Err(ok.error);
    }
    if !ok.value {
      return Err(AssertionError);
    }
    return Ok(d);
  }

  /** Python dicts never repeat a key; the tail of such a dict has none of
    * the head's key. */
  lemma UniqueTail(src: seq<Entry>)
    requires src != []
    ensures UniqueKeys(src) ==> UniqueKeys(src[1..]) && src[0].key !in Keys(src[1..])
  {
  }

  /** A scalar value of `src` replaces whatever `dst` held under its key. */
  lemma {:induction false} MergeScalarOverrides(src: seq<Entry>, dst: Value, i: nat)
    requires UniqueKeys(src) && dst.Dict? && i < |src| && IsScalar(src[i].val)
    requires MergeLoop(src, dst).Ok?
    ensures Lookup(MergeLoop(src, dst).value.entries, src[i].key) == Some(src[i].val)
    decreases src
  {
    UniqueTail(src);
    var d' := MergeEntry(src[0], dst).value;
    if i == 0 {
      assert Lookup(d'.entries, src[0].key) == Some(src[0].val);
    } else {
      assert src[1..][i - 1] == src[i];
      MergeScalarOverrides(src[1..], d', i - 1);
    }
  }

  /** A list value of `src` is joined with the list `dst` holds under its
    * key, as `list(set(src_list + dst_list))`; the merge succeeds only if
    * `dst` does hold a list there (a missing key raises KeyError). */
  lemma {:induction false} MergeListUnion(src: seq<Entry>, dst: Value, i: nat)
    requires UniqueKeys(src) && dst.Dict? && i < |src| && src[i].val.List?
    requires MergeLoop(src, dst).Ok?
    ensures Lookup(dst.entries, src[i].key).Some?
    ensures Lookup(dst.entries, src[i].key).value.List?
    ensures Dedup(src[i].val.items + Lookup(dst.entries, src[i].key).value.items).Ok?
    ensures Lookup(MergeLoop(src, dst).value.entries, src[i].key) ==
      Some(List(Dedup(src[i].val.items + Lookup(dst.entries, src[i].key).value.items).value))
    decreases src
  {
    UniqueTail(src);
    var d' := MergeEntry(src[0], dst).value;
    if i == 0 {
      assert Lookup(d'.entries, src[0].key) == Lookup(MergeLoop(src, dst).value.entries, src[0].key);
    } else {
      assert src[1..][i - 1] == src[i];
      assert src[i].key in Keys(src[1..]);
      MergeListUnion(src[1..], d', i - 1);
    }
  }

  /** Not a deep merge: a dict value of `src` leaves `dst`'s value under
    * that key as it was (or `{}` when the key was missing); the recursive
    * merge works on a copy whose result is dropped. */
  lemma {:induction false} MergeNestedDictKept(src: seq<Entry>, dst: Value, i: nat)
    requires UniqueKeys(src) && dst.Dict? && i < |src| && src[i].val.Dict?
    requires MergeLoop(src, dst).Ok?
    ensures Lookup(MergeLoop(src, dst).value.entries, src[i].key) ==
      Some(Lookup(dst.entries, src[i].key).GetOr(EmptyDict))
    decreases src
  {
    UniqueTail(src);
    var d' := MergeEntry(src[0], dst).value;
    assert MergeLoop(src, dst) == MergeLoop(src[1..], d');
    if i == 0 {
      MergeEntryNestedDict(src[0], dst);
      assert Lookup(d'.entries, src[0].key) == Lookup(MergeLoop(src, dst).value.entries, src[0].key);
    } else {
      assert src[1..][i - 1] == src[i];
      assert src[i].key != src[0].key;
      MergeNestedDictKept(src[1..], d', i - 1);
    }
  }

  /** A nested dict leaves `dst`'s own value under its key (or `{}`). */
  lemma MergeEntryNestedDict(e: Entry, d: Value)
    requires e.val.Dict? && MergeEntry(e, d).Ok?
    ensures Lookup(MergeEntry(e, d).value.entries, e.key) == Some(Lookup(d.entries, e.key).GetOr(EmptyDict))
  {
  }

  /** Hence `_merge` returns only when every nested dict of `src` was
    * already contained in what `dst` held under its key: anything that
    * would need a deep merge ends in the AssertionError. */
  lemma MergeNeedsNestedContained(src: seq<Entry>, dst: Value, i: nat)
    requires UniqueKeys(src) && dst.Dict? && i < |src| && src[i].val.Dict?
    requires MergeSpec(src, dst).Ok?
    ensures IsSubset(src[i].val, Lookup(dst.entries, src[i].key).GetOr(EmptyDict)) == Ok(true)
  {
    var r := MergeSpec(src, dst).value;
    DictSubsetMeaning(src, r.entries);
    MergeNestedDictKept(src, dst, i);
  }

  /** `{"val": {"xxx": "src"}}` into `{"val": {"xxx": "dst"}}`: the case of
    * the test file that expects `{"val": {"xxx": "src"}}` ends in the
    * AssertionError. */
  lemma MergeNestedOverrideFails()
    ensures MergeSpec([Entry("val", Dict([Entry("xxx", Str("src"))]))],
                      Dict([Entry("val", Dict([Entry("xxx", Str("dst"))]))])) == Err(AssertionError)
  {
    var a := Dict([Entry("xxx", Str("src"))]);
    var b := Dict([Entry("xxx", Str("dst"))]);
    var src := [Entry("val", a)];
    var dst := Dict([Entry("val", b)]);
    assert Keys(dst.entries) == ["val"];
    assert SetDefault(dst, "val", EmptyDict) == Ok((dst, b));
    assert Keys(b.entries) == ["xxx"];
    assert MergeLoop(a.entries, b).Ok?;
    assert IsSubset(a, MergeLoop(a.entries, b).value) == Ok(true);
    assert MergeEntry(src[0], dst) == Ok(dst);
    assert MergeLoop(src, dst) == Ok(dst);
    assert GetItem(b, "xxx") == Ok(Str("dst"));
    assert IsSubset(a, b) == Ok(false);
    assert GetItem(dst, "val") == Ok(b);
    assert IsSubset(Dict(src), dst) == Ok(false);
  }

  /** `{"val": {"src": 1}}` into `{"val": {"dst": 2}}`: the test file expects
    * both inner keys; the code raises AssertionError. */
  lemma MergeNestedUnionFails()
    ensures MergeSpec([Entry("val", Dict([Entry("src", Int(1))]))],
                      Dict([Entry("val", Dict([Entry("dst", Int(2))]))])) == Err(AssertionError)
  {
    var a := Dict([Entry("src", Int(1))]);
    var b := Dict([Entry("dst", Int(2))]);
    var src := [Entry("val", a)];
    var dst := Dict([Entry("val", b)]);
    assert Keys(dst.entries) == ["val"];
    assert SetDefault(dst, "val", EmptyDict) == Ok((dst, b));
    assert Keys(b.entries) == ["dst"];
    assert MergeLoop(a.entries, b).Ok?;
    assert IsSubset(a, MergeLoop(a.entries, b).value) == Ok(true);
    assert MergeEntry(src[0], dst) == Ok(dst);
    assert MergeLoop(src, dst) == Ok(dst);
    assert ContainsKey(b, "src") == Ok(false);
    assert IsSubset(a, b) == Ok(false);
    assert GetItem(dst, "val") == Ok(b);
    assert IsSubset(Dict(src), dst) == Ok(false);
  }

  /** The docstring example of `_merge` (merging `b` into `a`) expects a
    * deep merge; the code raises instead of returning. */
  lemma MergeDocExampleFails()
    ensures MergeSpec([Entry("first", Dict([Entry("all_rows", Dict([Entry("fail", Str("cat")), Entry("number", Str("5"))]))]))],
                      Dict([Entry("first", Dict([Entry("all_rows", Dict([Entry("pass", Str("dog")), Entry("number", Str("1"))]))]))])).Err?
  {
    var bRows := Dict([Entry("fail", Str("cat")), Entry("number", Str("5"))]);
    var aRows := Dict([Entry("pass", Str("dog")), Entry("number", Str("1"))]);
    var bFirst := Dict([Entry("all_rows", bRows)]);
    var aFirst := Dict([Entry("all_rows", aRows)]);
    var src := [Entry("first", bFirst)];
    var dst := Dict([Entry("first", aFirst)]);
    assert Keys(aRows.entries) == ["pass", "number"];
    assert ContainsKey(aRows, "fail") == Ok(false);
    assert IsSubset(bRows, aRows) == Ok(false);
    assert Keys(aFirst.entries) == ["all_rows"];
    assert GetItem(aFirst, "all_rows") == Ok(aRows);
    assert IsSubset(bFirst, aFirst) == Ok(false);
    assert Keys(dst.entries) == ["first"];
    if MergeSpec(src, dst).Ok? {
      MergeNeedsNestedContained(src, dst, 0);
    }
  }

  /** `{"src": 1}` into `{"dst": 2}`: both keys survive. */
  lemma MergeDisjointKeys()
    ensures MergeSpec([Entry("src", Int(1))], Dict([Entry("dst", Int(2))])) ==
      Ok(Dict([Entry("dst", Int(2)), Entry("src", Int(1))]))
  {
    var src := [Entry("src", Int(1))];
    var dst := Dict([Entry("dst", Int(2))]);
    var r := Dict([Entry("dst", Int(2)), Entry("src", Int(1))]);
    assert Keys(dst.entries) == ["dst"];
    assert Assign(dst.entries, "src", Int(1)) == r.entries;
    assert MergeLoop(src, dst) == Ok(r);
    assert Keys(r.entries) == ["dst", "src"];
    assert GetItem(r, "src") == Ok(Int(1));
    assert IsSubset(Dict(src), r) == Ok(true);
  }

  /** A list under a key `dst` lacks raises KeyError. */
  lemma MergeListMissingKey()
    ensures MergeSpec([Entry("val", List([Int(1)]))], EmptyDict) == Err(KeyError)
  {
  }

  // ---------------------------------------------------------------------
  // _normalise_device_list

  /** The ids an item of a device list names: a bare id, or the keys of a
    * `{id: hints}` dict. */
  predicate Names(item: Value, id: string)
  {
    (item.Str? && item.s == id) || (item.Dict? && HasKey(item.entries, id))
  }

  /** The list comprehension: each dict item is copied, each id `x`
    * becomes `{x: None}`; the entries of all of them in order.  A list or
    * dict cannot be a key (TypeError). */
  function DeviceListEntries(items: seq<Value>): (r: Result<seq<Entry>>)
    ensures r.Err? <==> exists i :: 0 <= i < |items| && !items[i].Str? && !items[i].Dict?
    ensures r.Err? ==> r.error == TypeError
    ensures r.Ok? ==> forall id :: HasKey(r.value, id) <==> exists i :: 0 <= i < |items| && Names(items[i], id)
  {
    if items == [] then Ok([])
    else
      var rest := DeviceListEntries(items[1..]);
      assert forall i :: 1 <= i < |items| ==> items[i] == items[1..][i - 1];
      if !items[0].Str? && !items[0].Dict? then Err(TypeError)
      else if rest.Err? then rest
      else
        var head := if items[0].Str? then [Entry(items[0].s, Nil)] else items[0].entries;
        KeysAppend(head, rest.value);
        assert forall id :: HasKey(head + rest.value, id) <==> HasKey(head, id) || HasKey(rest.value, id);
        assert items[0].Str? ==> Keys(head) == [items[0].s];
        assert forall id :: HasKey(head, id) <==> Names(items[0], id);
        assert forall id :: (exists i :: 0 <= i < |items| && Names(items[i], id)) <==>
          Names(items[0], id) || exists i :: 0 <= i < |items[1..]| && Names(items[1..][i], id) by {
          forall id
            ensures (exists i :: 0 <= i < |items| && Names(items[i], id)) <==>
              Names(items[0], id) || exists i :: 0 <= i < |items[1..]| && Names(items[1..][i], id)
          {
            if exists i :: 0 <= i < |items| && Names(items[i], id) {
              var i :| 0 <= i < |items| && Names(items[i], id);
              if i > 0 { assert Names(items[1..][i - 1], id); }
            }
            if exists i :: 0 <= i < |items[1..]| && Names(items[1..][i], id) {
              var i :| 0 <= i < |items[1..]| && Names(items[1..][i], id);
              assert Names(items[i + 1], id);
            }
          }
        }
        Ok(head + rest.value)
  }

  /** The dict comprehension `{k: v or {} for k, v in es}`: a later entry
    * with the same key replaces the value but keeps the first position. */
  function FoldHints(es: seq<Entry>, acc: seq<Entry>): (r: seq<Entry>)
    ensures forall k :: HasKey(r, k) <==> HasKey(acc, k) || HasKey(es, k)
    ensures forall k :: !HasKey(es, k) ==> Lookup(r, k) == Lookup(acc, k)
  {
    if es == [] then acc
    else
      HasKeyCons(es);
      FoldHints(es[1..], Assign(acc, es[0].key, OrElse(es[0].val, EmptyDict)))
  }

  /** What a normalised id maps to: its hints, or `{}` for none. */
  predicate IsHints(v: Value)
  {
    Truthy(v) || v == EmptyDict
  }

  /** No id is left with `None` (or another falsy value) as its hints. */
  lemma {:induction false} FoldHintsTruthy(es: seq<Entry>, acc: seq<Entry>)
    requires forall k :: HasKey(acc, k) ==> IsHints(Lookup(acc, k).value)
    ensures forall k :: HasKey(FoldHints(es, acc), k) ==> IsHints(Lookup(FoldHints(es, acc), k).value)
    decreases es
  {
    if es != [] {
      var acc' := Assign(acc, es[0].key, OrElse(es[0].val, EmptyDict));
      assert forall k :: HasKey(acc', k) ==> IsHints(Lookup(acc', k).value) by {
        forall k | HasKey(acc', k) ensures IsHints(Lookup(acc', k).value) {
          if k != es[0].key {
            assert Lookup(acc', k) == Lookup(acc, k);
            assert HasKey(acc, k);
          }
        }
      }
      FoldHintsTruthy(es[1..], acc');
    }
  }

  /** For a dict (whose keys are unique), each id keeps its hints, or `{}`. */
  lemma {:induction false} FoldHintsValues(es: seq<Entry>, acc: seq<Entry>)
    requires UniqueKeys(es)
    ensures forall k :: HasKey(es, k) ==> Lookup(FoldHints(es, acc), k) == Some(OrElse(Lookup(es, k).value, EmptyDict))
    decreases es
  {
    if es != [] {
      HasKeyCons(es);
      UniqueTail(es);
      var acc' := Assign(acc, es[0].key, OrElse(es[0].val, EmptyDict));
      FoldHintsValues(es[1..], acc');
    }
  }

  /** `_normalise_device_list`: a list of ids and `{id: hints}` dicts, or a
    * dict of ids, becomes a dict from each id to its hints, `{}` standing
    * for no hints. */
  function NormaliseDeviceList(deviceList: Value): (r: Result<seq<Entry>>)
    ensures deviceList.Dict? ==> r.Ok?
    ensures deviceList.List? ==>
      (r.Ok? <==> forall i :: 0 <= i < |deviceList.items| ==> deviceList.items[i].Str? || deviceList.items[i].Dict?)
    ensures !deviceList.List? && !deviceList.Dict? ==> r == Err(AttributeError)
    ensures r.Ok? ==> forall id :: HasKey(r.value, id) ==> IsHints(Lookup(r.value, id).value)
    ensures r.Ok? && deviceList.List? ==>
      forall id :: HasKey(r.value, id) <==>
        exists i :: 0 <= i < |deviceList.items| && Names(deviceList.items[i], id)
    ensures r.Ok? && deviceList.Dict? ==>
      forall id :: HasKey(r.value, id) <==> HasKey(deviceList.entries, id)
    ensures r.Ok? && deviceList.Dict? && UniqueKeys(deviceList.entries) ==>
      forall id :: HasKey(deviceList.entries, id) ==>
        Lookup(r.value, id) == Some(OrElse(Lookup(deviceList.entries, id).value, EmptyDict))
  {
    match deviceList
    case List(items) =>
      var flat := DeviceListEntries(items);
      if flat.Err? then Err(flat.error)
      else
        FoldHintsTruthy(flat.value, []);
        Ok(FoldHints(flat.value, []))
    case Dict(es) =>
      FoldHintsTruthy(es, []);
      if UniqueKeys(es) then
        FoldHintsValues(es, []);
        Ok(FoldHints(es, []))
      else Ok(FoldHints(es, []))
    case _ => Err(AttributeError)
  }

  // ---------------------------------------------------------------------
  // _normalise_schema

  /** The keys `_normalise_schema` pops out of a configured schema. */
  predicate IsLiftedKey(k: string)
  {
    k == "orphans_heat" || k == "orphans_hvac" || k == "controller"
  }

  /** The configured schema once the orphan lists and the controller id
    * are popped out of it. */
  function Stripped(es: seq<Entry>): (r: seq<Entry>)
    ensures forall k :: !IsLiftedKey(k) ==> Lookup(r, k) == Lookup(es, k)
    ensures forall k :: IsLiftedKey(k) ==> !HasKey(r, k)
  {
    Remove(Remove(Remove(es, "orphans_heat"), "orphans_hvac"), "controller")
  }

  /** The first half of `_normalise_schema`: a falsy config becomes `{}`;
    * otherwise the orphan lists and the controller id are popped (from the
    * caller's own dict), a truthy controller id is lifted to
    * `{"main_controller": ctl, ctl: rest}`, and both orphan lists (default
    * `[]`) are put back last.  The pair holds the normalised schema and
    * what the caller's dict has become. */
  function LiftController(config: Value): (r: Result<(Value, Value)>)
    ensures !Truthy(config) ==> r == Ok((EmptyDict, config))
    ensures Truthy(config) && config.List? ==> r == Err(TypeError)
    ensures Truthy(config) && IsScalar(config) ==> r == Err(AttributeError)
    ensures r.Ok? ==> r.value.0.Dict?
    ensures Truthy(config) && r.Ok? ==> r.value.1.Dict?
  {
    if !Truthy(config) then Ok((EmptyDict, config))
    else if config.List? then Err(TypeError)
    else if !config.Dict? then Err(AttributeError)
    else
      var es := config.entries;
      var heat := Lookup(es, "orphans_heat").GetOr(List([]));
      var hvac := Lookup(es, "orphans_hvac").GetOr(List([]));
      var ctl := Lookup(es, "controller").GetOr(Nil);
      var rest := Stripped(es);
      if Truthy(ctl) then
        if !ctl.Str? then Err(TypeError)  // a list or dict cannot be a key
        else
          Ok((Dict(LiftedSchema(ctl, rest, heat, hvac)), Dict(rest)))
      else
        var kept := Dict(FlatSchema(rest, heat, hvac));
        Ok((kept, kept))
  }

  /** The lifted form `{"main_controller": ctl, ctl: rest}` followed by the
    * two orphan lists. */
  function LiftedSchema(ctl: Value, rest: seq<Entry>, heat: Value, hvac: Value): (r: seq<Entry>)
    requires ctl.Str?
    ensures Lookup(r, "orphans_heat") == Some(heat)
    ensures Lookup(r, "orphans_hvac") == Some(hvac)
    ensures !IsLiftedKey(ctl.s) && ctl.s != "main_controller" ==>
      Lookup(r, "main_controller") == Some(ctl) && Lookup(r, ctl.s) == Some(Dict(rest))
    ensures forall k :: HasKey(r, k) <==> k == "main_controller" || k == ctl.s || k == "orphans_heat" || k == "orphans_hvac"
  {
    var m := [Entry("main_controller", ctl)];
    assert Keys(m) == ["main_controller"];
    var m1 := Assign(m, ctl.s, Dict(rest));
    assert forall k :: HasKey(m1, k) <==> k == "main_controller" || k == ctl.s;
    var m2 := Assign(m1, "orphans_heat", heat);
    assert forall k :: HasKey(m2, k) <==> HasKey(m1, k) || k == "orphans_heat";
    var m3 := Assign(m2, "orphans_hvac", hvac);
    assert forall k :: HasKey(m3, k) <==> HasKey(m2, k) || k == "orphans_hvac";
    assert "orphans_heat" != "orphans_hvac";
    assert Lookup(m3, "orphans_heat") == Some(heat);
    m3
  }

  /** The stripped schema with the two orphan lists put back last. */
  function FlatSchema(rest: seq<Entry>, heat: Value, hvac: Value): (r: seq<Entry>)
    ensures Lookup(r, "orphans_heat") == Some(heat)
    ensures Lookup(r, "orphans_hvac") == Some(hvac)
    ensures forall k :: k != "orphans_heat" && k != "orphans_hvac" ==> Lookup(r, k) == Lookup(rest, k)
  {
    var m := Assign(rest, "orphans_heat", heat);
    assert "orphans_heat" != "orphans_hvac";
    Assign(m, "orphans_hvac", hvac)
  }

  /** Both orphan lists end up in the normalised schema (default `[]`). */
  lemma LiftKeepsOrphans(config: Value)
    requires Truthy(config) && config.Dict? && LiftController(config).Ok?
    ensures Lookup(LiftController(config).value.0.entries, "orphans_heat") ==
      Some(Lookup(config.entries, "orphans_heat").GetOr(List([])))
    ensures Lookup(LiftController(config).value.0.entries, "orphans_hvac") ==
      Some(Lookup(config.entries, "orphans_hvac").GetOr(List([])))
  {
    var es := config.entries;
    var heat := Lookup(es, "orphans_heat").GetOr(List([]));
    var hvac := Lookup(es, "orphans_hvac").GetOr(List([]));
    var ctl := Lookup(es, "controller").GetOr(Nil);
    var rest := Stripped(es);
    if !Truthy(ctl) {
      assert LiftController(config).value == (Dict(FlatSchema(rest, heat, hvac)), Dict(FlatSchema(rest, heat, hvac)));
    } else {
      assert LiftController(config).value == (Dict(LiftedSchema(ctl, rest, heat, hvac)), Dict(rest));
    }
  }

  /** The controller key leaves the normalised schema (unless the id is the
    * word "controller" itself) and the caller's dict, which keeps every
    * other key it had. */
  lemma LiftDropsController(config: Value)
    requires Truthy(config) && config.Dict? && LiftController(config).Ok?
    ensures Lookup(config.entries, "controller") != Some(Str("controller")) ==>
      !HasKey(LiftController(config).value.0.entries, "controller")
    ensures !HasKey(LiftController(config).value.1.entries, "controller")
    ensures forall k :: !IsLiftedKey(k) ==>
      Lookup(LiftController(config).value.1.entries, k) == Lookup(config.entries, k)
  {
    var es := config.entries;
    var heat := Lookup(es, "orphans_heat").GetOr(List([]));
    var hvac := Lookup(es, "orphans_hvac").GetOr(List([]));
    var ctl := Lookup(es, "controller").GetOr(Nil);
    var rest := Stripped(es);
    if !Truthy(ctl) {
      var flat := FlatSchema(rest, heat, hvac);
      assert LiftController(config).value == (Dict(flat), Dict(flat));
      FlatDropsController(rest, heat, hvac);
    } else {
      assert LiftController(config).value == (Dict(LiftedSchema(ctl, rest, heat, hvac)), Dict(rest));
      if ctl.s != "controller" {
        LiftedDropsController(ctl, rest, heat, hvac);
      }
    }
  }

  lemma FlatDropsController(rest: seq<Entry>, heat: Value, hvac: Value)
    requires forall k :: IsLiftedKey(k) ==> !HasKey(rest, k)
    ensures !HasKey(FlatSchema(rest, heat, hvac), "controller")
    ensures forall k :: !IsLiftedKey(k) ==> Lookup(FlatSchema(rest, heat, hvac), k) == Lookup(rest, k)
  {
    assert "controller" != "orphans_heat" && "controller" != "orphans_hvac";
    assert Lookup(rest, "controller") == None;
  }

  lemma LiftedDropsController(ctl: Value, rest: seq<Entry>, heat: Value, hvac: Value)
    requires ctl.Str? && ctl.s != "controller"
    ensures !HasKey(LiftedSchema(ctl, rest, heat, hvac), "controller")
  {
    assert "controller" != "orphans_heat" && "controller" != "orphans_hvac" && "controller" != "main_controller";
  }

  /** Without a (truthy) controller id the schema stays flat: every other
    * key keeps its value, and the caller's dict is that same schema. */
  lemma LiftWithoutController(config: Value)
    requires Truthy(config) && config.Dict? && !Truthy(Lookup(config.entries, "controller").GetOr(Nil))
    ensures LiftController(config).Ok?
    ensures LiftController(config).value.0 == LiftController(config).value.1
    ensures forall k :: !IsLiftedKey(k) ==>
      Lookup(LiftController(config).value.0.entries, k) == Lookup(config.entries, k)
  {
  }

  /** A controller id `ctl` that is not itself one of the reserved keys
    * makes the schema exactly `{"main_controller": ctl, ctl: rest,
    * "orphans_heat": .., "orphans_hvac": ..}`, with `rest` what is left of
    * the caller's dict. */
  lemma LiftWithController(config: Value)
    requires Truthy(config) && config.Dict? && Truthy(Lookup(config.entries, "controller").GetOr(Nil))
    ensures LiftController(config).Ok? <==> Lookup(config.entries, "controller").value.Str?
    ensures LiftController(config).Ok? ==>
      var ctl := Lookup(config.entries, "controller").value.s;
      var norm := LiftController(config).value.0.entries;
      !IsLiftedKey(ctl) && ctl != "main_controller" ==>
        Lookup(norm, "main_controller") == Lookup(config.entries, "controller") &&
        Lookup(norm, ctl) == Some(LiftController(config).value.1) &&
        forall k :: HasKey(norm, k) <==> k == "main_controller" || k == ctl || k == "orphans_heat" || k == "orphans_hvac"
  {
  }

  /** The second half of `_normalise_schema`: with no cached schema the
    * normalised config is used; a cached schema that (after `shrink`)
    * already contains it is used as it is; otherwise the two are merged,
    * config first, and the merge must contain the config. */
  function ChooseSchema(norm: Value, cached: Value, shrink: Value -> Value): (r: Result<Value>)
    requires norm.Dict?
    ensures !Truthy(cached) ==> r == Ok(norm)
    ensures Truthy(cached) && IsSubset(shrink(norm), shrink(cached)) == Ok(true) ==> r == Ok(cached)
    ensures Truthy(cached) && IsSubset(shrink(norm), shrink(cached)) == Ok(false) ==>
      (r.Ok? ==> MergeSpec(norm.entries, cached) == r && IsSubset(norm, r.value) == Ok(true))
    ensures r.Ok? && Truthy(cached) ==> IsSubset(shrink(norm), shrink(r.value)) == Ok(true)
  {
    if !Truthy(cached) then Ok(norm)
    else
      var covered := IsSubset(shrink(norm), shrink(cached));
      if covered.Err? then Err(covered.error)
      else if covered.value then Ok(cached)
      else
        var merged := MergeSpec(norm.entries, cached);
        if merged.Err? then merged
        else
          var ok := IsSubset(shrink(norm), shrink(merged.value));
          if ok.Err? then Err(ok.error)
          else if ok.value then merged
          else Err(AssertionError)
  }

  /** `_normalise_schema(restore_cache, config_schema, cached_schema)`: the
    * schema to hand to the RF library, and what the caller's
    * `config_schema` dict has become.  `restore_cache` is only logged: the
    * result does not depend on it. */
  function NormaliseSchema(restoreCache: bool, config: Value, cached: Value, shrink: Value -> Value):
    (r: Result<(Value, Value)>)
    ensures LiftController(config).Err? ==> r.Err? && r.error == LiftController(config).error
    ensures LiftController(config).Ok? ==>
      var lifted := LiftController(config).value;
      r == (match ChooseSchema(lifted.0, cached, shrink)
            case Ok(schema) => Ok((schema, lifted.1))
            case Err(e) => Err(e))
  {
    var lifted := LiftController(config);
    if lifted.Err? then Err(lifted.error)
    else
      var schema := ChooseSchema(lifted.value.0, cached, shrink);
      if schema.Err? then Err(schema.error) else Ok((schema.value, lifted.value.1))
  }

  /** The `restore_cache` flag changes nothing. */
  lemma NormaliseSchemaIgnoresRestoreCache(restoreCache: bool, config: Value, cached: Value, shrink: Value -> Value)
    ensures NormaliseSchema(restoreCache, config, cached, shrink) == NormaliseSchema(false, config, cached, shrink)
  {
  }

  /** Without a cached schema the normalised config is the schema. */
  lemma NormaliseSchemaUncached(config: Value, cached: Value, shrink: Value -> Value)
    requires !Truthy(cached)
    ensures NormaliseSchema(false, config, cached, shrink) == LiftController(config)
  {
  }

  /** The first cases of custom_components/ramses_cc/test_schema.py. */
  lemma NormaliseSchemaEmptyCases(shrink: Value -> Value)
    ensures NormaliseSchema(false, Nil, EmptyDict, shrink).Ok?
    ensures NormaliseSchema(false, Nil, EmptyDict, shrink).value.0 == EmptyDict
    ensures NormaliseSchema(false, EmptyDict, EmptyDict, shrink).Ok?
    ensures NormaliseSchema(false, EmptyDict, EmptyDict, shrink).value.0 == EmptyDict
  {
  }

  /** A `None` controller leaves the flat schema with its two orphan lists. */
  lemma NormaliseSchemaNullController(shrink: Value -> Value)
    ensures NormaliseSchema(false, Dict([Entry("controller", Nil)]), EmptyDict, shrink) ==
      Ok((Dict([Entry("orphans_heat", List([])), Entry("orphans_hvac", List([]))]),
          Dict([Entry("orphans_heat", List([])), Entry("orphans_hvac", List([]))])))
  {
    var flat := [Entry("orphans_heat", List([])), Entry("orphans_hvac", List([]))];
    LiftNullController();
    NormaliseSchemaUncached(Dict([Entry("controller", Nil)]), EmptyDict, shrink);
  }

  lemma LiftNullController()
    ensures LiftController(Dict([Entry("controller", Nil)])) ==
      Ok((Dict([Entry("orphans_heat", List([])), Entry("orphans_hvac", List([]))]),
          Dict([Entry("orphans_heat", List([])), Entry("orphans_hvac", List([]))])))
  {
    var c := [Entry("controller", Nil)];
    assert Keys(c) == ["controller"];
    assert Stripped(c) == [];
    FlatOfNothing();
    assert Lookup(c, "orphans_heat") == None && Lookup(c, "orphans_hvac") == None;
  }

  lemma FlatOfNothing()
    ensures FlatSchema([], List([]), List([])) == [Entry("orphans_heat", List([])), Entry("orphans_hvac", List([]))]
  {
    var h := [Entry("orphans_heat", List([]))];
    assert Assign([], "orphans_heat", List([])) == h;
    assert Keys(h) == ["orphans_heat"];
    assert Assign(h, "orphans_hvac", List([])) == h + [Entry("orphans_hvac", List([]))];
  }

  /** With a controller id the id maps to what is left of the config, here
    * `{}`; the test file expects a filled-in `system`/`zones` skeleton
    * under the id instead. */
  lemma NormaliseSchemaControllerCase(config: Value, shrink: Value -> Value)
    requires config == Dict([Entry("controller", Str("01:123456"))])
    ensures NormaliseSchema(false, config, EmptyDict, shrink).Ok?
    ensures var norm := NormaliseSchema(false, config, EmptyDict, shrink).value.0;
      norm.Dict? &&
      Lookup(norm.entries, "main_controller") == Some(Str("01:123456")) &&
      Lookup(norm.entries, "01:123456") == Some(EmptyDict) &&
      Lookup(norm.entries, "orphans_heat") == Some(List([])) &&
      Lookup(norm.entries, "orphans_hvac") == Some(List([])) &&
      forall k :: HasKey(norm.entries, k) <==> k == "main_controller" || k == "01:123456" || k == "orphans_heat" || k == "orphans_hvac"
  {
    LiftControllerExample(config);
    NormaliseSchemaUncached(config, EmptyDict, shrink);
  }

  lemma LiftControllerExample(config: Value)
    requires config == Dict([Entry("controller", Str("01:123456"))])
    ensures LiftController(config).Ok?
    ensures var norm := LiftController(config).value.0;
      norm.Dict? &&
      Lookup(norm.entries, "main_controller") == Some(Str("01:123456")) &&
      Lookup(norm.entries, "01:123456") == Some(EmptyDict) &&
      Lookup(norm.entries, "orphans_heat") == Some(List([])) &&
      Lookup(norm.entries, "orphans_hvac") == Some(List([])) &&
      forall k :: HasKey(norm.entries, k) <==> k == "main_controller" || k == "01:123456" || k == "orphans_heat" || k == "orphans_hvac"
  {
    var c := [Entry("controller", Str("01:123456"))];
    assert Keys(c) == ["controller"];
    assert Stripped(c) == [];
    assert Lookup(c, "controller") == Some(Str("01:123456"));
    assert Lookup(c, "orphans_heat") == None && Lookup(c, "orphans_hvac") == None;
    LiftWithController(Dict(c));
    LiftKeepsOrphans(Dict(c));
    assert LiftController(Dict(c)).value.1 == EmptyDict;
  }

  // ---------------------------------------------------------------------
  // normalise_hass_config

  /** What `normalise_hass_config` returns: the serial port, the library's
    * configuration and the system schema. */
  datatype HassSetup = HassSetup(serialPort: Value, libraryConfig: seq<Entry>, schema: Value)

  /** The keys the integration keeps for itself. */
  predicate IsBrokerKey(k: string)
  {
    k == "scan_interval" || k == "advanced_features" || k == "restore_cache"
  }

  /** The schema stored by an earlier run, if any. */
  function CachedSchema(storage: seq<Entry>): (r: Result<Value>)
    ensures !HasKey(storage, "client_state") ==> r == Ok(EmptyDict)
    ensures HasKey(storage, "client_state") && Lookup(storage, "client_state").value.Dict? ==>
      r == Ok(Lookup(Lookup(storage, "client_state").value.entries, "schema").GetOr(EmptyDict))
  {
    match Lookup(storage, "client_state")
    case None => Ok(EmptyDict)
    case Some(state) =>
      if state.Dict? then Ok(Lookup(state.entries, "schema").GetOr(EmptyDict)) else Err(AttributeError)
  }

  /** `hass_config[SZ_CONFIG] = hass_config.pop("ramses_rf")` */
  function MoveLibrarySection(h: seq<Entry>): (r: Result<seq<Entry>>)
    ensures r.Ok? <==> HasKey(h, "ramses_rf")
    ensures r.Err? ==> r.error == KeyError
    ensures r.Ok? ==> Lookup(r.value, "config") == Lookup(h, "ramses_rf") && !HasKey(r.value, "ramses_rf")
    ensures r.Ok? ==> forall k :: k != "config" && k != "ramses_rf" ==> Lookup(r.value, k) == Lookup(h, k)
  {
    if !HasKey(h, "ramses_rf") then Err(KeyError)
    else Ok(Assign(Remove(h, "ramses_rf"), "config", Lookup(h, "ramses_rf").value))
  }

  /** The library section with a dict serial port's settings added: the
    * evofw flag (default `None`) and the settings without the port name. */
  function WithSerialSettings(cfg: seq<Entry>, sp: seq<Entry>): seq<Entry>
  {
    Assign(Assign(cfg, "evofw_flag", Lookup(sp, "evofw_flag").GetOr(Nil)),
      "serial_config", Dict(Remove(Remove(sp, "port_name"), "evofw_flag")))
  }

  /** What `config["packet_log"]` becomes: `{}` when there is no packet log,
    * a dict as it is, anything else as `{file_name: value}`. */
  function PacketLogSection(log: Option<Value>): Value
  {
    if log.None? then EmptyDict
    else if log.value.Dict? then log.value
    else Dict([Entry("file_name", log.value)])
  }

  /** The `config` section the library receives: the `ramses_rf` section,
    * the serial settings of a dict serial port, and the packet log. */
  function ConfigSection(h: seq<Entry>): seq<Entry>
    requires HasKey(h, "ramses_rf") && Lookup(h, "ramses_rf").value.Dict? && HasKey(h, "serial_port")
  {
    var lib := Lookup(h, "ramses_rf").value.entries;
    var sp := Lookup(h, "serial_port").value;
    Assign(if sp.Dict? then WithSerialSettings(lib, sp.entries) else lib, "packet_log", PacketLogSection(Lookup(h, "packet_log")))
  }

  /** A dict serial port gives up its `port_name`; the evofw flag (default
    * `None`) and the remaining settings go under `config`.  Any other
    * serial port is the port itself.  The result holds the port and the
    * rewritten `hass_config`. */
  function SplitSerialPort(h: seq<Entry>): (r: Result<(Value, seq<Entry>)>)
    ensures r.Ok? ==> HasKey(h, "serial_port")
    ensures r.Ok? && Lookup(h, "serial_port").value.Dict? ==>
      var sp := Lookup(h, "serial_port").value.entries;
      Lookup(sp, "port_name") == Some(r.value.0) &&
      HasKey(h, "config") && Lookup(h, "config").value.Dict? &&
      Lookup(r.value.1, "config") == Some(Dict(WithSerialSettings(Lookup(h, "config").value.entries, sp)))
    ensures r.Ok? && !Lookup(h, "serial_port").value.Dict? ==> r.value.0 == Lookup(h, "serial_port").value
    ensures r.Ok? ==> !HasKey(r.value.1, "serial_port")
    ensures r.Ok? ==> forall k :: k != "config" && k != "serial_port" ==> Lookup(r.value.1, k) == Lookup(h, k)
    ensures r.Ok? && !Lookup(h, "serial_port").value.Dict? ==> Lookup(r.value.1, "config") == Lookup(h, "config")
  {
    if !HasKey(h, "serial_port") then Err(KeyError)
    else
      var sp := Lookup(h, "serial_port").value;
      if sp.Dict? then
        if !HasKey(sp.entries, "port_name") then Err(KeyError)
        else
          var flag := Pop(Remove(sp.entries, "port_name"), "evofw_flag", Nil);
          assert flag.0 == Lookup(sp.entries, "evofw_flag").GetOr(Nil);
          // the flag is popped before `hass_config[SZ_CONFIG]` is looked up
          var cfg := if HasKey(h, "config") then Ok(Lookup(h, "config").value) else Err(KeyError);
          if cfg.Err? then Err(cfg.error)
          else if !cfg.value.Dict? then Err(TypeError)
          else
            var cfg' := Assign(Assign(cfg.value.entries, "evofw_flag", flag.0), "serial_config", Dict(flag.1));
            Ok((Lookup(sp.entries, "port_name").value, Assign(Remove(h, "serial_port"), "config", Dict(cfg'))))
      else Ok((sp, Remove(h, "serial_port")))
  }

  /** `hass_config[key] = _normalise_device_list(hass_config[key])` */
  function NormaliseListAt(h: seq<Entry>, key: string): (r: Result<seq<Entry>>)
    ensures r.Ok? <==> HasKey(h, key) && NormaliseDeviceList(Lookup(h, key).value).Ok?
    ensures r.Ok? ==> Lookup(r.value, key) == Some(Dict(NormaliseDeviceList(Lookup(h, key).value).value))
    ensures r.Ok? ==> forall k :: k != key ==> Lookup(r.value, k) == Lookup(h, k)
  {
    if !HasKey(h, key) then Err(KeyError)
    else
      var list := NormaliseDeviceList(Lookup(h, key).value);
      if list.Err? then Err(list.error) else Ok(Assign(h, key, Dict(list.value)))
  }

  /** The packet log moves under `config`: absent gives `{}`, a dict moves
    * as it is, anything else becomes `{file_name: value}`. */
  function MovePacketLog(h: seq<Entry>): (r: Result<seq<Entry>>)
    ensures r.Ok? ==> !HasKey(r.value, "packet_log")
    ensures r.Ok? ==> forall k :: k != "config" && k != "packet_log" ==> Lookup(r.value, k) == Lookup(h, k)
    ensures r.Ok? ==> HasKey(h, "config") && Lookup(h, "config").value.Dict?
    ensures r.Ok? ==>
      Lookup(r.value, "config") ==
        Some(Dict(Assign(Lookup(h, "config").value.entries, "packet_log", PacketLogSection(Lookup(h, "packet_log")))))
  {
    var log := Lookup(h, "packet_log");
    var packetLog :=
      if log.None? then EmptyDict
      else if log.value.Dict? then log.value
      else Dict([Entry("file_name", log.value)]);
    var h' := Remove(h, "packet_log");
    assert Lookup(h', "config") == Lookup(h, "config");
    if !HasKey(h', "config") then Err(KeyError)
    else if !Lookup(h', "config").value.Dict? then Err(TypeError)
    else Ok(Assign(h', "config", Dict(Assign(Lookup(h', "config").value.entries, "packet_log", packetLog))))
  }

  /** A boolean `restore_cache` is widened to `{restore_schema: b,
    * restore_state: b}`; the result holds the `restore_schema` flag. */
  function WidenRestoreCache(h: seq<Entry>): (r: Result<(Value, seq<Entry>)>)
    ensures r.Ok? ==> HasKey(h, "restore_cache") && HasKey(r.value.1, "restore_cache")
    ensures r.Ok? ==> forall k :: k != "restore_cache" ==> Lookup(r.value.1, k) == Lookup(h, k)
    ensures r.Ok? && Lookup(h, "restore_cache").value.Bool? ==> r.value.0 == Lookup(h, "restore_cache").value
    ensures r.Ok? <==> (HasKey(h, "restore_cache") &&
      (Lookup(h, "restore_cache").value.Bool? || GetItem(Lookup(h, "restore_cache").value, "restore_schema").Ok?))
    ensures r.Ok? && Lookup(h, "restore_cache").value.Bool? ==>
      var b := Lookup(h, "restore_cache").value;
      Lookup(r.value.1, "restore_cache") == Some(Dict([Entry("restore_schema", b), Entry("restore_state", b)]))
    ensures r.Ok? && !Lookup(h, "restore_cache").value.Bool? ==> r.value.1 == h
    ensures r.Ok? ==> GetItem(Lookup(r.value.1, "restore_cache").value, "restore_schema") == Ok(r.value.0)
  {
    if !HasKey(h, "restore_cache") then Err(KeyError)
    else
      var rc := Lookup(h, "restore_cache").value;
      if rc.Bool? then
        var wide := [Entry("restore_schema", rc), Entry("restore_state", rc)];
        assert Keys(wide) == ["restore_schema", "restore_state"];
        Ok((rc, Assign(h, "restore_cache", Dict(wide))))
      else
        var flag := GetItem(rc, "restore_schema");
        if flag.Err? then Err(flag.error) else Ok((flag.value, h))
  }

  /** The first two statement groups of `normalise_hass_config`. */
  function SplitStage(h: seq<Entry>): Result<(Value, seq<Entry>)>
  {
    var h0 := MoveLibrarySection(h);
    if h0.Err? then Err(h0.error) else SplitSerialPort(h0.value)
  }

  /** The two device-list statements. */
  function ListsStage(h: seq<Entry>): Result<seq<Entry>>
  {
    var h1 := NormaliseListAt(h, "known_list");
    if h1.Err? then Err(h1.error) else NormaliseListAt(h1.value, "block_list")
  }

  /** The packet log and `restore_cache` statements. */
  function LogAndCacheStage(h: seq<Entry>): Result<(Value, seq<Entry>)>
  {
    var h3 := MovePacketLog(h);
    if h3.Err? then Err(h3.error) else WidenRestoreCache(h3.value)
  }

  /** The library section becomes `config` and the serial port is split. */
  method SplitLibraryAndPort(h: seq<Entry>) returns (r: Result<(Value, seq<Entry>)>)
    ensures r == SplitStage(h)
    ensures !HasKey(h, "ramses_rf") ==> r == Err(KeyError)
    ensures r.Ok? ==>
      var sp := Lookup(h, "serial_port");
      sp.Some? &&
      (sp.value.Dict? ==> Lookup(sp.value.entries, "port_name") == Some(r.value.0)) &&
      (!sp.value.Dict? ==> r.value.0 == sp.value)
    ensures r.Ok? ==> forall k :: k != "config" && k != "ramses_rf" && k != "serial_port" ==>
      Lookup(r.value.1, k) == Lookup(h, k)
    ensures r.Ok? ==> Lookup(r.value.1, "serial_port") == None && Lookup(r.value.1, "ramses_rf") == None
    ensures r.Ok? ==>
      var lib := Lookup(h, "ramses_rf");
      var sp := Lookup(h, "serial_port");
      lib.Some? && sp.Some? &&
      (sp.value.Dict? ==> (lib.value.Dict? &&
        Lookup(r.value.1, "config") == Some(Dict(WithSerialSettings(lib.value.entries, sp.value.entries))))) &&
      (!sp.value.Dict? ==> Lookup(r.value.1, "config") == lib)
  {
    var h0 := MoveLibrarySection(h);
    if h0.Err? {
      return Err(h0.error);
    }
    assert Lookup(h0.value, "serial_port") == Lookup(h, "serial_port");
    r := SplitSerialPort(h0.value);
    if r.Ok? {
      assert Lookup(r.value.1, "ramses_rf") == Lookup(h0.value, "ramses_rf");
    }
  }

  /** Both device lists are normalised in place. */
  method NormaliseLists(h: seq<Entry>) returns (r: Result<seq<Entry>>)
    ensures r == ListsStage(h)
    ensures r.Ok? ==>
      var kl := Lookup(h, "known_list");
      kl.Some? && NormaliseDeviceList(kl.value).Ok? &&
      Lookup(r.value, "known_list") == Some(Dict(NormaliseDeviceList(kl.value).value))
    ensures r.Ok? ==>
      var bl := Lookup(h, "block_list");
      bl.Some? && NormaliseDeviceList(bl.value).Ok? &&
      Lookup(r.value, "block_list") == Some(Dict(NormaliseDeviceList(bl.value).value))
    ensures r.Ok? ==> forall k :: k != "known_list" && k != "block_list" ==> Lookup(r.value, k) == Lookup(h, k)
  {
    var h1 := NormaliseListAt(h, "known_list");
    if h1.Err? {
      return Err(h1.error);
    }
    assert Lookup(h1.value, "block_list") == Lookup(h, "block_list");
    r := NormaliseListAt(h1.value, "block_list");
    if r.Ok? {
      assert Lookup(r.value, "known_list") == Lookup(h1.value, "known_list");
    }
  }

  /** The next steps: the packet log moves under `config`, and the
    * `restore_schema` flag is read (after widening a boolean). */
  method MoveLogAndCache(h: seq<Entry>) returns (r: Result<(Value, seq<Entry>)>)
    ensures r == LogAndCacheStage(h)
    ensures r.Ok? ==> forall k :: k != "config" && k != "packet_log" && k != "restore_cache" ==>
      Lookup(r.value.1, k) == Lookup(h, k)
    ensures r.Ok? ==> Lookup(r.value.1, "packet_log") == None
    ensures r.Ok? ==>
      HasKey(h, "config") && Lookup(h, "config").value.Dict? &&
      Lookup(r.value.1, "config") ==
        Some(Dict(Assign(Lookup(h, "config").value.entries, "packet_log", PacketLogSection(Lookup(h, "packet_log")))))
    ensures r.Ok? ==>
      var rc := Lookup(h, "restore_cache");
      rc.Some? &&
      (rc.value.Bool? ==>
        Lookup(r.value.1, "restore_cache") == Some(Dict([Entry("restore_schema", rc.value), Entry("restore_state", rc.value)]))) &&
      (!rc.value.Bool? ==> Lookup(r.value.1, "restore_cache") == rc)
    ensures r.Ok? ==> GetItem(Lookup(r.value.1, "restore_cache").value, "restore_schema") == Ok(r.value.0)
  {
    var h3 := MovePacketLog(h);
    if h3.Err? {
      return Err(h3.error);
    }
    r := WidenRestoreCache(h3.value);
    if r.Ok? {
      assert Lookup(r.value.1, "packet_log") == Lookup(h3.value, "packet_log");
    }
  }

  /** Everything `normalise_hass_config` does before the schema: the port,
    * the rewritten `hass_config` and the `restore_schema` flag. */
  datatype Prepared = Prepared(serialPort: Value, config: seq<Entry>, restoreSchema: Value)

  /** The keys of `hass_config` that the steps before the schema rewrite. */
  const PreparedKeys: set<string> :=
    {"ramses_rf", "config", "serial_port", "known_list", "block_list", "packet_log", "restore_cache"}

  /** `normalise_hass_config` up to the schema, as one function of
    * `hass_config`: its statement groups in the order the source runs them. */
  function PrepareSpec(h: seq<Entry>): Result<Prepared>
  {
    var split := SplitStage(h);
    if split.Err? then Err(split.error)
    else
      var rest := TailStage(split.value.1);
      if rest.Err? then Err(rest.error) else Ok(Prepared(split.value.0, rest.value.1, rest.value.0))
  }

  /** After the steps before the schema, `config` holds the library
    * section, the serial settings of a dict serial port and the packet log. */
  lemma {:induction false} PrepareConfigSection(h: seq<Entry>)
    requires PrepareSpec(h).Ok?
    ensures HasKey(h, "ramses_rf") && Lookup(h, "ramses_rf").value.Dict? && HasKey(h, "serial_port")
    ensures Lookup(PrepareSpec(h).value.config, "config") == Some(Dict(ConfigSection(h)))
  {
    var split := SplitStage(h).value.1;
    var h0 := MoveLibrarySection(h).value;
    assert Lookup(h0, "serial_port") == Lookup(h, "serial_port");
    SplitStageKeeps(h, "packet_log");
    TailStageLogAndCache(split);
  }

  /** The steps before the schema leave every other key of `hass_config`
    * as it was. */
  lemma {:induction false} PrepareKeepsOtherKeys(h: seq<Entry>, k: string)
    requires PrepareSpec(h).Ok? && k !in PreparedKeys
    ensures Lookup(PrepareSpec(h).value.config, k) == Lookup(h, k)
  {
    SplitStageKeeps(h, k);
    TailStageKeeps(SplitStage(h).value.1, k);
  }

  lemma SplitStageKeeps(h: seq<Entry>, k: string)
    requires SplitStage(h).Ok? && k != "config" && k != "ramses_rf" && k != "serial_port"
    ensures Lookup(SplitStage(h).value.1, k) == Lookup(h, k)
  {
    var h0 := MoveLibrarySection(h).value;
    assert Lookup(h0, k) == Lookup(h, k);
  }

  lemma ListsStageKeeps(h: seq<Entry>, k: string)
    requires ListsStage(h).Ok? && k != "known_list" && k != "block_list"
    ensures Lookup(ListsStage(h).value, k) == Lookup(h, k)
  {
    var h1 := NormaliseListAt(h, "known_list").value;
    assert Lookup(h1, k) == Lookup(h, k);
  }

  lemma LogAndCacheStageKeeps(h: seq<Entry>, k: string)
    requires LogAndCacheStage(h).Ok? && k != "config" && k != "packet_log" && k != "restore_cache"
    ensures Lookup(LogAndCacheStage(h).value.1, k) == Lookup(h, k)
  {
    var h3 := MovePacketLog(h).value;
    assert Lookup(h3, k) == Lookup(h, k);
  }

  /** The flag handed to `_normalise_schema` is what the rewritten
    * `restore_cache` holds under `restore_schema`. */
  lemma {:induction false} PrepareRestoreFlag(h: seq<Entry>)
    requires PrepareSpec(h).Ok?
    ensures HasKey(PrepareSpec(h).value.config, "restore_cache")
    ensures GetItem(Lookup(PrepareSpec(h).value.config, "restore_cache").value, "restore_schema") ==
      Ok(PrepareSpec(h).value.restoreSchema)
  {
    TailStageLogAndCache(SplitStage(h).value.1);
  }

  /** The port comes from `serial_port`: its `port_name` when it is a dict,
    * the value itself otherwise. */
  lemma {:induction false} PreparePort(h: seq<Entry>)
    requires PrepareSpec(h).Ok?
    ensures
      var sp := Lookup(h, "serial_port");
      sp.Some? &&
      (sp.value.Dict? ==> Lookup(sp.value.entries, "port_name") == Some(PrepareSpec(h).value.serialPort)) &&
      (!sp.value.Dict? ==> PrepareSpec(h).value.serialPort == sp.value)
  {
    SplitStagePort(h);
    assert PrepareSpec(h).value.serialPort == SplitStage(h).value.0;
  }

  lemma SplitStagePort(h: seq<Entry>)
    requires SplitStage(h).Ok?
    ensures
      var sp := Lookup(h, "serial_port");
      sp.Some? &&
      (sp.value.Dict? ==> Lookup(sp.value.entries, "port_name") == Some(SplitStage(h).value.0)) &&
      (!sp.value.Dict? ==> SplitStage(h).value.0 == sp.value)
  {
    var h0 := MoveLibrarySection(h).value;
    assert Lookup(h0, "serial_port") == Lookup(h, "serial_port");
  }

  /** Both device lists come out normalised. */
  lemma {:induction false} PrepareLists(h: seq<Entry>)
    requires PrepareSpec(h).Ok?
    ensures
      var kl := Lookup(h, "known_list");
      kl.Some? && NormaliseDeviceList(kl.value).Ok? &&
      Lookup(PrepareSpec(h).value.config, "known_list") == Some(Dict(NormaliseDeviceList(kl.value).value))
    ensures
      var bl := Lookup(h, "block_list");
      bl.Some? && NormaliseDeviceList(bl.value).Ok? &&
      Lookup(PrepareSpec(h).value.config, "block_list") == Some(Dict(NormaliseDeviceList(bl.value).value))
  {
    SplitStageKeeps(h, "known_list");
    SplitStageKeeps(h, "block_list");
    TailStageLists(SplitStage(h).value.1);
  }

  /** `schema` is untouched and the moved keys are gone. */
  lemma {:induction false} PrepareMovedKeys(h: seq<Entry>)
    requires PrepareSpec(h).Ok?
    ensures Lookup(PrepareSpec(h).value.config, "schema") == Lookup(h, "schema")
    ensures
      Lookup(PrepareSpec(h).value.config, "serial_port") == None &&
      Lookup(PrepareSpec(h).value.config, "ramses_rf") == None &&
      Lookup(PrepareSpec(h).value.config, "packet_log") == None
  {
    var split := SplitStage(h).value.1;
    SplitStageKeeps(h, "schema");
    TailStageKeeps(split, "schema");
    TailStageKeeps(split, "serial_port");
    TailStageKeeps(split, "ramses_rf");
    TailStageLogAndCache(split);
  }

  method Prepare(h: seq<Entry>) returns (r: Result<Prepared>)
    ensures !HasKey(h, "ramses_rf") ==> r == Err(KeyError)
    ensures r.Ok? ==>
      var sp := Lookup(h, "serial_port");
      sp.Some? &&
      (sp.value.Dict? ==> Lookup(sp.value.entries, "port_name") == Some(r.value.serialPort)) &&
      (!sp.value.Dict? ==> r.value.serialPort == sp.value)
    ensures r.Ok? ==>
      var kl := Lookup(h, "known_list");
      kl.Some? && NormaliseDeviceList(kl.value).Ok? &&
      Lookup(r.value.config, "known_list") == Some(Dict(NormaliseDeviceList(kl.value).value))
    ensures r.Ok? ==>
      var bl := Lookup(h, "block_list");
      bl.Some? && NormaliseDeviceList(bl.value).Ok? &&
      Lookup(r.value.config, "block_list") == Some(Dict(NormaliseDeviceList(bl.value).value))
    ensures r.Ok? ==> Lookup(r.value.config, "schema") == Lookup(h, "schema")
    ensures r.Ok? ==>
      Lookup(r.value.config, "serial_port") == None && Lookup(r.value.config, "ramses_rf") == None &&
      Lookup(r.value.config, "packet_log") == None
    ensures r == PrepareSpec(h)
  {
    var split := SplitLibraryAndPort(h);
    if split.Err? {
      return Err(split.error);
    }
    var rest := ListsLogAndCache(split.value.1);
    if rest.Err? {
      return Err(rest.error);
    }
    r := Ok(Prepared(split.value.0, rest.value.1, rest.value.0));
    PreparePort(h);
    PrepareLists(h);
    PrepareMovedKeys(h);
  }

  /** The device-list, packet-log and `restore_cache` statements. */
  function TailStage(h: seq<Entry>): Result<(Value, seq<Entry>)>
  {
    var lists := ListsStage(h);
    if lists.Err? then Err(lists.error) else LogAndCacheStage(lists.value)
  }

  /** Keys those statements do not name keep their values. */
  lemma TailStageKeeps(h: seq<Entry>, k: string)
    requires TailStage(h).Ok?
    requires k != "known_list" && k != "block_list" && k != "config" && k != "packet_log" && k != "restore_cache"
    ensures Lookup(TailStage(h).value.1, k) == Lookup(h, k)
  {
    var lists := ListsStage(h).value;
    ListsStageKeeps(h, k);
    LogAndCacheStageKeeps(lists, k);
  }

  /** Both device lists come out normalised. */
  lemma TailStageLists(h: seq<Entry>)
    requires TailStage(h).Ok?
    ensures
      var kl := Lookup(h, "known_list");
      kl.Some? && NormaliseDeviceList(kl.value).Ok? &&
      Lookup(TailStage(h).value.1, "known_list") == Some(Dict(NormaliseDeviceList(kl.value).value))
    ensures
      var bl := Lookup(h, "block_list");
      bl.Some? && NormaliseDeviceList(bl.value).Ok? &&
      Lookup(TailStage(h).value.1, "block_list") == Some(Dict(NormaliseDeviceList(bl.value).value))
  {
    var h1 := NormaliseListAt(h, "known_list").value;
    var lists := ListsStage(h).value;
    assert Lookup(h1, "block_list") == Lookup(h, "block_list");
    assert Lookup(lists, "known_list") == Lookup(h1, "known_list");
    LogAndCacheStageKeeps(lists, "known_list");
    LogAndCacheStageKeeps(lists, "block_list");
  }

  /** The packet log moves under `config`, and the flag is the widened
    * `restore_cache`'s `restore_schema`. */
  lemma TailStageLogAndCache(h: seq<Entry>)
    requires TailStage(h).Ok?
    ensures Lookup(TailStage(h).value.1, "packet_log") == None
    ensures
      HasKey(h, "config") && Lookup(h, "config").value.Dict? &&
      Lookup(TailStage(h).value.1, "config") ==
        Some(Dict(Assign(Lookup(h, "config").value.entries, "packet_log", PacketLogSection(Lookup(h, "packet_log")))))
    ensures
      HasKey(TailStage(h).value.1, "restore_cache") &&
      GetItem(Lookup(TailStage(h).value.1, "restore_cache").value, "restore_schema") == Ok(TailStage(h).value.0)
  {
    var lists := ListsStage(h).value;
    ListsStageKeeps(h, "config");
    ListsStageKeeps(h, "packet_log");
    var h3 := MovePacketLog(lists).value;
    assert WidenRestoreCache(h3).Ok?;
    assert Lookup(TailStage(h).value.1, "packet_log") == Lookup(h3, "packet_log");
    assert Lookup(TailStage(h).value.1, "config") == Lookup(h3, "config");
  }

  /** The steps after the serial port: device lists, packet log and cache
    * flag. */
  method ListsLogAndCache(h: seq<Entry>) returns (r: Result<(Value, seq<Entry>)>)
    ensures r == TailStage(h)
    ensures r.Ok? ==>
      var kl := Lookup(h, "known_list");
      kl.Some? && NormaliseDeviceList(kl.value).Ok? &&
      Lookup(r.value.1, "known_list") == Some(Dict(NormaliseDeviceList(kl.value).value))
    ensures r.Ok? ==>
      var bl := Lookup(h, "block_list");
      bl.Some? && NormaliseDeviceList(bl.value).Ok? &&
      Lookup(r.value.1, "block_list") == Some(Dict(NormaliseDeviceList(bl.value).value))
    ensures r.Ok? ==> Lookup(r.value.1, "schema") == Lookup(h, "schema")
    ensures r.Ok? ==>
      Lookup(r.value.1, "serial_port") == Lookup(h, "serial_port") &&
      Lookup(r.value.1, "ramses_rf") == Lookup(h, "ramses_rf") &&
      Lookup(r.value.1, "packet_log") == None
    ensures r.Ok? ==>
      HasKey(h, "config") && Lookup(h, "config").value.Dict? &&
      Lookup(r.value.1, "config") ==
        Some(Dict(Assign(Lookup(h, "config").value.entries, "packet_log", PacketLogSection(Lookup(h, "packet_log")))))
    ensures r.Ok? ==>
      HasKey(r.value.1, "restore_cache") && GetItem(Lookup(r.value.1, "restore_cache").value, "restore_schema") == Ok(r.value.0)
  {
    var lists := NormaliseLists(h);
    if lists.Err? {
      return Err(lists.error);
    }
    r := MoveLogAndCache(lists.value);
    if r.Ok? {
      TailStageKeeps(h, "schema");
      TailStageKeeps(h, "serial_port");
      TailStageKeeps(h, "ramses_rf");
      TailStageLists(h);
      TailStageLogAndCache(h);
    }
  }

  /** The caller's schema dict, as `_normalise_schema`'s pops left it. */
  function PutBackSchema(h: seq<Entry>, after: Value): (r: seq<Entry>)
    ensures forall k :: k != "schema" ==> Lookup(r, k) == Lookup(h, k)
    ensures Lookup(r, "schema") == if HasKey(h, "schema") then Some(after) else None
  {
    if HasKey(h, "schema") then Assign(h, "schema", after) else h
  }

  /** `{k: v for k, v in hass_config.items() if k not in unwanted_keys}` */
  function LibraryConfig(h: seq<Entry>): (r: seq<Entry>)
    ensures forall k :: IsBrokerKey(k) ==> !HasKey(r, k)
    ensures forall k :: !IsBrokerKey(k) ==> Lookup(r, k) == Lookup(h, k)
  {
    Remove(Remove(Remove(h, "scan_interval"), "advanced_features"), "restore_cache")
  }

  /** `_normalise_schema` as `normalise_hass_config` calls it: the flag it is
    * given makes no difference. */
  method ResolveSchema(restoreCache: bool, config: Value, cached: Value, shrink: Value -> Value)
    returns (r: Result<(Value, Value)>)
    ensures r == NormaliseSchema(false, config, cached, shrink)
  {
    r := NormaliseSchema(restoreCache, config, cached, shrink);
    NormaliseSchemaIgnoresRestoreCache(restoreCache, config, cached, shrink);
  }

  /** The schema dict goes back into `hass_config`, and the library's
    * configuration is what is left without the integration's own keys. */
  method HandOver(h: seq<Entry>, after: Value) returns (r: seq<Entry>)
    ensures forall k :: IsBrokerKey(k) ==> !HasKey(r, k)
    ensures Lookup(r, "serial_port") == Lookup(h, "serial_port")
    ensures Lookup(r, "packet_log") == Lookup(h, "packet_log")
    ensures Lookup(r, "ramses_rf") == Lookup(h, "ramses_rf")
    ensures Lookup(r, "known_list") == Lookup(h, "known_list")
    ensures Lookup(r, "block_list") == Lookup(h, "block_list")
    ensures Lookup(r, "config") == Lookup(h, "config")
    ensures forall k :: !IsBrokerKey(k) && k != "schema" ==> Lookup(r, k) == Lookup(h, k)
    ensures Lookup(r, "schema") == if HasKey(h, "schema") then Some(after) else None
  {
    var h' := PutBackSchema(h, after);
    r := LibraryConfig(h');
    assert !IsBrokerKey("schema") && !IsBrokerKey("config") && !IsBrokerKey("serial_port") &&
      !IsBrokerKey("packet_log") && !IsBrokerKey("ramses_rf") && !IsBrokerKey("known_list") && !IsBrokerKey("block_list");
  }

  /** The steps after `Prepare`: the schema is normalised against the stored
    * one, put back into `hass_config`, and the integration's own keys are
    * left out of the library's configuration. */
  method SchemaAndHandOver(h: seq<Entry>, restoreSchema: Value, storage: seq<Entry>, shrink: Value -> Value)
    returns (r: Result<(Value, seq<Entry>)>)
    ensures r.Ok? <==>
      CachedSchema(storage).Ok? && NormaliseSchema(false, Lookup(h, "schema").GetOr(Nil), CachedSchema(storage).value, shrink).Ok?
    ensures r.Ok? ==>
      r.value.0 == NormaliseSchema(false, Lookup(h, "schema").GetOr(Nil), CachedSchema(storage).value, shrink).value.0
    ensures r.Ok? ==> forall k :: IsBrokerKey(k) ==> !HasKey(r.value.1, k)
    ensures r.Ok? ==> forall k :: !IsBrokerKey(k) && k != "schema" ==> Lookup(r.value.1, k) == Lookup(h, k)
    ensures r.Ok? ==>
      Lookup(r.value.1, "config") == Lookup(h, "config") &&
      Lookup(r.value.1, "serial_port") == Lookup(h, "serial_port") &&
      Lookup(r.value.1, "packet_log") == Lookup(h, "packet_log") &&
      Lookup(r.value.1, "ramses_rf") == Lookup(h, "ramses_rf") &&
      Lookup(r.value.1, "known_list") == Lookup(h, "known_list") &&
      Lookup(r.value.1, "block_list") == Lookup(h, "block_list")
    ensures r.Ok? ==>
      Lookup(r.value.1, "schema") ==
        if HasKey(h, "schema")
        then Some(NormaliseSchema(false, Lookup(h, "schema").value, CachedSchema(storage).value, shrink).value.1)
        else None
  {
    var cached := CachedSchema(storage);
    if cached.Err? {
      return Err(cached.error);
    }
    var config := Lookup(h, "schema").GetOr(Nil);
    var schema := ResolveSchema(Truthy(restoreSchema), config, cached.value, shrink);
    if schema.Err? {
      return Err(schema.error);
    }
    var library := HandOver(h, schema.value.1);
    return Ok((schema.value.0, library));
  }

  /** `normalise_hass_config(hass_config, storage)`: the `ramses_rf` section
    * becomes `config`; a dict serial port is split into its port name and
    * the serial settings (with the evofw flag) under `config`; the device
    * lists are normalised; the packet log moves under `config`;
    * `restore_cache` is widened to a dict; the schema is normalised against
    * the stored one; and the integration's own keys are left out of the
    * library's configuration. */
  method NormaliseHassConfig(hassConfig: seq<Entry>, storage: seq<Entry>, shrink: Value -> Value)
    returns (r: Result<HassSetup>)
    ensures !HasKey(hassConfig, "ramses_rf") ==> r == Err(KeyError)
    ensures r.Ok? ==> forall k :: IsBrokerKey(k) ==> !HasKey(r.value.libraryConfig, k)
    ensures r.Ok? ==>
      !HasKey(r.value.libraryConfig, "serial_port") && !HasKey(r.value.libraryConfig, "packet_log") &&
      !HasKey(r.value.libraryConfig, "ramses_rf")
    ensures r.Ok? ==>
      var sp := Lookup(hassConfig, "serial_port");
      sp.Some? &&
      (sp.value.Dict? ==> Lookup(sp.value.entries, "port_name") == Some(r.value.serialPort)) &&
      (!sp.value.Dict? ==> r.value.serialPort == sp.value)
    ensures r.Ok? ==>
      var kl := Lookup(hassConfig, "known_list");
      kl.Some? && NormaliseDeviceList(kl.value).Ok? &&
      Lookup(r.value.libraryConfig, "known_list") == Some(Dict(NormaliseDeviceList(kl.value).value))
    ensures r.Ok? ==>
      var bl := Lookup(hassConfig, "block_list");
      bl.Some? && NormaliseDeviceList(bl.value).Ok? &&
      Lookup(r.value.libraryConfig, "block_list") == Some(Dict(NormaliseDeviceList(bl.value).value))
    ensures r.Ok? ==>
      CachedSchema(storage).Ok? &&
      NormaliseSchema(false, Lookup(hassConfig, "schema").GetOr(Nil), CachedSchema(storage).value, shrink).Ok? &&
      r.value.schema == NormaliseSchema(false, Lookup(hassConfig, "schema").GetOr(Nil), CachedSchema(storage).value, shrink).value.0
    ensures r.Ok? ==>
      HasKey(hassConfig, "ramses_rf") && Lookup(hassConfig, "ramses_rf").value.Dict? && HasKey(hassConfig, "serial_port") &&
      Lookup(r.value.libraryConfig, "config") == Some(Dict(ConfigSection(hassConfig)))
    ensures r.Ok? && HasKey(hassConfig, "schema") ==>
      Lookup(r.value.libraryConfig, "schema") ==
        Some(NormaliseSchema(false, Lookup(hassConfig, "schema").value, CachedSchema(storage).value, shrink).value.1)
    ensures r.Ok? ==> forall k :: !IsBrokerKey(k) && k !in PreparedKeys && k != "schema" ==>
      Lookup(r.value.libraryConfig, k) == Lookup(hassConfig, k)
  {
    var prepared := Prepare(hassConfig);
    if prepared.Err? {
      return Err(prepared.error);
    }
    var h := prepared.value.config;
    var rest := SchemaAndHandOver(h, prepared.value.restoreSchema, storage, shrink);
    if rest.Err? {
      return Err(rest.error);
    }
    var library := rest.value.1;
    PrepareConfigSection(hassConfig);
    forall k | !IsBrokerKey(k) && k !in PreparedKeys && k != "schema"
      ensures Lookup(library, k) == Lookup(hassConfig, k)
    {
      PrepareKeepsOtherKeys(hassConfig, k);
    }
    return Ok(HassSetup(prepared.value.serialPort, library, rest.value.0));
  }
}
