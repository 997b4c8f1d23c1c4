/**
  `RecordMap`, a `BTreeMap<CowString, SerializeValue>`, represented by its entries in
  ascending key order under the derived `Ord` of `CowString`. Lookup and insertion go by
  that order, whose `Equal` is structural equality (`CmpEqual`), so `Borrowed("a")` and
  `Owned("a")` are two different keys of one map.
*/
module RecordMaps {
  import opened Base
  import opened CowStrings
  import opened Values

  type Pair = (CowString, SerializeValue)

  /**
    The entries in the stored order. The type does not require `Sorted`; the maps that
    `Insert`, `Collect` and `OwnedRecordMap` return are, and the members that serialize a
    map go by the stored order.
  */
  type RecordMap = seq<Pair>

  function Keys(m: seq<Pair>): set<CowString> {
    set p | p in m :: p.0
  }

  /** The key contents, which is what `PartialEq` on keys distinguishes. */
  function KeyContents(m: seq<Pair>): set<string> {
    set p | p in m :: AsStr(p.0)
  }

  /** Strictly ascending keys: the iteration order of a `BTreeMap`, with no key twice. */
  ghost predicate Sorted(m: seq<Pair>) {
    forall i, j :: 0 <= i < j < |m| ==> Cmp(m[i].0, m[j].0) == Less
  }

  /** Every key and every value owns its data. */
  predicate IsOwnedMap(m: seq<Pair>) {
    forall p :: p in m ==> p.0.Owned? && Values.IsOwned(p.1)
  }

  /** `BTreeMap::get`. */
  function Get(m: seq<Pair>, k: CowString): Option<SerializeValue> {
    if |m| == 0 then None
    else if m[0].0 == k then Some(m[0].1)
    else Get(m[1..], k)
  }

  /**
    `BTreeMap::insert`: a new key is placed in order; for a key already present only the
    value is replaced.
  */
  function Insert(m: seq<Pair>, k: CowString, v: SerializeValue): (r: seq<Pair>)
    ensures Keys(r) == Keys(m) + {k}
    ensures Get(r, k) == Some(v)
    ensures forall k' :: k' != k ==> Get(r, k') == Get(m, k')
    ensures forall p :: p in r ==> p in m || p == (k, v)
  {
    if |m| == 0 then [(k, v)]
    else
      CmpEqual(k, m[0].0);
      assert m == [m[0]] + m[1..];
      match Cmp(k, m[0].0)
      case Less => [(k, v)] + m
      case Equal => [(m[0].0, v)] + m[1..]
      case Greater =>
        var t := Insert(m[1..], k, v);
        KeysOfCons(m);
        assert Keys([m[0]] + t) == {m[0].0} + Keys(t) by {
          assert ([m[0]] + t)[0] == m[0] && ([m[0]] + t)[1..] == t;
          KeysOfCons([m[0]] + t);
        }
        [m[0]] + t
  }

  /** Insertion keeps a map strictly ascending, and grows it exactly when the key is new. */
  lemma {:induction false} InsertSorted(m: seq<Pair>, k: CowString, v: SerializeValue)
    requires Sorted(m)
    ensures Sorted(Insert(m, k, v))
    ensures |Insert(m, k, v)| == if k in Keys(m) then |m| else |m| + 1
  {
    if |m| > 0 {
      CmpEqual(k, m[0].0);
      match Cmp(k, m[0].0)
      case Less => InsertBelowHead(m, k, v);
      case Equal => InsertAtHead(m, k, v);
      case Greater =>
        InsertSorted(m[1..], k, v);
        InsertAboveHead(m, k, v);
    }
  }

  lemma InsertBelowHead(m: seq<Pair>, k: CowString, v: SerializeValue)
    requires Sorted(m) && |m| > 0 && Cmp(k, m[0].0) == Less
    ensures Insert(m, k, v) == [(k, v)] + m
    ensures Sorted(Insert(m, k, v)) && k !in Keys(m)
  {
    forall j | 0 < j < |m| ensures Cmp(k, m[j].0) == Less {
      CmpTransitive(k, m[0].0, m[j].0);
    }
    assert forall j :: 0 <= j < |m| ==> m[j].0 != k;
  }

  lemma InsertAtHead(m: seq<Pair>, k: CowString, v: SerializeValue)
    requires Sorted(m) && |m| > 0 && Cmp(k, m[0].0) == Equal
    ensures Sorted(Insert(m, k, v)) && |Insert(m, k, v)| == |m| && k in Keys(m)
  {
    CmpEqual(k, m[0].0);
    var r := Insert(m, k, v);
    assert r == [(m[0].0, v)] + m[1..];
    assert forall i :: 0 <= i < |m| ==> r[i].0 == m[i].0;
  }

  lemma HeadBelowTailKeys(m: seq<Pair>, x: CowString)
    requires Sorted(m) && |m| > 0 && x in Keys(m[1..])
    ensures Cmp(m[0].0, x) == Less
  {
    var p :| p in m[1..] && p.0 == x;
    var i :| 0 <= i < |m[1..]| && m[1..][i] == p;
    assert m[i + 1].0 == x;
  }

  lemma InsertAboveHead(m: seq<Pair>, k: CowString, v: SerializeValue)
    requires Sorted(m) && |m| > 0 && Cmp(k, m[0].0) == Greater
    requires Sorted(Insert(m[1..], k, v))
    requires |Insert(m[1..], k, v)| == if k in Keys(m[1..]) then |m| - 1 else |m|
    ensures Sorted(Insert(m, k, v))
    ensures |Insert(m, k, v)| == if k in Keys(m) then |m| else |m| + 1
  {
    CmpEqual(k, m[0].0);
    assert Insert(m, k, v) == [m[0]] + Insert(m[1..], k, v);
    AboveHeadSorted(m, k, v);
    KeysOfCons(m);
  }

  lemma AboveHeadSorted(m: seq<Pair>, k: CowString, v: SerializeValue)
    requires Sorted(m) && |m| > 0 && Cmp(k, m[0].0) == Greater
    requires Sorted(Insert(m[1..], k, v))
    ensures Sorted([m[0]] + Insert(m[1..], k, v))
  {
    var tail := Insert(m[1..], k, v);
    CmpFlip(k, m[0].0);
    forall x | x in Keys(tail) ensures Cmp(m[0].0, x) == Less {
      if x != k {
        HeadBelowTailKeys(m, x);
      }
    }
    HeadThenSorted(m[0], tail);
  }

  lemma KeysOfCons(m: seq<Pair>)
    requires |m| > 0
    ensures Keys(m) == {m[0].0} + Keys(m[1..])
  {
    assert m == [m[0]] + m[1..];
  }

  lemma HeadThenSorted(h: Pair, tail: seq<Pair>)
    requires Sorted(tail)
    requires forall x :: x in Keys(tail) ==> Cmp(h.0, x) == Less
    ensures Sorted([h] + tail)
  {
    var r := [h] + tail;
    forall i, j | 0 <= i < j < |r| ensures Cmp(r[i].0, r[j].0) == Less {
      assert r[j] == tail[j - 1];
      if i == 0 {
        assert tail[j - 1] in tail;
      } else {
        assert r[i] == tail[i - 1];
      }
    }
  }

  /**
    `collect()` into a `BTreeMap`: the pairs are inserted in iteration order, so a later
    pair with an existing key replaces the earlier value. Every resulting pair is one of
    the given pairs. The standard `collect()` instead sorts stably and drops adjacent
    `PartialEq`-equal keys; the two agree when every key is `Owned`, as wherever the
    fields wrappers collect.
  */
  function Collect(ps: seq<Pair>): (r: RecordMap)
    ensures Sorted(r)
    ensures Keys(r) == Keys(ps)
    ensures forall p :: p in r ==> p in ps
  {
    if |ps| == 0 then []
    else
      var init, last := ps[..|ps| - 1], ps[|ps| - 1];
      assert ps == init + [last];
      var r := Collect(init);
      InsertSorted(r, last.0, last.1);
      Insert(r, last.0, last.1)
  }

  /** The value of the last pair with key `k`, the one that survives collection. */
  function LastFor(ps: seq<Pair>, k: CowString): Option<SerializeValue> {
    if |ps| == 0 then None
    else if ps[|ps| - 1].0 == k then Some(ps[|ps| - 1].1)
    else LastFor(ps[..|ps| - 1], k)
  }

  /** Later duplicate keys overwrite earlier ones. */
  lemma {:induction false} CollectGet(ps: seq<Pair>, k: CowString)
    ensures Get(Collect(ps), k) == LastFor(ps, k)
    ensures k !in Keys(ps) ==> Get(Collect(ps), k) == None
  {
    if k !in Keys(ps) {
      LastForAbsent(ps, k);
    }
    if |ps| > 0 {
      CollectGet(ps[..|ps| - 1], k);
    }
  }

  lemma {:induction false} LastForAt(ps: seq<Pair>, k: CowString, i: nat)
    requires i < |ps| && ps[i].0 == k
    requires forall j :: i < j < |ps| ==> ps[j].0 != k
    ensures LastFor(ps, k) == Some(ps[i].1)
  {
    if i < |ps| - 1 {
      LastForAt(ps[..|ps| - 1], k, i);
    }
  }

  /** A key no pair carries has no last value. */
  lemma {:induction false} LastForAbsent(ps: seq<Pair>, k: CowString)
    requires k !in Keys(ps)
    ensures LastFor(ps, k) == None
  {
    if |ps| > 0 {
      assert ps[|ps| - 1] in ps;
      assert Keys(ps[..|ps| - 1]) <= Keys(ps);
      LastForAbsent(ps[..|ps| - 1], k);
    }
  }

  /** Inserting a key above every present key appends it. */
  lemma {:induction false} InsertGreatest(m: seq<Pair>, k: CowString, v: SerializeValue)
    requires forall i :: 0 <= i < |m| ==> Cmp(m[i].0, k) == Less
    ensures Insert(m, k, v) == m + [(k, v)]
  {
    if |m| > 0 {
      CmpFlip(m[0].0, k);
      InsertGreatest(m[1..], k, v);
      assert m == [m[0]] + m[1..];
    }
  }

  /** Collecting owned pairs gives an owned map. */
  lemma CollectOwned(ps: seq<Pair>)
    requires IsOwnedMap(ps)
    ensures IsOwnedMap(Collect(ps))
  {
  }

  /** Collecting pairs that are already strictly ascending rebuilds them unchanged. */
  lemma {:induction false} CollectOfSorted(m: seq<Pair>)
    requires Sorted(m)
    ensures Collect(m) == m
  {
    if |m| > 0 {
      var init := m[..|m| - 1];
      CollectOfSorted(init);
      InsertGreatest(init, m[|m| - 1].0, m[|m| - 1].1);
      assert init + [m[|m| - 1]] == m;
    }
  }

  function OwnedPair(p: Pair): Pair {
    (CowStrings.ToOwned(p.0), Values.ToOwned(p.1))
  }

  function OwnedPairs(m: seq<Pair>): seq<Pair> {
    seq(|m|, i requires 0 <= i < |m| => OwnedPair(m[i]))
  }

  /**
    The `De` branch of every fields wrapper's `to_owned`:
    `iter().map(|(k, v)| (k.to_owned(), v.to_owned())).collect()`. The result owns all its
    data, is a valid map, and has the same key contents.
  */
  function OwnedRecordMap(m: RecordMap): (r: RecordMap)
    ensures Sorted(r) && IsOwnedMap(r)
    ensures KeyContents(r) == KeyContents(m)
  {
    OwnedPairsKeyContents(m);
    Collect(OwnedPairs(m))
  }

  /** Making keys owned and collecting them keeps the set of key contents. */
  lemma OwnedPairsKeyContents(m: RecordMap)
    ensures KeyContents(Collect(OwnedPairs(m))) == KeyContents(m)
  {
    var ps := OwnedPairs(m);
    var r := Collect(ps);
    forall s | s in KeyContents(m) ensures s in KeyContents(r) {
      var p :| p in m && AsStr(p.0) == s;
      var i :| 0 <= i < |m| && m[i] == p;
      assert ps[i].0 in Keys(ps);
    }
    forall s | s in KeyContents(r) ensures s in KeyContents(m) {
      var p :| p in r && AsStr(p.0) == s;
      var i :| 0 <= i < |ps| && ps[i] == p;
      assert m[i] in m;
    }
  }

  /**
    In the owned copy, the key with the content of `m[i]` holds `m[i]`'s value made owned,
    provided no later key of `m` has the same content; when one does (`Borrowed(s)` sorts
    before `Owned(s)`), the later one wins.
  */
  lemma OwnedRecordMapGet(m: RecordMap, i: nat)
    requires i < |m|
    requires forall j :: i < j < |m| ==> AsStr(m[j].0) != AsStr(m[i].0)
    ensures Get(OwnedRecordMap(m), Owned(AsStr(m[i].0))) == Some(Values.ToOwned(m[i].1))
  {
    var ps := OwnedPairs(m);
    CollectGet(ps, Owned(AsStr(m[i].0)));
    LastForAt(ps, Owned(AsStr(m[i].0)), i);
  }

  /** Making an already owned map owned again gives it back unchanged. */
  lemma OwnedRecordMapIdempotent(m: RecordMap)
    requires Sorted(m) && IsOwnedMap(m)
    ensures OwnedRecordMap(m) == m
  {
    assert OwnedPairs(m) == m by {
      forall i | 0 <= i < |m| ensures OwnedPairs(m)[i] == m[i] {
        assert m[i] in m;
      }
    }
    CollectOfSorted(m);
  }

  /** A borrowed and an owned key with one content collapse into one owned key, the later value winning. */
  lemma OwnedRecordMapMergesEqualContents()
    ensures Sorted([(Borrowed("a"), Bool(true)), (Owned("a"), Bool(false))])
    ensures OwnedRecordMap([(Borrowed("a"), Bool(true)), (Owned("a"), Bool(false))]) == [(Owned("a"), Bool(false))]
  {
    var m := [(Borrowed("a"), Bool(true)), (Owned("a"), Bool(false))];
    var ps := OwnedPairs(m);
    assert ps == [(Owned("a"), Bool(true)), (Owned("a"), Bool(false))];
    var first := [(Owned("a"), Bool(true))];
    assert ps[..1] == first;
    assert Collect(first) == first by {
      assert first[..0] == [];
    }
    CmpEqual(Owned("a"), Owned("a"));
    assert Insert(first, Owned("a"), Bool(false)) == [(Owned("a"), Bool(false))];
  }
}
