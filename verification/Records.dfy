/** Records kept once each, in the order of their identifiers. */
module Records {
  import opened Wrappers
  import opened Ordering
  import opened Identities

  predicate StrictlyAscending<T>(key: T -> Uuid, s: seq<T>) {
    forall i, j :: 0 <= i < j < |s| ==> key(s[i]) < key(s[j])
  }

  ghost predicate SameElements<T(!new)>(s: seq<T>, t: seq<T>) {
    forall x :: x in s <==> x in t
  }

  /** No two different records claim one identifier. */
  predicate Consistent<T(==)>(key: T -> Uuid, records: seq<T>) {
    forall x, y :: x in records && y in records && key(x) == key(y) ==> x == y
  }

  /** `kept` holds each of the records once, by ascending identifier. */
  ghost predicate Lists<T(!new)>(key: T -> Uuid, kept: seq<T>, records: seq<T>) {
    StrictlyAscending(key, kept) && SameElements(kept, records)
  }

  lemma EmptyTogether<T(!new)>(s: seq<T>, t: seq<T>)
    requires SameElements(s, t)
    ensures s == [] <==> t == []
  {
    if s != [] {
      assert s[0] in t;
    }
    if t != [] {
      assert t[0] in s;
    }
  }

  /** There is only one such listing, whatever the order and repetition of the input. */
  lemma {:induction false} AscendingDetermined<T(!new)>(key: T -> Uuid, s: seq<T>, t: seq<T>)
    requires StrictlyAscending(key, s) && StrictlyAscending(key, t) && SameElements(s, t)
    ensures s == t
  {
    EmptyTogether(s, t);
    if s != [] {
      var a, b := s[|s| - 1], t[|t| - 1];
      assert a in t && b in s;
      assert key(a) <= key(b) <= key(a);
      LastIs(key, t, a);
      SameWithoutLast(key, s, t);
      AscendingDetermined(key, s[..|s| - 1], t[..|t| - 1]);
    }
  }

  lemma LastIs<T(!new)>(key: T -> Uuid, t: seq<T>, a: T)
    requires StrictlyAscending(key, t) && a in t && key(t[|t| - 1]) <= key(a)
    ensures a == t[|t| - 1]
  {
    var i :| 0 <= i < |t| && t[i] == a;
  }

  lemma DropsLast<T(!new)>(key: T -> Uuid, s: seq<T>)
    requires StrictlyAscending(key, s) && s != []
    ensures s == s[..|s| - 1] + [s[|s| - 1]]
    ensures forall x :: x in s[..|s| - 1] <==> x in s && x != s[|s| - 1]
  {
    assert s == s[..|s| - 1] + [s[|s| - 1]];
    forall x | x in s[..|s| - 1] ensures key(x) < key(s[|s| - 1]) {
      var i :| 0 <= i < |s| - 1 && s[i] == x;
    }
  }

  lemma SameWithoutLast<T(!new)>(key: T -> Uuid, s: seq<T>, t: seq<T>)
    requires StrictlyAscending(key, s) && StrictlyAscending(key, t) && SameElements(s, t)
    requires s != [] && t != [] && s[|s| - 1] == t[|t| - 1]
    ensures SameElements(s[..|s| - 1], t[..|t| - 1])
  {
    var u, v := s[..|s| - 1], t[..|t| - 1];
    DropsLast(key, s);
    DropsLast(key, t);
    forall x | x in u ensures x in v {
      assert x in t && x != t[|t| - 1];
    }
    forall x | x in v ensures x in u {
      assert x in s && x != s[|s| - 1];
    }
  }

  lemma ListingConsistent<T(!new)>(key: T -> Uuid, kept: seq<T>, records: seq<T>)
    requires Lists(key, kept, records)
    ensures Consistent(key, records)
  {
    forall x, y | x in records && y in records && key(x) == key(y) ensures x == y {
      assert x in kept && y in kept;
    }
  }

  function ById<T>(key: T -> Uuid, s: seq<T>): map<Uuid, T> {
    if s == [] then map[] else ById(key, s[..|s| - 1])[key(s[|s| - 1]) := s[|s| - 1]]
  }

  lemma {:induction false} ByIdFinds<T(!new)>(key: T -> Uuid, s: seq<T>)
    requires StrictlyAscending(key, s)
    ensures forall x :: x in s ==> key(x) in ById(key, s) && ById(key, s)[key(x)] == x
    ensures forall k :: k in ById(key, s) ==> ById(key, s)[k] in s && key(ById(key, s)[k]) == k
  {
    if s != [] {
      var init := s[..|s| - 1];
      assert s == init + [s[|s| - 1]];
      ByIdFinds(key, init);
    }
  }

  /** Two listings with the same identifiers line up position by position. */
  lemma Align<S(!new), T(!new)>(f: S -> Uuid, s: seq<S>, g: T -> Uuid, t: seq<T>)
    requires StrictlyAscending(f, s) && StrictlyAscending(g, t)
    requires SameElements(Map(f, s), Map(g, t))
    ensures |s| == |t| && forall i :: 0 <= i < |s| ==> f(s[i]) == g(t[i])
  {
    var a, b := Map(f, s), Map(g, t);
    AscendingDetermined((k: Uuid) => k, a, b);
    forall i | 0 <= i < |s| ensures f(s[i]) == g(t[i]) {
      assert a[i] == b[i];
    }
  }

  lemma MapMember<T(!new)>(f: T -> Uuid, s: seq<T>, x: T)
    requires x in s
    ensures f(x) in Map(f, s)
  {
    var i :| 0 <= i < |s| && s[i] == x;
    assert Map(f, s)[i] == f(x);
  }

  // ----- The loop -----

  function ByNumber(): (Uuid, Uuid) -> bool {
    (a, b) => a <= b
  }

  /** Coalesce equal records, refuse conflicting ones, and put the rest in identifier order. */
  method Deduplicate<T(==, !new)>(key: T -> Uuid, records: seq<T>) returns (r: Option<seq<T>>)
    ensures r.Some? <==> Consistent(key, records)
    ensures r.Some? ==> Lists(key, r.value, records)
  {
    var byId: map<Uuid, T> := map[];
    var ids: seq<Uuid> := [];
    for i := 0 to |records|
      invariant forall k :: k in byId <==> k in ids
      invariant forall a, b :: 0 <= a < b < |ids| ==> ids[a] != ids[b]
      invariant forall x :: x in records[..i] ==> key(x) in byId && byId[key(x)] == x
      invariant forall k :: k in byId ==> byId[k] in records[..i] && key(byId[k]) == k
    {
      var record := records[i];
      if key(record) !in byId {
        byId := byId[key(record) := record];
        ids := ids + [key(record)];
      } else if byId[key(record)] != record {
        assert byId[key(record)] in records && record in records;
        return None;
      }
      assert records[..i + 1] == records[..i] + [record];
    }
    assert records[..|records|] == records;
    var ordered := SortIds(ids);
    var kept: seq<T> := [];
    for i := 0 to |ordered|
      invariant |kept| == i && forall j :: 0 <= j < i ==> ordered[j] in byId && kept[j] == byId[ordered[j]]
    {
      kept := kept + [byId[ordered[i]]];
    }
    forall x | x in records ensures x in kept {
      assert key(x) in ordered;
      var j :| 0 <= j < |ordered| && ordered[j] == key(x);
      assert kept[j] == x;
    }
    r := Some(kept);
  }

  method SortIds(ids: seq<Uuid>) returns (ordered: seq<Uuid>)
    requires forall a, b :: 0 <= a < b < |ids| ==> ids[a] != ids[b]
    ensures SameElements(ordered, ids) && StrictlyAscending((k: Uuid) => k, ordered)
  {
    ordered := Sort(ids, ByNumber());
    SortSorts(ids, ByNumber());
    SortMembers(ids, ByNumber());
    forall i, j | 0 <= i < j < |ordered| ensures ordered[i] < ordered[j] {
      assert ByNumber()(ordered[i], ordered[j]);
      DistinctStay(ids, ordered, i, j);
    }
  }

  lemma {:induction false} Multiplicity(s: seq<Uuid>)
    requires forall a, b :: 0 <= a < b < |s| ==> s[a] != s[b]
    ensures forall x :: x in s ==> multiset(s)[x] == 1
  {
    if s != [] {
      var init, last := s[..|s| - 1], s[|s| - 1];
      assert s == init + [last];
      Multiplicity(init);
      assert last !in init;
    }
  }

  lemma DistinctStay(s: seq<Uuid>, t: seq<Uuid>, i: nat, j: nat)
    requires forall a, b :: 0 <= a < b < |s| ==> s[a] != s[b]
    requires multiset(s) == multiset(t) && i < j < |t|
    ensures t[i] != t[j]
  {
    Multiplicity(s);
    assert t == t[..i] + [t[i]] + t[i + 1..j] + [t[j]] + t[j + 1..];
    assert t[i] in multiset(t);
    assert t[i] in s;
  }
}
