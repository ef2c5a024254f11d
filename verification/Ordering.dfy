/** Sorting as the library does it: stable, by a key, ascending. */
module Ordering {

  /** Total and transitive; two values that tie need not be equal. */
  ghost predicate TotalPreorder<T(!new)>(le: (T, T) -> bool) {
    && (forall x, y :: le(x, y) || le(y, x))
    && (forall x, y, z :: le(x, y) && le(y, z) ==> le(x, z))
  }

  ghost predicate Antisymmetric<T(!new)>(le: (T, T) -> bool) {
    forall x, y :: le(x, y) && le(y, x) ==> x == y
  }

  ghost predicate Ascending<T>(s: seq<T>, le: (T, T) -> bool) {
    forall i, j :: 0 <= i < j < |s| ==> le(s[i], s[j])
  }

  /** Put x after everything that is no greater than it. */
  function Insert<T>(s: seq<T>, x: T, le: (T, T) -> bool): seq<T> {
    if s == [] then [x]
    else
      var last := s[|s| - 1];
      if le(last, x) then s + [x] else Insert(s[..|s| - 1], x, le) + [last]
  }

  function Sort<T>(s: seq<T>, le: (T, T) -> bool): seq<T> {
    if s == [] then [] else Insert(Sort(s[..|s| - 1], le), s[|s| - 1], le)
  }

  lemma {:induction false} InsertKeeps<T>(s: seq<T>, x: T, le: (T, T) -> bool)
    ensures multiset(Insert(s, x, le)) == multiset(s) + multiset{x}
  {
    if s != [] {
      var init, last := s[..|s| - 1], s[|s| - 1];
      assert s == init + [last];
      InsertKeeps(init, x, le);
    }
  }

  lemma {:induction false} InsertAscends<T(!new)>(s: seq<T>, x: T, le: (T, T) -> bool)
    requires TotalPreorder(le) && Ascending(s, le)
    ensures Ascending(Insert(s, x, le), le)
  {
    if s != [] {
      var init, last := s[..|s| - 1], s[|s| - 1];
      assert s == init + [last];
      if le(last, x) {
        forall i | 0 <= i < |s| ensures le(s[i], x) {
          assert i == |s| - 1 || le(s[i], s[|s| - 1]);
        }
      } else {
        InsertAscends(init, x, le);
        InsertKeeps(init, x, le);
        var t := Insert(init, x, le);
        forall i | 0 <= i < |t| ensures le(t[i], last) {
          assert t[i] in multiset(t);
          assert t[i] == x || t[i] in init;
        }
      }
    }
  }

  /** Sorting permutes its input into ascending order. */
  lemma {:induction false} SortSorts<T(!new)>(s: seq<T>, le: (T, T) -> bool)
    requires TotalPreorder(le)
    ensures Ascending(Sort(s, le), le) && multiset(Sort(s, le)) == multiset(s)
  {
    if s != [] {
      var init, last := s[..|s| - 1], s[|s| - 1];
      assert s == init + [last];
      SortSorts(init, le);
      InsertAscends(Sort(init, le), last, le);
      InsertKeeps(Sort(init, le), last, le);
    }
  }

  /** An ascending list is its own sort, whatever ties it has. */
  lemma {:induction false} SortIdempotent<T>(s: seq<T>, le: (T, T) -> bool)
    requires Ascending(s, le)
    ensures Sort(s, le) == s
  {
    if s != [] {
      var init := s[..|s| - 1];
      SortIdempotent(init, le);
      assert s == init + [s[|s| - 1]];
      assert init != [] ==> le(init[|init| - 1], s[|s| - 1]);
    }
  }

  lemma LastIsGreatest<T(!new)>(s: seq<T>, x: T, le: (T, T) -> bool)
    requires TotalPreorder(le) && Ascending(s, le) && x in s
    ensures le(x, s[|s| - 1])
  {
    var i :| 0 <= i < |s| && s[i] == x;
    assert le(s[|s| - 1], s[|s| - 1]);
  }

  lemma DropLast<T>(s: seq<T>)
    requires s != []
    ensures multiset(s[..|s| - 1]) == multiset(s) - multiset{s[|s| - 1]}
  {
    assert s == s[..|s| - 1] + [s[|s| - 1]];
  }

  lemma RemoveAt<T>(s: seq<T>, k: nat)
    requires k < |s|
    ensures multiset(s) == multiset(s[..k] + s[k + 1..]) + multiset{s[k]}
  {
    assert s == s[..k] + [s[k]] + s[k + 1..];
  }

  /** Where ties are equalities, a multiset has one ascending listing. */
  lemma {:induction false} AscendingUnique<T(!new)>(s: seq<T>, t: seq<T>, le: (T, T) -> bool)
    requires TotalPreorder(le) && Antisymmetric(le)
    requires Ascending(s, le) && Ascending(t, le) && multiset(s) == multiset(t)
    ensures s == t
  {
    assert |s| == |multiset(s)| == |multiset(t)| == |t|;
    if s != [] {
      var a, b := s[|s| - 1], t[|t| - 1];
      assert a == b by {
        assert a in multiset(s) && b in multiset(t);
        LastIsGreatest(t, a, le);
        LastIsGreatest(s, b, le);
      }
      DropLast(s);
      DropLast(t);
      AscendingUnique(s[..|s| - 1], t[..|t| - 1], le);
    }
  }

  lemma SortMembers<T(!new)>(s: seq<T>, le: (T, T) -> bool)
    requires TotalPreorder(le)
    ensures |Sort(s, le)| == |s| && forall x :: x in Sort(s, le) <==> x in s
  {
    SortSorts(s, le);
    assert |multiset(Sort(s, le))| == |multiset(s)|;
    assert forall x :: x in Sort(s, le) <==> x in multiset(Sort(s, le));
    assert forall x :: x in s <==> x in multiset(s);
  }

  /** Sorting forgets the order of its input. */
  lemma SortsAgree<T(!new)>(s: seq<T>, t: seq<T>, le: (T, T) -> bool)
    requires TotalPreorder(le) && Antisymmetric(le) && multiset(s) == multiset(t)
    ensures Sort(s, le) == Sort(t, le)
  {
    SortSorts(s, le);
    SortSorts(t, le);
    AscendingUnique(Sort(s, le), Sort(t, le), le);
  }

  function Map<S, T>(f: S -> T, s: seq<S>): (r: seq<T>)
    ensures |r| == |s| && forall i :: 0 <= i < |r| ==> r[i] == f(s[i])
  {
    seq(|s|, i requires 0 <= i < |s| => f(s[i]))
  }

  lemma MapRemoveAt<S, T>(f: S -> T, s: seq<S>, k: nat)
    requires k < |s|
    ensures multiset(Map(f, s)) == multiset(Map(f, s[..k] + s[k + 1..])) + multiset{f(s[k])}
  {
    RemoveAt(Map(f, s), k);
    assert Map(f, s)[..k] + Map(f, s)[k + 1..] == Map(f, s[..k] + s[k + 1..]);
  }

  lemma {:induction false} MapPermutes<S, T>(f: S -> T, p: seq<S>, q: seq<S>)
    requires multiset(p) == multiset(q)
    ensures multiset(Map(f, p)) == multiset(Map(f, q))
    decreases |p|
  {
    if p == [] {
      assert |multiset(q)| == 0;
    } else {
      var last := |p| - 1;
      assert p[last] in multiset(q);
      var k :| 0 <= k < |q| && q[k] == p[last];
      RemoveAt(p, last);
      RemoveAt(q, k);
      var shorter, rest := p[..last] + p[last + 1..], q[..k] + q[k + 1..];
      assert multiset(shorter) == multiset(p) - multiset{q[k]} == multiset(rest);
      MapPermutes(f, shorter, rest);
      MapRemoveAt(f, p, last);
      MapRemoveAt(f, q, k);
    }
  }

  // ----- Text, ordered by code point -----

  predicate TextLe(a: string, b: string) {
    a == [] || (b != [] && (a[0] < b[0] || (a[0] == b[0] && TextLe(a[1..], b[1..]))))
  }

  lemma {:induction false} TextTotal(a: string, b: string)
    ensures TextLe(a, b) || TextLe(b, a)
  {
    if a != [] && b != [] {
      TextTotal(a[1..], b[1..]);
    }
  }

  lemma {:induction false} TextTransitive(a: string, b: string, c: string)
    requires TextLe(a, b) && TextLe(b, c)
    ensures TextLe(a, c)
  {
    if a != [] && a[0] == b[0] == c[0] {
      TextTransitive(a[1..], b[1..], c[1..]);
    }
  }

  lemma {:induction false} TextAntisymmetric(a: string, b: string)
    requires TextLe(a, b) && TextLe(b, a)
    ensures a == b
  {
    if a != [] {
      TextAntisymmetric(a[1..], b[1..]);
      assert a == [a[0]] + a[1..] && b == [b[0]] + b[1..];
    }
  }

  /** Code-point order on text is a total order. */
  lemma TextOrder()
    ensures TotalPreorder(TextLe) && Antisymmetric(TextLe)
  {
    forall x, y ensures TextLe(x, y) || TextLe(y, x) {
      TextTotal(x, y);
    }
    forall x, y, z | TextLe(x, y) && TextLe(y, z) ensures TextLe(x, z) {
      TextTransitive(x, y, z);
    }
    forall x, y | TextLe(x, y) && TextLe(y, x) ensures x == y {
      TextAntisymmetric(x, y);
    }
  }

  /** `names` is what sorting the set gives: every member once, ascending. */
  ghost predicate ListsSorted(names: seq<string>, members: set<string>) {
    && Ascending(names, TextLe)
    && (forall n :: n in names <==> n in members)
    && (forall i, j :: 0 <= i < j < |names| ==> names[i] != names[j])
  }

  lemma {:induction false} LeastText(s: set<string>) returns (least: string)
    requires s != {}
    ensures least in s && forall x :: x in s ==> TextLe(least, x)
  {
    TextOrder();
    var x :| x in s;
    if s == {x} {
      least := x;
    } else {
      var rest := s - {x};
      assert s == rest + {x};
      assert rest != {} by {
        var y :| y in s && y != x;
        assert y in rest;
      }
      var y := LeastText(rest);
      least := if TextLe(x, y) then x else y;
    }
  }

  lemma LeastTextExists(s: set<string>)
    requires s != {}
    ensures exists least :: least in s && forall x :: x in s ==> TextLe(least, x)
    ensures forall a, b | a in s && b in s && TextLe(a, b) && TextLe(b, a) :: a == b
  {
    var least := LeastText(s);
    TextOrder();
  }

  /** `sorted` of a set of strings. */
  function SortedText(s: set<string>): seq<string> {
    if s == {} then []
    else
      LeastTextExists(s);
      var least :| least in s && forall x :: x in s ==> TextLe(least, x);
      [least] + SortedText(s - {least})
  }

  lemma {:induction false} SortedTextLists(s: set<string>)
    ensures ListsSorted(SortedText(s), s)
  {
    if s != {} {
      LeastTextExists(s);
      var least := SortedText(s)[0];
      SortedTextLists(s - {least});
      assert SortedText(s) == [least] + SortedText(s - {least});
    }
  }

  // ----- Counting -----

  function Count<T>(s: seq<T>, p: T -> bool): nat {
    if s == [] then 0 else Count(s[..|s| - 1], p) + if p(s[|s| - 1]) then 1 else 0
  }

  lemma {:induction false} CountAgrees<T>(s: seq<T>, p: T -> bool, q: T -> bool)
    requires forall x :: x in s ==> p(x) == q(x)
    ensures Count(s, p) == Count(s, q)
  {
    if s != [] {
      CountAgrees(s[..|s| - 1], p, q);
    }
  }

  lemma {:induction false} CountConcat<T>(s: seq<T>, t: seq<T>, p: T -> bool)
    ensures Count(s + t, p) == Count(s, p) + Count(t, p)
  {
    if t == [] {
      assert s + t == s;
    } else {
      assert (s + t)[..|s + t| - 1] == s + t[..|t| - 1];
      CountConcat(s, t[..|t| - 1], p);
    }
  }

  lemma {:induction false} CountPermutes<T>(s: seq<T>, t: seq<T>, p: T -> bool)
    requires multiset(s) == multiset(t)
    ensures Count(s, p) == Count(t, p)
    decreases |s|
  {
    if s == [] {
      assert |multiset(t)| == 0;
    } else {
      var last := s[|s| - 1];
      assert last in multiset(t);
      var k :| 0 <= k < |t| && t[k] == last;
      DropLast(s);
      RemoveAt(t, k);
      var rest := t[..k] + t[k + 1..];
      assert multiset(s[..|s| - 1]) == multiset(t) - multiset{last} == multiset(rest);
      CountPermutes(s[..|s| - 1], rest, p);
      CountWithout(t, k, p);
    }
  }

  lemma CountOne<T>(x: T, p: T -> bool)
    ensures Count([x], p) == if p(x) then 1 else 0
  {
    assert [x][..0] == [];
  }

  lemma CountWithout<T>(t: seq<T>, k: nat, p: T -> bool)
    requires k < |t|
    ensures Count(t, p) == Count(t[..k] + t[k + 1..], p) + if p(t[k]) then 1 else 0
  {
    hide Count;
    CountConcat(t[..k], t[k + 1..], p);
    CountConcat(t[..k] + [t[k]], t[k + 1..], p);
    CountConcat(t[..k], [t[k]], p);
    CountOne(t[k], p);
    assert t == t[..k] + [t[k]] + t[k + 1..];
  }

  // ----- Splitting text -----

  function IndexOf(s: string, c: char): (i: nat)
    requires c in s
    ensures i < |s| && s[i] == c && c !in s[..i]
  {
    if s[0] == c then 0 else 1 + IndexOf(s[1..], c)
  }

  /** `str.split` at most `max` times. */
  function Split(s: string, c: char, max: nat): (parts: seq<string>)
    ensures 1 <= |parts| <= max + 1
    decreases max
  {
    if max == 0 || c !in s then [s]
    else [s[..IndexOf(s, c)]] + Split(s[IndexOf(s, c) + 1..], c, max - 1)
  }
}
