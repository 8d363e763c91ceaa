/** Ordering countries by `name.common` with `Array.prototype.sort`, which section 23.1.3.30
    of ECMA-262 requires to be stable, and a comparator built on `localeCompare`. */
module NameOrder {
  import opened Common

  /** `Collation(a, b)` stands for `a.localeCompare(b) <= 0`; the locale's collation
      itself is not modelled, only that it is a total preorder. */
  type Collation = (string, string) -> bool

  /** One comparison. The laws below are stated over `Le`, so a proof obtains an instance
      of them by mentioning the comparisons it needs. */
  predicate Le(le: Collation, a: string, b: string) {
    le(a, b)
  }

  ghost predicate TotalPreorder(le: Collation) {
    && (forall a, b :: Le(le, a, b) || Le(le, b, a))
    && (forall a, b, c :: Le(le, a, b) && Le(le, b, c) ==> Le(le, a, c))
  }

  /** The string the comparator reads. Only consulted when every entity is named
      or when there is at most one entity (a sort then makes no comparison). */
  function SortKey(c: Country): string {
    c.name.GetOr("")
  }

  /** `localeCompare` returns 0 both ways. */
  predicate Equivalent(le: Collation, a: string, b: string) {
    le(a, b) && le(b, a)
  }

  ghost predicate Sorted(s: seq<Country>, le: Collation) {
    forall i, j :: 0 <= i < j < |s| ==> le(SortKey(s[i]), SortKey(s[j]))
  }

  /** The entities of `s` whose name collates equal to `k`, in their order in `s`. */
  function Rank(s: seq<Country>, k: string, le: Collation): seq<Country> {
    if s == [] then []
    else (if Equivalent(le, SortKey(s[0]), k) then [s[0]] else []) + Rank(s[1..], k, le)
  }

  /** Stable insertion: `x` goes before the first element it does not collate after. */
  function Insert(x: Country, s: seq<Country>, le: Collation): (r: seq<Country>)
    ensures multiset(r) == multiset(s) + multiset{x}
  {
    if s == [] then [x]
    else if le(SortKey(x), SortKey(s[0])) then [x] + s
    else
      assert s == [s[0]] + s[1..];
      [s[0]] + Insert(x, s[1..], le)
  }

  /** The comparator sort of `data.sort((a, b) => a.name.common.localeCompare(b.name.common))`. */
  function SortByName(cs: seq<Country>, le: Collation): (r: seq<Country>)
    ensures multiset(r) == multiset(cs)
  {
    if cs == [] then []
    else
      assert cs == [cs[0]] + cs[1..];
      Insert(cs[0], SortByName(cs[1..], le), le)
  }

  /** Inserting an entity no smaller than `b` into a list no smaller than `b` gives a list
      no smaller than `b`. */
  lemma {:induction false} InsertLowerBound(x: Country, s: seq<Country>, le: Collation, b: string)
    requires le(b, SortKey(x))
    requires forall i :: 0 <= i < |s| ==> le(b, SortKey(s[i]))
    ensures forall i :: 0 <= i < |Insert(x, s, le)| ==> le(b, SortKey(Insert(x, s, le)[i]))
  {
    if s != [] && !le(SortKey(x), SortKey(s[0])) {
      InsertLowerBound(x, s[1..], le, b);
      var t := Insert(x, s[1..], le);
      assert Insert(x, s, le) == [s[0]] + t;
    }
  }

  lemma {:induction false} InsertSorted(x: Country, s: seq<Country>, le: Collation)
    requires TotalPreorder(le)
    requires Sorted(s, le)
    ensures Sorted(Insert(x, s, le), le)
  {
    if s != [] && !le(SortKey(x), SortKey(s[0])) {
      var t := Insert(x, s[1..], le);
      InsertSorted(x, s[1..], le);
      assert Le(le, SortKey(x), SortKey(s[0])) || Le(le, SortKey(s[0]), SortKey(x));
      assert forall i :: 0 <= i < |s[1..]| ==> s[1..][i] == s[i + 1];
      InsertLowerBound(x, s[1..], le, SortKey(s[0]));
      var r := [s[0]] + t;
      assert Insert(x, s, le) == r;
      forall i, j | 0 <= i < j < |r|
        ensures le(SortKey(r[i]), SortKey(r[j]))
      {
        assert r[j] == t[j - 1];
        if i > 0 {
          assert r[i] == t[i - 1];
        }
      }
    } else if s != [] {
      var r := [x] + s;
      forall i, j | 0 <= i < j < |r|
        ensures le(SortKey(r[i]), SortKey(r[j]))
      {
        if i == 0 && j > 1 {
          assert Le(le, SortKey(x), SortKey(s[0])) && Le(le, SortKey(s[0]), SortKey(s[j - 1]));
        }
      }
    }
  }

  /** The sorted list is ordered by the collation. */
  lemma {:induction false} SortByNameSorted(cs: seq<Country>, le: Collation)
    requires TotalPreorder(le)
    ensures Sorted(SortByName(cs, le), le)
  {
    if cs != [] {
      SortByNameSorted(cs[1..], le);
      InsertSorted(cs[0], SortByName(cs[1..], le), le);
    }
  }

  lemma {:induction false} RankInsert(x: Country, s: seq<Country>, k: string, le: Collation)
    requires TotalPreorder(le)
    ensures Rank(Insert(x, s, le), k, le)
         == (if Equivalent(le, SortKey(x), k) then [x] else []) + Rank(s, k, le)
  {
    if s == [] {
    } else if le(SortKey(x), SortKey(s[0])) {
      assert ([x] + s)[1..] == s;
    } else {
      var t := Insert(x, s[1..], le);
      var hx := if Equivalent(le, SortKey(x), k) then [x] else [];
      var h0 := if Equivalent(le, SortKey(s[0]), k) then [s[0]] else [];
      RankInsert(x, s[1..], k, le);
      assert Rank(t, k, le) == hx + Rank(s[1..], k, le);
      assert ([s[0]] + t)[1..] == t;
      assert Rank([s[0]] + t, k, le) == h0 + Rank(t, k, le);
      // s[0] collates strictly before x, so the two are never in the same rank
      var kx, k0 := SortKey(x), SortKey(s[0]);
      assert Le(le, kx, k) && Le(le, k, k0) ==> Le(le, kx, k0);
      assert Rank(s, k, le) == h0 + Rank(s[1..], k, le);
      if h0 == [] {
        assert h0 + (hx + Rank(s[1..], k, le)) == hx + Rank(s, k, le);
      } else {
        assert h0 + (hx + Rank(s[1..], k, le)) == hx + Rank(s, k, le);
      }
    }
  }

  /** Stability: the entities of any one rank keep their source order. */
  lemma {:induction false} SortByNameStable(cs: seq<Country>, k: string, le: Collation)
    requires TotalPreorder(le)
    ensures Rank(SortByName(cs, le), k, le) == Rank(cs, k, le)
  {
    if cs != [] {
      SortByNameStable(cs[1..], k, le);
      RankInsert(cs[0], SortByName(cs[1..], le), k, le);
    }
  }

  lemma {:induction false} RankMembers(s: seq<Country>, k: string, le: Collation)
    ensures forall y :: y in Rank(s, k, le) <==> y in s && Equivalent(le, SortKey(y), k)
  {
    if s != [] {
      RankMembers(s[1..], k, le);
      assert s == [s[0]] + s[1..];
    }
  }

  /** Two sorted orderings that agree rank by rank start with the same entity: each head
      collates no later than the other, so both heads are in one rank, and each is first there. */
  lemma SortedHeadsEqual(s: seq<Country>, t: seq<Country>, le: Collation)
    requires TotalPreorder(le)
    requires s != [] && t != []
    requires Sorted(s, le) && Sorted(t, le)
    requires forall k :: Rank(s, k, le) == Rank(t, k, le)
    ensures s[0] == t[0]
  {
    var a, b := s[0], t[0];
    assert Le(le, SortKey(a), SortKey(a)) && Le(le, SortKey(b), SortKey(b));
    RankMembers(s, SortKey(a), le);
    RankMembers(t, SortKey(a), le);
    RankMembers(s, SortKey(b), le);
    RankMembers(t, SortKey(b), le);
    assert a in Rank(s, SortKey(a), le);
    var j :| 0 <= j < |t| && t[j] == a;
    assert le(SortKey(b), SortKey(a)) by {
      if j > 0 { assert le(SortKey(t[0]), SortKey(t[j])); }
    }
    assert b in Rank(t, SortKey(b), le);
    var i :| 0 <= i < |s| && s[i] == b;
    assert le(SortKey(a), SortKey(b)) by {
      if i > 0 { assert le(SortKey(s[0]), SortKey(s[i])); }
    }
    assert Rank(s, SortKey(a), le)[0] == a;
    assert Rank(t, SortKey(a), le)[0] == b;
  }

  /** Removing one common head keeps two orderings in agreement rank by rank. */
  lemma RanksOfTails(s: seq<Country>, t: seq<Country>, le: Collation)
    requires s != [] && t != [] && s[0] == t[0]
    requires forall k :: Rank(s, k, le) == Rank(t, k, le)
    ensures forall k :: Rank(s[1..], k, le) == Rank(t[1..], k, le)
  {
    forall k ensures Rank(s[1..], k, le) == Rank(t[1..], k, le) {
      assert Rank(s, k, le) == Rank(t, k, le);
      var h := if Equivalent(le, SortKey(s[0]), k) then [s[0]] else [];
      assert Rank(s, k, le) == h + Rank(s[1..], k, le);
      assert Rank(t, k, le) == h + Rank(t[1..], k, le);
      assert (h + Rank(s[1..], k, le))[|h|..] == Rank(s[1..], k, le);
      assert (h + Rank(t[1..], k, le))[|h|..] == Rank(t[1..], k, le);
    }
  }

  /** Sortedness plus stability pin the result down: any two orderings of the same
      entities that are both sorted and agree rank by rank are equal, so every stable
      sort, whatever algorithm an engine uses, yields `SortByName`. */
  lemma {:induction false} StableSortUnique(s: seq<Country>, t: seq<Country>, le: Collation)
    requires TotalPreorder(le)
    requires Sorted(s, le) && Sorted(t, le)
    requires forall k :: Rank(s, k, le) == Rank(t, k, le)
    ensures s == t
    decreases |s|
  {
    if s == [] || t == [] {
      var u := if s == [] then t else s;
      if u != [] {
        // u[0] is in its own rank in u, while the other side's ranks are all empty
        assert Le(le, SortKey(u[0]), SortKey(u[0]));
        RankMembers(u, SortKey(u[0]), le);
        assert false;
      }
    } else {
      SortedHeadsEqual(s, t, le);
      RanksOfTails(s, t, le);
      assert Sorted(s[1..], le) by {
        assert forall i :: 0 <= i < |s| - 1 ==> s[1..][i] == s[i + 1];
      }
      assert Sorted(t[1..], le) by {
        assert forall i :: 0 <= i < |t| - 1 ==> t[1..][i] == t[i + 1];
      }
      StableSortUnique(s[1..], t[1..], le);
      assert s == [s[0]] + s[1..] && t == [t[0]] + t[1..];
    }
  }
}
