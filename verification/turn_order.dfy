/** Turn order: every joined player draws one die, and the players are
    ordered by their draw, highest first. The ordering is stable: players
    who drew the same value keep the order in which they joined. */
module TurnOrder {

  /** The table of draws: the i-th joined player gets the i-th draw. */
  function RollTable<T(!new)>(ids: seq<T>, draws: seq<int>): (rolls: map<T, int>)
    requires |draws| == |ids|
    requires forall i, j :: 0 <= i < j < |ids| ==> ids[i] != ids[j]
    ensures forall x :: x in rolls <==> x in ids
    ensures forall i :: 0 <= i < |ids| ==> ids[i] in rolls && rolls[ids[i]] == draws[i]
  {
    map i | 0 <= i < |ids| :: ids[i] := draws[i]
  }

  predicate Covers<T>(rolls: map<T, int>, s: seq<T>) {
    forall i :: 0 <= i < |s| ==> s[i] in rolls
  }

  /** Highest draw first. */
  predicate NonIncreasing<T>(s: seq<T>, rolls: map<T, int>)
    requires Covers(rolls, s)
  {
    forall i, j :: 0 <= i < j < |s| ==> rolls[s[i]] >= rolls[s[j]]
  }

  /** The members of `s` that drew `v`, in the order they have in `s`. */
  function DrewValue<T>(s: seq<T>, rolls: map<T, int>, v: int): seq<T>
    requires Covers(rolls, s)
  {
    if s == [] then []
    else (if rolls[s[0]] == v then [s[0]] else []) + DrewValue(s[1..], rolls, v)
  }

  /** Puts `x` in front of the first member of `s` whose draw is not higher
      than its own, so that it stays ahead of the players it ties with. */
  function Insert<T>(x: T, s: seq<T>, rolls: map<T, int>): (r: seq<T>)
    requires x in rolls && Covers(rolls, s)
    ensures multiset(r) == multiset(s) + multiset{x}
    ensures Covers(rolls, r)
  {
    if s == [] || rolls[s[0]] <= rolls[x] then [x] + s
    else
      assert s == [s[0]] + s[1..];
      [s[0]] + Insert(x, s[1..], rolls)
  }

  /** Stable sort by draw, highest first (what a stable library sort with a
      reversed key comparison produces). */
  function SortByRoll<T>(ids: seq<T>, rolls: map<T, int>): (r: seq<T>)
    requires Covers(rolls, ids)
    ensures multiset(r) == multiset(ids)
    ensures Covers(rolls, r)
  {
    if ids == [] then []
    else
      assert ids == [ids[0]] + ids[1..];
      Insert(ids[0], SortByRoll(ids[1..], rolls), rolls)
  }

  lemma {:induction false} InsertNonIncreasing<T>(x: T, s: seq<T>, rolls: map<T, int>)
    requires x in rolls && Covers(rolls, s)
    requires NonIncreasing(s, rolls)
    ensures NonIncreasing(Insert(x, s, rolls), rolls)
  {
    if s == [] || rolls[s[0]] <= rolls[x] {
    } else {
      var rest := Insert(x, s[1..], rolls);
      InsertNonIncreasing(x, s[1..], rolls);
      // every member of `rest` is x or comes from s[1..]: none outranks s[0]
      forall k | 0 <= k < |rest| ensures rolls[s[0]] >= rolls[rest[k]] {
        assert rest[k] in multiset(rest);
        if rest[k] != x {
          assert rest[k] in multiset(s[1..]);
          var m :| 0 <= m < |s[1..]| && s[1..][m] == rest[k];
          assert s[m + 1] == rest[k];
        }
      }
    }
  }

  /** The turn order is sorted by draw, highest first. */
  lemma {:induction false} SortNonIncreasing<T>(ids: seq<T>, rolls: map<T, int>)
    requires Covers(rolls, ids)
    ensures NonIncreasing(SortByRoll(ids, rolls), rolls)
  {
    if ids != [] {
      SortNonIncreasing(ids[1..], rolls);
      InsertNonIncreasing(ids[0], SortByRoll(ids[1..], rolls), rolls);
    }
  }

  lemma {:induction false} DrewValueCons<T>(x: T, s: seq<T>, rolls: map<T, int>, v: int)
    requires x in rolls && Covers(rolls, s)
    ensures DrewValue([x] + s, rolls, v) == (if rolls[x] == v then [x] else []) + DrewValue(s, rolls, v)
  {
    assert ([x] + s)[1..] == s;
  }

  lemma {:induction false} InsertDrewValue<T>(x: T, s: seq<T>, rolls: map<T, int>, v: int)
    requires x in rolls && Covers(rolls, s)
    ensures DrewValue(Insert(x, s, rolls), rolls, v)
            == (if rolls[x] == v then [x] else []) + DrewValue(s, rolls, v)
  {
    if s == [] || rolls[s[0]] <= rolls[x] {
      DrewValueCons(x, s, rolls, v);
    } else {
      InsertDrewValue(x, s[1..], rolls, v);
      DrewValueCons(s[0], Insert(x, s[1..], rolls), rolls, v);
      assert [s[0]] + s[1..] == s;
      DrewValueCons(s[0], s[1..], rolls, v);
    }
  }

  /** Ties keep join order: for every draw value, the players who drew it
      appear in the turn order exactly as they appear in the join order. */
  lemma {:induction false} SortStable<T>(ids: seq<T>, rolls: map<T, int>, v: int)
    requires Covers(rolls, ids)
    ensures DrewValue(SortByRoll(ids, rolls), rolls, v) == DrewValue(ids, rolls, v)
  {
    if ids != [] {
      SortStable(ids[1..], rolls, v);
      InsertDrewValue(ids[0], SortByRoll(ids[1..], rolls), rolls, v);
    }
  }

  predicate Distinct<T(==)>(s: seq<T>) {
    forall i, j :: 0 <= i < j < |s| ==> s[i] != s[j]
  }

  /** `order` lists the players of `ids` by draw, highest first, and players
      with equal draws in their order in `ids`. */
  ghost predicate OrderedByDraw<T>(order: seq<T>, ids: seq<T>, rolls: map<T, int>)
    requires Covers(rolls, ids)
  {
    && Covers(rolls, order)
    && NonIncreasing(order, rolls)
    && forall v :: DrewValue(order, rolls, v) == DrewValue(ids, rolls, v)
  }

  /** The sort orders the players by draw, highest first, ties in input order. */
  lemma SortOrderedByDraw<T>(ids: seq<T>, rolls: map<T, int>)
    requires Covers(rolls, ids)
    ensures OrderedByDraw(SortByRoll(ids, rolls), ids, rolls)
  {
    SortNonIncreasing(ids, rolls);
    forall v ensures DrewValue(SortByRoll(ids, rolls), rolls, v) == DrewValue(ids, rolls, v) {
      SortStable(ids, rolls, v);
    }
  }

  lemma {:induction false} DistinctCount<T>(s: seq<T>, x: T)
    requires Distinct(s)
    ensures multiset(s)[x] <= 1
  {
    if s != [] {
      assert s == [s[0]] + s[1..];
      DistinctCount(s[1..], x);
      if s[0] == x {
        assert x !in s[1..];
      }
    }
  }

  /** A rearrangement of a sequence without repetitions has none either. */
  lemma DistinctPermutation<T>(a: seq<T>, b: seq<T>)
    requires multiset(a) == multiset(b) && Distinct(b)
    ensures Distinct(a)
  {
    forall i, j | 0 <= i < j < |a| ensures a[i] != a[j] {
      if a[i] == a[j] {
        assert a == a[..j] + a[j..];
        assert a[i] in a[..j] && a[j] in a[j..];
        assert multiset(a)[a[i]] >= 2;
        DistinctCount(b, a[i]);
      }
    }
  }
}
