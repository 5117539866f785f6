/** Helpers for query results: LIMIT/OFFSET pages and newest-first order. */
module Rows {
  import opened Wrappers

  /** A primary-key lookup: the position of the last element whose key is `id`, if any. */
  function FindBy<T, K(==)>(s: seq<T>, key: T -> K, id: K): (k: Option<nat>)
    ensures k.Some? ==> k.value < |s| && key(s[k.value]) == id
    ensures k.None? <==> forall i | 0 <= i < |s| :: key(s[i]) != id
  {
    if s == [] then None
    else if key(s[|s| - 1]) == id then Some(|s| - 1)
    else FindBy(s[..|s| - 1], key, id)
  }

  /** `LIMIT limit OFFSET offset` applied to an ordered result. */
  function Page<T>(s: seq<T>, limit: nat, offset: nat): (p: seq<T>)
    ensures |p| <= limit
    ensures offset >= |s| ==> p == []
    ensures offset < |s| ==> |p| == if offset + limit <= |s| then limit else |s| - offset
    ensures forall i | 0 <= i < |p| :: p[i] == s[offset + i]
  {
    if offset >= |s| then []
    else if offset + limit <= |s| then s[offset..offset + limit]
    else s[offset..]
  }

  /** Rows in reverse order of insertion, the order of `ORDER BY <insert time> DESC`. */
  function Reverse<T>(s: seq<T>): (r: seq<T>)
    ensures |r| == |s|
    ensures forall i | 0 <= i < |s| :: r[i] == s[|s| - 1 - i]
  {
    if s == [] then [] else Reverse(s[1..]) + [s[0]]
  }

  /**
   * The rows `keep` selects, newest first, in a table where later rows were inserted later:
   * `WHERE ... ORDER BY <insert time> DESC`.
   */
  function NewestFirst<T>(s: seq<T>, keep: T -> bool): (r: seq<T>)
    ensures |r| <= |s|
    ensures forall i | 0 <= i < |r| :: keep(r[i]) && r[i] in s
    ensures forall x | x in s && keep(x) :: x in r
  {
    if s == [] then []
    else
      assert forall x | x in s[1..] :: x in s;
      NewestFirst(s[1..], keep) + (if keep(s[0]) then [s[0]] else [])
  }

  /** Taking one older row into account appends it to the newest-first order. */
  lemma NewestFirstStep<T>(s: seq<T>, keep: T -> bool, i: nat)
    requires 0 < i <= |s|
    ensures NewestFirst(s[i - 1..], keep) ==
      NewestFirst(s[i..], keep) + (if keep(s[i - 1]) then [s[i - 1]] else [])
  {
    assert s[i - 1..][1..] == s[i..];
  }

  lemma {:induction false} NewestFirstBound<T>(s: seq<T>, keep: T -> bool, stamp: T -> int, t: int)
    requires forall j | 0 <= j < |s| :: stamp(s[j]) >= t
    ensures forall i | 0 <= i < |NewestFirst(s, keep)| :: stamp(NewestFirst(s, keep)[i]) >= t
  {
    if s != [] {
      NewestFirstBound(s[1..], keep, stamp, t);
    }
  }

  /** When insert times never decrease along the table, the result is ordered by time, newest first. */
  lemma {:induction false} NewestFirstOrdered<T>(s: seq<T>, keep: T -> bool, stamp: T -> int)
    requires forall i, j | 0 <= i < j < |s| :: stamp(s[i]) <= stamp(s[j])
    ensures forall i, j | 0 <= i < j < |NewestFirst(s, keep)| ::
      stamp(NewestFirst(s, keep)[i]) >= stamp(NewestFirst(s, keep)[j])
  {
    if s != [] {
      var rest := s[1..];
      NewestFirstOrdered(rest, keep, stamp);
      NewestFirstBound(rest, keep, stamp, stamp(s[0]));
    }
  }

  /** The rows `keep` selects, in table order: `WHERE ...` without ORDER BY on an append-only table. */
  function Where<T>(s: seq<T>, keep: T -> bool): (r: seq<T>)
    ensures |r| <= |s|
    ensures forall i | 0 <= i < |r| :: keep(r[i]) && r[i] in s
    ensures forall x | x in s && keep(x) :: x in r
  {
    if s == [] then []
    else
      var before := s[..|s| - 1];
      assert forall x | x in before :: x in s;
      assert s == before + [s[|s| - 1]];
      Where(before, keep) + (if keep(s[|s| - 1]) then [s[|s| - 1]] else [])
  }

  /** A row appended to the table joins the end of the selection when it is kept. */
  lemma WhereAppend<T>(s: seq<T>, x: T, keep: T -> bool)
    ensures Where(s + [x], keep) == Where(s, keep) + (if keep(x) then [x] else [])
  {
    assert (s + [x])[..|s|] == s;
  }

  /** A row put in front of the table joins the front of the selection when it is kept. */
  lemma {:induction false} WherePrepend<T>(x: T, s: seq<T>, keep: T -> bool)
    ensures Where([x] + s, keep) == (if keep(x) then [x] else []) + Where(s, keep)
  {
    WhereConcat([x], s, keep);
    var one: seq<T> := [x];
    assert one[..|one| - 1] == [];
    assert Where(one, keep) == Where([], keep) + (if keep(x) then [x] else []);
  }

  /**
   * The newest-first selection is the table-order selection read backwards: the same rows,
   * each as often, in the opposite order.
   */
  lemma {:induction false} NewestFirstIsReversedWhere<T>(s: seq<T>, keep: T -> bool)
    ensures NewestFirst(s, keep) == Reverse(Where(s, keep))
    decreases |s|
  {
    if s != [] {
      NewestFirstIsReversedWhere(s[1..], keep);
      assert s == [s[0]] + s[1..];
      WherePrepend(s[0], s[1..], keep);
      if keep(s[0]) {
        var w := [s[0]] + Where(s[1..], keep);
        assert w[1..] == Where(s[1..], keep);
      } else {
        assert Where(s, keep) == Where(s[1..], keep);
      }
    }
  }

  /** The selection holds each row the WHERE keeps exactly as often as the table does, and no other row. */
  lemma {:induction false} WhereCount<T>(s: seq<T>, keep: T -> bool, x: T)
    ensures multiset(Where(s, keep))[x] == if keep(x) then multiset(s)[x] else 0
    decreases |s|
  {
    if s != [] {
      var before := s[..|s| - 1];
      var last := s[|s| - 1];
      WhereCount(before, keep, x);
      assert s == before + [last];
      assert multiset(s) == multiset(before) + multiset{last};
    }
  }

  /** The newest-first selection holds each kept row exactly as often as the table does. */
  lemma NewestFirstCount<T>(s: seq<T>, keep: T -> bool, x: T)
    ensures multiset(NewestFirst(s, keep))[x] == if keep(x) then multiset(s)[x] else 0
  {
    NewestFirstIsReversedWhere(s, keep);
    ReverseCount(Where(s, keep), x);
    WhereCount(s, keep, x);
  }

  /** Reading backwards keeps every row's count. */
  lemma {:induction false} ReverseCount<T>(s: seq<T>, x: T)
    ensures multiset(Reverse(s))[x] == multiset(s)[x]
    decreases |s|
  {
    if s != [] {
      ReverseCount(s[1..], x);
      assert s == [s[0]] + s[1..];
      assert multiset(s) == multiset{s[0]} + multiset(s[1..]);
    }
  }

  /** Two tests that agree on every row of the table select the same rows. */
  lemma {:induction false} WhereAgree<T>(s: seq<T>, p: T -> bool, q: T -> bool)
    requires forall i | 0 <= i < |s| :: p(s[i]) == q(s[i])
    ensures Where(s, p) == Where(s, q)
    decreases |s|
  {
    if s != [] {
      var before := s[..|s| - 1];
      assert forall i | 0 <= i < |before| :: before[i] == s[i];
      WhereAgree(before, p, q);
    }
  }

  /** Two selections that no row satisfies together select at most the whole table. */
  lemma {:induction false} WhereDisjoint<T>(s: seq<T>, p: T -> bool, q: T -> bool)
    requires forall x | x in s :: !(p(x) && q(x))
    ensures |Where(s, p)| + |Where(s, q)| <= |s|
  {
    if s != [] {
      var before := s[..|s| - 1];
      assert forall x | x in before :: x in s;
      WhereDisjoint(before, p, q);
    }
  }

  /** Selecting from two tables one after the other is selecting from each. */
  lemma {:induction false} WhereConcat<T>(s: seq<T>, t: seq<T>, keep: T -> bool)
    ensures Where(s + t, keep) == Where(s, keep) + Where(t, keep)
    decreases |t|
  {
    if t != [] {
      var before := t[..|t| - 1];
      var last := t[|t| - 1];
      assert (s + t)[..|s + t| - 1] == s + before;
      WhereConcat(s, before, keep);
    } else {
      assert s + t == s;
    }
  }

  /** A selection that keeps every row is the table. */
  lemma {:induction false} WhereAll<T>(s: seq<T>, keep: T -> bool)
    requires forall i | 0 <= i < |s| :: keep(s[i])
    ensures Where(s, keep) == s
    decreases |s|
  {
    if s != [] {
      var before := s[..|s| - 1];
      assert forall i | 0 <= i < |before| :: before[i] == s[i];
      WhereAll(before, keep);
      assert keep(s[|s| - 1]);
      assert Where(s, keep) == Where(before, keep) + [s[|s| - 1]];
      assert before + [s[|s| - 1]] == s;
    }
  }

  /** A selection that keeps no row is empty. */
  lemma {:induction false} WhereNone<T>(s: seq<T>, keep: T -> bool)
    requires forall i | 0 <= i < |s| :: !keep(s[i])
    ensures Where(s, keep) == []
    decreases |s|
  {
    if s != [] {
      var before := s[..|s| - 1];
      assert forall i | 0 <= i < |before| :: before[i] == s[i];
      WhereNone(before, keep);
      assert !keep(s[|s| - 1]);
      assert Where(s, keep) == Where(before, keep);
    }
  }

  /** Selecting by `q` after `p` is selecting by `q` alone, when every row `q` keeps `p` keeps too. */
  lemma {:induction false} WhereNarrow<T>(s: seq<T>, p: T -> bool, q: T -> bool)
    requires forall i | 0 <= i < |s| :: q(s[i]) ==> p(s[i])
    ensures Where(Where(s, p), q) == Where(s, q)
    decreases |s|
  {
    if s != [] {
      var before := s[..|s| - 1];
      var last := s[|s| - 1];
      assert s == before + [last];
      WhereNarrow(before, p, q);
      WhereAppend(before, last, p);
      WhereAppend(before, last, q);
      if p(last) {
        assert Where(s, p) == Where(before, p) + [last];
        WhereAppend(Where(before, p), last, q);
        assert Where(Where(s, p), q) == Where(Where(before, p), q) + (if q(last) then [last] else []);
      } else {
        assert Where(s, p) == Where(before, p);
      }
    }
  }
}
