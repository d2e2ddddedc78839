/**
 The pieces of SQL the integrity audit is written in: LEFT JOIN, GROUP BY and SUM over nullable cells.
 `GroupedLeftJoin` says what the three together compute.
 */
module Relational {
  import opened Options
  import opened Collections

  /** The rows of `ks` that match `p`, in order. */
  function Matching<P, K>(p: P, ks: seq<K>, on: (P, K) -> bool): seq<K> {
    if ks == [] then []
    else if on(p, ks[0]) then [ks[0]] + Matching(p, ks[1..], on)
    else Matching(p, ks[1..], on)
  }

  lemma {:induction false} MatchingRows<P, K>(p: P, ks: seq<K>, on: (P, K) -> bool, k: K)
    ensures multiset(Matching(p, ks, on))[k] == if on(p, k) then multiset(ks)[k] else 0
  {
    if ks != [] {
      MultisetHead(ks);
      MatchingRows(p, ks[1..], on, k);
      if on(p, ks[0]) {
        MultisetCons(ks[0], Matching(p, ks[1..], on));
      }
    }
  }

  /** The right-hand cells a left join puts beside `p`: its matches, or one NULL when it has none. */
  function Cells<P, K>(p: P, ks: seq<K>, on: (P, K) -> bool): (cells: seq<Option<K>>)
    ensures cells != []
  {
    var ms := Matching(p, ks, on);
    if ms == [] then [None] else seq(|ms|, i requires 0 <= i < |ms| => Some(ms[i]))
  }

  function Beside<P, V>(p: P, cells: seq<V>): seq<(P, V)> {
    seq(|cells|, i requires 0 <= i < |cells| => (p, cells[i]))
  }

  function LeftJoin<P, K>(ps: seq<P>, ks: seq<K>, on: (P, K) -> bool): seq<(P, Option<K>)> {
    if ps == [] then [] else Beside(ps[0], Cells(ps[0], ks, on)) + LeftJoin(ps[1..], ks, on)
  }

  /** One row into its group, or into a new group at the end. */
  function Gather<P(==), V>(groups: seq<(P, seq<V>)>, row: (P, V)): seq<(P, seq<V>)> {
    if groups == [] then [(row.0, [row.1])]
    else if groups[0].0 == row.0 then [(row.0, groups[0].1 + [row.1])] + groups[1..]
    else [groups[0]] + Gather(groups[1..], row)
  }

  function GatherAll<P(==), V>(groups: seq<(P, seq<V>)>, rows: seq<(P, V)>): seq<(P, seq<V>)>
    decreases |rows|
  {
    if rows == [] then groups else GatherAll(Gather(groups, rows[0]), rows[1..])
  }

  function GroupBy<P(==), V>(rows: seq<(P, V)>): seq<(P, seq<V>)> {
    GatherAll([], rows)
  }

  /** `coalesce(sum(…), 0)` over the non-NULL cells. */
  function SumCells<K>(cells: seq<Option<K>>, amount: K -> int): int {
    if cells == [] then 0
    else (if cells[0].Some? then amount(cells[0].value) else 0) + SumCells(cells[1..], amount)
  }

  function Sum<K>(ks: seq<K>, amount: K -> int): int {
    if ks == [] then 0 else amount(ks[0]) + Sum(ks[1..], amount)
  }

  // ----- the three together ----------------------------------------------------------------------

  /** What grouping a left join by its whole left row should give: every left row once, with its cells. */
  function EachWithItsCells<P, K>(ps: seq<P>, ks: seq<K>, on: (P, K) -> bool): (groups: seq<(P, seq<Option<K>>)>)
    ensures |groups| == |ps|
    ensures forall i :: 0 <= i < |ps| ==> groups[i] == (ps[i], Cells(ps[i], ks, on))
  {
    seq(|ps|, i requires 0 <= i < |ps| => (ps[i], Cells(ps[i], ks, on)))
  }

  predicate Absent<P(==), V>(p: P, groups: seq<(P, seq<V>)>) {
    forall i :: 0 <= i < |groups| ==> groups[i].0 != p
  }

  lemma {:induction false} GatherNew<P, V>(groups: seq<(P, seq<V>)>, row: (P, V))
    requires Absent(row.0, groups)
    ensures Gather(groups, row) == groups + [(row.0, [row.1])]
  {
    if groups != [] {
      GatherNew(groups[1..], row);
    }
  }

  lemma {:induction false} GatherLast<P, V>(groups: seq<(P, seq<V>)>, p: P, cells: seq<V>, cell: V)
    requires Absent(p, groups)
    ensures Gather(groups + [(p, cells)], (p, cell)) == groups + [(p, cells + [cell])]
  {
    if groups != [] {
      assert (groups + [(p, cells)])[1..] == groups[1..] + [(p, cells)];
      GatherLast(groups[1..], p, cells, cell);
    }
  }

  lemma {:induction false} GatherRest<P, V>(groups: seq<(P, seq<V>)>, p: P, cells: seq<V>, more: seq<V>)
    requires Absent(p, groups)
    ensures GatherAll(groups + [(p, cells)], Beside(p, more)) == groups + [(p, cells + more)]
    decreases |more|
  {
    if more == [] {
      assert cells + more == cells;
    } else {
      GatherLast(groups, p, cells, more[0]);
      assert Beside(p, more)[1..] == Beside(p, more[1..]);
      GatherRest(groups, p, cells + [more[0]], more[1..]);
      assert cells + [more[0]] + more[1..] == cells + more;
    }
  }

  lemma {:induction false} GatherAppend<P, V>(groups: seq<(P, seq<V>)>, a: seq<(P, V)>, b: seq<(P, V)>)
    ensures GatherAll(groups, a + b) == GatherAll(GatherAll(groups, a), b)
    decreases |a|
  {
    if a == [] {
      assert a + b == b;
    } else {
      assert (a + b)[1..] == a[1..] + b;
      GatherAppend(Gather(groups, a[0]), a[1..], b);
    }
  }

  lemma GatherOne<P, V>(groups: seq<(P, seq<V>)>, p: P, cells: seq<V>)
    requires Absent(p, groups) && cells != []
    ensures GatherAll(groups, Beside(p, cells)) == groups + [(p, cells)]
  {
    GatherNew(groups, (p, cells[0]));
    assert Beside(p, cells)[1..] == Beside(p, cells[1..]);
    GatherRest(groups, p, [cells[0]], cells[1..]);
    assert [cells[0]] + cells[1..] == cells;
  }

  predicate Distinct<P(==)>(ps: seq<P>) {
    forall i, j :: 0 <= i < j < |ps| ==> ps[i] != ps[j]
  }

  predicate NoneGathered<P(==), V>(ps: seq<P>, groups: seq<(P, seq<V>)>) {
    forall i :: 0 <= i < |ps| ==> Absent(ps[i], groups)
  }

  lemma NextIsAbsent<P, V>(ps: seq<P>, groups: seq<(P, seq<V>)>, cells: seq<V>)
    requires ps != [] && Distinct(ps) && NoneGathered(ps, groups)
    ensures Absent(ps[0], groups) && Distinct(ps[1..]) && NoneGathered(ps[1..], groups + [(ps[0], cells)])
  {
    forall i | 0 <= i < |ps[1..]|
      ensures Absent(ps[1..][i], groups + [(ps[0], cells)])
    {
      assert ps[1..][i] == ps[i + 1] && Absent(ps[i + 1], groups);
    }
  }

  lemma EachHead<P, K>(ps: seq<P>, ks: seq<K>, on: (P, K) -> bool)
    requires ps != []
    ensures EachWithItsCells(ps, ks, on) == [(ps[0], Cells(ps[0], ks, on))] + EachWithItsCells(ps[1..], ks, on)
  {
  }

  lemma JoinHead<P, K>(groups: seq<(P, seq<Option<K>>)>, ps: seq<P>, ks: seq<K>, on: (P, K) -> bool)
    requires ps != [] && Absent(ps[0], groups)
    ensures GatherAll(groups, LeftJoin(ps, ks, on))
            == GatherAll(groups + [(ps[0], Cells(ps[0], ks, on))], LeftJoin(ps[1..], ks, on))
  {
    GatherAppend(groups, Beside(ps[0], Cells(ps[0], ks, on)), LeftJoin(ps[1..], ks, on));
    GatherOne(groups, ps[0], Cells(ps[0], ks, on));
  }

  lemma {:induction false} GatherJoin<P, K>(groups: seq<(P, seq<Option<K>>)>, ps: seq<P>, ks: seq<K>,
                                           on: (P, K) -> bool)
    requires Distinct(ps) && NoneGathered(ps, groups)
    ensures GatherAll(groups, LeftJoin(ps, ks, on)) == groups + EachWithItsCells(ps, ks, on)
    decreases |ps|
  {
    if ps == [] {
      Regroup(groups, [], []);
    } else {
      var first := [(ps[0], Cells(ps[0], ks, on))];
      NextIsAbsent(ps, groups, first[0].1);
      JoinHead(groups, ps, ks, on);
      GatherJoin(groups + first, ps[1..], ks, on);
      EachHead(ps, ks, on);
      Regroup(groups, first, EachWithItsCells(ps[1..], ks, on));
    }
  }

  /** A left join grouped by its left row has every left row exactly once, in order, beside all its
      matches: nothing is lost to the join, and nothing is counted twice. */
  lemma GroupedLeftJoin<P, K>(ps: seq<P>, ks: seq<K>, on: (P, K) -> bool)
    requires Distinct(ps)
    ensures GroupBy(LeftJoin(ps, ks, on)) == EachWithItsCells(ps, ks, on)
  {
    assert NoneGathered<P, Option<K>>(ps, []);
    GatherJoin([], ps, ks, on);
    assert [] + EachWithItsCells(ps, ks, on) == EachWithItsCells(ps, ks, on);
  }

  lemma {:induction false} SumSomes<K>(ms: seq<K>, amount: K -> int)
    ensures SumCells(seq(|ms|, i requires 0 <= i < |ms| => Some(ms[i])), amount) == Sum(ms, amount)
  {
    if ms != [] {
      SumSomes(ms[1..], amount);
      assert seq(|ms|, i requires 0 <= i < |ms| => Some(ms[i]))[1..]
          == seq(|ms[1..]|, i requires 0 <= i < |ms[1..]| => Some(ms[1..][i]));
    }
  }

  /** The coalesced sum over a group is the sum over the matches, an empty ledger included. */
  lemma SumOfCells<P, K>(p: P, ks: seq<K>, on: (P, K) -> bool, amount: K -> int)
    ensures SumCells(Cells(p, ks, on), amount) == Sum(Matching(p, ks, on), amount)
  {
    SumSomes(Matching(p, ks, on), amount);
  }

  // ----- joining two ledgers at once -------------------------------------------------------------

  /** The rows a second left join makes of one left row: every cell of one ledger beside every cell of
      the other. */
  function CrossCells<A, B>(a: seq<A>, b: seq<B>): seq<(A, B)> {
    if a == [] then [] else Beside(a[0], b) + CrossCells(a[1..], b)
  }

  /** `coalesce(sum(x), 0) + coalesce(sum(y), 0)` over such rows. */
  function SumBoth<A, B>(rows: seq<(Option<A>, Option<B>)>, x: A -> int, y: B -> int): int {
    if rows == [] then 0
    else
      (if rows[0].0.Some? then x(rows[0].0.value) else 0) + (if rows[0].1.Some? then y(rows[0].1.value) else 0)
      + SumBoth(rows[1..], x, y)
  }

  lemma {:induction false} SumBothAppend<A, B>(r: seq<(Option<A>, Option<B>)>, s: seq<(Option<A>, Option<B>)>,
                                               x: A -> int, y: B -> int)
    ensures SumBoth(r + s, x, y) == SumBoth(r, x, y) + SumBoth(s, x, y)
  {
    if r == [] {
      assert r + s == s;
    } else {
      assert (r + s)[1..] == r[1..] + s;
      SumBothAppend(r[1..], s, x, y);
    }
  }

  lemma {:induction false} SumBeside<A, B>(a: Option<A>, b: seq<Option<B>>, x: A -> int, y: B -> int)
    ensures SumBoth(Beside(a, b), x, y) == |b| * (if a.Some? then x(a.value) else 0) + SumCells(b, y)
  {
    if b != [] {
      assert Beside(a, b)[1..] == Beside(a, b[1..]);
      SumBeside(a, b[1..], x, y);
    }
  }

  lemma FanOutStep(n: int, x0: int, x: int, m: int, y: int)
    ensures n * x0 + y + (n * x + m * y) == n * (x0 + x) + (m + 1) * y
  {
  }

  /** Joining both ledgers at once counts each entry once per cell of the other ledger. */
  lemma {:induction false} FanOut<A, B>(a: seq<Option<A>>, b: seq<Option<B>>, x: A -> int, y: B -> int)
    ensures SumBoth(CrossCells(a, b), x, y) == |b| * SumCells(a, x) + |a| * SumCells(b, y)
  {
    if a != [] {
      var x0, xs, n, ys := if a[0].Some? then x(a[0].value) else 0, SumCells(a[1..], x), |b|, SumCells(b, y);
      calc {
        SumBoth(CrossCells(a, b), x, y);
        { SumBothAppend(Beside(a[0], b), CrossCells(a[1..], b), x, y); }
        SumBoth(Beside(a[0], b), x, y) + SumBoth(CrossCells(a[1..], b), x, y);
        { SumBeside(a[0], b, x, y); FanOut(a[1..], b, x, y); }
        n * x0 + ys + (n * xs + |a[1..]| * ys);
        { FanOutStep(n, x0, xs, |a[1..]|, ys); }
        n * (x0 + xs) + (|a[1..]| + 1) * ys;
      }
    }
  }
}
