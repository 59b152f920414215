/** `SimulationResult::aggragated_leaderboard` (`calc/src/simulation.rs`):
    the 5×5 matrix that counts, for every colour and every place, how many
    outcomes put that colour at that place. */
module Aggregation {
  import opened Seqs
  import opened Counting
  import opened Simulation
  import opened CamelMaps
  import opened Colors
  import CS = ColorStates

  /** A placement the matrix can count: five entries, each a colour index
      with a row. An entry 5 (an empty place) would index past the matrix. */
  predicate Indexed(p: Placement) {
    |p| == 5 && forall i :: 0 <= i < 5 ==> p[i] < 5
  }

  ghost predicate AllIndexed(ps: seq<Placement>) {
    forall k :: 0 <= k < |ps| ==> Indexed(ps[k])
  }

  /** 1 when placement `p` has colour `c` at `place`. */
  function Hit(p: Placement, place: nat, c: nat): nat {
    if place < |p| && p[place] == c then 1 else 0
  }

  /** How many of the placements have colour `c` at `place`. */
  function CountAt(ps: seq<Placement>, place: nat, c: nat): (n: nat)
    ensures n <= |ps|
  {
    if |ps| == 0 then 0 else CountAt(ps[..|ps| - 1], place, c) + Hit(ps[|ps| - 1], place, c)
  }

  /** `[[u32; 5]; 5]`: five rows of five counters. */
  predicate Matrix(t: seq<seq<nat>>) {
    |t| == 5 && forall c :: 0 <= c < 5 ==> |t[c]| == 5
  }

  /** `aggragated_leaderboard`: start from zeros and, for every placement
      and every place in it, add one to `[colour][place]`. */
  method AggregatedLeaderboard(ps: seq<Placement>) returns (table: seq<seq<nat>>)
    requires AllIndexed(ps)
    ensures Matrix(table)
    ensures forall c, place :: 0 <= c < 5 && 0 <= place < 5 ==> table[c][place] == CountAt(ps, place, c)
  {
    table := seq(5, _ => seq(5, _ => 0));
    var k := 0;
    while k < |ps|
      invariant k <= |ps| && Matrix(table)
      invariant forall c, place :: 0 <= c < 5 && 0 <= place < 5 ==> table[c][place] == CountAt(ps[..k], place, c)
    {
      var p := ps[k];
      var i := 0;
      while i < 5
        invariant i <= 5 && Matrix(table)
        invariant forall c, place :: 0 <= c < 5 && 0 <= place < 5 ==>
          table[c][place] == CountAt(ps[..k], place, c) + (if place < i then Hit(p, place, c) else 0)
      {
        var c := p[i];
        table := table[c := table[c][i := table[c][i] + 1]];
        i := i + 1;
      }
      assert ps[..k + 1][..k] == ps[..k];
      k := k + 1;
    }
    assert ps[..|ps|] == ps;
  }

  /** Every column adds up to the number of placements: each placement puts
      exactly one colour at each place. */
  lemma {:induction false} ColumnTotal(ps: seq<Placement>, place: nat)
    requires AllIndexed(ps) && place < 5
    ensures CountAt(ps, place, 0) + CountAt(ps, place, 1) + CountAt(ps, place, 2)
          + CountAt(ps, place, 3) + CountAt(ps, place, 4) == |ps|
  {
    if |ps| > 0 {
      var front := ps[..|ps| - 1];
      assert AllIndexed(front) by {
        forall k | 0 <= k < |front| ensures Indexed(front[k]) {
          assert front[k] == ps[k];
        }
      }
      ColumnTotal(front, place);
      assert Indexed(ps[|ps| - 1]);
    }
  }

  /** A ranking holds each colour index exactly once. */
  lemma OnceEach(p: Placement, c: nat)
    requires Ranking(p) && c < 5
    ensures Hit(p, 0, c) + Hit(p, 1, c) + Hit(p, 2, c) + Hit(p, 3, c) + Hit(p, 4, c) == 1
  {
    if c !in p {
      var u := if c == 0 then {1, 2, 3, 4} else if c == 1 then {0, 2, 3, 4}
        else if c == 2 then {0, 1, 3, 4} else if c == 3 then {0, 1, 2, 4} else {0, 1, 2, 3};
      assert forall x :: x in p ==> x in u;
      DistinctWithin(p, u);
      assert false;
    }
  }

  /** On rankings every row adds up to the number of placements: each
      colour finishes somewhere in every outcome. */
  lemma {:induction false} RowTotal(ps: seq<Placement>, c: nat)
    requires AllRankings(ps) && c < 5
    ensures CountAt(ps, 0, c) + CountAt(ps, 1, c) + CountAt(ps, 2, c)
          + CountAt(ps, 3, c) + CountAt(ps, 4, c) == |ps|
  {
    if |ps| > 0 {
      var front := ps[..|ps| - 1];
      assert AllRankings(front) by {
        forall k | 0 <= k < |front| ensures Ranking(front[k]) {
          assert front[k] == ps[k];
        }
      }
      RowTotal(front, c);
      OnceEach(ps[|ps| - 1], c);
    }
  }

  /** Rankings can be counted. */
  lemma RankingsIndexed(ps: seq<Placement>)
    requires AllRankings(ps)
    ensures AllIndexed(ps)
  {
    forall k | 0 <= k < |ps| ensures Indexed(ps[k]) {
      assert Ranking(ps[k]);
    }
  }

  /** The matrix of a round with all five camels on the board: every row
      and every column adds up to the number of outcomes, `k!·3^k` for
      `k` colours to roll (29160 for a whole round). */
  lemma RoundTotals(m: CamelMap, s: CS.ColorState, c: nat)
    requires Safe(m, s) && Full(m) && c < 5
    ensures AllIndexed(Sim(m, s))
    ensures CountAt(Sim(m, s), c, 0) + CountAt(Sim(m, s), c, 1) + CountAt(Sim(m, s), c, 2)
          + CountAt(Sim(m, s), c, 3) + CountAt(Sim(m, s), c, 4) == RoundSize(s)
    ensures CountAt(Sim(m, s), 0, c) + CountAt(Sim(m, s), 1, c) + CountAt(Sim(m, s), 2, c)
          + CountAt(Sim(m, s), 3, c) + CountAt(Sim(m, s), 4, c) == RoundSize(s)
  {
    var ps := Sim(m, s);
    SimRankings(m, s);
    SimCount(m, s);
    RankingsIndexed(ps);
    ColumnTotal(ps, c);
    RowTotal(ps, c);
  }
}
