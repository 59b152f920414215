/** The earlier engine of `calc/src/main.rs` against the crate's
    `simulate_round_rec`: the earlier one never normalises, the crate moves
    the board down to field 0 before every expansion. Without cards the
    outcomes only depend on the order of the stacks, so whenever the earlier
    engine gets through a round, the crate gets through it too with the same
    outcomes, in the same order. */
module EarlyAgreement {
  import opened Colors
  import opened CamelMaps
  import opened Configurations
  import opened Simulation
  import opened EarlyEngine
  import CS = ColorStates

  /** `n` is the card-free board `m` moved down by `sh` fields: field `j`
      of `n` holds what field `j + sh` of `m` holds, and the fields of `m`
      below `sh` are empty. */
  ghost predicate Lowered(m: CamelMap, n: CamelMap, sh: nat) {
    Valid(m) && Valid(n) && CardFree(m) && CardFree(n) && StacksLowered(m, n, sh)
  }

  ghost predicate StacksLowered(m: CamelMap, n: CamelMap, sh: nat)
    requires Shaped(m) && Shaped(n)
  {
    && (forall j {:trigger Stack(n, j)} :: 0 <= j < FieldCount ==>
          Stack(n, j) == if j + sh < FieldCount then Stack(m, j + sh) else [])
    && (forall j {:trigger Stack(m, j)} :: 0 <= j < FieldCount && j < sh ==> Stack(m, j) == [])
  }

  /** Whenever the earlier engine runs a round without a panic, the crate's
      round from the same board and colours runs without a panic and yields
      the same outcomes in the same order. */
  lemma RunIsSim(m: CamelMap, s: CS.ColorState)
    requires RunSafe(m, s)
    ensures Safe(m, s) && Run(m, s) == Sim(m, s)
  {
    assert Lowered(m, m, 0);
    LoweredRun(m, m, 0, s);
  }

  /** The round on `m` without normalising is the crate's round on any
      board `m` was lowered to. */
  lemma LoweredRun(m: CamelMap, n: CamelMap, sh: nat, s: CS.ColorState)
    requires Lowered(m, n, sh) && RunSafe(m, s)
    ensures Safe(n, s) && Run(m, s) == Sim(n, s)
    decreases CS.Len(s), 3
  {
    if CS.Len(s) == 0 {
      LoweredEnd(m, n, sh, s);
    } else {
      LoweredNonEmpty(m, n, sh, s);
    }
  }

  /** With colours left the crate normalises the lower board, which only
      lowers `m` further, and runs the colour loop there. */
  lemma LoweredNonEmpty(m: CamelMap, n: CamelMap, sh: nat, s: CS.ColorState)
    requires Lowered(m, n, sh) && RunSafe(m, s) && CS.Len(s) > 0
    ensures Safe(n, s) && Run(m, s) == Sim(n, s)
    decreases CS.Len(s), 2
  {
    ValidCamels(n);
    var r := NormalizeMap(n);
    var mn := MinOf(n.colorPos);
    LoweredNormalize(m, n, sh, r, mn);
    LoweredLoop(m, r, sh + mn, s);
  }

  /** With no colour left both rounds give the one placement of the same
      leaderboard. */
  lemma LoweredEnd(m: CamelMap, n: CamelMap, sh: nat, s: CS.ColorState)
    requires Lowered(m, n, sh) && RunSafe(m, s) && CS.Len(s) == 0
    ensures Safe(n, s) && Run(m, s) == Sim(n, s)
  {
    LoweredStandings(m, n, sh);
    EndSafe(n, s);
    EndAgrees(m, n, s);
  }

  lemma EndSafe(n: CamelMap, s: CS.ColorState)
    requires Valid(n) && CS.Len(s) == 0
    ensures Safe(n, s)
  {
  }

  /** Boards with the same standings end the round alike. */
  lemma EndAgrees(m: CamelMap, n: CamelMap, s: CS.ColorState)
    requires RunSafe(m, s) && Safe(n, s) && CS.Len(s) == 0
    requires Standings(n, FieldCount) == Standings(m, FieldCount)
    ensures Run(m, s) == Sim(n, s)
  {
    StandingsFit(m);
    assert Leaderboard(n) == Leaderboard(m);
  }

  /** The colour loop on `m` is the colour loop on any board `m` was
      lowered to. */
  lemma LoweredLoop(m: CamelMap, n: CamelMap, sh: nat, s: CS.ColorState)
    requires Lowered(m, n, sh) && RunLoopSafe(m, s)
    ensures LoopSafe(n, s) && RunColors(m, s, |Rolls(s)|) == ExpandColors(n, s, |Rolls(s)|)
    decreases CS.Len(s), 1
  {
    forall j, d | 0 <= j < |Rolls(s)| && 1 <= d <= 3
      ensures SafeBranch(n, s, j, d) && RunBranch(m, s, j, d) == Branch(n, s, j, d)
    {
      LoweredBranch(m, n, sh, s, j, d);
    }
    forall j | 0 <= j < |Rolls(s)|
      ensures RunDice(m, s, j, 3) == ExpandDice(n, s, j, 3)
    {
      LoweredDice(m, n, s, j);
    }
    LoweredColors(m, n, s, |Rolls(s)|);
  }

  /** One die value of one colour: the camel is placed on both boards, the
      move is legal on the lower board, and the two moved boards are again
      one the other lowered. */
  lemma LoweredBranch(m: CamelMap, n: CamelMap, sh: nat, s: CS.ColorState, j: nat, d: nat)
    requires Lowered(m, n, sh) && j < |Rolls(s)| && 1 <= d <= 3 && RunBranchSafe(m, s, j, d)
    ensures SafeBranch(n, s, j, d) && RunBranch(m, s, j, d) == Branch(n, s, j, d)
    decreases CS.Len(s), 0
  {
    var c := Rolls(s)[j];
    RollsAfter(s, j);
    LoweredPlaced(m, n, sh, c);
    LoweredAdvance(m, n, sh, c, d);
    AdvanceIsMove(n, c, d);
    LoweredRun(Advance(m, c, d), Advance(n, c, d), sh, CS.RemoveColor(s, c));
  }

  /** Colour by colour, equal expansions of each colour give equal
      expansions of the loop. */
  lemma {:induction false} LoweredColors(m: CamelMap, n: CamelMap, s: CS.ColorState, i: nat)
    requires Valid(m) && Valid(n) && RunLoopSafe(m, s) && LoopSafe(n, s) && i <= |Rolls(s)|
    requires forall j :: 0 <= j < |Rolls(s)| ==> RunDice(m, s, j, 3) == ExpandDice(n, s, j, 3)
    ensures RunColors(m, s, i) == ExpandColors(n, s, i)
    decreases i
  {
    if i == 0 {
      RunColorsZero(m, s);
      ColorsZero(n, s);
    } else {
      LoweredColors(m, n, s, i - 1);
      LoweredColorsStep(m, n, s, i);
    }
  }

  lemma LoweredColorsStep(m: CamelMap, n: CamelMap, s: CS.ColorState, i: nat)
    requires Valid(m) && Valid(n) && RunLoopSafe(m, s) && LoopSafe(n, s) && 0 < i <= |Rolls(s)|
    requires RunColors(m, s, i - 1) == ExpandColors(n, s, i - 1)
    requires RunDice(m, s, i - 1, 3) == ExpandDice(n, s, i - 1, 3)
    ensures RunColors(m, s, i) == ExpandColors(n, s, i)
  {
    RunColorsStep(m, s, i);
    ColorsStep(n, s, i);
  }

  /** Equal branches for the values 1, 2 and 3 give equal expansions of
      the colour. */
  lemma LoweredDice(m: CamelMap, n: CamelMap, s: CS.ColorState, j: nat)
    requires Valid(m) && Valid(n) && RunLoopSafe(m, s) && LoopSafe(n, s) && j < |Rolls(s)|
    requires RunBranch(m, s, j, 1) == Branch(n, s, j, 1)
    requires RunBranch(m, s, j, 2) == Branch(n, s, j, 2)
    requires RunBranch(m, s, j, 3) == Branch(n, s, j, 3)
    ensures RunDice(m, s, j, 3) == ExpandDice(n, s, j, 3)
  {
    LoweredDiceStep(m, n, s, j, 1);
    LoweredDiceStep(m, n, s, j, 2);
    LoweredDiceStep(m, n, s, j, 3);
  }

  lemma LoweredDiceStep(m: CamelMap, n: CamelMap, s: CS.ColorState, j: nat, d: nat)
    requires Valid(m) && Valid(n) && RunLoopSafe(m, s) && LoopSafe(n, s) && j < |Rolls(s)| && 1 <= d <= 3
    requires RunDice(m, s, j, d - 1) == ExpandDice(n, s, j, d - 1)
    requires RunBranch(m, s, j, d) == Branch(n, s, j, d)
    ensures RunDice(m, s, j, d) == ExpandDice(n, s, j, d)
  {
    RunDiceStep(m, s, j, d);
    DiceStep(n, s, j, d);
  }

  /** A camel is on one board iff it is on the other, `sh` fields lower. */
  lemma LoweredPlaced(m: CamelMap, n: CamelMap, sh: nat, c: Color)
    requires Lowered(m, n, sh) && IsCamel(c)
    ensures Placed(m, c) <==> Placed(n, c)
    ensures Placed(m, c) ==> FindCamel(n, c) + sh == FindCamel(m, c)
  {
    if Placed(m, c) {
      PlacedDown(m, n, sh, c);
    }
    if Placed(n, c) {
      PlacedUp(m, n, sh, c);
    }
  }

  lemma PlacedDown(m: CamelMap, n: CamelMap, sh: nat, c: Color)
    requires Shaped(m) && Valid(n) && StacksLowered(m, n, sh) && Placed(m, c)
    ensures Placed(n, c) && n.colorPos[Index(c)] + sh == m.colorPos[Index(c)]
  {
    var p := m.colorPos[Index(c)];
    assert c in Stack(m, p);
    OccupiedFromShift(m, n, sh, p);
    LoweredStack(m, n, sh, p - sh, p);
    OnFieldIsPlaced(n, p - sh, c);
  }

  /** An occupied field of `m` lies at or past `sh`. */
  lemma OccupiedFromShift(m: CamelMap, n: CamelMap, sh: nat, p: nat)
    requires Shaped(m) && Shaped(n) && StacksLowered(m, n, sh) && p < FieldCount && Stack(m, p) != []
    ensures p >= sh
  {
  }

  lemma PlacedUp(m: CamelMap, n: CamelMap, sh: nat, c: Color)
    requires Valid(m) && Shaped(n) && StacksLowered(m, n, sh) && Placed(n, c)
    ensures Placed(m, c)
  {
    var q := n.colorPos[Index(c)];
    assert c in Stack(n, q);
    assert q + sh < FieldCount;
    OnFieldIsPlaced(m, q + sh, c);
  }

  /** The same roll on both boards keeps one the other lowered. */
  lemma LoweredAdvance(m: CamelMap, n: CamelMap, sh: nat, c: Color, d: nat)
    requires Lowered(m, n, sh) && IsCamel(c) && Placed(m, c) && FindCamel(m, c) + d < FieldCount
    ensures Placed(n, c) && FindCamel(n, c) + d < FieldCount
    ensures Lowered(Advance(m, c, d), Advance(n, c, d), sh)
  {
    LoweredPlaced(m, n, sh, c);
    AdvancedTo(m, n, sh, c, d, Advance(m, c, d), Advance(n, c, d));
  }

  lemma AdvancedTo(m: CamelMap, n: CamelMap, sh: nat, c: Color, d: nat, am: CamelMap, an: CamelMap)
    requires Lowered(m, n, sh) && IsCamel(c) && Placed(m, c) && Placed(n, c)
    requires FindCamel(n, c) + sh == FindCamel(m, c) && FindCamel(m, c) + d < FieldCount
    requires am == Advance(m, c, d) && an == Advance(n, c, d)
    ensures Lowered(am, an, sh)
  {
    var p := FindCamel(m, c);
    var q := FindCamel(n, c);
    LoweredStack(m, n, sh, q, p);
    var k := IndexOf(Stack(m, p), c);
    AdvanceStacks(m, c, d, am, p, k);
    AdvanceStacks(n, c, d, an, q, k);
    LandedLowered(m, n, am, an, sh, p, q, d, k);
  }

  /** Field `q` of the lower board is field `q + sh` of `m`. */
  lemma LoweredStack(m: CamelMap, n: CamelMap, sh: nat, q: nat, p: nat)
    requires Shaped(m) && Shaped(n) && StacksLowered(m, n, sh) && p == q + sh && p < FieldCount
    ensures Stack(n, q) == Stack(m, p)
  {
  }

  lemma LandedLowered(m: CamelMap, n: CamelMap, am: CamelMap, an: CamelMap, sh: nat, p: nat, q: nat, d: nat, k: nat)
    requires Shaped(m) && Shaped(n) && StacksLowered(m, n, sh)
    requires Valid(am) && Valid(an) && CardFree(am) && CardFree(an)
    requires p == q + sh && p + d < FieldCount && k <= |Stack(m, p)| && Stack(n, q) == Stack(m, p)
    requires forall i {:trigger Stack(am, i)} :: 0 <= i < FieldCount ==>
      Stack(am, i) == if i == p + d then Lifted(m, p, k, p + d) + Stack(m, p)[k..] else Lifted(m, p, k, i)
    requires forall i {:trigger Stack(an, i)} :: 0 <= i < FieldCount ==>
      Stack(an, i) == if i == q + d then Lifted(n, q, k, q + d) + Stack(n, q)[k..] else Lifted(n, q, k, i)
    ensures Lowered(am, an, sh)
  {
    RaisedStacks(m, n, am, an, sh, p, q, d, k);
  }

  /** Field `i` once the camels of field `p` from height `k` up were lifted off. */
  ghost function Lifted(m: CamelMap, p: nat, k: nat, i: nat): seq<Color>
    requires Shaped(m) && p < FieldCount && i < FieldCount && k <= |Stack(m, p)|
  {
    if i == p then Stack(m, p)[..k] else Stack(m, i)
  }

  /** The earlier move, field by field: the camels from height `k` of the
      camel's field land on top of field `p + d`. */
  lemma AdvanceStacks(m: CamelMap, c: Color, d: nat, r: CamelMap, p: nat, k: nat)
    requires Valid(m) && CardFree(m) && IsCamel(c) && Placed(m, c) && FindCamel(m, c) + d < FieldCount
    requires r == Advance(m, c, d) && p == FindCamel(m, c) && k == IndexOf(Stack(m, p), c)
    ensures Valid(r) && CardFree(r) && k <= |Stack(m, p)|
    ensures forall i {:trigger Stack(r, i)} :: 0 <= i < FieldCount ==>
        Stack(r, i) == if i == p + d then Lifted(m, p, k, p + d) + Stack(m, p)[k..] else Lifted(m, p, k, i)
  {
    AdvanceSpec(m, c, d);
  }

  /** Lifting the same camels off the same stack `sh` fields lower, and
      landing them the same distance on, keeps the boards `sh` apart. */
  lemma RaisedStacks(m: CamelMap, n: CamelMap, am: CamelMap, an: CamelMap, sh: nat, p: nat, q: nat, d: nat, k: nat)
    requires Shaped(m) && Shaped(n) && Shaped(am) && Shaped(an) && StacksLowered(m, n, sh)
    requires p == q + sh && p + d < FieldCount && k <= |Stack(m, p)| && Stack(n, q) == Stack(m, p)
    requires forall i {:trigger Stack(am, i)} :: 0 <= i < FieldCount ==>
      Stack(am, i) == if i == p + d then Lifted(m, p, k, p + d) + Stack(m, p)[k..] else Lifted(m, p, k, i)
    requires forall i {:trigger Stack(an, i)} :: 0 <= i < FieldCount ==>
      Stack(an, i) == if i == q + d then Lifted(n, q, k, q + d) + Stack(n, q)[k..] else Lifted(n, q, k, i)
    ensures StacksLowered(am, an, sh)
  {
    forall j | 0 <= j < FieldCount
      ensures Stack(an, j) == if j + sh < FieldCount then Stack(am, j + sh) else []
    {
      RaisedField(m, n, am, an, sh, p, q, d, k, j);
    }
    forall j | 0 <= j < FieldCount && j < sh
      ensures Stack(am, j) == []
    {
      RaisedBelow(m, n, am, an, sh, p, q, d, k, j);
    }
  }

  /** Field `j` of the lower moved board is field `j + sh` of the other. */
  lemma RaisedField(m: CamelMap, n: CamelMap, am: CamelMap, an: CamelMap, sh: nat, p: nat, q: nat, d: nat, k: nat, j: nat)
    requires Shaped(m) && Shaped(n) && Shaped(am) && Shaped(an) && StacksLowered(m, n, sh)
    requires p == q + sh && p + d < FieldCount && k <= |Stack(m, p)| && Stack(n, q) == Stack(m, p)
    requires forall i {:trigger Stack(am, i)} :: 0 <= i < FieldCount ==>
      Stack(am, i) == if i == p + d then Lifted(m, p, k, p + d) + Stack(m, p)[k..] else Lifted(m, p, k, i)
    requires forall i {:trigger Stack(an, i)} :: 0 <= i < FieldCount ==>
      Stack(an, i) == if i == q + d then Lifted(n, q, k, q + d) + Stack(n, q)[k..] else Lifted(n, q, k, i)
    requires j < FieldCount
    ensures Stack(an, j) == if j + sh < FieldCount then Stack(am, j + sh) else []
  {
    if j + sh < FieldCount {
      assert Lifted(n, q, k, j) == Lifted(m, p, k, j + sh);
    } else {
      assert Lifted(n, q, k, j) == Stack(n, j);
    }
  }

  /** The fields below `sh` stay empty: the camels move forward. */
  lemma RaisedBelow(m: CamelMap, n: CamelMap, am: CamelMap, an: CamelMap, sh: nat, p: nat, q: nat, d: nat, k: nat, j: nat)
    requires Shaped(m) && Shaped(n) && Shaped(am) && Shaped(an) && StacksLowered(m, n, sh)
    requires p == q + sh && p + d < FieldCount && k <= |Stack(m, p)| && Stack(n, q) == Stack(m, p)
    requires forall i {:trigger Stack(am, i)} :: 0 <= i < FieldCount ==>
      Stack(am, i) == if i == p + d then Lifted(m, p, k, p + d) + Stack(m, p)[k..] else Lifted(m, p, k, i)
    requires forall i {:trigger Stack(an, i)} :: 0 <= i < FieldCount ==>
      Stack(an, i) == if i == q + d then Lifted(n, q, k, q + d) + Stack(n, q)[k..] else Lifted(n, q, k, i)
    requires j < sh
    ensures Stack(am, j) == []
  {
    assert Lifted(m, p, k, j) == Stack(m, j);
  }

  /** No camel stands below the smallest position. */
  lemma BelowMinEmpty(n: CamelMap, j: nat)
    requires Valid(n) && j < FieldCount && j < MinOf(n.colorPos)
    ensures Stack(n, j) == []
  {
    OccupiedAtLeastMin(n, j);
  }

  /** An occupied field lies at or past the smallest position. */
  lemma OccupiedAtLeastMin(n: CamelMap, j: nat)
    requires Valid(n) && j < FieldCount
    ensures Stack(n, j) != [] ==> MinOf(n.colorPos) <= j
  {
    if Stack(n, j) != [] {
      var c := Stack(n, j)[0];
      assert n.colorPos[Index(c)] == j;
    }
  }

  /** Normalising the lower board lowers `m` further, by the smallest
      position. */
  lemma LoweredNormalize(m: CamelMap, n: CamelMap, sh: nat, r: CamelMap, mn: nat)
    requires Lowered(m, n, sh) && CamelsOnly(n) && r == NormalizeMap(n) && mn == MinOf(n.colorPos)
    ensures Lowered(m, r, sh + mn)
  {
    NormalizedTo(n, r, mn);
    LoweredFurther(m, n, sh, r, mn);
  }

  lemma NormalizedTo(n: CamelMap, r: CamelMap, mn: nat)
    requires Valid(n) && CamelsOnly(n) && r == NormalizeMap(n) && mn == MinOf(n.colorPos)
    ensures ShiftedDown(n, mn, r)
  {
    NormalizeSpec(n);
  }

  /** A valid board holds nothing but camels. */
  lemma ValidCamels(n: CamelMap)
    requires Valid(n)
    ensures CamelsOnly(n)
  {
  }

  /** A card-free board lowered by `sh`, moved down again by its smallest
      position, is lowered by the sum. */
  lemma LoweredFurther(m: CamelMap, n: CamelMap, sh: nat, r: CamelMap, mn: nat)
    requires Lowered(m, n, sh) && mn == MinOf(n.colorPos) && ShiftedDown(n, mn, r)
    ensures Lowered(m, r, sh + mn)
  {
    forall j | 0 <= j < FieldCount && j < mn
      ensures Stack(n, j) == []
    {
      BelowMinEmpty(n, j);
    }
    LoweredTwice(m, n, r, sh, mn);
  }

  /** Lowering by `sh` and then by `mn` lowers by `sh + mn`. */
  lemma LoweredTwice(m: CamelMap, n: CamelMap, r: CamelMap, sh: nat, mn: nat)
    requires Shaped(m) && Shaped(n) && Shaped(r) && StacksLowered(m, n, sh)
    requires forall j {:trigger Stack(r, j)} :: 0 <= j < FieldCount ==>
      Stack(r, j) == if j + mn < FieldCount then Stack(n, j + mn) else []
    requires forall j {:trigger Stack(n, j)} :: 0 <= j < FieldCount && j < mn ==> Stack(n, j) == []
    ensures StacksLowered(m, r, sh + mn)
  {
    forall j | 0 <= j < FieldCount
      ensures Stack(r, j) == if j + sh + mn < FieldCount then Stack(m, j + sh + mn) else []
    {
      if j + mn < FieldCount {
        assert Stack(r, j) == Stack(n, j + mn);
      }
    }
    forall j | 0 <= j < FieldCount && j < sh + mn
      ensures Stack(m, j) == []
    {
      if j >= sh {
        assert Stack(n, j - sh) == Stack(m, j);
      }
    }
  }

  /** Lowering keeps the standings, so the leaderboards agree. */
  lemma LoweredStandings(m: CamelMap, n: CamelMap, sh: nat)
    requires Lowered(m, n, sh)
    ensures Standings(n, FieldCount) == Standings(m, FieldCount)
  {
    StacksStandings(m, n, sh);
  }

  lemma StacksStandings(m: CamelMap, n: CamelMap, sh: nat)
    requires Shaped(m) && Shaped(n) && StacksLowered(m, n, sh)
    ensures Standings(n, FieldCount) == Standings(m, FieldCount)
  {
    if sh <= FieldCount {
      TopEmpty(m, n, sh, FieldCount - sh);
      StandingsTail(n, FieldCount - sh, FieldCount);
      StandingsShift(m, n, sh, FieldCount - sh);
    } else {
      TopEmpty(m, n, sh, 0);
      StandingsTail(n, 0, FieldCount);
      BottomEmpty(m, n, sh, FieldCount);
      StandingsEmpty(m, FieldCount);
    }
  }

  /** The lower board is empty from field `a` up when `a + sh` is past the
      board. */
  lemma TopEmpty(m: CamelMap, n: CamelMap, sh: nat, a: nat)
    requires Shaped(m) && Shaped(n) && StacksLowered(m, n, sh) && a + sh >= FieldCount
    ensures forall j {:trigger Stack(n, j)} :: a <= j < FieldCount ==> Stack(n, j) == []
  {
  }

  /** `m` is empty below `k` when `k` is at most `sh`. */
  lemma BottomEmpty(m: CamelMap, n: CamelMap, sh: nat, k: nat)
    requires Shaped(m) && Shaped(n) && StacksLowered(m, n, sh) && k <= sh && k <= FieldCount
    ensures forall j {:trigger Stack(m, j)} :: 0 <= j < k ==> Stack(m, j) == []
  {
  }

  /** Fields from `a` up that are empty add nothing to the standings. */
  lemma {:induction false} StandingsTail(n: CamelMap, a: nat, k: nat)
    requires Shaped(n) && a <= k <= FieldCount
    requires forall j {:trigger Stack(n, j)} :: a <= j < FieldCount ==> Stack(n, j) == []
    ensures Standings(n, k) == Standings(n, a)
    decreases k
  {
    if k > a {
      StandingsTail(n, a, k - 1);
      assert Stack(n, k - 1) == [];
    }
  }

  lemma {:induction false} StandingsEmpty(m: CamelMap, k: nat)
    requires Shaped(m) && k <= FieldCount
    requires forall j {:trigger Stack(m, j)} :: 0 <= j < k ==> Stack(m, j) == []
    ensures Standings(m, k) == []
    decreases k
  {
    if k > 0 {
      StandingsEmpty(m, k - 1);
      assert Stack(m, k - 1) == [];
    }
  }

  lemma {:induction false} StandingsShift(m: CamelMap, n: CamelMap, sh: nat, k: nat)
    requires Shaped(m) && Shaped(n) && StacksLowered(m, n, sh) && k + sh <= FieldCount
    ensures Standings(n, k) == Standings(m, k + sh)
    decreases k
  {
    if k == 0 {
      BottomEmpty(m, n, sh, sh);
      StandingsEmpty(m, sh);
    } else {
      StandingsShift(m, n, sh, k - 1);
      LoweredStack(m, n, sh, k - 1, k - 1 + sh);
      StandingsShiftStep(m, n, sh, k);
    }
  }

  /** One more field on each side adds the same stack. */
  lemma StandingsShiftStep(m: CamelMap, n: CamelMap, sh: nat, k: nat)
    requires Shaped(m) && Shaped(n) && 0 < k && k + sh <= FieldCount
    requires Standings(n, k - 1) == Standings(m, k - 1 + sh) && Stack(n, k - 1) == Stack(m, k - 1 + sh)
    ensures Standings(n, k) == Standings(m, k + sh)
  {
  }
}
