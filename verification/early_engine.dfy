/** `calc/src/main.rs`: the earlier, self-contained engine. Its `Color`,
    `ColorState`, `Configuration` equality and `leaderboard` are the crate's,
    line for line, and the model shares them. Its board has no effect cards,
    `move_camel` lands at `old + steps` on top of the stack, `simulate_round_rec`
    does not normalise, and a cache hit hands back a clone of the stored
    outcomes. */
module EarlyEngine {
  import opened Colors
  import opened Seqs
  import opened Wrappers
  import opened CamelMaps
  import opened Configurations
  import opened Counting
  import opened Simulation
  import CS = ColorStates
  import CamelMapExamples
  import RoundExamples

  /** The earlier board has no card array: every card slot of the shared
      board type stays empty. */
  predicate CardFree(m: CamelMap) {
    m.cards == NoCards()
  }

  /** `move_camel(camel, steps)` without cards: split the stack at the camel,
      point the moving camels at `old + steps`, drop the old field if it
      emptied, and append the group on top of the new field. Indexing past
      field 15 panics. */
  function Advance(m: CamelMap, camel: Color, steps: nat): CamelMap
    requires Valid(m) && Placed(m, camel) && FindCamel(m, camel) + steps < FieldCount
  {
    var from := FindCamel(m, camel);
    var dest := from + steps;
    var stack := m.fields[from].value;
    var k := IndexOf(stack, camel);
    var moving := stack[k..];
    var rest := stack[..k];
    var colorPos := SetPositions(m.colorPos, moving, dest);
    var fields := m.fields[from := if |rest| == 0 then Option.None else Some(rest)];
    CamelMap(fields[dest := Some(StackAt(fields, dest) + moving)], colorPos, m.cards)
  }

  /** On a card-free board the earlier move is the crate's move. */
  lemma AdvanceIsMove(m: CamelMap, camel: Color, steps: nat)
    requires Valid(m) && Placed(m, camel) && CardFree(m) && FindCamel(m, camel) + steps < FieldCount
    ensures CanMove(m, camel, steps) && Destination(m, camel, steps) == FindCamel(m, camel) + steps
    ensures m.cards[Landing(m, camel, steps)] == Option.None
    ensures Advance(m, camel, steps) == MoveCamel(m, camel, steps)
  {
    AdvanceLegal(m, camel, steps);
    assert MoveCamel(m, camel, steps) == MoveBoard(m, camel, steps);
  }

  /** Without a card the landing field is the destination. */
  lemma AdvanceLegal(m: CamelMap, camel: Color, steps: nat)
    requires Valid(m) && Placed(m, camel) && CardFree(m) && FindCamel(m, camel) + steps < FieldCount
    ensures CanMove(m, camel, steps) && Destination(m, camel, steps) == FindCamel(m, camel) + steps
    ensures Landing(m, camel, steps) == FindCamel(m, camel) + steps
    ensures m.cards[Landing(m, camel, steps)] == Option.None
  {
    assert m.cards[FindCamel(m, camel) + steps] == Option.None;
  }

  /** `move_camel` of `calc/src/main.rs`: the camel and every camel above it
      land, in order, on top of the stack at `old + steps`; the old field keeps
      the camels below; every other field and every other camel's index
      stay as they were; the board stays valid and card-free. */
  lemma AdvanceSpec(m: CamelMap, camel: Color, steps: nat)
    requires Valid(m) && Placed(m, camel) && CardFree(m) && FindCamel(m, camel) + steps < FieldCount
    ensures var r := Advance(m, camel, steps); var dest := FindCamel(m, camel) + steps;
      && Valid(r) && CardFree(r)
      && (forall c :: Placed(r, c) <==> Placed(m, c))
      && (forall c :: Placed(m, c) ==>
            r.colorPos[Index(c)] == if c in Group(m, camel) then dest else m.colorPos[Index(c)])
      && Stack(r, dest) == Remaining(m, camel, dest) + Group(m, camel)
      && (forall i :: 0 <= i < FieldCount && i != dest ==> Stack(r, i) == Remaining(m, camel, i))
  {
    AdvanceIsMove(m, camel, steps);
  }

  /** `test_move_camel`: Green, on top of Blue at 0, moves 3 alone to the
      empty field 3; Blue and Orange stay. */
  lemma AdvanceExample(ps: seq<(nat, Color)>, m: CamelMap)
    requires ps == [(0, Blue), (0, Green), (1, Orange)] && m == New(ps)
    ensures Valid(m) && Placed(m, Green) && FindCamel(m, Green) + 3 < FieldCount
    ensures var r := Advance(m, Green, 3);
      && FindCamel(r, Green) == 3 && FindCamel(r, Blue) == 0 && FindCamel(r, Orange) == 1
      && r.fields[3] == Some([Green])
  {
    CamelMapExamples.MoveCamelExample(ps, m);
    AdvanceIsMove(m, Green, 3);
  }

  // ---------------------------------------------------------------------
  // The round without a cache, and when it runs without a panic

  /** The earlier round from `m`, with the colours of `s` still to roll,
      runs without a panic: the board is valid and card-free and, unless
      no colour is left, every roll the loops make runs without one. */
  ghost predicate RunSafe(m: CamelMap, s: CS.ColorState)
    decreases CS.Len(s), 2
  {
    Valid(m) && CardFree(m) && (CS.Len(s) > 0 ==> RunLoopSafe(m, s))
  }

  /** Every colour the loop visits, with every die value, runs without a
      panic on board `m`. */
  ghost predicate RunLoopSafe(m: CamelMap, s: CS.ColorState)
    requires Valid(m)
    decreases CS.Len(s), 1
  {
    forall j, d :: 0 <= j < |Rolls(s)| && 1 <= d <= 3 ==> RunBranchSafe(m, s, j, d)
  }

  /** Die value `d` for the `j`-th colour of the loop: the camel stands on
      the board, `old + steps` indexes one of the 16 fields, and the round
      below runs without a panic. */
  ghost predicate RunBranchSafe(m: CamelMap, s: CS.ColorState, j: nat, d: nat)
    requires Valid(m) && j < |Rolls(s)| && 1 <= d <= 3
    decreases CS.Len(s), 0
  {
    var c := Rolls(s)[j];
    RollsAfter(s, j);
    Placed(m, c) && FindCamel(m, c) + d < FieldCount && RunSafe(Advance(m, c, d), CS.RemoveColor(s, c))
  }

  /** `simulate_round_rec` of `calc/src/main.rs` without the cache: with no
      colour left the one placement of the leaderboard; otherwise, on the
      board as it stands, the outcomes of every colour the loop visits, in
      order, with die values 1, 2, 3, concatenated. */
  function Run(m: CamelMap, s: CS.ColorState): (r: seq<Placement>)
    requires RunSafe(m, s)
    decreases CS.Len(s), 2
  {
    if CS.Len(s) == 0 then
      StandingsFit(m);
      [PlacementOf(Leaderboard(m))]
    else
      RunColors(m, s, |Rolls(s)|)
  }

  /** The outcomes of the first `i` colours of the loop, in loop order. */
  function RunColors(m: CamelMap, s: CS.ColorState, i: nat): (r: seq<Placement>)
    requires Valid(m) && RunLoopSafe(m, s) && i <= |Rolls(s)|
    decreases CS.Len(s), 1, i
  {
    if i == 0 then []
    else RunColors(m, s, i - 1) + RunDice(m, s, i - 1, 3)
  }

  /** The outcomes of rolling the `j`-th colour of the loop with the values
      1 to `d`, in order. */
  function RunDice(m: CamelMap, s: CS.ColorState, j: nat, d: nat): (r: seq<Placement>)
    requires Valid(m) && RunLoopSafe(m, s) && j < |Rolls(s)| && d <= 3
    decreases CS.Len(s), 1, 0, d
  {
    if d == 0 then []
    else RunDice(m, s, j, d - 1) + RunBranch(m, s, j, d)
  }

  /** The outcomes after die value `d` for the `j`-th colour of the loop:
      the colour leaves the set (the cursor stays) and the camel moves. */
  function RunBranch(m: CamelMap, s: CS.ColorState, j: nat, d: nat): (r: seq<Placement>)
    requires Valid(m) && j < |Rolls(s)| && 1 <= d <= 3 && RunBranchSafe(m, s, j, d)
    decreases CS.Len(s), 0
  {
    var c := Rolls(s)[j];
    RollsAfter(s, j);
    Run(Advance(m, c, d), CS.RemoveColor(s, c))
  }

  lemma RunColorsZero(m: CamelMap, s: CS.ColorState)
    requires Valid(m) && RunLoopSafe(m, s)
    ensures RunColors(m, s, 0) == []
  {
  }

  /** Unfolding one colour: its three values follow the earlier colours. */
  lemma RunColorsStep(m: CamelMap, s: CS.ColorState, i: nat)
    requires Valid(m) && RunLoopSafe(m, s) && 0 < i <= |Rolls(s)|
    ensures RunColors(m, s, i) == RunColors(m, s, i - 1) + RunDice(m, s, i - 1, 3)
  {
  }

  lemma RunColorsJoin(m: CamelMap, s: CS.ColorState, i: nat, front: seq<Placement>, more: seq<Placement>)
    requires Valid(m) && RunLoopSafe(m, s) && i < |Rolls(s)|
    requires front == RunColors(m, s, i) && more == RunDice(m, s, i, 3)
    ensures front + more == RunColors(m, s, i + 1)
  {
  }

  /** Unfolding one value: its outcomes follow the smaller values. */
  lemma RunDiceStep(m: CamelMap, s: CS.ColorState, j: nat, d: nat)
    requires Valid(m) && RunLoopSafe(m, s) && j < |Rolls(s)| && 1 <= d <= 3
    ensures RunBranchSafe(m, s, j, d)
    ensures RunDice(m, s, j, d) == RunDice(m, s, j, d - 1) + RunBranch(m, s, j, d)
  {
  }

  // ---------------------------------------------------------------------
  // A board with room for the whole round

  /** A roll of 1 to 3 for a colour still to roll stays on the board, and
      the board keeps room for the colours left. */
  lemma AdvanceRoom(m: CamelMap, s: CS.ColorState, c: Color, d: nat)
    requires Room(m, s) && CardFree(m) && CS.Contains(s, c) && 1 <= d <= 3
    ensures Placed(m, c) && FindCamel(m, c) + d < FieldCount
    ensures Advance(m, c, d) == MoveCamel(m, c, d)
    ensures Room(Advance(m, c, d), CS.RemoveColor(s, c)) && CardFree(Advance(m, c, d))
  {
    RoomStride(m, s, c);
    RollRoom(m, s, c, d);
    AdvanceIsMove(m, c, d);
  }

  /** A card-free board with room for the round runs the earlier round
      without a panic. */
  lemma {:induction false} RoomRuns(m: CamelMap, s: CS.ColorState)
    requires Room(m, s) && CardFree(m)
    ensures RunSafe(m, s)
    decreases CS.Len(s), 2
  {
    if CS.Len(s) > 0 {
      forall j, d | 0 <= j < |Rolls(s)| && 1 <= d <= 3 ensures RunBranchSafe(m, s, j, d) {
        RoomRunsBranch(m, s, j, d);
      }
    }
  }

  lemma {:induction false} RoomRunsBranch(m: CamelMap, s: CS.ColorState, j: nat, d: nat)
    requires Room(m, s) && CardFree(m) && j < |Rolls(s)| && 1 <= d <= 3
    ensures RunBranchSafe(m, s, j, d)
    decreases CS.Len(s), 1
  {
    var c := Rolls(s)[j];
    RollsAfter(s, j);
    AdvanceRoom(m, s, c, d);
    RoomRuns(Advance(m, c, d), CS.RemoveColor(s, c));
  }

  // ---------------------------------------------------------------------
  // Number of outcomes

  /** The earlier round has the crate's count: `RoundSize` outcomes, so
      `k!·3^k` for `k` colours none of which sits below the cursor. */
  lemma {:induction false} RunCount(m: CamelMap, s: CS.ColorState)
    requires RunSafe(m, s)
    ensures |Run(m, s)| == RoundSize(s)
    decreases CS.Len(s), 2
  {
    if CS.Len(s) > 0 {
      forall j | 0 <= j < |Rolls(s)| ensures |RunDice(m, s, j, 3)| == 3 * BranchSize(s) {
        RunDiceCount(m, s, j);
      }
      RunColorsCount(m, s, |Rolls(s)|, 3 * BranchSize(s));
      if NoneSkipped(s) {
        AllRolls(s);
        TimesIsProduct(3, Outcomes(CS.Len(s) - 1));
      } else {
        TimesZero(|Rolls(s)|);
      }
    }
  }

  /** With every colour of the loop contributing `x` outcomes, the first
      `i` contribute `i` times as many. */
  lemma {:induction false} RunColorsCount(m: CamelMap, s: CS.ColorState, i: nat, x: nat)
    requires Valid(m) && RunLoopSafe(m, s) && i <= |Rolls(s)|
    requires forall j :: 0 <= j < |Rolls(s)| ==> |RunDice(m, s, j, 3)| == x
    ensures |RunColors(m, s, i)| == Times(i, x)
  {
    if i > 0 {
      RunColorsCount(m, s, i - 1, x);
      RunColorsCountStep(m, s, i, x);
    } else {
      RunColorsZero(m, s);
    }
  }

  lemma RunColorsCountStep(m: CamelMap, s: CS.ColorState, i: nat, x: nat)
    requires Valid(m) && RunLoopSafe(m, s) && 0 < i <= |Rolls(s)|
    requires |RunColors(m, s, i - 1)| == Times(i - 1, x) && |RunDice(m, s, i - 1, 3)| == x
    ensures |RunColors(m, s, i)| == Times(i, x)
  {
    RunColorsStep(m, s, i);
  }

  /** Each colour of the loop contributes three die values' worth. */
  lemma {:induction false} RunDiceCount(m: CamelMap, s: CS.ColorState, j: nat)
    requires Valid(m) && RunLoopSafe(m, s) && j < |Rolls(s)|
    ensures |RunDice(m, s, j, 3)| == 3 * BranchSize(s)
    decreases CS.Len(s), 1
  {
    RunBranchCount(m, s, j, 1);
    RunBranchCount(m, s, j, 2);
    RunBranchCount(m, s, j, 3);
    RunDiceCountOf(m, s, j, BranchSize(s));
  }

  lemma RunDiceCountOf(m: CamelMap, s: CS.ColorState, j: nat, x: nat)
    requires Valid(m) && RunLoopSafe(m, s) && j < |Rolls(s)|
    requires |RunBranch(m, s, j, 1)| == x && |RunBranch(m, s, j, 2)| == x && |RunBranch(m, s, j, 3)| == x
    ensures |RunDice(m, s, j, 3)| == 3 * x
  {
    RunDiceLength(m, s, j, 1, 0, x);
    RunDiceLength(m, s, j, 2, x, x);
    RunDiceLength(m, s, j, 3, x + x, x);
  }

  lemma RunDiceLength(m: CamelMap, s: CS.ColorState, j: nat, d: nat, a: nat, x: nat)
    requires Valid(m) && RunLoopSafe(m, s) && j < |Rolls(s)| && 1 <= d <= 3
    requires |RunDice(m, s, j, d - 1)| == a && |RunBranch(m, s, j, d)| == x
    ensures |RunDice(m, s, j, d)| == a + x
  {
    RunDiceStep(m, s, j, d);
  }

  lemma {:induction false} RunBranchCount(m: CamelMap, s: CS.ColorState, j: nat, d: nat)
    requires Valid(m) && RunLoopSafe(m, s) && j < |Rolls(s)| && 1 <= d <= 3
    ensures |RunBranch(m, s, j, d)| == BranchSize(s)
    decreases CS.Len(s), 0
  {
    RunDiceStep(m, s, j, d);
    var c := Rolls(s)[j];
    RollsAfter(s, j);
    RunCount(Advance(m, c, d), CS.RemoveColor(s, c));
  }

  // ---------------------------------------------------------------------
  // Shape of each outcome

  /** With all five camels on the board every outcome is a ranking. */
  lemma {:induction false} RunRankings(m: CamelMap, s: CS.ColorState)
    requires RunSafe(m, s) && Full(m)
    ensures AllRankings(Run(m, s))
    decreases CS.Len(s), 2
  {
    if CS.Len(s) == 0 {
      LeaderboardRanking(m);
    } else {
      forall j | 0 <= j < |Rolls(s)| ensures AllRankings(RunDice(m, s, j, 3)) {
        RunDiceRankings(m, s, j);
      }
      RunColorsRankings(m, s, |Rolls(s)|);
    }
  }

  /** With every colour of the loop yielding rankings, so do the first `i`. */
  lemma {:induction false} RunColorsRankings(m: CamelMap, s: CS.ColorState, i: nat)
    requires Valid(m) && RunLoopSafe(m, s) && i <= |Rolls(s)|
    requires forall j :: 0 <= j < |Rolls(s)| ==> AllRankings(RunDice(m, s, j, 3))
    ensures AllRankings(RunColors(m, s, i))
  {
    if i > 0 {
      RunColorsRankings(m, s, i - 1);
      RunColorsRankingsStep(m, s, i);
    } else {
      RunColorsZero(m, s);
    }
  }

  lemma RunColorsRankingsStep(m: CamelMap, s: CS.ColorState, i: nat)
    requires Valid(m) && RunLoopSafe(m, s) && 0 < i <= |Rolls(s)|
    requires AllRankings(RunColors(m, s, i - 1)) && AllRankings(RunDice(m, s, i - 1, 3))
    ensures AllRankings(RunColors(m, s, i))
  {
    RunColorsStep(m, s, i);
    AppendRankings(RunColors(m, s, i - 1), RunDice(m, s, i - 1, 3));
  }

  /** The three die values of one colour of the loop yield rankings. */
  lemma {:induction false} RunDiceRankings(m: CamelMap, s: CS.ColorState, j: nat)
    requires Valid(m) && CardFree(m) && RunLoopSafe(m, s) && j < |Rolls(s)| && Full(m)
    ensures AllRankings(RunDice(m, s, j, 3))
    decreases CS.Len(s), 1
  {
    RunBranchRankings(m, s, j, 1);
    RunBranchRankings(m, s, j, 2);
    RunBranchRankings(m, s, j, 3);
    RunDiceRankingsOf(m, s, j);
  }

  lemma RunDiceRankingsOf(m: CamelMap, s: CS.ColorState, j: nat)
    requires Valid(m) && RunLoopSafe(m, s) && j < |Rolls(s)|
    requires AllRankings(RunBranch(m, s, j, 1)) && AllRankings(RunBranch(m, s, j, 2)) && AllRankings(RunBranch(m, s, j, 3))
    ensures AllRankings(RunDice(m, s, j, 3))
  {
    RunDiceRankingsStep(m, s, j, 1);
    RunDiceRankingsStep(m, s, j, 2);
    RunDiceRankingsStep(m, s, j, 3);
  }

  lemma RunDiceRankingsStep(m: CamelMap, s: CS.ColorState, j: nat, d: nat)
    requires Valid(m) && RunLoopSafe(m, s) && j < |Rolls(s)| && 1 <= d <= 3
    requires AllRankings(RunDice(m, s, j, d - 1)) && AllRankings(RunBranch(m, s, j, d))
    ensures AllRankings(RunDice(m, s, j, d))
  {
    RunDiceStep(m, s, j, d);
    AppendRankings(RunDice(m, s, j, d - 1), RunBranch(m, s, j, d));
  }

  lemma {:induction false} RunBranchRankings(m: CamelMap, s: CS.ColorState, j: nat, d: nat)
    requires Valid(m) && CardFree(m) && RunLoopSafe(m, s) && j < |Rolls(s)| && 1 <= d <= 3 && Full(m)
    ensures AllRankings(RunBranch(m, s, j, d))
    decreases CS.Len(s), 0
  {
    RunDiceStep(m, s, j, d);
    var c := Rolls(s)[j];
    RollsAfter(s, j);
    AdvanceFull(m, c, d);
    RunRankings(Advance(m, c, d), CS.RemoveColor(s, c));
  }

  /** The move keeps every camel on the board. */
  lemma AdvanceFull(m: CamelMap, camel: Color, steps: nat)
    requires Valid(m) && Placed(m, camel) && CardFree(m) && FindCamel(m, camel) + steps < FieldCount && Full(m)
    ensures Full(Advance(m, camel, steps))
  {
    AdvanceSpec(m, camel, steps);
  }

  // ---------------------------------------------------------------------
  // The memoised recursion

  /** Every entry holds the earlier outcomes of the configuration it is
      keyed by, read with the cursor `cur`.  The key leaves the cursor
      out; one round's configurations all share the starting set's cursor
      (`remove_color` keeps it), so one `cur` serves the whole recursion. */
  ghost predicate Sound(cache: Cache, cur: bv8) {
    forall key :: key in cache ==> RunSafe(key.0, KeyState(key, cur)) && cache[key] == Run(key.0, KeyState(key, cur))
  }

  /** `simulate_round_rec` of `calc/src/main.rs`: with no colour left the
      leaderboard; otherwise a clone of the cached outcomes of an equal
      configuration, or the expansion of every colour, remembered. */
  method RoundRec(c: Configuration, cache: Cache) returns (r: seq<Placement>, cache': Cache)
    requires RunSafe(c.board, c.available) && Sound(cache, CursorBits(c.available))
    ensures r == Run(c.board, c.available)
    ensures Sound(cache', CursorBits(c.available))
    decreases CS.Len(c.available), 3
  {
    if CS.Len(c.available) == 0 {
      StandingsFit(c.board);
      return [PlacementOf(Leaderboard(c.board))], cache;
    }
    var key := Key(c);
    KeyStateOf(c.board, c.available);
    if key in cache {
      return cache[key], cache;
    }
    r, cache' := RoundColors(c, cache);
    cache' := Store(cache', c, r);
  }

  /** `cache.insert(conf, all_placements.clone())` keeps the cache sound. */
  function Store(cache: Cache, conf: Configuration, ps: seq<Placement>): (r: Cache)
    requires Sound(cache, CursorBits(conf.available)) && RunSafe(conf.board, conf.available)
    requires ps == Run(conf.board, conf.available)
    ensures Sound(r, CursorBits(conf.available))
    ensures Key(conf) in r && r[Key(conf)] == ps
  {
    StoreSound(cache, conf, ps);
    cache[Key(conf) := ps]
  }

  lemma StoreSound(cache: Cache, conf: Configuration, ps: seq<Placement>)
    requires Sound(cache, CursorBits(conf.available)) && RunSafe(conf.board, conf.available)
    requires ps == Run(conf.board, conf.available)
    ensures Sound(cache[Key(conf) := ps], CursorBits(conf.available))
  {
    var cur := CursorBits(conf.available);
    var r := cache[Key(conf) := ps];
    KeyStateOf(conf.board, conf.available);
    forall key | key in r
      ensures RunSafe(key.0, KeyState(key, cur)) && r[key] == Run(key.0, KeyState(key, cur))
    {
      if key != Key(conf) {
        assert key in cache;
      }
    }
  }

  /** `for color_code in &conf.available_colours`: each colour's three
      branches in loop order, threading the cache. */
  method RoundColors(conf: Configuration, cache: Cache) returns (r: seq<Placement>, cache': Cache)
    requires Valid(conf.board) && RunLoopSafe(conf.board, conf.available)
    requires Sound(cache, CursorBits(conf.available))
    ensures r == RunColors(conf.board, conf.available, |Rolls(conf.available)|)
    ensures Sound(cache', CursorBits(conf.available))
    decreases CS.Len(conf.available), 2
  {
    var rolls := Rolls(conf.available);
    r, cache' := [], cache;
    RunColorsZero(conf.board, conf.available);
    var i := 0;
    while i < |rolls|
      invariant i <= |rolls|
      invariant r == RunColors(conf.board, conf.available, i)
      invariant Sound(cache', CursorBits(conf.available))
    {
      var more;
      more, cache' := RoundDice(conf, i, cache');
      RunColorsJoin(conf.board, conf.available, i, r, more);
      r := r + more;
      i := i + 1;
    }
  }

  /** `for dice_value in 1..=3` for the `j`-th colour of the loop: clone,
      push the die, remove the colour, move the camel, recurse, append. */
  method RoundDice(conf: Configuration, j: nat, cache: Cache) returns (r: seq<Placement>, cache': Cache)
    requires Valid(conf.board) && RunLoopSafe(conf.board, conf.available) && j < |Rolls(conf.available)|
    requires Sound(cache, CursorBits(conf.available))
    ensures r == RunDice(conf.board, conf.available, j, 3)
    ensures Sound(cache', CursorBits(conf.available))
    decreases CS.Len(conf.available), 1
  {
    r, cache' := [], cache;
    var value := 0;
    while value < 3
      invariant value <= 3
      invariant r == RunDice(conf.board, conf.available, j, value)
      invariant Sound(cache', CursorBits(conf.available))
    {
      value := value + 1;
      var sub;
      sub, cache' := RoundRec(Throw(conf, j, value), cache');
      RunDiceStep(conf.board, conf.available, j, value);
      r := r + sub;
    }
  }

  /** The configuration after rolling `value` for the `j`-th colour of the
      loop: the die pushed, the colour removed with the cursor kept, the
      camel moved `value` fields; its round is that branch of the
      parent's. */
  function Throw(conf: Configuration, j: nat, value: nat): (next: Configuration)
    requires Valid(conf.board) && j < |Rolls(conf.available)| && 1 <= value <= 3
    requires RunBranchSafe(conf.board, conf.available, j, value)
    ensures RunSafe(next.board, next.available)
    ensures CS.Len(next.available) + 1 == CS.Len(conf.available)
    ensures CursorBits(next.available) == CursorBits(conf.available)
    ensures forall x :: CS.Contains(next.available, x) <==> CS.Contains(conf.available, x) && x != Rolls(conf.available)[j]
    ensures next.diceQueue == conf.diceQueue + [Dice(Rolls(conf.available)[j], value)]
    ensures Run(next.board, next.available) == RunBranch(conf.board, conf.available, j, value)
  {
    var color := Rolls(conf.available)[j];
    RollsAfter(conf.available, j);
    var t := CS.RemoveColor(conf.available, color);
    assert CursorBits(t) == CursorBits(conf.available) by {
      assert CS.Cursor(t) == CS.Cursor(conf.available);
    }
    Configuration(Advance(conf.board, color, value), conf.diceQueue + [Dice(color, value)], t)
  }

  /** `simulate_rounds` of `calc/src/main.rs`: the recursion from an empty
      cache; `k` colours still to roll, none below the cursor, give
      `k!·3^k` outcomes. */
  method SimulateRounds(c: Configuration) returns (r: seq<Placement>)
    requires RunSafe(c.board, c.available)
    ensures r == Run(c.board, c.available)
    ensures |r| == RoundSize(c.available)
    ensures NoneSkipped(c.available) ==> |r| == Outcomes(CS.Len(c.available))
  {
    var cache;
    r, cache := RoundRec(c, map[]);
    RunCount(c.board, c.available);
  }

  // ---------------------------------------------------------------------
  // The round `main` runs

  /** `init_conf` of `calc/src/main.rs`: Blue and Green on field 0, White
      and Yellow on 1, Orange on 2, no dice, every colour to roll. */
  function InitConfiguration(): Configuration {
    Configuration(New(DefaultPlacements), [], CS.Default())
  }

  /** The round `main` runs has room enough, so it runs without a panic,
      and it has `COUNT_ALL` outcomes, each a ranking of the five camels. */
  lemma MainRound(c: Configuration)
    requires c == InitConfiguration()
    ensures RunSafe(c.board, c.available)
    ensures |Run(c.board, c.available)| == CountAll
    ensures AllRankings(Run(c.board, c.available))
  {
    assert c == BuildConfiguration(NewBuilder());
    RoundExamples.DefaultRoom(c);
    OutcomesOfFive();
    RoomRuns(c.board, c.available);
    RunCount(c.board, c.available);
    RunRankings(c.board, c.available);
  }
}
