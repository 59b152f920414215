/** `calc/src/simulation.rs`: every outcome of the dice still to roll in
    the round, memoised on normalised configurations, and the count matrix
    of the outcomes. */
module Simulation {
  import opened Colors
  import opened Wrappers
  import opened Seqs
  import opened CamelMaps
  import opened Configurations
  import opened Counting
  import CS = ColorStates

  /** `Placement = [u8; 5]`: a leaderboard as colour indices, 5 for an empty place. */
  type Placement = seq<nat>

  /** `leaderboard().map(|color| color.into())`. */
  function PlacementOf(board: seq<Color>): (p: Placement)
    ensures |p| == |board|
    ensures forall i :: 0 <= i < |board| ==> FromIndex(p[i]) == board[i]
  {
    seq(|board|, i requires 0 <= i < |board| => Index(board[i]) as nat)
  }

  /** `Color::from_byte` over a list of masks. */
  function Decode(codes: seq<bv8>): (r: seq<Color>)
    ensures |r| == |codes|
  {
    seq(|codes|, i requires 0 <= i < |codes| => FromByte(codes[i]))
  }

  /** Decoding the masks of camel colours gives the colours back. */
  lemma DecodeMasks(cols: seq<Color>)
    requires forall i :: 0 <= i < |cols| ==> IsCamel(cols[i])
    ensures Decode(CS.Masks(cols)) == cols
  {
    var d := Decode(CS.Masks(cols));
    forall i | 0 <= i < |cols| ensures d[i] == cols[i] {
      DecodeMaskAt(cols, i);
    }
  }

  lemma DecodeMaskAt(cols: seq<Color>, i: nat)
    requires i < |cols| && IsCamel(cols[i])
    ensures Decode(CS.Masks(cols))[i] == cols[i]
  {
    var b := CS.Masks(cols)[i];
    assert b == AsByte(cols[i]);
    ByteRoundTrip(cols[i]);
  }

  /** The colours `for color_code in &available_colours` visits: the
      members at or after the cursor in ascending index order (see
      `RollsIterate`). */
  function Rolls(s: CS.ColorState): (r: seq<Color>)
  {
    CS.ElementsFrom(s, CS.Min5(CS.Cursor(s)))
  }

  /** The loop runs the iterator on a copy of the set and decodes each
      mask it yields: that visits exactly `Rolls(s)`, camels only. */
  lemma RollsIterate(s: CS.ColorState)
    ensures Decode(CS.Drain(s)) == Rolls(s)
    ensures forall j :: 0 <= j < |Rolls(s)| ==> IsCamel(Rolls(s)[j]) && CS.Contains(s, Rolls(s)[j])
  {
    var r := Rolls(s);
    assert forall j :: 0 <= j < |r| ==> CS.Contains(s, r[j]);
    DecodeMasks(r);
  }

  /** No member sits below the cursor, so the loop reaches every member.
      Every set `new` (without `None`), `default`, `remove_color` and
      `add_color` build is of this kind. */
  predicate NoneSkipped(s: CS.ColorState) {
    forall i :: 0 <= i < CS.Min5(CS.Cursor(s)) ==> !CS.HasIndex(s, i)
  }

  /** When no member is skipped the loop visits the whole ascending
      member list. */
  lemma AllRolls(s: CS.ColorState)
    requires NoneSkipped(s)
    ensures Rolls(s) == CS.Elements(s) && |Rolls(s)| == CS.Len(s)
  {
    CS.ElementsSkip(s, CS.Min5(CS.Cursor(s)));
  }

  /** A set with cursor 0 skips nothing. */
  lemma FreshNoneSkipped(s: CS.ColorState)
    requires CS.Fresh(s)
    ensures NoneSkipped(s)
  {
    assert CS.Cursor(s) == 0;
  }

  lemma AllIndex(k: nat)
    requires k < 5
    ensures IsCamel(All[k]) && Index(All[k]) == k
  {
  }

  /** Bit `y` of a set is the membership of the camel with index `y`. */
  lemma MemberBit(s: CS.ColorState, y: nat)
    requires y < 5
    ensures CS.HasIndex(s, y) <==> CS.Contains(s, All[y])
  {
    AllIndex(y);
  }

  /** Removing the colour the loop is at: the child set has one member
      fewer, the same cursor, and skips a member exactly when the parent
      does. */
  lemma RollsAfter(s: CS.ColorState, j: nat)
    requires j < |Rolls(s)|
    ensures CS.Contains(s, Rolls(s)[j]) && Index(Rolls(s)[j]) >= CS.Min5(CS.Cursor(s))
    ensures var t := CS.RemoveColor(s, Rolls(s)[j]);
      && CS.Len(t) + 1 == CS.Len(s) && CS.Cursor(t) == CS.Cursor(s)
      && (NoneSkipped(t) <==> NoneSkipped(s))
  {
    var c := Rolls(s)[j];
    var t := CS.RemoveColor(s, c);
    forall i | 0 <= i < CS.Min5(CS.Cursor(s)) ensures CS.HasIndex(t, i) <==> CS.HasIndex(s, i) {
      MemberBit(s, i);
      MemberBit(t, i);
      AllIndex(i);
    }
  }

  // ---------------------------------------------------------------------
  // The round, and when it runs without a panic

  /** The round from `m`, with the colours of `s` still to roll, runs
      without a panic: the board is valid and, unless no colour is left,
      every roll the loops make on the normalised board runs without one.
      The loops make every roll, so this is exactly the absence of a panic. */
  ghost predicate Safe(m: CamelMap, s: CS.ColorState)
    decreases CS.Len(s), 2
  {
    Valid(m) && (CS.Len(s) > 0 ==> (NormalizedValid(m); LoopSafe(NormalizeMap(m), s)))
  }

  /** Every colour the loop visits, with every die value, runs without a
      panic on board `n`. */
  ghost predicate LoopSafe(n: CamelMap, s: CS.ColorState)
    requires Valid(n)
    decreases CS.Len(s), 1
  {
    forall j, d :: 0 <= j < |Rolls(s)| && 1 <= d <= 3 ==> SafeBranch(n, s, j, d)
  }

  /** Die value `d` for the `j`-th colour of the loop: the camel stands on
      the board (`find_camel` and the stack's `unwrap`), the move lands on
      one of the 16 fields (`move_camel` indexes them with the new
      position), and the round below runs without a panic. */
  ghost predicate SafeBranch(n: CamelMap, s: CS.ColorState, j: nat, d: nat)
    requires Valid(n) && j < |Rolls(s)| && 1 <= d <= 3
    decreases CS.Len(s), 0
  {
    var c := Rolls(s)[j];
    RollsAfter(s, j);
    Placed(n, c) && CanMove(n, c, d) && Safe(MoveCamel(n, c, d), CS.RemoveColor(s, c))
  }

  /** `simulate_round_rec` without the cache: with no colour left, the one
      placement of the leaderboard; otherwise, on the normalised board, the
      outcomes of every colour the loop visits, in order, with die values
      1, 2, 3, concatenated.  The empty check comes before `normalize`. */
  function Sim(m: CamelMap, s: CS.ColorState): (r: seq<Placement>)
    requires Safe(m, s)
    decreases CS.Len(s), 2
  {
    if CS.Len(s) == 0 then
      StandingsFit(m);
      [PlacementOf(Leaderboard(m))]
    else
      NormalizedValid(m);
      ExpandColors(NormalizeMap(m), s, |Rolls(s)|)
  }

  /** The outcomes of the first `i` colours of the loop, in loop order. */
  function ExpandColors(n: CamelMap, s: CS.ColorState, i: nat): (r: seq<Placement>)
    requires Valid(n) && LoopSafe(n, s) && i <= |Rolls(s)|
    decreases CS.Len(s), 1, i
  {
    if i == 0 then []
    else ExpandColors(n, s, i - 1) + ExpandDice(n, s, i - 1, 3)
  }

  /** The outcomes of rolling the `j`-th colour of the loop with the values
      1 to `d`, in order. */
  function ExpandDice(n: CamelMap, s: CS.ColorState, j: nat, d: nat): (r: seq<Placement>)
    requires Valid(n) && LoopSafe(n, s) && j < |Rolls(s)| && d <= 3
    decreases CS.Len(s), 1, 0, d
  {
    if d == 0 then []
    else ExpandDice(n, s, j, d - 1) + Branch(n, s, j, d)
  }

  /** The outcomes after die value `d` for the `j`-th colour of the loop:
      the colour leaves the set (the cursor stays) and the camel moves. */
  function Branch(n: CamelMap, s: CS.ColorState, j: nat, d: nat): (r: seq<Placement>)
    requires Valid(n) && j < |Rolls(s)| && 1 <= d <= 3 && SafeBranch(n, s, j, d)
    decreases CS.Len(s), 0
  {
    var c := Rolls(s)[j];
    RollsAfter(s, j);
    Sim(MoveCamel(n, c, d), CS.RemoveColor(s, c))
  }

  /** Unfolding one colour: its three values follow the earlier colours. */
  lemma ColorsStep(n: CamelMap, s: CS.ColorState, i: nat)
    requires Valid(n) && LoopSafe(n, s) && 0 < i <= |Rolls(s)|
    ensures ExpandColors(n, s, i) == ExpandColors(n, s, i - 1) + ExpandDice(n, s, i - 1, 3)
  {
  }

  lemma ColorsJoin(n: CamelMap, s: CS.ColorState, i: nat, front: seq<Placement>, more: seq<Placement>)
    requires Valid(n) && LoopSafe(n, s) && i < |Rolls(s)|
    requires front == ExpandColors(n, s, i) && more == ExpandDice(n, s, i, 3)
    ensures front + more == ExpandColors(n, s, i + 1)
  {
  }

  /** Unfolding one value: its outcomes follow the smaller values. */
  lemma DiceStep(n: CamelMap, s: CS.ColorState, j: nat, d: nat)
    requires Valid(n) && LoopSafe(n, s) && j < |Rolls(s)| && 1 <= d <= 3
    ensures SafeBranch(n, s, j, d)
    ensures ExpandDice(n, s, j, d) == ExpandDice(n, s, j, d - 1) + Branch(n, s, j, d)
  {
  }

  // ---------------------------------------------------------------------
  // A board with room for the whole round

  /** The furthest one roll of 1 to 3 carries a camel: 3 fields, 4 when an
      Oasis may add one. */
  function Stride(m: CamelMap): nat {
    if m.cards == NoCards() then 3 else 4
  }

  /** How many colours among indices `k..4` are still to roll and stand on
      field `f` or further. */
  function Rollers(pos: seq<nat>, s: CS.ColorState, f: nat, k: nat): nat
    requires |pos| == 5 && k <= 5
    decreases 5 - k
  {
    if k == 5 then 0
    else (if CS.HasIndex(s, k) && pos[k] >= f then 1 else 0) + Rollers(pos, s, f, k + 1)
  }

  /** Room for the whole round: a valid board on which every colour still
      to roll stands, and every camel, pushed on by a full stride for each
      colour still to roll that stands level with it or ahead of it, stays
      on the 16 fields.  Only the colours level or ahead can carry a camel
      or be carried past it, so the bound holds again after any roll and
      after normalising; it is a sufficient condition for `Safe`. */
  ghost predicate Room(m: CamelMap, s: CS.ColorState) {
    && Valid(m)
    && (forall c :: CS.Contains(s, c) ==> Placed(m, c))
    && forall k :: 0 <= k < 5 ==> m.colorPos[k] + Stride(m) * Rollers(m.colorPos, s, m.colorPos[k], 0) < FieldCount
  }

  /** Counting colours under a pointwise comparison: a colour counted on
      the left is counted on the right; `r`, counted only on the right,
      adds one. */
  lemma {:induction false} RollersLe(pos: seq<nat>, s: CS.ColorState, f: nat, pos2: seq<nat>, t: CS.ColorState, f2: nat, r: nat, k: nat)
    requires |pos| == 5 && |pos2| == 5 && k <= 5 && r < 5
    requires forall y :: k <= y < 5 && CS.HasIndex(t, y) && pos2[y] >= f2 ==> CS.HasIndex(s, y) && pos[y] >= f
    requires !CS.HasIndex(t, r)
    ensures Rollers(pos2, t, f2, k) + (if k <= r && CS.HasIndex(s, r) && pos[r] >= f then 1 else 0) <= Rollers(pos, s, f, k)
    decreases 5 - k
  {
    if k < 5 {
      RollersLe(pos, s, f, pos2, t, f2, r, k + 1);
    }
  }

  /** Moving every camel down by `sh` fields keeps the count. */
  lemma {:induction false} RollersShift(pos: seq<nat>, pos2: seq<nat>, s: CS.ColorState, f: nat, sh: nat, k: nat)
    requires |pos| == 5 && |pos2| == 5 && k <= 5 && f >= sh
    requires forall y :: 0 <= y < 5 ==> pos2[y] == pos[y] - sh
    ensures Rollers(pos2, s, f - sh, k) == Rollers(pos, s, f, k)
    decreases 5 - k
  {
    if k < 5 {
      RollersShift(pos, pos2, s, f, sh, k + 1);
    }
  }

  /** A colour still to roll counts itself. */
  lemma {:induction false} RollersPositive(pos: seq<nat>, s: CS.ColorState, f: nat, r: nat, k: nat)
    requires |pos| == 5 && k <= r < 5 && CS.HasIndex(s, r) && pos[r] >= f
    ensures Rollers(pos, s, f, k) >= 1
    decreases 5 - k
  {
    if k < r {
      RollersPositive(pos, s, f, r, k + 1);
    }
  }

  /** One roll carries the camels it moves from field `p` to field `q`
      together; every other camel keeps its field. */
  ghost predicate Carried(pos: seq<nat>, pos2: seq<nat>, p: nat, q: nat)
    requires |pos| == 5 && |pos2| == 5
  {
    forall y :: 0 <= y < 5 ==> pos2[y] == pos[y] || (pos[y] == p && pos2[y] == q)
  }

  lemma StrideArith(st: nat, v: nat, p: nat, a: nat, b: nat)
    requires v <= p + st && a + 1 <= b
    ensures v + st * a <= p + st * b
  {
    assert st * a + st == st * (a + 1);
    assert st * (a + 1) <= st * b;
  }

  lemma MulMono(st: nat, a: nat, b: nat)
    requires a <= b
    ensures st * a <= st * b
  {
  }

  /** The bound for camel `x` after a roll of `r` from `p` to `q`, at most
      one stride on.  A camel that ends between `p` (exclusive) and `q` is
      passed or carried only by colours that stood at `p` or further, and
      `r` is no longer among them; any other camel keeps its field, and the
      colours level with it or ahead did not grow. */
  lemma RoomStepAt(pos: seq<nat>, pos2: seq<nat>, s: CS.ColorState, t: CS.ColorState, r: nat, p: nat, q: nat, st: nat, x: nat)
    requires |pos| == 5 && |pos2| == 5 && r < 5 && x < 5
    requires Carried(pos, pos2, p, q) && pos[r] == p && p <= q <= p + st
    requires CS.HasIndex(s, r) && !CS.HasIndex(t, r)
    requires forall y :: 0 <= y < 5 && CS.HasIndex(t, y) ==> CS.HasIndex(s, y)
    requires forall y :: 0 <= y < 5 ==> pos[y] + st * Rollers(pos, s, pos[y], 0) < FieldCount
    ensures pos2[x] + st * Rollers(pos2, t, pos2[x], 0) < FieldCount
  {
    var v := pos2[x];
    if p < v <= q {
      RollersLe(pos, s, p, pos2, t, v, r, 0);
      StrideArith(st, v, p, Rollers(pos2, t, v, 0), Rollers(pos, s, p, 0));
      assert pos[r] + st * Rollers(pos, s, pos[r], 0) < FieldCount;
    } else {
      assert pos[x] == v;
      RollersLe(pos, s, v, pos2, t, v, r, 0);
      MulMono(st, Rollers(pos2, t, v, 0), Rollers(pos, s, v, 0));
    }
  }

  /** From a field with a stride to spare, a roll of 1 to 3 lands on the
      board, no further back than where it started and at most a stride on. */
  lemma RollLands(m: CamelMap, c: Color, d: nat)
    requires Valid(m) && Placed(m, c) && 1 <= d <= 3 && FindCamel(m, c) + Stride(m) < FieldCount
    ensures CanMove(m, c, d)
    ensures FindCamel(m, c) <= Destination(m, c, d) <= FindCamel(m, c) + Stride(m)
  {
    if m.cards == NoCards() {
      assert m.cards[FindCamel(m, c) + d] == Option.None;
    }
  }

  /** `move_camel` carries the group from the mover's field to the
      destination and leaves every other colour index alone. */
  lemma RollCarries(m: CamelMap, c: Color, d: nat)
    requires Valid(m) && Placed(m, c) && CanMove(m, c, d)
    ensures Carried(m.colorPos, MoveCamel(m, c, d).colorPos, FindCamel(m, c), Destination(m, c, d) as nat)
  {
    var r := MoveCamel(m, c, d);
    forall y | 0 <= y < 5
      ensures r.colorPos[y] == m.colorPos[y] || (m.colorPos[y] == FindCamel(m, c) && r.colorPos[y] == Destination(m, c, d))
    {
      var x := All[y];
      AllIndex(y);
      if Placed(m, x) {
        if x in Group(m, c) {
          GroupMember(m, c, x);
        }
      } else {
        assert !Placed(r, x);
        assert x !in Stack(m, m.colorPos[y]) && x !in Stack(r, r.colorPos[y]);
      }
    }
  }

  /** The members of the set without `c` are members of the set, and `c`
      is not. */
  lemma RemovedBits(s: CS.ColorState, c: Color)
    requires CS.Contains(s, c)
    ensures CS.HasIndex(s, Index(c)) && !CS.HasIndex(CS.RemoveColor(s, c), Index(c))
    ensures forall y :: 0 <= y < 5 && CS.HasIndex(CS.RemoveColor(s, c), y) ==> CS.HasIndex(s, y)
  {
    var t := CS.RemoveColor(s, c);
    MemberBit(t, Index(c));
    forall y | 0 <= y < 5 && CS.HasIndex(t, y) ensures CS.HasIndex(s, y) {
      MemberBit(s, y);
      MemberBit(t, y);
    }
  }

  /** A colour still to roll stands on the board with a stride to spare. */
  lemma RoomStride(m: CamelMap, s: CS.ColorState, c: Color)
    requires Room(m, s) && CS.Contains(s, c)
    ensures Placed(m, c) && FindCamel(m, c) + Stride(m) < FieldCount
  {
    var pos := m.colorPos;
    var r := Index(c);
    RollersPositive(pos, s, pos[r], r, 0);
    MulMono(Stride(m), 1, Rollers(pos, s, pos[r], 0));
    assert pos[r] + Stride(m) * Rollers(pos, s, pos[r], 0) < FieldCount;
  }

  /** A roll of 1 to 3 for a colour still to roll is a legal move, and the
      board keeps room for the colours left. */
  lemma RollRoom(m: CamelMap, s: CS.ColorState, c: Color, d: nat)
    requires Room(m, s) && CS.Contains(s, c) && 1 <= d <= 3
    ensures Placed(m, c) && CanMove(m, c, d)
    ensures Room(MoveCamel(m, c, d), CS.RemoveColor(s, c))
  {
    var pos := m.colorPos;
    var p := FindCamel(m, c);
    var st := Stride(m);
    var r := Index(c);
    var t := CS.RemoveColor(s, c);
    RemovedBits(s, c);
    RoomStride(m, s, c);
    RollLands(m, c, d);
    var q := Destination(m, c, d) as nat;
    var n := MoveCamel(m, c, d);
    RollCarries(m, c, d);
    forall y | 0 <= y < 5 ensures n.colorPos[y] + Stride(n) * Rollers(n.colorPos, t, n.colorPos[y], 0) < FieldCount {
      RoomStepAt(pos, n.colorPos, s, t, r, p, q, st, y);
    }
  }

  /** Normalising keeps the room: every camel moves down by the same
      distance, so the colours level or ahead stay the same. */
  lemma NormalizeRoom(m: CamelMap, s: CS.ColorState)
    requires Room(m, s)
    ensures CamelsOnly(m) && Room(NormalizeMap(m), s)
  {
    NormalizeSpec(m);
    var sh := MinOf(m.colorPos);
    if sh > 0 {
      NormalizeShifts(m);
      ShiftedRoom(m, NormalizeMap(m), s, sh);
    }
  }

  lemma ShiftedRoom(m: CamelMap, n: CamelMap, s: CS.ColorState, sh: nat)
    requires Room(m, s) && Valid(n) && Full(n) && n.cards == m.cards
    requires forall k :: 0 <= k < 5 ==> n.colorPos[k] == m.colorPos[k] - sh
    ensures Room(n, s)
  {
    forall k | 0 <= k < 5 ensures n.colorPos[k] + Stride(n) * Rollers(n.colorPos, s, n.colorPos[k], 0) < FieldCount {
      ShiftedBound(m.colorPos, n.colorPos, s, k, sh, Stride(m));
    }
  }

  /** One camel's bound in `Room` survives moving every camel back by `sh`. */
  lemma ShiftedBound(pos: seq<nat>, pos2: seq<nat>, s: CS.ColorState, k: nat, sh: nat, stride: nat)
    requires |pos| == 5 && |pos2| == 5 && k < 5
    requires forall y :: 0 <= y < 5 ==> pos2[y] == pos[y] - sh
    requires pos[k] + stride * Rollers(pos, s, pos[k], 0) < FieldCount
    ensures pos2[k] + stride * Rollers(pos2, s, pos2[k], 0) < FieldCount
  {
    RollersShift(pos, pos2, s, pos[k], sh, 0);
  }

  /** A board with room for the round runs it without a panic. */
  lemma {:induction false} RoomSafe(m: CamelMap, s: CS.ColorState)
    requires Room(m, s)
    ensures Safe(m, s)
    decreases CS.Len(s), 2
  {
    if CS.Len(s) > 0 {
      NormalizeRoom(m, s);
      NormalizedValid(m);
      RoomLoop(NormalizeMap(m), s);
    }
  }

  lemma {:induction false} RoomLoop(n: CamelMap, s: CS.ColorState)
    requires Room(n, s)
    ensures LoopSafe(n, s)
    decreases CS.Len(s), 1
  {
    forall j, d | 0 <= j < |Rolls(s)| && 1 <= d <= 3 ensures SafeBranch(n, s, j, d) {
      RoomBranch(n, s, j, d);
    }
  }

  lemma {:induction false} RoomBranch(n: CamelMap, s: CS.ColorState, j: nat, d: nat)
    requires Room(n, s) && j < |Rolls(s)| && 1 <= d <= 3
    ensures SafeBranch(n, s, j, d)
    decreases CS.Len(s), 0
  {
    var c := Rolls(s)[j];
    RollsAfter(s, j);
    RollRoom(n, s, c, d);
    RoomSafe(MoveCamel(n, c, d), CS.RemoveColor(s, c));
  }

  // ---------------------------------------------------------------------
  // Number of outcomes

  /** The outcomes of a round with the colours of `s` to roll: `k!·3^k`
      for `k` colours, none when a member sits below the cursor (the loop
      never rolls it, so no branch empties the set). */
  function RoundSize(s: CS.ColorState): nat {
    if NoneSkipped(s) then Outcomes(CS.Len(s)) else 0
  }

  /** What each branch of a round with the colours of `s` to roll yields. */
  function BranchSize(s: CS.ColorState): nat {
    if NoneSkipped(s) && CS.Len(s) > 0 then Outcomes(CS.Len(s) - 1) else 0
  }

  /** A round of a safe configuration has `RoundSize` outcomes: 1 with no
      colour left, 3 for one colour, 29160 for all five. */
  lemma {:induction false} SimCount(m: CamelMap, s: CS.ColorState)
    requires Safe(m, s)
    ensures |Sim(m, s)| == RoundSize(s)
    decreases CS.Len(s), 2
  {
    if CS.Len(s) > 0 {
      NormalizedValid(m);
      LoopCount(NormalizeMap(m), s);
    }
  }

  /** The colour loop on a board where it runs without a panic yields
      `RoundSize` outcomes. */
  lemma {:induction false} LoopCount(n: CamelMap, s: CS.ColorState)
    requires Valid(n) && LoopSafe(n, s) && CS.Len(s) > 0
    ensures |ExpandColors(n, s, |Rolls(s)|)| == RoundSize(s)
    decreases CS.Len(s), 1, 1
  {
    forall j | 0 <= j < |Rolls(s)| ensures |ExpandDice(n, s, j, 3)| == 3 * BranchSize(s) {
      DiceCount(n, s, j);
    }
    ExpandColorsCount(n, s, |Rolls(s)|, 3 * BranchSize(s));
    if NoneSkipped(s) {
      AllRolls(s);
      TimesIsProduct(3, Outcomes(CS.Len(s) - 1));
    } else {
      TimesZero(|Rolls(s)|);
    }
  }

  lemma {:induction false} TimesZero(a: nat)
    ensures Times(a, 0) == 0
  {
    if a > 0 {
      TimesZero(a - 1);
    }
  }

  /** With every colour of the loop contributing `x` outcomes, the first
      `i` contribute `i` times as many. */
  lemma {:induction false} ExpandColorsCount(n: CamelMap, s: CS.ColorState, i: nat, x: nat)
    requires Valid(n) && LoopSafe(n, s) && i <= |Rolls(s)|
    requires forall j :: 0 <= j < |Rolls(s)| ==> |ExpandDice(n, s, j, 3)| == x
    ensures |ExpandColors(n, s, i)| == Times(i, x)
  {
    if i > 0 {
      ExpandColorsCount(n, s, i - 1, x);
      ColorsCountStep(n, s, i, x);
    } else {
      ColorsZero(n, s);
    }
  }

  lemma ColorsZero(n: CamelMap, s: CS.ColorState)
    requires Valid(n) && LoopSafe(n, s)
    ensures ExpandColors(n, s, 0) == []
  {
  }

  lemma ColorsCountStep(n: CamelMap, s: CS.ColorState, i: nat, x: nat)
    requires Valid(n) && LoopSafe(n, s) && 0 < i <= |Rolls(s)|
    requires |ExpandColors(n, s, i - 1)| == Times(i - 1, x) && |ExpandDice(n, s, i - 1, 3)| == x
    ensures |ExpandColors(n, s, i)| == Times(i, x)
  {
    ColorsStep(n, s, i);
  }

  /** Each colour of the loop contributes three die values' worth. */
  lemma {:induction false} DiceCount(n: CamelMap, s: CS.ColorState, j: nat)
    requires Valid(n) && LoopSafe(n, s) && j < |Rolls(s)|
    ensures |ExpandDice(n, s, j, 3)| == 3 * BranchSize(s)
    decreases CS.Len(s), 1, 0
  {
    BranchCount(n, s, j, 1);
    BranchCount(n, s, j, 2);
    BranchCount(n, s, j, 3);
    DiceCountOf(n, s, j, BranchSize(s));
  }

  lemma DiceCountOf(n: CamelMap, s: CS.ColorState, j: nat, x: nat)
    requires Valid(n) && LoopSafe(n, s) && j < |Rolls(s)|
    requires |Branch(n, s, j, 1)| == x && |Branch(n, s, j, 2)| == x && |Branch(n, s, j, 3)| == x
    ensures |ExpandDice(n, s, j, 3)| == 3 * x
  {
    DiceLength(n, s, j, 1, 0, x);
    DiceLength(n, s, j, 2, x, x);
    DiceLength(n, s, j, 3, x + x, x);
  }

  lemma DiceLength(n: CamelMap, s: CS.ColorState, j: nat, d: nat, a: nat, x: nat)
    requires Valid(n) && LoopSafe(n, s) && j < |Rolls(s)| && 1 <= d <= 3
    requires |ExpandDice(n, s, j, d - 1)| == a && |Branch(n, s, j, d)| == x
    ensures |ExpandDice(n, s, j, d)| == a + x
  {
    DiceStep(n, s, j, d);
  }

  lemma {:induction false} BranchCount(n: CamelMap, s: CS.ColorState, j: nat, d: nat)
    requires Valid(n) && LoopSafe(n, s) && j < |Rolls(s)| && 1 <= d <= 3
    ensures |Branch(n, s, j, d)| == BranchSize(s)
    decreases CS.Len(s), 0
  {
    DiceStep(n, s, j, d);
    var c := Rolls(s)[j];
    RollsAfter(s, j);
    SimCount(MoveCamel(n, c, d), CS.RemoveColor(s, c));
  }

  // ---------------------------------------------------------------------
  // Shape of each outcome

  /** A finishing order of all five camels as indices: five different
      indices below 5. */
  predicate Ranking(p: Placement) {
    |p| == 5 && (forall i :: 0 <= i < 5 ==> p[i] < 5) && Distinct(p)
  }

  /** Every outcome in `ps` is a ranking. */
  ghost predicate AllRankings(ps: seq<Placement>) {
    forall j :: 0 <= j < |ps| ==> Ranking(ps[j])
  }

  /** The leaderboard of a board with all five camels is a ranking. */
  lemma LeaderboardRanking(m: CamelMap)
    requires Valid(m) && Full(m)
    ensures |Standings(m, FieldCount)| <= 5 && Ranking(PlacementOf(Leaderboard(m)))
  {
    LeaderboardSpec(m);
    FullLeaderboardCamels(Leaderboard(m));
    CamelsRanking(Leaderboard(m));
  }

  /** A list holding each camel once holds no `None`. */
  lemma FullLeaderboardCamels(r: seq<Color>)
    requires |r| == 5 && multiset(r) == multiset(All)
    ensures forall i :: 0 <= i < 5 ==> IsCamel(r[i])
  {
    forall i | 0 <= i < 5 ensures IsCamel(r[i]) {
      assert r[i] in multiset(r);
      assert r[i] in All;
    }
  }

  /** Five different camels become five different indices below 5. */
  lemma CamelsRanking(r: seq<Color>)
    requires |r| == 5 && forall i :: 0 <= i < 5 ==> IsCamel(r[i])
    requires forall j, l :: 0 <= j < l < 5 && IsCamel(r[j]) ==> r[j] != r[l]
    ensures Ranking(PlacementOf(r))
  {
    var p := PlacementOf(r);
    forall i | 0 <= i < 5 ensures p[i] < 5 {
      assert FromIndex(p[i]) == r[i];
    }
    forall j, l | 0 <= j < l < 5 ensures p[j] != p[l] {
      assert FromIndex(p[j]) == r[j] && FromIndex(p[l]) == r[l];
    }
  }

  lemma AppendRankings(a: seq<Placement>, b: seq<Placement>)
    requires AllRankings(a) && AllRankings(b)
    ensures AllRankings(a + b)
  {
    forall j | 0 <= j < |a + b| ensures Ranking((a + b)[j]) {
      if j >= |a| {
        assert (a + b)[j] == b[j - |a|];
      }
    }
  }

  /** With all five camels on the board every outcome is a ranking: the
      entries are the indices 0..4, each once. */
  lemma {:induction false} SimRankings(m: CamelMap, s: CS.ColorState)
    requires Safe(m, s) && Full(m)
    ensures AllRankings(Sim(m, s))
    decreases CS.Len(s), 2
  {
    if CS.Len(s) == 0 {
      LeaderboardRanking(m);
    } else {
      NormalizedValid(m);
      NormalizeSpec(m);
      var n := NormalizeMap(m);
      forall j | 0 <= j < |Rolls(s)| ensures AllRankings(ExpandDice(n, s, j, 3)) {
        DiceRankings(n, s, j);
      }
      ExpandColorsRankings(n, s, |Rolls(s)|);
    }
  }

  /** With every colour of the loop yielding rankings, so do the first `i`. */
  lemma {:induction false} ExpandColorsRankings(n: CamelMap, s: CS.ColorState, i: nat)
    requires Valid(n) && LoopSafe(n, s) && i <= |Rolls(s)|
    requires forall j :: 0 <= j < |Rolls(s)| ==> AllRankings(ExpandDice(n, s, j, 3))
    ensures AllRankings(ExpandColors(n, s, i))
  {
    if i > 0 {
      ExpandColorsRankings(n, s, i - 1);
      ColorsRankingsStep(n, s, i);
    } else {
      ColorsZero(n, s);
    }
  }

  lemma ColorsRankingsStep(n: CamelMap, s: CS.ColorState, i: nat)
    requires Valid(n) && LoopSafe(n, s) && 0 < i <= |Rolls(s)|
    requires AllRankings(ExpandColors(n, s, i - 1)) && AllRankings(ExpandDice(n, s, i - 1, 3))
    ensures AllRankings(ExpandColors(n, s, i))
  {
    ColorsStep(n, s, i);
    AppendRankings(ExpandColors(n, s, i - 1), ExpandDice(n, s, i - 1, 3));
  }

  /** The three die values of one colour of the loop yield rankings. */
  lemma {:induction false} DiceRankings(n: CamelMap, s: CS.ColorState, j: nat)
    requires Valid(n) && LoopSafe(n, s) && j < |Rolls(s)| && Full(n)
    ensures AllRankings(ExpandDice(n, s, j, 3))
    decreases CS.Len(s), 1
  {
    BranchRankings(n, s, j, 1);
    BranchRankings(n, s, j, 2);
    BranchRankings(n, s, j, 3);
    DiceRankingsOf(n, s, j);
  }

  lemma DiceRankingsOf(n: CamelMap, s: CS.ColorState, j: nat)
    requires Valid(n) && LoopSafe(n, s) && j < |Rolls(s)|
    requires AllRankings(Branch(n, s, j, 1)) && AllRankings(Branch(n, s, j, 2)) && AllRankings(Branch(n, s, j, 3))
    ensures AllRankings(ExpandDice(n, s, j, 3))
  {
    DiceRankingsStep(n, s, j, 1);
    DiceRankingsStep(n, s, j, 2);
    DiceRankingsStep(n, s, j, 3);
  }

  lemma DiceRankingsStep(n: CamelMap, s: CS.ColorState, j: nat, d: nat)
    requires Valid(n) && LoopSafe(n, s) && j < |Rolls(s)| && 1 <= d <= 3
    requires AllRankings(ExpandDice(n, s, j, d - 1)) && AllRankings(Branch(n, s, j, d))
    ensures AllRankings(ExpandDice(n, s, j, d))
  {
    DiceStep(n, s, j, d);
    AppendRankings(ExpandDice(n, s, j, d - 1), Branch(n, s, j, d));
  }

  lemma {:induction false} BranchRankings(n: CamelMap, s: CS.ColorState, j: nat, d: nat)
    requires Valid(n) && LoopSafe(n, s) && j < |Rolls(s)| && 1 <= d <= 3 && Full(n)
    ensures AllRankings(Branch(n, s, j, d))
    decreases CS.Len(s), 0
  {
    DiceStep(n, s, j, d);
    var c := Rolls(s)[j];
    RollsAfter(s, j);
    SimRankings(MoveCamel(n, c, d), CS.RemoveColor(s, c));
  }

  // ---------------------------------------------------------------------
  // The memoised recursion

  /** The cache of `simulate_round_rec`, keyed like `Configuration`'s
      `Hash`/`Eq`: the board and the membership byte of the colours left.
      The cursor is not part of the key. */
  type Cache = map<(CamelMap, bv8), seq<Placement>>

  /** The iterator cursor bits of a set. */
  function CursorBits(s: CS.ColorState): bv8 {
    s.state & 0x07
  }

  /** The set a key stands for when it carries the cursor bits `cur`. */
  function KeyState(key: (CamelMap, bv8), cur: bv8): CS.ColorState {
    CS.ColorState(key.1 | cur)
  }

  /** A set is its membership byte with its cursor bits put back. */
  lemma KeyStateOf(m: CamelMap, s: CS.ColorState)
    ensures KeyState((m, CS.Hash(s)), CursorBits(s)) == s
  {
    assert (s.state & 0xF8) | (s.state & 0x07) == s.state;
  }

  /** Every entry holds the outcomes of the configuration it is keyed by,
      read with the cursor `cur`.  Every configuration of one round shares
      the starting set's cursor (`remove_color` keeps it), so one `cur`
      serves the whole recursion. */
  ghost predicate CacheSound(cache: Cache, cur: bv8) {
    forall key :: key in cache ==> Safe(key.0, KeyState(key, cur)) && cache[key] == Sim(key.0, KeyState(key, cur))
  }

  /** Normalising first changes nothing: the expansion normalises anyway,
      and a normalised board normalises to itself. */
  lemma NormalizedSim(m: CamelMap, s: CS.ColorState)
    requires Safe(m, s) && CS.Len(s) > 0
    ensures CamelsOnly(m) && Safe(NormalizeMap(m), s)
    ensures Sim(NormalizeMap(m), s) == Sim(m, s)
  {
    NormalizedValid(m);
    NormalizeIdempotent(m);
  }

  /** `simulate_round_rec`: with no colour left the leaderboard; otherwise
      normalise, answer from the cache if the configuration is known, else
      expand every colour and remember the result. */
  method SimulateRoundRec(c: Configuration, cache: Cache) returns (r: seq<Placement>, cache': Cache)
    requires Safe(c.board, c.available) && CacheSound(cache, CursorBits(c.available))
    ensures r == Sim(c.board, c.available)
    ensures CacheSound(cache', CursorBits(c.available))
    decreases CS.Len(c.available), 3, 0
  {
    if CS.Len(c.available) == 0 {
      StandingsFit(c.board);
      return [PlacementOf(Leaderboard(c.board))], cache;
    }
    NormalizedSim(c.board, c.available);
    var conf := Normalize(c);
    var key := Key(conf);
    KeyStateOf(conf.board, conf.available);
    if key in cache {
      return cache[key], cache;
    }
    NormalizedValid(conf.board);
    r, cache' := ColorLoop(conf, cache);
    cache' := Remember(cache', conf, r);
  }

  /** `cache.insert(conf, result)` keeps the cache sound. */
  function Remember(cache: Cache, conf: Configuration, ps: seq<Placement>): (r: Cache)
    requires CacheSound(cache, CursorBits(conf.available)) && Safe(conf.board, conf.available)
    requires ps == Sim(conf.board, conf.available)
    ensures CacheSound(r, CursorBits(conf.available))
    ensures Key(conf) in r && r[Key(conf)] == ps
  {
    RememberSound(cache, conf, ps);
    cache[Key(conf) := ps]
  }

  lemma RememberSound(cache: Cache, conf: Configuration, ps: seq<Placement>)
    requires CacheSound(cache, CursorBits(conf.available)) && Safe(conf.board, conf.available)
    requires ps == Sim(conf.board, conf.available)
    ensures CacheSound(cache[Key(conf) := ps], CursorBits(conf.available))
  {
    var cur := CursorBits(conf.available);
    var r := cache[Key(conf) := ps];
    KeyStateOf(conf.board, conf.available);
    forall key | key in r
      ensures Safe(key.0, KeyState(key, cur)) && r[key] == Sim(key.0, KeyState(key, cur))
    {
      if key != Key(conf) {
        assert key in cache;
      }
    }
  }

  /** The loop `for color_code in &conf.available_colours` on the
      normalised configuration: each colour's three branches in loop
      order, threading the cache from one colour to the next. */
  method ColorLoop(conf: Configuration, cache: Cache) returns (r: seq<Placement>, cache': Cache)
    requires Valid(conf.board) && LoopSafe(conf.board, conf.available)
    requires CacheSound(cache, CursorBits(conf.available))
    ensures r == ExpandColors(conf.board, conf.available, |Rolls(conf.available)|)
    ensures CacheSound(cache', CursorBits(conf.available))
    decreases CS.Len(conf.available), 2
  {
    var rolls := Rolls(conf.available);
    r, cache' := [], cache;
    ColorsZero(conf.board, conf.available);
    var i := 0;
    while i < |rolls|
      invariant i <= |rolls|
      invariant r == ExpandColors(conf.board, conf.available, i)
      invariant CacheSound(cache', CursorBits(conf.available))
    {
      var more;
      more, cache' := ExpandDiceRec(conf, i, cache');
      ColorsJoin(conf.board, conf.available, i, r, more);
      r := r + more;
      i := i + 1;
    }
  }

  /** The inner loop, `for dice_value in 1..=3`, for the `j`-th colour of
      the outer loop: clone, push the die, remove the colour, move the
      camel, recurse, append. */
  method ExpandDiceRec(conf: Configuration, j: nat, cache: Cache) returns (r: seq<Placement>, cache': Cache)
    requires Valid(conf.board) && LoopSafe(conf.board, conf.available) && j < |Rolls(conf.available)|
    requires CacheSound(cache, CursorBits(conf.available))
    ensures r == ExpandDice(conf.board, conf.available, j, 3)
    ensures CacheSound(cache', CursorBits(conf.available))
    decreases CS.Len(conf.available), 1, 0
  {
    r, cache' := [], cache;
    var value := 0;
    while value < 3
      invariant value <= 3
      invariant r == ExpandDice(conf.board, conf.available, j, value)
      invariant CacheSound(cache', CursorBits(conf.available))
    {
      value := value + 1;
      var sub;
      sub, cache' := SimulateRoundRec(Step(conf, j, value), cache');
      DiceStep(conf.board, conf.available, j, value);
      r := r + sub;
    }
  }

  /** The configuration after rolling `value` for the `j`-th colour of the
      loop: the die pushed, the colour removed with the cursor kept, the
      camel moved; its round is that branch of the parent's. */
  function Step(conf: Configuration, j: nat, value: nat): (next: Configuration)
    requires Valid(conf.board) && j < |Rolls(conf.available)| && 1 <= value <= 3
    requires SafeBranch(conf.board, conf.available, j, value)
    ensures Safe(next.board, next.available)
    ensures CS.Len(next.available) + 1 == CS.Len(conf.available)
    ensures CursorBits(next.available) == CursorBits(conf.available)
    ensures forall x :: CS.Contains(next.available, x) <==> CS.Contains(conf.available, x) && x != Rolls(conf.available)[j]
    ensures next.diceQueue == conf.diceQueue + [Dice(Rolls(conf.available)[j], value)]
    ensures Sim(next.board, next.available) == Branch(conf.board, conf.available, j, value)
  {
    var color := Rolls(conf.available)[j];
    RollsAfter(conf.available, j);
    var t := CS.RemoveColor(conf.available, color);
    assert CursorBits(t) == CursorBits(conf.available) by {
      assert CS.Cursor(t) == CS.Cursor(conf.available);
    }
    Configuration(MoveCamel(conf.board, color, value), conf.diceQueue + [Dice(color, value)], t)
  }

  /** `simulate_rounds`: the recursion from an empty cache; a round with
      `k` colours still to roll, none of them below the cursor, has
      `k!·3^k` outcomes. */
  method SimulateRounds(c: Configuration) returns (r: seq<Placement>)
    requires Safe(c.board, c.available)
    ensures r == Sim(c.board, c.available)
    ensures |r| == RoundSize(c.available)
    ensures NoneSkipped(c.available) ==> |r| == Outcomes(CS.Len(c.available))
  {
    var cache;
    r, cache := SimulateRoundRec(c, map[]);
    SimCount(c.board, c.available);
  }
}
