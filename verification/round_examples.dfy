/** The rounds the crate's benches, debug test and `main` run from the
    default configuration, and what the cache key leaves out. */
module RoundExamples {
  import opened Colors
  import opened CamelMaps
  import opened Configurations
  import opened Counting
  import opened Simulation
  import CS = ColorStates
  import ConfigurationExamples

  /** Five camels on fields 0, 0, 2, 1, 1 (by colour index), all five to
      roll, three fields a stride: every camel has room for the rolls of
      the colours level with it or ahead of it. */
  lemma DefaultRollers(pos: seq<nat>, s: CS.ColorState)
    requires |pos| == 5 && pos[0] == 0 && pos[1] == 0 && pos[2] == 2 && pos[3] == 1 && pos[4] == 1
    requires forall k :: 0 <= k < 5 ==> CS.HasIndex(s, k)
    ensures forall k :: 0 <= k < 5 ==> pos[k] + 3 * Rollers(pos, s, pos[k], 0) < FieldCount
  {
    assert CS.HasIndex(s, 0) && CS.HasIndex(s, 1) && CS.HasIndex(s, 2) && CS.HasIndex(s, 3) && CS.HasIndex(s, 4);
    assert Rollers(pos, s, 0, 4) == 1 && Rollers(pos, s, 1, 4) == 1 && Rollers(pos, s, 2, 4) == 0;
    assert Rollers(pos, s, 0, 2) == 3 && Rollers(pos, s, 1, 2) == 3 && Rollers(pos, s, 2, 2) == 1;
    assert Rollers(pos, s, 0, 0) == 5 && Rollers(pos, s, 1, 0) == 3 && Rollers(pos, s, 2, 0) == 1;
  }

  /** Every camel of the default set is a member. */
  lemma DefaultBits(s: CS.ColorState)
    requires s == CS.Default()
    ensures forall k :: 0 <= k < 5 ==> CS.HasIndex(s, k)
  {
    forall k | 0 <= k < 5 ensures CS.HasIndex(s, k) {
      MemberBit(s, k);
      AllIndex(k);
    }
  }

  /** The default configuration (`Configuration::builder().build()`, the
      `init_conf` of `calc/src/main.rs`) has room for its whole round. */
  lemma DefaultRoom(c: Configuration)
    requires c == BuildConfiguration(NewBuilder())
    ensures Room(c.board, c.available) && Full(c.board) && c.board.cards == NoCards()
    ensures CS.Len(c.available) == 5 && NoneSkipped(c.available) && c.available == CS.Default()
  {
    var ps := ConfigurationExamples.DefaultParts(c);
    ConfigurationExamples.DefaultBuild(c);
    var m := c.board;
    assert m.colorPos[0] == FindCamel(m, Blue) && m.colorPos[1] == FindCamel(m, Green);
    assert m.colorPos[2] == FindCamel(m, Orange) && m.colorPos[3] == FindCamel(m, White);
    assert m.colorPos[4] == FindCamel(m, Yellow);
    DefaultBits(c.available);
    DefaultRollers(m.colorPos, c.available);
    FreshNoneSkipped(c.available);
  }

  /** The whole round from the default configuration runs without a panic
      and has `COUNT_ALL` = 29160 outcomes, each a ranking of the five
      camels. */
  lemma DefaultRound(c: Configuration)
    requires c == BuildConfiguration(NewBuilder())
    ensures Safe(c.board, c.available)
    ensures |Sim(c.board, c.available)| == CountAll
    ensures AllRankings(Sim(c.board, c.available))
  {
    DefaultRoom(c);
    RoomSafe(c.board, c.available);
    SimCount(c.board, c.available);
    OutcomesOfFive();
    SimRankings(c.board, c.available);
  }

  /** The cache key leaves the cursor out: the default set and the same
      five colours with the cursor at 4 (what `ColorState::new` gives a
      list holding `None`) key alike, yet from the default board the first
      round has 29160 outcomes and the second, whose loop rolls Yellow
      alone and then finds nothing at or after the cursor, has none.  An
      entry stored under one cursor would be wrong for the other; within
      one call of `simulate_rounds` every configuration keeps the starting
      cursor, so the cache never mixes them. */
  lemma CursorNotKeyed(c: Configuration, d: Configuration)
    requires c == BuildConfiguration(NewBuilder())
    requires d == c.(available := CS.ColorState(0xFC))
    ensures Key(c) == Key(d)
    ensures Safe(c.board, c.available) && Safe(d.board, d.available)
    ensures |Sim(c.board, c.available)| == CountAll && |Sim(d.board, d.available)| == 0
  {
    DefaultRound(c);
    DefaultRoom(c);
    CursorFour(c.board, c.available, d.available);
  }

  /** From a board with room for the default set, the set with the cursor
      at 4 keys alike, runs without a panic and yields nothing. */
  lemma CursorFour(m: CamelMap, s: CS.ColorState, t: CS.ColorState)
    requires Room(m, s) && s == CS.Default() && t == CS.ColorState(0xFC)
    ensures CS.Hash(t) == CS.Hash(s) && Safe(m, t) && |Sim(m, t)| == 0
  {
    DefaultBits(s);
    CursorFourBits(t);
    CursorFourRound(m, s, t);
  }

  /** The same board and colours with the cursor at 4 run no outcome. */
  lemma CursorFourRound(m: CamelMap, s: CS.ColorState, t: CS.ColorState)
    requires Room(m, s) && (forall k :: 0 <= k < 5 ==> CS.HasIndex(s, k))
    requires (forall k :: 0 <= k < 5 ==> CS.HasIndex(t, k)) && !NoneSkipped(t)
    ensures Safe(m, t) && |Sim(m, t)| == 0
  {
    SameRoom(m, s, t);
    RoomSafe(m, t);
    SimCount(m, t);
  }

  /** `0xFC` holds all five colours with the cursor at 4, past Blue. */
  lemma CursorFourBits(s: CS.ColorState)
    requires s == CS.ColorState(0xFC)
    ensures forall k :: 0 <= k < 5 ==> CS.HasIndex(s, k)
    ensures CS.Hash(s) == CS.Hash(CS.Default()) && CS.Cursor(s) == 4
    ensures !NoneSkipped(s)
  {
    forall k | 0 <= k < 5 ensures CS.HasIndex(s, k) {
      assert k == 0 || k == 1 || k == 2 || k == 3 || k == 4;
    }
    assert CS.HasIndex(s, 0) && CS.Min5(CS.Cursor(s)) == 4;
  }

  /** `Room` reads only which colours are members, not the cursor. */
  lemma SameRoom(m: CamelMap, s: CS.ColorState, t: CS.ColorState)
    requires Room(m, s)
    requires (forall k :: 0 <= k < 5 ==> CS.HasIndex(s, k)) && (forall k :: 0 <= k < 5 ==> CS.HasIndex(t, k))
    ensures Room(m, t)
  {
    forall c | CS.Contains(t, c) ensures Placed(m, c) {
      assert CS.Contains(s, c);
    }
    forall k | 0 <= k < 5 ensures m.colorPos[k] + Stride(m) * Rollers(m.colorPos, t, m.colorPos[k], 0) < FieldCount {
      SameRollers(m.colorPos, s, t, m.colorPos[k], 0);
    }
  }

  lemma {:induction false} SameRollers(pos: seq<nat>, s: CS.ColorState, t: CS.ColorState, f: nat, k: nat)
    requires |pos| == 5 && k <= 5
    requires (forall y :: 0 <= y < 5 ==> CS.HasIndex(s, y)) && (forall y :: 0 <= y < 5 ==> CS.HasIndex(t, y))
    ensures Rollers(pos, t, f, k) == Rollers(pos, s, f, k)
    decreases 5 - k
  {
    if k < 5 {
      SameRollers(pos, s, t, f, k + 1);
    }
  }
}
