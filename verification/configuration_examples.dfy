/** The scenarios of `calc/tests/configuration_tests.rs`, derived from the
    general contracts. */
module ConfigurationExamples {
  import opened Wrappers
  import opened Colors
  import opened CamelMaps
  import opened Configurations
  import CS = ColorStates

  /** `test_configuration_builder_default`: Blue and Green on 0, White and
      Yellow on 1, Orange on 2, all five colours to roll, no dice. */
  lemma DefaultBuild(c: Configuration)
    requires c == BuildConfiguration(NewBuilder())
    ensures Valid(c.board) && Full(c.board)
    ensures FindCamel(c.board, Blue) == 0 && FindCamel(c.board, Green) == 0
    ensures FindCamel(c.board, White) == 1 && FindCamel(c.board, Yellow) == 1
    ensures FindCamel(c.board, Orange) == 2
    ensures CS.Len(c.available) == 5 && c.diceQueue == []
  {
    var ps := DefaultParts(c);
    PlacedFromList(ps, c.board);
  }

  /** What `build` falls back on when nothing was set: the default
      placements, entry by entry. */
  lemma DefaultParts(c: Configuration) returns (ps: seq<(nat, Color)>)
    requires c == BuildConfiguration(NewBuilder())
    ensures |ps| == 5 && ps[0] == (0, Blue) && ps[1] == (0, Green) && ps[2] == (1, White)
    ensures ps[3] == (1, Yellow) && ps[4] == (2, Orange)
    ensures PlacementsInRange(ps) && DistinctColors(ps) && c.board == New(ps)
    ensures c.diceQueue == [] && c.available == CS.Default()
  {
    ps := DefaultPlacements;
    FiveEntries(ps);
  }

  /** Five placements on the board, of five different camel colours, given
      entry by entry. */
  lemma FiveEntries(ps: seq<(nat, Color)>)
    requires |ps| == 5
    requires ps[0].0 < FieldCount && ps[1].0 < FieldCount && ps[2].0 < FieldCount
    requires ps[3].0 < FieldCount && ps[4].0 < FieldCount
    requires IsCamel(ps[0].1) && IsCamel(ps[1].1) && IsCamel(ps[2].1) && IsCamel(ps[3].1) && IsCamel(ps[4].1)
    requires ps[0].1 != ps[1].1 && ps[0].1 != ps[2].1 && ps[0].1 != ps[3].1 && ps[0].1 != ps[4].1
    requires ps[1].1 != ps[2].1 && ps[1].1 != ps[3].1 && ps[1].1 != ps[4].1
    requires ps[2].1 != ps[3].1 && ps[2].1 != ps[4].1 && ps[3].1 != ps[4].1
    ensures PlacementsInRange(ps) && DistinctColors(ps)
  {
    forall j | 0 <= j < 5 ensures ps[j].0 < FieldCount && IsCamel(ps[j].1) {
      assert j == 0 || j == 1 || j == 2 || j == 3 || j == 4;
    }
    forall j, l | 0 <= j < l < 5 ensures ps[j].1 != ps[l].1 {
      assert j == 0 || j == 1 || j == 2 || j == 3;
      assert l == 1 || l == 2 || l == 3 || l == 4;
    }
  }

  /** Five distinct placements put every camel on its listed field. */
  lemma PlacedFromList(ps: seq<(nat, Color)>, m: CamelMap)
    requires |ps| == 5 && PlacementsInRange(ps) && DistinctColors(ps) && m == New(ps)
    ensures Valid(m) && Full(m)
    ensures FindCamel(m, ps[0].1) == ps[0].0 && FindCamel(m, ps[1].1) == ps[1].0
    ensures FindCamel(m, ps[2].1) == ps[2].0 && FindCamel(m, ps[3].1) == ps[3].0
    ensures FindCamel(m, ps[4].1) == ps[4].0
  {
    NewSpec(ps);
    ListedFull(ps, m);
  }

  lemma ListedFull(ps: seq<(nat, Color)>, m: CamelMap)
    requires |ps| == 5 && DistinctColors(ps) && Valid(m)
    requires forall j :: 0 <= j < 5 ==> Placed(m, ps[j].1)
    ensures Full(m)
  {
    var cols := [ps[0].1, ps[1].1, ps[2].1, ps[3].1, ps[4].1];
    assert forall j :: 0 <= j < 5 ==> cols[j] == ps[j].1;
    forall c | IsCamel(c) ensures Placed(m, c) {
      FiveDistinctCover(cols, c);
    }
  }

  /** Five different camel colours are all the camel colours. */
  lemma FiveDistinctCover(cols: seq<Color>, c: Color)
    requires |cols| == 5 && Seqs.Distinct(cols) && forall j :: 0 <= j < 5 ==> IsCamel(cols[j])
    requires IsCamel(c)
    ensures c in cols
  {
    if c !in cols {
      forall x | x in cols ensures x in (set d | d in All) - {c} {
        assert All[Index(x)] == x;
      }
      AllDistinct();
      Seqs.DistinctCard(All);
      Seqs.DistinctWithin(cols, (set d | d in All) - {c});
      assert false;
    }
  }

  const BlueAndOrange: seq<Color> := [Blue, Orange]

  /** `test_configuration_builder_with_custom_map`. */
  lemma CustomMapBuild(ps: seq<(nat, Color)>, c: Configuration)
    requires |ps| == 5 && ps[0] == (3, Blue) && ps[1] == (5, Green) && ps[2] == (7, Orange)
    requires ps[3] == (9, White) && ps[4] == (11, Yellow)
    requires c == BuildConfiguration(WithMap(NewBuilder(), ps))
    ensures Valid(c.board)
    ensures FindCamel(c.board, Blue) == 3 && FindCamel(c.board, Green) == 5 && FindCamel(c.board, Orange) == 7
    ensures FindCamel(c.board, White) == 9 && FindCamel(c.board, Yellow) == 11
  {
    FiveEntries(ps);
    BuildSetters(NewBuilder(), ps, c.board, [], c.available);
    PlacedFromList(ps, c.board);
  }

  /** `test_configuration_builder_with_available_colors`. */
  lemma AvailableColorsBuild(cols: seq<Color>)
    requires cols == BlueAndOrange
    ensures CS.Len(BuildConfiguration(WithAvailableColors(NewBuilder(), cols)).available) == 2
  {
    CS.NewLen(cols);
    TwoCamels(cols);
  }

  lemma TwoCamels(cols: seq<Color>)
    requires cols == BlueAndOrange
    ensures |set x | x in cols && IsCamel(x)| == 2
  {
    assert (set x | x in cols && IsCamel(x)) == {Blue, Orange};
  }

  /** `test_configuration_builder_add_dice`: three dice in the order added. */
  lemma AddDiceBuild()
    ensures BuildConfiguration(AddDice(AddDice(AddDice(NewBuilder(), Blue, 1), Green, 3), Orange, 2)).diceQueue
      == [Dice(Blue, 1), Dice(Green, 3), Dice(Orange, 2)]
  {
    var b1 := AddDice(NewBuilder(), Blue, 1);
    var b2 := AddDice(b1, Green, 3);
    var b3 := AddDice(b2, Orange, 2);
    assert b1.diceQueue == Some([Dice(Blue, 1)]);
    assert b2.diceQueue == Some([Dice(Blue, 1)] + [Dice(Green, 3)]);
    assert b3.diceQueue == Some([Dice(Blue, 1)] + [Dice(Green, 3)] + [Dice(Orange, 2)]);
    BuiltQueue(b3);
  }

  /** The built queue is the one the builder holds, read without
      building the default board. */
  lemma BuiltQueue(b: ConfigurationBuilder)
    requires b.diceQueue.Some?
    ensures BuildConfiguration(b).diceQueue == b.diceQueue.value
  {
  }

  /** `test_configuration_normalization`: camels on 2, 4, 6, 8, 10 move to
      0, 2, 4, 6, 8. */
  lemma NormalizationExample(ps: seq<(nat, Color)>, m: CamelMap)
    requires |ps| == 5 && ps[0] == (2, Blue) && ps[1] == (4, Green) && ps[2] == (6, Orange)
    requires ps[3] == (8, White) && ps[4] == (10, Yellow) && m == New(ps)
    ensures Valid(m) && CamelsOnly(m)
    ensures var r := NormalizeMap(m);
      && FindCamel(r, Blue) == 0 && FindCamel(r, Green) == 2 && FindCamel(r, Orange) == 4
      && FindCamel(r, White) == 6 && FindCamel(r, Yellow) == 8
  {
    FiveEntries(ps);
    PlacedFromList(ps, m);
    ShiftByTwo(m);
  }

  lemma ShiftByTwo(m: CamelMap)
    requires Valid(m)
    requires FindCamel(m, Blue) == 2 && FindCamel(m, Green) == 4 && FindCamel(m, Orange) == 6
    requires FindCamel(m, White) == 8 && FindCamel(m, Yellow) == 10
    ensures CamelsOnly(m)
    ensures var r := NormalizeMap(m);
      && FindCamel(r, Blue) == 0 && FindCamel(r, Green) == 2 && FindCamel(r, Orange) == 4
      && FindCamel(r, White) == 6 && FindCamel(r, Yellow) == 8
  {
    assert m.colorPos == [2, 4, 6, 8, 10];
    assert MinOf(m.colorPos) == 2;
    NormalizeSpec(m);
  }
}
