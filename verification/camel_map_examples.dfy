/** The scenarios of `calc/tests/camel_map_tests.rs` and
    `calc/tests/effect_card_tests.rs`, derived from the general contracts. */
module CamelMapExamples {
  import opened Colors
  import opened Wrappers
  import opened CamelMaps

  /** `builder().with_positions(ps).with_effect_cards(cards).build().unwrap()`. */
  function BuildWithCards(ps: seq<(nat, Color)>, cards: seq<(nat, EffectCard)>): (m: CamelMap)
    requires PlacementsInRange(ps) && CardsInRange(cards)
    ensures m == New(ps).(cards := m.cards) && |m.cards| == FieldCount
    ensures forall j :: 0 <= j < |cards| && (forall l :: j < l < |cards| ==> cards[l].0 != cards[j].0) ==>
      m.cards[cards[j].0] == Some(cards[j].1)
    ensures forall i :: 0 <= i < FieldCount && (forall j :: 0 <= j < |cards| ==> cards[j].0 != i) ==> m.cards[i].None?
  {
    Build(WithEffectCards(WithPositions(Builder(), ps), cards)).value
  }

  /** Replacing the cards keeps a board valid and every camel where it was. */
  lemma WithCardsValid(m: CamelMap, cards: seq<Option<EffectCard>>)
    requires Valid(m) && |cards| == FieldCount
    ensures Valid(m.(cards := cards))
    ensures forall i :: 0 <= i < FieldCount ==> Stack(m.(cards := cards), i) == Stack(m, i)
  {
    assert forall i :: 0 <= i < FieldCount ==> Stack(m.(cards := cards), i) == Stack(m, i);
  }

  /** A valid board's empty field is `None`. */
  lemma EmptyIsNone(m: CamelMap, i: nat)
    requires Valid(m) && i < FieldCount && Stack(m, i) == []
    ensures m.fields[i] == Option.None
  {
  }

  /** `test_move_camel`: Green, on top of Blue at 0, moves 3 alone to the
      empty field 3; Blue and Orange stay. */
  lemma MoveCamelExample(ps: seq<(nat, Color)>, m: CamelMap)
    requires ps == [(0, Blue), (0, Green), (1, Orange)] && m == New(ps)
    ensures Valid(m) && Placed(m, Green) && CanMove(m, Green, 3)
    ensures var r := MoveCamel(m, Green, 3);
      && FindCamel(r, Green) == 3 && FindCamel(r, Blue) == 0 && FindCamel(r, Orange) == 1
      && r.fields[3] == Some([Green])
  {
    MoveTestBoard(ps, m);
    MoveGreenAlone(m);
  }

  lemma MoveTestBoard(ps: seq<(nat, Color)>, m: CamelMap)
    requires ps == [(0, Blue), (0, Green), (1, Orange)] && m == New(ps)
    ensures Valid(m) && Stack(m, 0) == [Blue, Green] && Stack(m, 1) == [Orange] && Stack(m, 3) == []
    ensures m.cards[3].None?
  {
    var qs := MoveTestList(ps);
    NewSpec(qs);
  }

  /** The placements of `test_move_camel`, field by field. */
  lemma MoveTestList(ps: seq<(nat, Color)>) returns (qs: seq<(nat, Color)>)
    requires ps == [(0, Blue), (0, Green), (1, Orange)]
    ensures qs == ps && PlacementsInRange(qs) && DistinctColors(qs)
    ensures OnField(qs, 0) == [Blue, Green] && OnField(qs, 1) == [Orange] && OnField(qs, 3) == []
  {
    qs := ps;
    ThreeDistinct(qs);
    assert OnField([(0, Blue), (0, Green), (1, Orange)], 0) == [Blue, Green];
    assert OnField([(0, Blue), (0, Green), (1, Orange)], 1) == [Orange];
    assert OnField([(0, Blue), (0, Green), (1, Orange)], 3) == [];
  }

  /** Three placements of three different colours, given entry by entry. */
  lemma ThreeDistinct(ps: seq<(nat, Color)>)
    requires |ps| == 3 && ps[0].1 != ps[1].1 && ps[0].1 != ps[2].1 && ps[1].1 != ps[2].1
    ensures DistinctColors(ps)
  {
    forall j, l | 0 <= j < l < 3 ensures ps[j].1 != ps[l].1 {
      assert j == 0 || j == 1;
      assert l == 1 || l == 2;
    }
  }

  lemma MoveGreenAlone(m: CamelMap)
    requires Valid(m) && Stack(m, 0) == [Blue, Green] && Stack(m, 1) == [Orange] && Stack(m, 3) == []
    requires m.cards[3].None?
    ensures Placed(m, Green) && CanMove(m, Green, 3)
    ensures var r := MoveCamel(m, Green, 3);
      && FindCamel(r, Green) == 3 && FindCamel(r, Blue) == 0 && FindCamel(r, Orange) == 1
      && r.fields[3] == Some([Green])
  {
    OnFieldIsPlaced(m, 0, Green);
    OnFieldIsPlaced(m, 0, Blue);
    OnFieldIsPlaced(m, 1, Orange);
    assert Stack(m, 0)[1] == Green;
    assert Group(m, Green) == [Green];
    var r := MoveCamel(m, Green, 3);
    assert Stack(r, 3) == [Green];
  }

  /** `test_oasis_places_camel_on_top_of_stack`: Blue lands on the Oasis at
      3 and ends on top of Green at 4. */
  lemma OasisOnTopExample(m: CamelMap)
    requires m == BuildWithCards([(0, Blue), (4, Green)], [(3, Oasis)])
    ensures Valid(m) && Placed(m, Blue) && CanMove(m, Blue, 3)
    ensures var r := MoveCamel(m, Blue, 3);
      && FindCamel(r, Blue) == 4 && FindCamel(r, Green) == 4
      && r.fields[4] == Some([Green, Blue]) && r.fields[0] == Option.None
  {
    var qs := TwoList([(0, Blue), (4, Green)], 4);
    NewSpec(qs);
    WithCardsValid(New(qs), m.cards);
    OasisOnTop(m);
  }

  lemma OasisOnTop(m: CamelMap)
    requires Valid(m) && Stack(m, 0) == [Blue] && Stack(m, 4) == [Green] && m.cards[3] == Some(Oasis)
    ensures Placed(m, Blue) && CanMove(m, Blue, 3)
    ensures var r := MoveCamel(m, Blue, 3);
      && FindCamel(r, Blue) == 4 && FindCamel(r, Green) == 4
      && r.fields[4] == Some([Green, Blue]) && r.fields[0] == Option.None
  {
    OasisMove(m);
    var r := MoveCamel(m, Blue, 3);
    assert Stack(r, 4) == [Green] + [Blue] == [Green, Blue];
    EmptyIsNone(r, 0);
  }

  /** Blue alone on 0 lands on the Oasis at 3 and goes on to Green's field. */
  lemma OasisMove(m: CamelMap)
    requires Valid(m) && Stack(m, 0) == [Blue] && Stack(m, 4) == [Green] && m.cards[3] == Some(Oasis)
    ensures Placed(m, Blue) && Placed(m, Green) && m.colorPos[Index(Green)] == 4
    ensures CanMove(m, Blue, 3) && Landing(m, Blue, 3) == 3 && Destination(m, Blue, 3) == 4
    ensures Group(m, Blue) == [Blue] && Remaining(m, Blue, 4) == [Green] && Remaining(m, Blue, 0) == []
  {
    OnFieldIsPlaced(m, 0, Blue);
    OnFieldIsPlaced(m, 4, Green);
  }

  /** `test_desert_places_camel_at_bottom_of_stack`: Blue lands on the
      Desert at 3 and ends beneath Green at 2. */
  lemma DesertBeneathExample(ps: seq<(nat, Color)>, cards: seq<(nat, EffectCard)>, m: CamelMap)
    requires ps == [(0, Blue), (2, Green)] && cards == [(3, Desert)] && m == BuildWithCards(ps, cards)
    ensures Valid(m) && Placed(m, Blue) && CanMove(m, Blue, 3)
    ensures var r := MoveCamel(m, Blue, 3);
      && FindCamel(r, Blue) == 2 && FindCamel(r, Green) == 2
      && r.fields[2] == Some([Blue, Green]) && r.fields[0] == Option.None
  {
    DesertBeneathBoard(ps, cards, m);
    DesertBeneath(m);
  }

  lemma DesertBeneathBoard(ps: seq<(nat, Color)>, cards: seq<(nat, EffectCard)>, m: CamelMap)
    requires ps == [(0, Blue), (2, Green)] && cards == [(3, Desert)] && m == BuildWithCards(ps, cards)
    ensures Valid(m) && Stack(m, 0) == [Blue] && Stack(m, 2) == [Green] && m.cards[3] == Some(Desert)
  {
    var qs := TwoList(ps, 2);
    NewSpec(qs);
    WithCardsValid(New(qs), m.cards);
  }

  lemma DesertBeneath(m: CamelMap)
    requires Valid(m) && Stack(m, 0) == [Blue] && Stack(m, 2) == [Green] && m.cards[3] == Some(Desert)
    ensures Placed(m, Blue) && CanMove(m, Blue, 3)
    ensures var r := MoveCamel(m, Blue, 3);
      && FindCamel(r, Blue) == 2 && FindCamel(r, Green) == 2
      && r.fields[2] == Some([Blue, Green]) && r.fields[0] == Option.None
  {
    OnFieldIsPlaced(m, 0, Blue);
    OnFieldIsPlaced(m, 2, Green);
    assert Group(m, Blue) == [Blue];
    var r := MoveCamel(m, Blue, 3);
    assert Stack(r, 2) == [Blue, Green];
    EmptyIsNone(r, 0);
  }

  /** `test_desert_at_position_one_boundary`: Green, on top of Blue at 0,
      lands on the Desert at 1 and returns to field 0, beneath Blue. */
  lemma DesertBackToOriginExample(ps: seq<(nat, Color)>, cards: seq<(nat, EffectCard)>, m: CamelMap)
    requires ps == [(0, Blue), (0, Green)] && cards == [(1, Desert)] && m == BuildWithCards(ps, cards)
    ensures Valid(m) && Placed(m, Green) && CanMove(m, Green, 1)
    ensures var r := MoveCamel(m, Green, 1);
      && FindCamel(r, Green) == 0 && FindCamel(r, Blue) == 0 && r.fields[0] == Some([Green, Blue])
  {
    DesertOriginBoard(ps, cards, m);
    DesertBackToOrigin(m);
  }

  lemma DesertOriginBoard(ps: seq<(nat, Color)>, cards: seq<(nat, EffectCard)>, m: CamelMap)
    requires ps == [(0, Blue), (0, Green)] && cards == [(1, Desert)] && m == BuildWithCards(ps, cards)
    ensures Valid(m) && Stack(m, 0) == [Blue, Green] && m.cards[1] == Some(Desert)
  {
    var qs := TwoList(ps, 0);
    NewSpec(qs);
    WithCardsValid(New(qs), m.cards);
  }

  /** Blue on 0 and Green on `g`, field by field. */
  lemma TwoList(ps: seq<(nat, Color)>, g: nat) returns (qs: seq<(nat, Color)>)
    requires ps == [(0, Blue), (g, Green)] && g < FieldCount
    ensures qs == ps && PlacementsInRange(qs) && DistinctColors(qs)
    ensures g == 0 ==> OnField(qs, 0) == [Blue, Green]
    ensures g != 0 ==> OnField(qs, 0) == [Blue] && OnField(qs, g) == [Green]
  {
    qs := ps;
    assert qs[1..] == [(g, Green)];
    assert qs[1..][1..] == [];
    assert OnField(qs[1..], 0) == (if g == 0 then [Green] else []);
    assert OnField(qs[1..], g) == [Green];
  }

  lemma DesertBackToOrigin(m: CamelMap)
    requires Valid(m) && Stack(m, 0) == [Blue, Green] && m.cards[1] == Some(Desert)
    ensures Placed(m, Green) && CanMove(m, Green, 1)
    ensures var r := MoveCamel(m, Green, 1);
      && FindCamel(r, Green) == 0 && FindCamel(r, Blue) == 0 && r.fields[0] == Some([Green, Blue])
  {
    OnFieldIsPlaced(m, 0, Blue);
    OnFieldIsPlaced(m, 0, Green);
    assert Stack(m, 0)[1] == Green;
    assert Group(m, Green) == [Green];
    assert Remaining(m, Green, 0) == [Blue];
    var r := MoveCamel(m, Green, 1);
    assert Stack(r, 0) == [Green, Blue];
  }

  /** `build` without `with_positions` is the error, whatever cards were set. */
  lemma BuildNeedsPositions(cards: seq<(nat, EffectCard)>)
    requires CardsInRange(cards)
    ensures Build(WithEffectCards(Builder(), cards)) == Err("camel_map has to have positions")
  {
  }
}
