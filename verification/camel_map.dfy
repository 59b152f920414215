/** `calc/src/camel_map.rs`: the 16-field board.  Each field holds an
    optional stack of camels listed bottom to top; `colorPos` is the reverse
    index from colour index to field; `cards` holds the optional Oasis or
    Desert card of each field. */
module CamelMaps {
  import opened Colors
  import opened Wrappers
  import opened Seqs

  /** Number of fields on the track. */
  const FieldCount: nat := 16

  /** Oasis: one field further, on top of that field's stack.
      Desert: one field back, beneath that field's stack. */
  datatype EffectCard = Oasis | Desert

  datatype CamelMap = CamelMap(
    fields: seq<Option<seq<Color>>>,
    colorPos: seq<nat>,
    cards: seq<Option<EffectCard>>)

  /** The fixed array lengths of the Rust struct. */
  predicate Shaped(m: CamelMap) {
    |m.fields| == FieldCount && |m.colorPos| == 5 && |m.cards| == FieldCount
  }

  /** The stack on a field, empty when the field is `None`. */
  function StackAt(fields: seq<Option<seq<Color>>>, i: nat): seq<Color>
    requires i < |fields|
  {
    match fields[i]
    case Some(s) => s
    case None => []
  }

  function Stack(m: CamelMap, i: nat): seq<Color>
    requires i < |m.fields|
  {
    StackAt(m.fields, i)
  }

  /** A field that holds `Some` holds at least one camel. */
  ghost predicate NoEmptyStack(m: CamelMap)
    requires Shaped(m)
  {
    forall i :: 0 <= i < FieldCount && m.fields[i].Some? ==> |m.fields[i].value| > 0
  }

  /** Every camel on a field is a real colour and the reverse index names that field. */
  ghost predicate IndexAgrees(m: CamelMap)
    requires Shaped(m)
  {
    forall i, j :: 0 <= i < FieldCount && 0 <= j < |Stack(m, i)| ==>
      IsCamel(Stack(m, i)[j]) && m.colorPos[Index(Stack(m, i)[j])] == i
  }

  /** No camel appears twice in one stack. */
  ghost predicate StacksDistinct(m: CamelMap)
    requires Shaped(m)
  {
    forall i :: 0 <= i < FieldCount ==> Distinct(Stack(m, i))
  }

  /** The reverse index only names fields of the board, and a colour that
      is on no field keeps the builder's initial 0. */
  ghost predicate IndexInRange(m: CamelMap)
    requires Shaped(m)
  {
    && (forall k :: 0 <= k < 5 ==> m.colorPos[k] < FieldCount)
    && (forall k :: 0 <= k < 5 && All[k] !in Stack(m, m.colorPos[k]) ==> m.colorPos[k] == 0)
  }

  /** The board invariant: every camel sits in exactly one stack, once, and
      the reverse index agrees with the stacks. */
  ghost predicate Valid(m: CamelMap) {
    && Shaped(m)
    && NoEmptyStack(m)
    && IndexAgrees(m)
    && StacksDistinct(m)
    && IndexInRange(m)
  }

  /** The camel of colour `c` stands on the board. */
  ghost predicate Placed(m: CamelMap, c: Color)
    requires Shaped(m)
  {
    IsCamel(c) && m.colorPos[Index(c)] < FieldCount && c in Stack(m, m.colorPos[Index(c)])
  }

  /** All five camels stand on the board. */
  ghost predicate Full(m: CamelMap)
    requires Shaped(m)
  {
    forall c :: IsCamel(c) ==> Placed(m, c)
  }

  /** A camel found in some stack is placed there, and only there. */
  lemma OnFieldIsPlaced(m: CamelMap, i: nat, c: Color)
    requires Valid(m) && i < FieldCount && c in Stack(m, i)
    ensures Placed(m, c) && m.colorPos[Index(c)] == i
  {
    var j :| 0 <= j < |Stack(m, i)| && Stack(m, i)[j] == c;
  }

  /** `find_camel`: the reverse index entry of the colour; on a valid board,
      the field whose stack holds the camel.  (`None` has index 5, past the
      end of the five-entry array.) */
  function FindCamel(m: CamelMap, c: Color): (p: nat)
    requires |m.colorPos| == 5 && IsCamel(c)
    ensures Valid(m) ==> p < FieldCount
    ensures Valid(m) ==> (Placed(m, c) <==> c in Stack(m, p))
    ensures Valid(m) ==> forall i :: 0 <= i < FieldCount && c in Stack(m, i) ==> i == p
  {
    FindCamelFacts(m, c);
    m.colorPos[Index(c)]
  }

  lemma FindCamelFacts(m: CamelMap, c: Color)
    requires |m.colorPos| == 5 && IsCamel(c)
    ensures Valid(m) ==> forall i :: 0 <= i < FieldCount && c in Stack(m, i) ==> i == m.colorPos[Index(c)]
  {
    if Valid(m) {
      forall i | 0 <= i < FieldCount && c in Stack(m, i) ensures i == m.colorPos[Index(c)] {
        OnFieldIsPlaced(m, i, c);
      }
    }
  }

  /** `Iterator::position`: the first index holding `c`. */
  function IndexOf(s: seq<Color>, c: Color): (k: nat)
    requires c in s
    ensures k < |s| && s[k] == c && c !in s[..k]
  {
    if s[0] == c then 0 else 1 + IndexOf(s[1..], c)
  }

  /** Rust's `max(x, 0)`. */
  function Max0(x: int): nat {
    if x < 0 then 0 else x
  }

  /** The unadjusted landing field `max(from + steps, 0)`, whose card is the one applied. */
  function Landing(m: CamelMap, camel: Color, steps: int): nat
    requires |m.colorPos| == 5 && IsCamel(camel)
  {
    Max0(FindCamel(m, camel) + steps)
  }

  /** The field the moving group ends on: the landing field, one further
      for an Oasis, one back for a Desert.  The card is read once, at the
      landing field; the adjusted field's card is never consulted. */
  function Destination(m: CamelMap, camel: Color, steps: int): int
    requires Shaped(m) && IsCamel(camel) && Landing(m, camel, steps) < FieldCount
  {
    var p := Landing(m, camel, steps);
    match m.cards[p]
    case Some(Oasis) => p + 1
    case Some(Desert) => p - 1
    case None => p
  }

  /** The move stays on the board: the landing field and its adjustment
      must index the 16 fields (out of range panics in Rust, and a Desert on
      field 0 underflows the `u8`); `steps` is an `i8`. */
  predicate CanMove(m: CamelMap, camel: Color, steps: int)
    requires Shaped(m) && IsCamel(camel)
  {
    && -128 <= steps < 128
    && Landing(m, camel, steps) < FieldCount
    && 0 <= Destination(m, camel, steps) < FieldCount
  }

  /** The camel and every camel above it on its field, bottom to top. */
  ghost function Group(m: CamelMap, camel: Color): seq<Color>
    requires Valid(m) && Placed(m, camel)
  {
    var s := Stack(m, FindCamel(m, camel));
    s[IndexOf(s, camel)..]
  }

  /** What field `i` holds once the group has been lifted off: the old
      field keeps the camels below the mover, every other field is as it was. */
  ghost function Remaining(m: CamelMap, camel: Color, i: nat): seq<Color>
    requires Valid(m) && Placed(m, camel) && i < FieldCount
  {
    var from := FindCamel(m, camel);
    if i == from then Stack(m, from)[..IndexOf(Stack(m, from), camel)] else Stack(m, i)
  }

  /** `color_pos_map[col] = dest` for each moving colour. */
  function SetPositions(colorPos: seq<nat>, moving: seq<Color>, dest: nat): (r: seq<nat>)
    requires |colorPos| == 5
    requires forall k :: 0 <= k < |moving| ==> IsCamel(moving[k])
    ensures |r| == 5
    ensures forall k :: 0 <= k < |moving| ==> Index(moving[k]) < 5 && r[Index(moving[k])] == dest
    ensures forall k :: 0 <= k < 5 && All[k] !in moving ==> r[k] == colorPos[k]
    decreases |moving|
  {
    if |moving| == 0 then colorPos
    else
      assert IsCamel(moving[0]);
      SetPositions(colorPos[Index(moving[0]) := dest], moving[1..], dest)
  }

  /** `move_camel`: the camel and every camel above it leave their field
      together (the field becomes `None` if emptied) and land on the
      destination, on top of its stack for a plain field or an Oasis and
      beneath it for a Desert; the reverse index follows the moved camels. */
  function MoveCamel(m: CamelMap, camel: Color, steps: int): (r: CamelMap)
    requires Valid(m) && Placed(m, camel) && CanMove(m, camel, steps)
    ensures Valid(r) && r.cards == m.cards
    ensures forall c :: Placed(r, c) <==> Placed(m, c)
    ensures forall c :: Placed(m, c) ==>
      r.colorPos[Index(c)] == if c in Group(m, camel) then Destination(m, camel, steps) else m.colorPos[Index(c)]
    ensures Stack(r, Destination(m, camel, steps)) == Landed(m, camel, steps)
    ensures forall i :: 0 <= i < FieldCount && i != Destination(m, camel, steps) ==> Stack(r, i) == Remaining(m, camel, i)
  {
    MoveCamelSpec(m, camel, steps);
    MoveBoard(m, camel, steps)
  }

  /** The statements of `move_camel`, in order. */
  function MoveBoard(m: CamelMap, camel: Color, steps: int): CamelMap
    requires Valid(m) && Placed(m, camel) && CanMove(m, camel, steps)
  {
    var from := FindCamel(m, camel);
    var landing := Max0(from + steps);
    var card := m.cards[landing];
    var dest := match card
      case Some(Oasis) => landing + 1
      case Some(Desert) => landing - 1
      case None => landing;
    // `max(new_pos, 0)` on a `u8` changes nothing.
    var stack := m.fields[from].value;
    var k := IndexOf(stack, camel);
    var moving := stack[k..];
    var rest := stack[..k];
    var colorPos := SetPositions(m.colorPos, moving, dest);
    var fields := m.fields[from := if |rest| == 0 then Option.None else Some(rest)];
    var existing := StackAt(fields, dest);
    var landed := if card == Some(Desert) then moving + existing else existing + moving;
    CamelMap(fields[dest := Some(landed)], colorPos, m.cards)
  }

  /** The stack the destination receives: the group on top of what is
      left there, or beneath it for a Desert. */
  ghost function Landed(m: CamelMap, camel: Color, steps: int): seq<Color>
    requires Valid(m) && Placed(m, camel) && CanMove(m, camel, steps)
  {
    var d := Destination(m, camel, steps);
    if m.cards[Landing(m, camel, steps)] == Some(Desert) then Group(m, camel) + Remaining(m, camel, d)
    else Remaining(m, camel, d) + Group(m, camel)
  }

  /** The move, field by field and colour by colour. */
  lemma MoveBoardShape(m: CamelMap, camel: Color, steps: int)
    requires Valid(m) && Placed(m, camel) && CanMove(m, camel, steps)
    ensures Moved(m, camel, steps, MoveBoard(m, camel, steps))
  {
    MoveBoardFields(m, camel, steps);
    MoveBoardPositions(m, camel, steps);
  }

  lemma MoveBoardFields(m: CamelMap, camel: Color, steps: int)
    requires Valid(m) && Placed(m, camel) && CanMove(m, camel, steps)
    ensures var r := MoveBoard(m, camel, steps);
      && Shaped(r) && NoEmptyStack(r) && r.cards == m.cards
      && (forall i :: 0 <= i < FieldCount ==>
            Stack(r, i) == if i == Destination(m, camel, steps) then Landed(m, camel, steps) else Remaining(m, camel, i))
  {
    var r := MoveBoard(m, camel, steps);
    forall i | 0 <= i < FieldCount
      ensures Stack(r, i) == if i == Destination(m, camel, steps) then Landed(m, camel, steps) else Remaining(m, camel, i)
      ensures r.fields[i].Some? ==> |r.fields[i].value| > 0
    {
      MoveBoardField(m, camel, steps, i);
    }
  }

  /** One field of the moved board. */
  lemma MoveBoardField(m: CamelMap, camel: Color, steps: int, i: nat)
    requires Valid(m) && Placed(m, camel) && CanMove(m, camel, steps) && i < FieldCount
    ensures var r := MoveBoard(m, camel, steps);
      && Shaped(r)
      && Stack(r, i) == (if i == Destination(m, camel, steps) then Landed(m, camel, steps) else Remaining(m, camel, i))
      && (r.fields[i].Some? ==> |r.fields[i].value| > 0)
  {
  }

  lemma MoveBoardPositions(m: CamelMap, camel: Color, steps: int)
    requires Valid(m) && Placed(m, camel) && CanMove(m, camel, steps)
    ensures var r := MoveBoard(m, camel, steps);
      && |r.colorPos| == 5
      && (forall c :: IsCamel(c) ==>
            r.colorPos[Index(c)] == if c in Group(m, camel) then Destination(m, camel, steps) else m.colorPos[Index(c)])
  {
    var moving := Group(m, camel);
    var dest := Destination(m, camel, steps);
    GroupCamels(m, camel);
    assert MoveBoard(m, camel, steps).colorPos == SetPositions(m.colorPos, moving, dest);
    forall c | IsCamel(c) ensures SetPositions(m.colorPos, moving, dest)[Index(c)] == if c in moving then dest else m.colorPos[Index(c)] {
      SetPositionsAt(m.colorPos, moving, dest, c);
    }
  }

  /** The moving group holds camel colours only. */
  lemma GroupCamels(m: CamelMap, camel: Color)
    requires Valid(m) && Placed(m, camel)
    ensures forall k :: 0 <= k < |Group(m, camel)| ==> IsCamel(Group(m, camel)[k])
  {
    var from := FindCamel(m, camel);
    var stack := Stack(m, from);
    var k := IndexOf(stack, camel);
    forall j | 0 <= j < |Group(m, camel)| ensures IsCamel(Group(m, camel)[j]) {
      assert Group(m, camel)[j] == stack[k + j];
    }
  }

  /** One colour's entry after `SetPositions`. */
  lemma SetPositionsAt(colorPos: seq<nat>, moving: seq<Color>, dest: nat, c: Color)
    requires |colorPos| == 5 && IsCamel(c)
    requires forall k :: 0 <= k < |moving| ==> IsCamel(moving[k])
    ensures SetPositions(colorPos, moving, dest)[Index(c)] == if c in moving then dest else colorPos[Index(c)]
  {
    if c in moving {
      var j :| 0 <= j < |moving| && moving[j] == c;
    } else {
      assert All[Index(c)] == c;
    }
  }

  /** A camel left behind on field `i` was on field `i` before, and is not
      part of the moving group. */
  lemma RemainingMember(m: CamelMap, camel: Color, i: nat, x: Color)
    requires Valid(m) && Placed(m, camel) && i < FieldCount && x in Remaining(m, camel, i)
    ensures x in Stack(m, i) && IsCamel(x) && m.colorPos[Index(x)] == i && x !in Group(m, camel)
  {
    var from := FindCamel(m, camel);
    var stack := Stack(m, from);
    var k := IndexOf(stack, camel);
    if i == from {
      var j :| 0 <= j < k && stack[..k][j] == x;
      assert stack[j] == x;
      forall l | 0 <= l < |stack| - k ensures stack[k..][l] != x {
        assert stack[k..][l] == stack[k + l];
      }
    } else {
      OnFieldIsPlaced(m, i, x);
      forall l | 0 <= l < |stack| - k ensures stack[k..][l] != x {
        assert stack[k..][l] == stack[k + l];
        OnFieldIsPlaced(m, from, stack[k + l]);
      }
    }
  }

  /** A camel of the moving group came from the mover's field. */
  lemma GroupMember(m: CamelMap, camel: Color, x: Color)
    requires Valid(m) && Placed(m, camel) && x in Group(m, camel)
    ensures x in Stack(m, FindCamel(m, camel)) && IsCamel(x) && m.colorPos[Index(x)] == FindCamel(m, camel)
  {
    var from := FindCamel(m, camel);
    var stack := Stack(m, from);
    var k := IndexOf(stack, camel);
    var l :| 0 <= l < |stack| - k && stack[k..][l] == x;
    assert stack[k + l] == x;
    OnFieldIsPlaced(m, from, x);
  }

  /** A placed camel outside the group stays behind on its field. */
  lemma KeptBehind(m: CamelMap, camel: Color, x: Color)
    requires Valid(m) && Placed(m, camel) && Placed(m, x) && x !in Group(m, camel)
    ensures x in Remaining(m, camel, m.colorPos[Index(x)])
  {
    var from := FindCamel(m, camel);
    var stack := Stack(m, from);
    var k := IndexOf(stack, camel);
    if m.colorPos[Index(x)] == from {
      assert stack == stack[..k] + stack[k..];
    }
  }

  /** The group and what is left on a field share no camel, and each is
      free of repeats. */
  lemma PartsDistinct(m: CamelMap, camel: Color, i: nat)
    requires Valid(m) && Placed(m, camel) && i < FieldCount
    ensures Distinct(Group(m, camel)) && Distinct(Remaining(m, camel, i))
  {
    var from := FindCamel(m, camel);
    var stack := Stack(m, from);
    var k := IndexOf(stack, camel);
    forall j, l | 0 <= j < l < |Group(m, camel)| ensures Group(m, camel)[j] != Group(m, camel)[l] {
      assert Group(m, camel)[j] == stack[k + j] && Group(m, camel)[l] == stack[k + l];
    }
    forall j, l | 0 <= j < l < |Remaining(m, camel, i)| ensures Remaining(m, camel, i)[j] != Remaining(m, camel, i)[l] {
      if i == from {
        assert Remaining(m, camel, i)[j] == stack[j] && Remaining(m, camel, i)[l] == stack[l];
      }
    }
  }

  lemma MoveCamelSpec(m: CamelMap, camel: Color, steps: int)
    requires Valid(m) && Placed(m, camel) && CanMove(m, camel, steps)
    ensures var r := MoveBoard(m, camel, steps);
      && Valid(r) && r.cards == m.cards
      && (forall c :: Placed(r, c) <==> Placed(m, c))
      && (forall c :: Placed(m, c) ==>
        r.colorPos[Index(c)] == if c in Group(m, camel) then Destination(m, camel, steps) else m.colorPos[Index(c)])
      && Stack(r, Destination(m, camel, steps)) == Landed(m, camel, steps)
      && (forall i :: 0 <= i < FieldCount && i != Destination(m, camel, steps) ==> Stack(r, i) == Remaining(m, camel, i))
  {
    MoveBoardShape(m, camel, steps);
    var r := MoveBoard(m, camel, steps);
    MovedValid(m, camel, steps, r);
    MovedPlaced(m, camel, steps, r);
  }

  /** Facts `MoveBoardShape` establishes, kept abstract over the result. */
  ghost predicate Moved(m: CamelMap, camel: Color, steps: int, r: CamelMap)
    requires Valid(m) && Placed(m, camel) && CanMove(m, camel, steps)
  {
    && Shaped(r) && NoEmptyStack(r) && r.cards == m.cards
    && (forall i :: 0 <= i < FieldCount ==>
          Stack(r, i) == if i == Destination(m, camel, steps) then Landed(m, camel, steps) else Remaining(m, camel, i))
    && (forall c :: IsCamel(c) ==>
          r.colorPos[Index(c)] == if c in Group(m, camel) then Destination(m, camel, steps) else m.colorPos[Index(c)])
  }

  /** Where a camel of the moved board came from. */
  lemma MovedMember(m: CamelMap, camel: Color, steps: int, r: CamelMap, i: nat, x: Color)
    requires Valid(m) && Placed(m, camel) && CanMove(m, camel, steps) && Moved(m, camel, steps, r)
    requires i < FieldCount && x in Stack(r, i)
    ensures IsCamel(x) && r.colorPos[Index(x)] == i && Placed(m, x)
  {
    var d := Destination(m, camel, steps);
    if i == d && x in Group(m, camel) {
      GroupMember(m, camel, x);
      OnFieldIsPlaced(m, FindCamel(m, camel), x);
    } else {
      assert x in Remaining(m, camel, i);
      RemainingMember(m, camel, i, x);
      OnFieldIsPlaced(m, i, x);
    }
  }

  lemma MovedValid(m: CamelMap, camel: Color, steps: int, r: CamelMap)
    requires Valid(m) && Placed(m, camel) && CanMove(m, camel, steps) && Moved(m, camel, steps, r)
    ensures Valid(r)
  {
    forall i, j | 0 <= i < FieldCount && 0 <= j < |Stack(r, i)|
      ensures IsCamel(Stack(r, i)[j]) && r.colorPos[Index(Stack(r, i)[j])] == i
    {
      MovedMember(m, camel, steps, r, i, Stack(r, i)[j]);
    }
    forall i | 0 <= i < FieldCount ensures Distinct(Stack(r, i)) {
      MovedStackDistinct(m, camel, steps, r, i);
    }
    forall k | 0 <= k < 5 ensures r.colorPos[k] < FieldCount && (r.colorPos[k] != 0 ==> All[k] in Stack(r, r.colorPos[k])) {
      MovedIndexEntry(m, camel, steps, r, k);
    }
  }

  /** Each stack of the moved board is free of repeats. */
  lemma MovedStackDistinct(m: CamelMap, camel: Color, steps: int, r: CamelMap, i: nat)
    requires Valid(m) && Placed(m, camel) && CanMove(m, camel, steps) && Moved(m, camel, steps, r)
    requires i < FieldCount
    ensures Distinct(Stack(r, i))
  {
    var d := Destination(m, camel, steps);
    PartsDistinct(m, camel, i);
    if i == d {
      forall x | x in Remaining(m, camel, d) ensures x !in Group(m, camel) {
        RemainingMember(m, camel, d, x);
      }
      if m.cards[Landing(m, camel, steps)] == Some(Desert) {
        AppendDistinct(Group(m, camel), Remaining(m, camel, d));
      } else {
        AppendDistinct(Remaining(m, camel, d), Group(m, camel));
      }
    }
  }

  /** One entry of the moved board's index: a field of the board, and one
      holding the colour unless it is 0. */
  lemma MovedIndexEntry(m: CamelMap, camel: Color, steps: int, r: CamelMap, k: nat)
    requires Valid(m) && Placed(m, camel) && CanMove(m, camel, steps) && Moved(m, camel, steps, r)
    requires k < 5
    ensures r.colorPos[k] < FieldCount
    ensures r.colorPos[k] != 0 ==> All[k] in Stack(r, r.colorPos[k])
  {
    var c := All[k];
    assert Index(c) == k;
    if c in Group(m, camel) {
      assert c in Landed(m, camel, steps);
    } else if r.colorPos[k] != 0 {
      assert c in Stack(m, m.colorPos[k]);
      OnFieldIsPlaced(m, m.colorPos[k], c);
      KeptBehind(m, camel, c);
    }
  }

  lemma MovedPlaced(m: CamelMap, camel: Color, steps: int, r: CamelMap)
    requires Valid(m) && Placed(m, camel) && CanMove(m, camel, steps) && Moved(m, camel, steps, r)
    ensures forall c :: Placed(r, c) <==> Placed(m, c)
  {
    forall c | Placed(m, c) ensures Placed(r, c) {
      if c in Group(m, camel) {
        assert c in Landed(m, camel, steps);
      } else {
        KeptBehind(m, camel, c);
        assert c in Stack(r, m.colorPos[Index(c)]);
      }
    }
    forall c | Placed(r, c) ensures Placed(m, c) {
      MovedMember(m, camel, steps, r, r.colorPos[Index(c)], c);
    }
  }

  /** `CamelMapBuilder`: the board and reverse index stay unset until
      `with_positions` is called. */
  datatype CamelMapBuilder = CamelMapBuilder(
    fields: Option<seq<Option<seq<Color>>>>,
    colorPos: Option<seq<nat>>,
    cards: seq<Option<EffectCard>>)

  /** Sixteen empty fields, or sixteen fields without a card. */
  function NoFields(): seq<Option<seq<Color>>> { seq(FieldCount, _ => Option.None) }
  function NoCards(): seq<Option<EffectCard>> { seq(FieldCount, _ => Option.None) }

  /** `CamelMap::builder`. */
  function Builder(): (b: CamelMapBuilder)
    ensures b.fields.None? && b.colorPos.None? && |b.cards| == FieldCount
    ensures forall i :: 0 <= i < FieldCount ==> b.cards[i].None?
  {
    CamelMapBuilder(Option.None, Option.None, NoCards())
  }

  /** The builder's card positions index the 16-field array. */
  predicate CardsInRange(cards: seq<(nat, EffectCard)>) {
    forall j :: 0 <= j < |cards| ==> cards[j].0 < FieldCount
  }

  /** `with_effect_cards`: each listed card replaces whatever the field had;
      a later entry for the same field wins, unlisted fields keep theirs. */
  function WithEffectCards(b: CamelMapBuilder, cards: seq<(nat, EffectCard)>): (r: CamelMapBuilder)
    requires |b.cards| == FieldCount && CardsInRange(cards)
    ensures r.fields == b.fields && r.colorPos == b.colorPos && |r.cards| == FieldCount
    ensures forall j :: 0 <= j < |cards| && (forall l :: j < l < |cards| ==> cards[l].0 != cards[j].0) ==>
      r.cards[cards[j].0] == Some(cards[j].1)
    ensures forall i :: 0 <= i < FieldCount && (forall j :: 0 <= j < |cards| ==> cards[j].0 != i) ==>
      r.cards[i] == b.cards[i]
    decreases |cards|
  {
    if |cards| == 0 then b
    else
      var r := WithEffectCards(b.(cards := b.cards[cards[0].0 := Some(cards[0].1)]), cards[1..]);
      assert forall j :: 1 <= j < |cards| ==> cards[j] == cards[1..][j - 1];
      r
  }

  /** Positions index the 16 fields and name real colours. */
  predicate PlacementsInRange(ps: seq<(nat, Color)>) {
    forall j :: 0 <= j < |ps| ==> ps[j].0 < FieldCount && IsCamel(ps[j].1)
  }

  /** The camels `ps` puts on field `i`, in list order. */
  function OnField(ps: seq<(nat, Color)>, i: nat): seq<Color> {
    if |ps| == 0 then []
    else (if ps[0].0 == i then [ps[0].1] else []) + OnField(ps[1..], i)
  }

  lemma OnFieldMember(ps: seq<(nat, Color)>, i: nat, x: Color)
    ensures x in OnField(ps, i) <==> exists j :: 0 <= j < |ps| && ps[j] == (i, x)
  {
    if |ps| > 0 {
      OnFieldMember(ps[1..], i, x);
      if x in OnField(ps[1..], i) {
        var j :| 0 <= j < |ps[1..]| && ps[1..][j] == (i, x);
        assert ps[j + 1] == (i, x);
      }
      if exists j :: 0 <= j < |ps| && ps[j] == (i, x) {
        var j :| 0 <= j < |ps| && ps[j] == (i, x);
        if j > 0 { assert ps[1..][j - 1] == (i, x); }
      }
    }
  }

  /** An initialised builder of the right shape. */
  predicate Ready(b: CamelMapBuilder) {
    b.fields.Some? && b.colorPos.Some? && |b.fields.value| == FieldCount && |b.colorPos.value| == 5
  }

  /** `insert_camel`: push the colour on top of the field and record the
      field in the reverse index; an uninitialised builder is left as is. */
  function InsertCamel(b: CamelMapBuilder, p: (nat, Color)): (r: CamelMapBuilder)
    requires Ready(b) ==> p.0 < FieldCount && IsCamel(p.1)
    ensures !Ready(b) ==> r == b
    ensures Ready(b) ==> Ready(r) && r.cards == b.cards
    ensures Ready(b) ==> forall i :: 0 <= i < FieldCount ==>
      StackAt(r.fields.value, i) == StackAt(b.fields.value, i) + (if i == p.0 then [p.1] else [])
    ensures Ready(b) ==> forall k :: 0 <= k < 5 ==>
      r.colorPos.value[k] == if k == Index(p.1) then p.0 else b.colorPos.value[k]
  {
    if !Ready(b) then b
    else
      var (pos, color) := p;
      var fields := b.fields.value;
      var pushed := match fields[pos]
        case Some(v) => v + [color]
        case None => [color];
      b.(fields := Some(fields[pos := Some(pushed)]),
         colorPos := Some(b.colorPos.value[Index(color) := pos]))
  }

  /** The fold of `insert_camel` over a list of placements. */
  function InsertAll(b: CamelMapBuilder, ps: seq<(nat, Color)>): (r: CamelMapBuilder)
    requires Ready(b) && PlacementsInRange(ps)
    ensures Ready(r) && r.cards == b.cards
    decreases |ps|
  {
    if |ps| == 0 then b else InsertAll(InsertCamel(b, ps[0]), ps[1..])
  }

  /** A field array in which every `Some` stack is non-empty. */
  ghost predicate NoEmptyField(fields: seq<Option<seq<Color>>>) {
    forall i :: 0 <= i < |fields| && fields[i].Some? ==> |fields[i].value| > 0
  }

  lemma PlacementsTail(ps: seq<(nat, Color)>)
    requires |ps| > 0 && PlacementsInRange(ps)
    ensures PlacementsInRange(ps[1..])
  {
    forall j | 0 <= j < |ps[1..]| ensures ps[1..][j].0 < FieldCount && IsCamel(ps[1..][j].1) {
      assert ps[1..][j] == ps[j + 1];
    }
  }

  /** Inserting a list appends each field's listed camels on top, in list order. */
  lemma {:induction false} InsertAllStacks(b: CamelMapBuilder, ps: seq<(nat, Color)>)
    requires Ready(b) && PlacementsInRange(ps)
    ensures var r := InsertAll(b, ps);
      && (forall i :: 0 <= i < FieldCount ==> StackAt(r.fields.value, i) == StackAt(b.fields.value, i) + OnField(ps, i))
      && (NoEmptyField(b.fields.value) ==> NoEmptyField(r.fields.value))
    decreases |ps|
  {
    if |ps| > 0 {
      var b1 := InsertCamel(b, ps[0]);
      PlacementsTail(ps);
      InsertAllStacks(b1, ps[1..]);
      if NoEmptyField(b.fields.value) {
        forall i | 0 <= i < FieldCount && b1.fields.value[i].Some? ensures |b1.fields.value[i].value| > 0 {
          assert StackAt(b1.fields.value, i) == b1.fields.value[i].value;
        }
      }
    }
  }

  /** The reverse index after inserting a list holds the field of each
      colour's last entry, and is untouched for colours not listed. */
  /** A colour the list never names keeps its index entry. */
  lemma {:induction false} InsertAllUntouched(b: CamelMapBuilder, ps: seq<(nat, Color)>, k: nat)
    requires Ready(b) && PlacementsInRange(ps) && k < 5
    requires forall j :: 0 <= j < |ps| ==> ps[j].1 != All[k]
    ensures InsertAll(b, ps).colorPos.value[k] == b.colorPos.value[k]
    decreases |ps|
  {
    if |ps| > 0 {
      var b1 := InsertCamel(b, ps[0]);
      PlacementsTail(ps);
      assert ps[0].1 != All[k];
      assert b1.colorPos.value[k] == b.colorPos.value[k];
      forall j | 0 <= j < |ps[1..]| ensures ps[1..][j].1 != All[k] {
        assert ps[1..][j] == ps[j + 1];
      }
      InsertAllUntouched(b1, ps[1..], k);
    }
  }

  /** A colour's last entry in the list decides its index entry. */
  lemma {:induction false} InsertAllLast(b: CamelMapBuilder, ps: seq<(nat, Color)>, j: nat)
    requires Ready(b) && PlacementsInRange(ps) && j < |ps|
    requires forall l :: j < l < |ps| ==> ps[l].1 != ps[j].1
    ensures InsertAll(b, ps).colorPos.value[Index(ps[j].1)] == ps[j].0
    decreases |ps|
  {
    var b1 := InsertCamel(b, ps[0]);
    PlacementsTail(ps);
    if j == 0 {
      var k := Index(ps[0].1);
      assert All[k] == ps[0].1;
      forall l | 0 <= l < |ps[1..]| ensures ps[1..][l].1 != All[k] {
        assert ps[1..][l] == ps[l + 1];
      }
      InsertAllUntouched(b1, ps[1..], k);
    } else {
      assert ps[1..][j - 1] == ps[j];
      forall l | j - 1 < l < |ps[1..]| ensures ps[1..][l].1 != ps[1..][j - 1].1 {
        assert ps[1..][l] == ps[l + 1];
      }
      InsertAllLast(b1, ps[1..], j - 1);
    }
  }

  /** `with_positions`: initialise the board and index if unset (every field
      empty, every colour at field 0), then insert the placements in order. */
  function WithPositions(b: CamelMapBuilder, ps: seq<(nat, Color)>): (r: CamelMapBuilder)
    requires b.fields.Some? ==> |b.fields.value| == FieldCount
    requires b.colorPos.Some? ==> |b.colorPos.value| == 5
    requires PlacementsInRange(ps)
    ensures Ready(r) && r.cards == b.cards
  {
    var fields := if b.fields.None? then NoFields() else b.fields.value;
    var colorPos := if b.colorPos.None? then seq(5, _ => 0) else b.colorPos.value;
    InsertAll(b.(fields := Some(fields), colorPos := Some(colorPos)), ps)
  }

  /** `build`: the board, or the error when `with_positions` was never called. */
  function Build(b: CamelMapBuilder): (r: Result<CamelMap, string>)
    ensures r.Err? <==> b.fields.None? || b.colorPos.None?
    ensures r.Ok? ==> r.value == CamelMap(b.fields.value, b.colorPos.value, b.cards)
  {
    if b.fields.None? || b.colorPos.None? then Err("camel_map has to have positions")
    else Ok(CamelMap(b.fields.value, b.colorPos.value, b.cards))
  }

  /** `CamelMap::new`: `builder().with_positions(ps).build().unwrap()`, no cards. */
  function New(ps: seq<(nat, Color)>): (m: CamelMap)
    requires PlacementsInRange(ps)
    ensures Shaped(m) && m.cards == NoCards()
  {
    Build(WithPositions(Builder(), ps)).value
  }

  /** The colours of `ps` are pairwise different. */
  predicate DistinctColors(ps: seq<(nat, Color)>) {
    forall j, l :: 0 <= j < l < |ps| ==> ps[j].1 != ps[l].1
  }

  /** `CamelMap::new` stacks each field's camels in list order, and with
      distinct colours gives a valid board on which exactly the listed
      colours are placed, each on its listed field. */
  lemma NewSpec(ps: seq<(nat, Color)>)
    requires PlacementsInRange(ps)
    ensures var m := New(ps);
      && (forall i :: 0 <= i < FieldCount ==> Stack(m, i) == OnField(ps, i))
      && (DistinctColors(ps) ==> Valid(m))
      && (DistinctColors(ps) ==> forall j :: 0 <= j < |ps| ==> Placed(m, ps[j].1) && FindCamel(m, ps[j].1) == ps[j].0)
      && (forall c :: IsCamel(c) && (forall j :: 0 <= j < |ps| ==> ps[j].1 != c) ==> !Placed(m, c))
  {
    var m := New(ps);
    NewBuilt(ps);
    forall c | IsCamel(c) && (forall j :: 0 <= j < |ps| ==> ps[j].1 != c) ensures !Placed(m, c) {
      forall i | 0 <= i < FieldCount ensures c !in Stack(m, i) {
        OnFieldMember(ps, i, c);
      }
    }
    if DistinctColors(ps) {
      NewLastEntry(ps);
      forall j | 0 <= j < |ps| ensures Placed(m, ps[j].1) {
        OnFieldMember(ps, ps[j].0, ps[j].1);
      }
      NewValid(ps, m);
    }
  }

  /** The builder state `with_positions` starts from. */
  function Initialised(): (b: CamelMapBuilder)
    ensures Ready(b) && NoEmptyField(b.fields.value)
    ensures forall i :: 0 <= i < FieldCount ==> StackAt(b.fields.value, i) == []
    ensures forall k :: 0 <= k < 5 ==> b.colorPos.value[k] == 0
  {
    Builder().(fields := Some(NoFields()), colorPos := Some(seq(5, _ => 0)))
  }

  lemma NewIsInsertAll(ps: seq<(nat, Color)>)
    requires PlacementsInRange(ps)
    ensures New(ps).fields == InsertAll(Initialised(), ps).fields.value
    ensures New(ps).colorPos == InsertAll(Initialised(), ps).colorPos.value
  {
  }

  /** The built board's stacks, and the index of colours absent from the list. */
  lemma NewBuilt(ps: seq<(nat, Color)>)
    requires PlacementsInRange(ps)
    ensures BuiltFrom(ps, New(ps))
  {
    NewIsInsertAll(ps);
    InsertAllStacks(Initialised(), ps);
    forall k | 0 <= k < 5 && (forall j :: 0 <= j < |ps| ==> ps[j].1 != All[k])
      ensures New(ps).colorPos[k] == 0
    {
      InsertAllUntouched(Initialised(), ps, k);
    }
  }

  /** With distinct colours every entry is its colour's last entry. */
  lemma NewLastEntry(ps: seq<(nat, Color)>)
    requires PlacementsInRange(ps) && DistinctColors(ps)
    ensures forall j :: 0 <= j < |ps| ==> New(ps).colorPos[Index(ps[j].1)] == ps[j].0
  {
    NewIsInsertAll(ps);
    forall j | 0 <= j < |ps| ensures New(ps).colorPos[Index(ps[j].1)] == ps[j].0 {
      InsertAllLast(Initialised(), ps, j);
    }
  }

  /** What `NewSpec` establishes about the built board, kept abstract. */
  ghost predicate BuiltFrom(ps: seq<(nat, Color)>, m: CamelMap)
    requires PlacementsInRange(ps)
  {
    && Shaped(m)
    && (forall i :: 0 <= i < FieldCount ==> Stack(m, i) == OnField(ps, i))
    && (forall i :: 0 <= i < FieldCount && m.fields[i].Some? ==> |Stack(m, i)| > 0)
    && (forall k :: 0 <= k < 5 && (forall j :: 0 <= j < |ps| ==> ps[j].1 != All[k]) ==> m.colorPos[k] == 0)
  }

  lemma NewValid(ps: seq<(nat, Color)>, m: CamelMap)
    requires PlacementsInRange(ps) && DistinctColors(ps) && BuiltFrom(ps, m)
    requires forall j :: 0 <= j < |ps| ==> m.colorPos[Index(ps[j].1)] == ps[j].0
    ensures Valid(m)
  {
    NewIndexAgrees(ps, m);
    NewStacksDistinct(ps, m);
    NewIndexInRange(ps, m);
  }

  lemma NewIndexAgrees(ps: seq<(nat, Color)>, m: CamelMap)
    requires PlacementsInRange(ps) && DistinctColors(ps) && BuiltFrom(ps, m)
    requires forall j :: 0 <= j < |ps| ==> m.colorPos[Index(ps[j].1)] == ps[j].0
    ensures IndexAgrees(m)
  {
    forall i, j | 0 <= i < FieldCount && 0 <= j < |Stack(m, i)|
      ensures IsCamel(Stack(m, i)[j]) && m.colorPos[Index(Stack(m, i)[j])] == i
    {
      OnFieldMember(ps, i, Stack(m, i)[j]);
    }
  }

  lemma NewStacksDistinct(ps: seq<(nat, Color)>, m: CamelMap)
    requires PlacementsInRange(ps) && DistinctColors(ps) && BuiltFrom(ps, m)
    ensures StacksDistinct(m)
  {
    forall i | 0 <= i < FieldCount ensures Distinct(Stack(m, i)) {
      OnFieldDistinct(ps, i);
    }
  }

  lemma NewIndexInRange(ps: seq<(nat, Color)>, m: CamelMap)
    requires PlacementsInRange(ps) && DistinctColors(ps) && BuiltFrom(ps, m)
    requires forall j :: 0 <= j < |ps| ==> m.colorPos[Index(ps[j].1)] == ps[j].0
    ensures IndexInRange(m)
  {
    forall k | 0 <= k < 5 ensures m.colorPos[k] < FieldCount && (m.colorPos[k] != 0 ==> All[k] in Stack(m, m.colorPos[k])) {
      NewIndexEntry(ps, m, k);
    }
  }

  /** One entry of the built index: 0 for an unlisted colour, else the
      field the colour was listed on, where it stands. */
  lemma NewIndexEntry(ps: seq<(nat, Color)>, m: CamelMap, k: nat)
    requires PlacementsInRange(ps) && BuiltFrom(ps, m) && k < 5
    requires forall j :: 0 <= j < |ps| ==> m.colorPos[Index(ps[j].1)] == ps[j].0
    ensures m.colorPos[k] < FieldCount
    ensures m.colorPos[k] != 0 ==> All[k] in Stack(m, m.colorPos[k])
  {
    if j :| 0 <= j < |ps| && ps[j].1 == All[k] {
      assert Index(All[k]) == k;
      OnFieldMember(ps, ps[j].0, ps[j].1);
    }
  }

  lemma {:induction false} OnFieldDistinct(ps: seq<(nat, Color)>, i: nat)
    requires DistinctColors(ps)
    ensures Distinct(OnField(ps, i))
    decreases |ps|
  {
    if |ps| > 0 {
      assert DistinctColors(ps[1..]) by {
        forall j, l | 0 <= j < l < |ps[1..]| ensures ps[1..][j].1 != ps[1..][l].1 {
          assert ps[1..][j] == ps[j + 1] && ps[1..][l] == ps[l + 1];
        }
      }
      OnFieldDistinct(ps[1..], i);
      var head: seq<Color> := if ps[0].0 == i then [ps[0].1] else [];
      forall x | x in head ensures x !in OnField(ps[1..], i) {
        OnFieldMember(ps[1..], i, x);
        forall j | 0 <= j < |ps[1..]| ensures ps[1..][j] != (i, x) {
          assert ps[1..][j] == ps[j + 1];
        }
      }
      AppendDistinct(head, OnField(ps[1..], i));
    }
  }
}
