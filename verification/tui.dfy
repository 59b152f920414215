/** `camel_tui`: the terminal front end's game state.  Sixteen fields hold
    stacks of `CamelColor`s, five records track each camel's round, and a
    validated move lifts a camel with everything above it.  The state is
    handed to the simulator by converting it into a `Configuration`. */
module Tui {
  import opened Wrappers
  import opened Seqs
  import Colors
  import CamelMaps
  import Configurations
  import CS = ColorStates

  // ---------------------------------------------------------------------
  // CamelColor (`camel_tui/src/camelfield.rs`)

  /** The front end's own colour type; its order differs from the
      simulator's after Green. */
  datatype CamelColor = Blue | Green | Yellow | Orange | White

  /** `CamelColor::all()`, in declaration order. */
  const AllCamels: seq<CamelColor> := [Blue, Green, Yellow, Orange, White]

  /** `From<CamelColor> for usize`: the declaration order, 0..4. */
  function ToIndex(c: CamelColor): (i: nat)
    ensures i < 5 && AllCamels[i] == c
  {
    match c
    case Blue => 0
    case Green => 1
    case Yellow => 2
    case Orange => 3
    case White => 4
  }

  /** `From<usize> for CamelColor`: inverts `ToIndex` on 0..4; any other
      value panics, here `None`. */
  function FromIndex(n: nat): (r: Option<CamelColor>)
    ensures r.Some? <==> n < 5
    ensures r.Some? ==> ToIndex(r.value) == n
  {
    match n
    case 0 => Some(Blue)
    case 1 => Some(Green)
    case 2 => Some(Yellow)
    case 3 => Some(Orange)
    case 4 => Some(White)
    case _ => Option.None
  }

  /** `CamelColor::all()`: entry `i` converts to `i`, so the five colours
      are listed once each. */
  function AllColors(): (r: seq<CamelColor>)
    ensures |r| == 5
    ensures forall i :: 0 <= i < 5 ==> ToIndex(r[i]) == i
    ensures forall c :: c in r
  {
    forall c ensures c in AllCamels {
      assert AllCamels[ToIndex(c)] == c;
    }
    AllCamels
  }

  /** `from_char_to_usize`: the initials of the colour names, in index
      order; any other character panics, here `None`. */
  function CharToIndex(ch: char): (r: Option<nat>)
    ensures r.Some? <==> ch in "bgyow"
    ensures r.Some? ==> r.value < 5 && "bgyow"[r.value] == ch
  {
    match ch
    case 'b' => Some(0)
    case 'g' => Some(1)
    case 'y' => Some(2)
    case 'o' => Some(3)
    case 'w' => Some(4)
    case _ => Option.None
  }

  /** `Into::<calc::Color>::into(c as usize)`: the simulator colour with the
      same index.  The conversion goes by index, not by name, so Yellow,
      Orange and White arrive as the simulator's Orange, White and Yellow. */
  function ToCalc(c: CamelColor): (r: Colors.Color)
    ensures Colors.IsCamel(r) && Colors.Index(r) as nat == ToIndex(c)
  {
    Colors.FromIndex(ToIndex(c))
  }

  // ---------------------------------------------------------------------
  // CamelField and CamelState

  /** `CamelField`: the stack on one field from the bottom up, its place
      in the field array and on the drawn board, and the cursor flag. */
  datatype CamelField = CamelField(camels: seq<CamelColor>, boardIndex: nat, index: nat, selected: bool)

  /** `CamelField::new`: a field that is not selected. */
  function NewField(camels: seq<CamelColor>, index: nat, boardIndex: nat): (f: CamelField)
    ensures f.camels == camels && f.index == index && f.boardIndex == boardIndex
    ensures !f.selected
  {
    CamelField(camels, boardIndex, index, false)
  }

  /** `CamelField::default()`. */
  const EmptyField: CamelField := CamelField([], 0, 0, false)

  /** `CamelState`: a camel's record for the round. */
  datatype CamelState = CamelState(camelColor: CamelColor, hasMoved: bool, selected: bool, startPos: nat, posRoundAdd: int)

  /** `CamelState::new(color)`: not moved, not selected, no offsets. */
  function NewCamelState(c: CamelColor): CamelState {
    CamelState(c, false, false, 0, 0)
  }

  // ---------------------------------------------------------------------
  // GameState (`camel_tui/src/gamestate.rs`)

  datatype GameState = GameState(
    fields: seq<CamelField>,
    selectedColor: nat,
    selectedField: nat,
    info: seq<CamelState>,
    rolledDice: nat)

  /** The array shapes `[CamelField; 16]` and `[CamelState; 5]`, with the
      `k`-th record belonging to the colour of index `k` as `default`
      builds it, and both selections inside their arrays. */
  ghost predicate Shaped(g: GameState) {
    && |g.fields| == 16 && |g.info| == 5
    && g.selectedColor < 5 && g.selectedField < 16
    && (forall k :: 0 <= k < 5 ==> g.info[k].camelColor == AllCamels[k])
  }

  /** `GameState::default()`. */
  function DefaultState(): (g: GameState)
    ensures Shaped(g)
    ensures forall p :: 0 <= p < 16 ==> g.fields[p].camels == [] && !g.fields[p].selected
    ensures forall k :: 0 <= k < 5 ==> !g.info[k].hasMoved && !g.info[k].selected
  {
    GameState(seq(16, _ => EmptyField), 0, 0, seq(5, k requires 0 <= k < 5 => NewCamelState(AllCamels[k])), 0)
  }

  /** `add_dice_rolled`. */
  function AddDiceRolled(g: GameState): (r: GameState)
    ensures r.rolledDice == g.rolledDice + 1
    ensures r.(rolledDice := g.rolledDice) == g
  {
    g.(rolledDice := g.rolledDice + 1)
  }

  // ---------------------------------------------------------------------
  // Finding a camel

  /** `position(|&c| c == camel)`: the first index of `c`. */
  function Position(s: seq<CamelColor>, c: CamelColor): (k: nat)
    requires c in s
    ensures k < |s| && s[k] == c && c !in s[..k]
  {
    if s[0] == c then 0 else 1 + Position(s[1..], c)
  }

  /** The `find_map` over the fields from `p` on: the first field holding
      `c`, with `c`'s position in its stack. */
  function Locate(fields: seq<CamelField>, c: CamelColor, p: nat): (r: Option<(nat, nat)>)
    requires p <= |fields|
    ensures r.Some? ==>
      && p <= r.value.0 < |fields| && c in fields[r.value.0].camels
      && r.value.1 == Position(fields[r.value.0].camels, c)
      && (forall q :: p <= q < r.value.0 ==> c !in fields[q].camels)
    ensures r.None? ==> forall q :: p <= q < |fields| ==> c !in fields[q].camels
    decreases |fields| - p
  {
    if p == |fields| then Option.None
    else if c in fields[p].camels then Some((p, Position(fields[p].camels, c)))
    else Locate(fields, c, p + 1)
  }

  /** Camel `c` stands on some field. */
  ghost predicate OnBoard(g: GameState, c: CamelColor) {
    exists p :: 0 <= p < |g.fields| && c in g.fields[p].camels
  }

  /** The lowest field holding `c`. */
  function FieldOf(g: GameState, c: CamelColor): (p: nat)
    requires OnBoard(g, c)
    ensures p < |g.fields| && c in g.fields[p].camels
    ensures forall q :: 0 <= q < p ==> c !in g.fields[q].camels
  {
    Locate(g.fields, c, 0).value.0
  }

  /** Camel `c` with every camel above it on its field. */
  function Group(g: GameState, c: CamelColor): (s: seq<CamelColor>)
    requires OnBoard(g, c)
    ensures |s| > 0 && s[0] == c
  {
    var st := g.fields[FieldOf(g, c)].camels;
    st[Position(st, c)..]
  }

  /** The search only looks at the stacks. */
  lemma {:induction false} LocateCamelsOnly(fs: seq<CamelField>, us: seq<CamelField>, c: CamelColor, p: nat)
    requires p <= |fs| == |us| && forall q :: 0 <= q < |fs| ==> us[q].camels == fs[q].camels
    ensures Locate(us, c, p) == Locate(fs, c, p)
    decreases |fs| - p
  {
    if p < |fs| {
      assert us[p].camels == fs[p].camels;
      LocateCamelsOnly(fs, us, c, p + 1);
    }
  }

  // ---------------------------------------------------------------------
  // move_camel

  /** `MoveError`. */
  datatype MoveError = InvalidMove | InvalidConfiguration

  /** What a successful move does to the camel records: the rolled camel
      has moved, and every camel of the moving group records the distance. */
  function MarkMoved(info: seq<CamelState>, camel: CamelColor, moving: seq<CamelColor>, d: int): (r: seq<CamelState>)
    requires |info| == 5
    ensures |r| == 5
    ensures forall k :: 0 <= k < 5 ==>
      && r[k].hasMoved == (info[k].hasMoved || k == ToIndex(camel))
      && r[k].posRoundAdd == (if AllCamels[k] in moving then d else info[k].posRoundAdd)
      && r[k].(hasMoved := info[k].hasMoved, posRoundAdd := info[k].posRoundAdd) == info[k]
  {
    var k := ToIndex(camel);
    var marked := info[k := info[k].(hasMoved := true)];
    AddRoundAll(marked, moving, d)
  }

  /** The `for cam in &moving_camels` loop: `pos_round_add = d` for each
      camel of the group, in order. */
  function AddRoundAll(info: seq<CamelState>, moving: seq<CamelColor>, d: int): (r: seq<CamelState>)
    requires |info| == 5
    ensures |r| == 5
    ensures forall k :: 0 <= k < 5 ==>
      r[k] == if AllCamels[k] in moving then info[k].(posRoundAdd := d) else info[k]
    decreases |moving|
  {
    if |moving| == 0 then info
    else
      var k := ToIndex(moving[0]);
      var rest := AddRoundAll(info[k := info[k].(posRoundAdd := d)], moving[1..], d);
      assert forall j :: 0 <= j < 5 ==> (AllCamels[j] in moving <==> AllCamels[j] == moving[0] || AllCamels[j] in moving[1..]) by {
        forall j | 0 <= j < 5 ensures AllCamels[j] in moving <==> AllCamels[j] == moving[0] || AllCamels[j] in moving[1..] {
          assert moving == [moving[0]] + moving[1..];
        }
      }
      rest
  }

  /** `move_camel`: the checks in source order, then the split.  A field
      past the board or a camel that has already moved is an
      `InvalidMove`; a camel on no field an `InvalidConfiguration`; a move
      that is not 1 to 3 fields forward an `InvalidMove`.  Otherwise the
      camel and everything above it leave its field and land, in order, on
      top of `to`. */
  function MoveCamel(g: GameState, camel: CamelColor, to: nat): (r: Result<GameState, MoveError>)
    requires Shaped(g)
    ensures (to >= 16 || g.info[ToIndex(camel)].hasMoved) ==> r == Err(InvalidMove)
    ensures to < 16 && !g.info[ToIndex(camel)].hasMoved && !OnBoard(g, camel) ==> r == Err(InvalidConfiguration)
    ensures to < 16 && !g.info[ToIndex(camel)].hasMoved && OnBoard(g, camel) ==>
      (r.Ok? <==> FieldOf(g, camel) < to <= FieldOf(g, camel) + 3)
    ensures r.Err? && OnBoard(g, camel) && to < 16 && !g.info[ToIndex(camel)].hasMoved ==> r == Err(InvalidMove)
    ensures r.Ok? ==> OnBoard(g, camel) && Moved(g, camel, to, r.value)
  {
    var k := ToIndex(camel);
    if to >= |g.fields| then Err(InvalidMove)
    else if g.info[k].hasMoved then Err(InvalidMove)
    else match Locate(g.fields, camel, 0)
      case None => Err(InvalidConfiguration)
      case Some(found) =>
        var (from, i) := found;
        if from > to || to - from > 3 then Err(InvalidMove)
        else if from == to then Err(InvalidMove)
        else
          var r := g.(fields := Relocate(g.fields, from, i, to),
                      info := MarkMoved(g.info, camel, g.fields[from].camels[i..], to - from));
          MoveOk(g, camel, to, from, i, r);
          Ok(r)
  }

  /** The successful branch of `move_camel` moves as `Moved` says. */
  lemma MoveOk(g: GameState, camel: CamelColor, to: nat, from: nat, i: nat, r: GameState)
    requires Shaped(g) && to < 16 && Locate(g.fields, camel, 0) == Some((from, i)) && from < to <= from + 3
    requires r == g.(fields := Relocate(g.fields, from, i, to),
                     info := MarkMoved(g.info, camel, g.fields[from].camels[i..], to - from))
    ensures OnBoard(g, camel) && Moved(g, camel, to, r)
  {
  }

  /** The state after a successful move of `camel` to `to`: the group from
      the camel's position up leaves its field and is appended to `to`,
      only the rolled camel is marked moved, each camel of the group
      records the distance, and nothing else changes. */
  ghost predicate Moved(g: GameState, camel: CamelColor, to: nat, r: GameState)
    requires Shaped(g) && OnBoard(g, camel)
  {
    var p := FieldOf(g, camel);
    var s := g.fields[p].camels;
    var i := Position(s, camel);
    && |r.fields| == 16 && |r.info| == 5 && p < to < 16
    && r.fields[p].camels == s[..i]
    && r.fields[to].camels == g.fields[to].camels + Group(g, camel)
    && (forall q :: 0 <= q < 16 && q != p && q != to ==> r.fields[q].camels == g.fields[q].camels)
    && (forall q :: 0 <= q < 16 ==> r.fields[q].(camels := g.fields[q].camels) == g.fields[q])
    && (forall k :: 0 <= k < 5 ==>
        && r.info[k].hasMoved == (g.info[k].hasMoved || k == ToIndex(camel))
        && r.info[k].posRoundAdd == (if AllCamels[k] in Group(g, camel) then to - p else g.info[k].posRoundAdd)
        && r.info[k].(hasMoved := g.info[k].hasMoved, posRoundAdd := g.info[k].posRoundAdd) == g.info[k])
    && r.selectedColor == g.selectedColor && r.selectedField == g.selectedField
    && r.rolledDice == g.rolledDice
  }

  /** `move_camel` keeps the shapes of the state. */
  lemma MoveKeepsShape(g: GameState, camel: CamelColor, to: nat)
    requires Shaped(g)
    ensures MoveCamel(g, camel, to).Ok? ==> Shaped(MoveCamel(g, camel, to).value)
  {
    var r := MoveCamel(g, camel, to);
    if r.Ok? {
      forall k | 0 <= k < 5 ensures r.value.info[k].camelColor == AllCamels[k] {
        assert r.value.info[k].camelColor == r.value.info[k].(hasMoved := g.info[k].hasMoved, posRoundAdd := g.info[k].posRoundAdd).camelColor;
      }
    }
  }

  // ---------------------------------------------------------------------
  // The camels on the board

  /** All camels on the fields, field by field, each stack bottom-up. */
  function Flatten(fs: seq<CamelField>): seq<CamelColor> {
    if |fs| == 0 then [] else fs[0].camels + Flatten(fs[1..])
  }

  /** Replacing one stack exchanges its camels for the new ones. */
  lemma {:induction false} FlattenUpdate(fs: seq<CamelField>, p: nat, x: seq<CamelColor>)
    requires p < |fs|
    ensures multiset(Flatten(fs[p := fs[p].(camels := x)])) + multiset(fs[p].camels)
         == multiset(Flatten(fs)) + multiset(x)
  {
    var u := fs[p := fs[p].(camels := x)];
    if p == 0 {
      assert u[1..] == fs[1..];
      assert Flatten(u) == x + Flatten(fs[1..]);
    } else {
      var t := fs[1..];
      FlattenUpdate(t, p - 1, x);
      assert u[1..] == t[p - 1 := t[p - 1].(camels := x)];
      assert Flatten(u) == fs[0].camels + Flatten(u[1..]);
      assert Flatten(fs) == fs[0].camels + Flatten(t);
      assert t[p - 1] == fs[p];
      calc {
        multiset(Flatten(u)) + multiset(fs[p].camels);
        multiset(fs[0].camels) + (multiset(Flatten(u[1..])) + multiset(t[p - 1].camels));
        multiset(fs[0].camels) + (multiset(Flatten(t)) + multiset(x));
      }
    }
  }

  /** Stacks that agree give the same camels, whatever the other parts of
      the fields. */
  lemma {:induction false} FlattenCamelsOnly(fs: seq<CamelField>, us: seq<CamelField>)
    requires |fs| == |us| && forall q :: 0 <= q < |fs| ==> us[q].camels == fs[q].camels
    ensures Flatten(us) == Flatten(fs)
  {
    if |fs| > 0 {
      assert us[0].camels == fs[0].camels;
      FlattenCamelsOnly(fs[1..], us[1..]);
    }
  }

  /** The game is consistent: the shapes hold and the board carries each of
      the five camels exactly once, the setting the source's comments
      assume ("there is always 1 camel of each color"). */
  ghost predicate Consistent(g: GameState) {
    Shaped(g) && multiset(Flatten(g.fields)) == multiset(AllCamels)
  }

  /** A successful `move_camel` neither loses nor duplicates a camel. */
  lemma MovePreservesCamels(g: GameState, camel: CamelColor, to: nat)
    requires Shaped(g)
    ensures MoveCamel(g, camel, to).Ok? ==>
      multiset(Flatten(MoveCamel(g, camel, to).value.fields)) == multiset(Flatten(g.fields))
    ensures MoveCamel(g, camel, to).Ok? && Consistent(g) ==> Consistent(MoveCamel(g, camel, to).value)
  {
    var r := MoveCamel(g, camel, to);
    if r.Ok? {
      MoveKeepsShape(g, camel, to);
      MovedCamels(g, camel, to, r.value);
    }
  }

  /** The board after a move holds the camels it held before. */
  lemma MovedCamels(g: GameState, camel: CamelColor, to: nat, r: GameState)
    requires Shaped(g) && OnBoard(g, camel) && Moved(g, camel, to, r)
    ensures multiset(Flatten(r.fields)) == multiset(Flatten(g.fields))
  {
    var p := FieldOf(g, camel);
    var s := g.fields[p].camels;
    var i := Position(s, camel);
    var f := Relocate(g.fields, p, i, to);
    RelocateKeepsCamels(g.fields, p, i, to);
    forall q | 0 <= q < 16 ensures r.fields[q].camels == f[q].camels {
      if q == p {
        assert r.fields[p].camels == s[..i];
      } else if q == to {
        assert r.fields[to].camels == g.fields[to].camels + Group(g, camel);
      } else {
        assert r.fields[q].camels == g.fields[q].camels;
      }
    }
    FlattenCamelsOnly(f, r.fields);
  }

  /** The fields after lifting stack `p` from position `i` up onto `to`. */
  function Relocate(fs: seq<CamelField>, p: nat, i: nat, to: nat): (r: seq<CamelField>)
    requires p < |fs| && to < |fs| && p != to && i <= |fs[p].camels|
    ensures |r| == |fs|
  {
    var f1 := fs[p := fs[p].(camels := fs[p].camels[..i])];
    f1[to := f1[to].(camels := fs[to].camels + fs[p].camels[i..])]
  }

  /** Lifting part of a stack onto another keeps the board's camels. */
  lemma RelocateKeepsCamels(fs: seq<CamelField>, p: nat, i: nat, to: nat)
    requires p < |fs| && to < |fs| && p != to && i <= |fs[p].camels|
    ensures multiset(Flatten(Relocate(fs, p, i, to))) == multiset(Flatten(fs))
  {
    var s := fs[p].camels;
    var t := fs[to].camels;
    var f1 := fs[p := fs[p].(camels := s[..i])];
    var r := f1[to := f1[to].(camels := t + s[i..])];
    assert r == Relocate(fs, p, i, to);
    FlattenUpdate(fs, p, s[..i]);
    FlattenUpdate(f1, to, t + s[i..]);
    assert f1[to].camels == t;
    SplitMultiset(s, i);
    Exchange(multiset(Flatten(fs)), multiset(Flatten(f1)), multiset(Flatten(r)),
      multiset(s[..i]), multiset(s[i..]), multiset(t));
  }

  lemma SplitMultiset<T>(s: seq<T>, i: nat)
    requires i <= |s|
    ensures multiset(s) == multiset(s[..i]) + multiset(s[i..])
  {
    assert s == s[..i] + s[i..];
  }

  /** Taking the upper part `y` of a stack `x + y` off a board `a` and then
      putting it onto a stack `t` of the intermediate board `b` gives back
      the camels of `a`. */
  lemma Exchange<T>(a: multiset<T>, b: multiset<T>, c: multiset<T>, x: multiset<T>, y: multiset<T>, t: multiset<T>)
    requires b + (x + y) == a + x
    requires c + t == b + (t + y)
    ensures c == a
  {
    forall z ensures c[z] == a[z] {
      assert (c + t)[z] == (b + (t + y))[z];
      assert (b + (x + y))[z] == (a + x)[z];
    }
  }

  /** On a consistent board every camel stands on some field. */
  lemma ConsistentOnBoard(g: GameState, c: CamelColor)
    requires Consistent(g)
    ensures OnBoard(g, c)
  {
    assert c in AllCamels by { assert AllCamels[ToIndex(c)] == c; }
    assert c in multiset(Flatten(g.fields));
    FlattenMember(g.fields, c);
  }

  /** A camel of the flattened board stands on one of the fields. */
  lemma {:induction false} FlattenMember(fs: seq<CamelField>, c: CamelColor)
    ensures c in Flatten(fs) <==> exists q :: 0 <= q < |fs| && c in fs[q].camels
  {
    if |fs| > 0 {
      FlattenMember(fs[1..], c);
      if c in Flatten(fs[1..]) {
        var q :| 0 <= q < |fs[1..]| && c in fs[1..][q].camels;
        assert c in fs[q + 1].camels;
      }
      forall q | 0 < q < |fs| && c in fs[q].camels ensures c in Flatten(fs[1..]) {
        assert fs[1..][q - 1] == fs[q];
      }
    }
  }

  // ---------------------------------------------------------------------
  // Selections

  /** Exactly the record of the selected colour carries the flag. */
  ghost predicate ColorSelected(g: GameState)
    requires Shaped(g)
  {
    forall k :: 0 <= k < 5 ==> (g.info[k].selected <==> k == g.selectedColor)
  }

  /** Exactly the selected field carries the flag. */
  ghost predicate FieldSelected(g: GameState)
    requires Shaped(g)
  {
    forall q :: 0 <= q < 16 ==> (g.fields[q].selected <==> q == g.selectedField)
  }

  /** Clear the flag of record `from`, then set that of record `to`. */
  function Reselect(info: seq<CamelState>, from: nat, to: nat): (r: seq<CamelState>)
    requires |info| == 5 && from < 5 && to < 5
    ensures |r| == 5
    ensures forall k :: 0 <= k < 5 ==> r[k].selected == (k == to || (k != from && info[k].selected))
    ensures forall k :: 0 <= k < 5 ==> r[k].(selected := info[k].selected) == info[k]
  {
    var cleared := info[from := info[from].(selected := false)];
    cleared[to := cleared[to].(selected := true)]
  }

  /** `move_selected_color_rel`: step the colour cursor by `delta`; past
      the last colour it starts over at the first, before the first it
      jumps to the last. */
  function MoveSelectedColorRel(g: GameState, delta: int): (r: GameState)
    requires Shaped(g)
    ensures Shaped(r)
    ensures g.selectedColor + delta >= 5 ==> r.selectedColor == 0
    ensures g.selectedColor + delta < 0 ==> r.selectedColor == 4
    ensures 0 <= g.selectedColor + delta < 5 ==> r.selectedColor == g.selectedColor + delta
    ensures ColorSelected(g) ==> ColorSelected(r)
    ensures forall k :: 0 <= k < 5 ==>
      r.info[k].selected == (k == r.selectedColor || (k != g.selectedColor && g.info[k].selected))
    ensures FlagsOnly(g, r)
  {
    var n := g.selectedColor + delta;
    var next: nat := if n >= 5 then 0 else if n < 0 then 4 else n;
    var r := g.(info := Reselect(g.info, g.selectedColor, next), selectedColor := next);
    assert forall k :: 0 <= k < 5 ==> r.info[k].camelColor == g.info[k].camelColor;
    r
  }

  /** One step forward and one back leave a consistent selection where it was. */
  lemma ColorStepBack(g: GameState)
    requires Shaped(g) && ColorSelected(g)
    ensures MoveSelectedColorRel(MoveSelectedColorRel(g, 1), -1) == g
  {
    var r := MoveSelectedColorRel(MoveSelectedColorRel(g, 1), -1);
    forall k | 0 <= k < 5 ensures r.info[k] == g.info[k] {
      assert r.info[k].selected == g.info[k].selected;
    }
  }

  /** Five steps forward run through all colours and return to the start. */
  lemma ColorCycle(g: GameState)
    requires Shaped(g) && ColorSelected(g)
    ensures MoveSelectedColorRel(MoveSelectedColorRel(MoveSelectedColorRel(
      MoveSelectedColorRel(MoveSelectedColorRel(g, 1), 1), 1), 1), 1) == g
  {
    var g1 := MoveSelectedColorRel(g, 1);
    var g2 := MoveSelectedColorRel(g1, 1);
    var g3 := MoveSelectedColorRel(g2, 1);
    var g4 := MoveSelectedColorRel(g3, 1);
    var r := MoveSelectedColorRel(g4, 1);
    FlagsOnlyTrans(g, g1, g2);
    FlagsOnlyTrans(g, g2, g3);
    FlagsOnlyTrans(g, g3, g4);
    FlagsOnlyTrans(g, g4, r);
    SameSelection(g, r);
  }

  /** `h` differs from `g` at most in the colour cursor and the colour flags. */
  ghost predicate FlagsOnly(g: GameState, h: GameState)
    requires Shaped(g) && Shaped(h)
  {
    && h.(info := g.info, selectedColor := g.selectedColor) == g
    && forall k :: 0 <= k < 5 ==> h.info[k].(selected := g.info[k].selected) == g.info[k]
  }

  lemma FlagsOnlyTrans(a: GameState, b: GameState, c: GameState)
    requires Shaped(a) && Shaped(b) && Shaped(c)
    requires FlagsOnly(a, b) && FlagsOnly(b, c)
    ensures FlagsOnly(a, c)
  {
    forall k | 0 <= k < 5 ensures c.info[k].(selected := a.info[k].selected) == a.info[k] {
      assert c.info[k].(selected := b.info[k].selected) == b.info[k];
    }
  }

  /** Two states that differ only in the colour flags, each with a
      consistent colour selection at the same cursor, are equal. */
  lemma SameSelection(g: GameState, h: GameState)
    requires Shaped(g) && Shaped(h) && FlagsOnly(g, h)
    requires ColorSelected(g) && ColorSelected(h) && h.selectedColor == g.selectedColor
    ensures h == g
  {
    forall k | 0 <= k < 5 ensures h.info[k] == g.info[k] {
      assert h.info[k].selected == g.info[k].selected;
    }
  }

  /** `move_selected_color`: select colour `next`; every camel that has not
      moved yet forgets the distance previewed for it. */
  function MoveSelectedColor(g: GameState, next: nat): (r: GameState)
    requires Shaped(g) && next < 5
    ensures Shaped(r) && r.selectedColor == next
    ensures ColorSelected(g) ==> ColorSelected(r)
    ensures r.info[next].selected
    ensures forall k :: 0 <= k < 5 && k != next ==> r.info[k].selected == (k != g.selectedColor && g.info[k].selected)
    ensures forall k :: 0 <= k < 5 ==> r.info[k].posRoundAdd == if g.info[k].hasMoved then g.info[k].posRoundAdd else 0
    ensures forall k :: 0 <= k < 5 ==>
      r.info[k].(selected := g.info[k].selected, posRoundAdd := g.info[k].posRoundAdd) == g.info[k]
    ensures r.(info := g.info, selectedColor := g.selectedColor) == g
  {
    var cleared := g.info[g.selectedColor := g.info[g.selectedColor].(selected := false)];
    var reset := ForgetPreviews(cleared);
    g.(info := reset[next := reset[next].(selected := true)], selectedColor := next)
  }

  /** Each record of a camel that has not moved loses its previewed distance. */
  function ForgetPreviews(info: seq<CamelState>): (r: seq<CamelState>)
    requires |info| == 5
    ensures |r| == 5
    ensures forall k :: 0 <= k < 5 ==> r[k].posRoundAdd == if info[k].hasMoved then info[k].posRoundAdd else 0
    ensures forall k :: 0 <= k < 5 ==> r[k].(posRoundAdd := info[k].posRoundAdd) == info[k]
  {
    seq(5, k requires 0 <= k < 5 => if info[k].hasMoved then info[k] else info[k].(posRoundAdd := 0))
  }

  /** Selecting the same colour twice is selecting it once. */
  lemma SelectColorIdempotent(g: GameState, next: nat)
    requires Shaped(g) && next < 5
    ensures MoveSelectedColor(MoveSelectedColor(g, next), next) == MoveSelectedColor(g, next)
  {
    var r1 := MoveSelectedColor(g, next);
    var r2 := MoveSelectedColor(r1, next);
    forall k | 0 <= k < 5 ensures r2.info[k] == r1.info[k] {
      assert r2.info[k].selected == r1.info[k].selected;
      assert r2.info[k].posRoundAdd == r1.info[k].posRoundAdd;
    }
  }

  /** Every record's distance grows by `delta` once for each time its
      camel is listed in `m`. */
  function ShiftRounds(info: seq<CamelState>, m: multiset<CamelColor>, delta: int): (r: seq<CamelState>)
    requires |info| == 5
    ensures |r| == 5
  {
    seq(5, k requires 0 <= k < 5 => info[k].(posRoundAdd := info[k].posRoundAdd + delta * m[AllCamels[k]]))
  }

  /** `pos_round_add += delta` for every camel of the group, in order: a
      camel's record grows by `delta` once per listing. */
  function AddRoundRel(info: seq<CamelState>, moving: seq<CamelColor>, delta: int): (r: seq<CamelState>)
    requires |info| == 5
    ensures r == ShiftRounds(info, multiset(moving), delta)
    decreases |moving|
  {
    if |moving| == 0 then
      assert ShiftRounds(info, multiset(moving), delta) == info;
      info
    else
      var k := ToIndex(moving[0]);
      var rest := AddRoundRel(info[k := info[k].(posRoundAdd := info[k].posRoundAdd + delta)], moving[1..], delta);
      AddRoundStep(info, moving, delta);
      rest
  }

  /** One more listing of the head camel adds one more `delta`. */
  lemma AddRoundStep(info: seq<CamelState>, moving: seq<CamelColor>, delta: int)
    requires |info| == 5 && |moving| > 0
    ensures var k := ToIndex(moving[0]);
      ShiftRounds(info[k := info[k].(posRoundAdd := info[k].posRoundAdd + delta)], multiset(moving[1..]), delta)
      == ShiftRounds(info, multiset(moving), delta)
  {
    var k := ToIndex(moving[0]);
    var a := ShiftRounds(info[k := info[k].(posRoundAdd := info[k].posRoundAdd + delta)], multiset(moving[1..]), delta);
    var b := ShiftRounds(info, multiset(moving), delta);
    forall j | 0 <= j < 5 ensures a[j] == b[j] {
      AddRoundAt(info, moving, delta, j);
    }
  }

  /** `AddRoundStep` for the record of index `j`. */
  lemma AddRoundAt(info: seq<CamelState>, moving: seq<CamelColor>, delta: int, j: nat)
    requires |info| == 5 && |moving| > 0 && j < 5
    ensures var k := ToIndex(moving[0]);
      ShiftRounds(info[k := info[k].(posRoundAdd := info[k].posRoundAdd + delta)], multiset(moving[1..]), delta)[j]
      == ShiftRounds(info, multiset(moving), delta)[j]
  {
    var k := ToIndex(moving[0]);
    var m := multiset(moving[1..])[AllCamels[j]];
    assert moving == [moving[0]] + moving[1..];
    if j == k {
      assert multiset(moving)[AllCamels[j]] == m + 1;
      MulSucc(delta, m);
    } else {
      assert multiset(moving)[AllCamels[j]] == m;
    }
  }

  lemma MulSucc(delta: int, m: nat)
    ensures delta * (m + 1) == delta * m + delta
  {
  }

  /** `move_selected_field_rel`: step the field cursor by `delta`, wrapping
      from before the first field to the last and from past the last to the
      first, and add `delta` to the previewed distance of the selected
      colour's camel and every camel above it.  The source panics when that
      camel is on no field; here that is the precondition. */
  function MoveSelectedFieldRel(g: GameState, delta: int): (r: GameState)
    requires Shaped(g) && OnBoard(g, AllCamels[g.selectedColor])
    ensures Shaped(r)
    ensures g.selectedField + delta < 0 ==> r.selectedField == 15
    ensures g.selectedField + delta >= 16 ==> r.selectedField == 0
    ensures 0 <= g.selectedField + delta < 16 ==> r.selectedField == g.selectedField + delta
    ensures FieldSelected(g) ==> FieldSelected(r)
    ensures forall q :: 0 <= q < 16 ==>
      r.fields[q].selected == (q == r.selectedField || (q != g.selectedField && g.fields[q].selected))
    ensures forall q :: 0 <= q < 16 ==> r.fields[q].(selected := g.fields[q].selected) == g.fields[q]
    ensures r.info == ShiftRounds(g.info, multiset(Group(g, AllCamels[g.selectedColor])), delta)
    ensures r.(fields := g.fields, info := g.info, selectedField := g.selectedField) == g
  {
    var c := AllCamels[g.selectedColor];
    var n := g.selectedField + delta;
    var next: nat := if n < 0 then 15 else if n >= 16 then 0 else n;
    var fields := MoveFieldFlag(g.fields, g.selectedField, next);
    LocateCamelsOnly(g.fields, fields, c, 0);
    var found := Locate(fields, c, 0).value;
    var moving := fields[found.0].camels[found.1..];
    var info := AddRoundRel(g.info, moving, delta);
    assert forall k :: 0 <= k < 5 ==> info[k].camelColor == g.info[k].camelColor;
    g.(fields := fields, info := info, selectedField := next)
  }

  /** Clear the flag of field `from`, then set that of field `to`. */
  function MoveFieldFlag(fs: seq<CamelField>, from: nat, to: nat): (r: seq<CamelField>)
    requires from < |fs| && to < |fs|
    ensures |r| == |fs|
    ensures forall q :: 0 <= q < |fs| ==> r[q].selected == (q == to || (q != from && fs[q].selected))
    ensures forall q :: 0 <= q < |fs| ==> r[q].(selected := fs[q].selected) == fs[q]
  {
    var cleared := fs[from := fs[from].(selected := false)];
    cleared[to := cleared[to].(selected := true)]
  }

  /** States whose stacks agree have the same groups. */
  lemma GroupCamelsOnly(g: GameState, h: GameState, c: CamelColor)
    requires OnBoard(g, c) && |h.fields| == |g.fields|
    requires forall q :: 0 <= q < |g.fields| ==> h.fields[q].camels == g.fields[q].camels
    ensures OnBoard(h, c) && FieldOf(h, c) == FieldOf(g, c) && Group(h, c) == Group(g, c)
  {
    LocateCamelsOnly(g.fields, h.fields, c, 0);
    var p := FieldOf(g, c);
    assert c in h.fields[p].camels;
  }

  /** One step forward and one back restore a state whose field selection
      is consistent: the flags, the cursor and the previewed distances. */
  lemma FieldStepBack(g: GameState)
    requires Shaped(g) && FieldSelected(g) && OnBoard(g, AllCamels[g.selectedColor])
    ensures OnBoard(MoveSelectedFieldRel(g, 1), AllCamels[g.selectedColor])
    ensures MoveSelectedFieldRel(MoveSelectedFieldRel(g, 1), -1) == g
  {
    var c := AllCamels[g.selectedColor];
    var g1 := MoveSelectedFieldRel(g, 1);
    GroupCamelsOnly(g, g1, c);
    var r := MoveSelectedFieldRel(g1, -1);
    FlagsBack(g, g1, r);
    RoundsBack(g.info, multiset(Group(g, c)), 1, -1);
  }

  /** The field flags and cursor after one step forward and one back. */
  lemma FlagsBack(g: GameState, g1: GameState, r: GameState)
    requires Shaped(g) && FieldSelected(g) && OnBoard(g, AllCamels[g.selectedColor])
    requires g1 == MoveSelectedFieldRel(g, 1) && OnBoard(g1, AllCamels[g1.selectedColor])
    requires r == MoveSelectedFieldRel(g1, -1)
    ensures r.fields == g.fields && r.selectedField == g.selectedField
  {
    assert g1.fields == MoveFieldFlag(g.fields, g.selectedField, g1.selectedField);
    assert r.fields == MoveFieldFlag(g1.fields, g1.selectedField, g.selectedField);
    FlagBack(g.fields, g.selectedField, g1.selectedField);
  }

  /** Moving the only flag from `a` to `b` and back restores the fields. */
  lemma FlagBack(fs: seq<CamelField>, a: nat, b: nat)
    requires a < |fs| && b < |fs| && forall q :: 0 <= q < |fs| ==> (fs[q].selected <==> q == a)
    ensures MoveFieldFlag(MoveFieldFlag(fs, a, b), b, a) == fs
  {
    var r := MoveFieldFlag(MoveFieldFlag(fs, a, b), b, a);
    forall q | 0 <= q < |fs| ensures r[q] == fs[q] {
      assert r[q].selected == fs[q].selected;
    }
  }

  /** Adding a count once and taking it away again restores the records. */
  lemma RoundsBack(info: seq<CamelState>, m: multiset<CamelColor>, up: int, down: int)
    requires |info| == 5 && up + down == 0
    ensures ShiftRounds(ShiftRounds(info, m, up), m, down) == info
  {
    var r := ShiftRounds(ShiftRounds(info, m, up), m, down);
    forall k | 0 <= k < 5 ensures r[k] == info[k] {
      assert up * m[AllCamels[k]] + down * m[AllCamels[k]] == 0;
    }
  }

  // ---------------------------------------------------------------------
  // init

  /** The fields `init` may be given: every listed field is on the board. */
  predicate ListingInRange(config: seq<(nat, CamelColor)>) {
    forall j :: 0 <= j < |config| ==> config[j].0 < 16
  }

  /** The camels listed for field `p`, in list order. */
  function Listed(config: seq<(nat, CamelColor)>, p: nat): seq<CamelColor> {
    if |config| == 0 then []
    else Listed(config[..|config| - 1], p) + (if config[|config| - 1].0 == p then [config[|config| - 1].1] else [])
  }

  /** The field of the last listing of `c`, 0 when `c` is not listed. */
  function LastField(config: seq<(nat, CamelColor)>, c: CamelColor): (p: nat)
    ensures (exists j :: 0 <= j < |config| && config[j].1 == c) ==>
      exists j :: 0 <= j < |config| && config[j] == (p, c) && forall l :: j < l < |config| ==> config[l].1 != c
    ensures (forall j :: 0 <= j < |config| ==> config[j].1 != c) ==> p == 0
  {
    if |config| == 0 then 0
    else if config[|config| - 1].1 == c then config[|config| - 1].0
    else
      var front := config[..|config| - 1];
      var p := LastField(front, c);
      assert forall j :: 0 <= j < |front| ==> front[j] == config[j];
      p
  }

  /** The camels listed anywhere, in list order. */
  function ListedColors(config: seq<(nat, CamelColor)>): (r: seq<CamelColor>)
    ensures |r| == |config| && forall j :: 0 <= j < |config| ==> r[j] == config[j].1
  {
    if |config| == 0 then []
    else ListedColors(config[..|config| - 1]) + [config[|config| - 1].1]
  }

  /** The state `init` starts from: the default with field 0 and colour 0 selected. */
  function Selected0(): (g: GameState)
    ensures Shaped(g) && ColorSelected(g) && FieldSelected(g)
    ensures g.selectedColor == 0 && g.selectedField == 0 && g.rolledDice == 0
    ensures forall p :: 0 <= p < 16 ==> g.fields[p].camels == []
    ensures forall k :: 0 <= k < 5 ==> g.info[k] == NewCamelState(AllCamels[k]).(selected := k == 0)
  {
    var d := DefaultState();
    d.(fields := d.fields[0 := d.fields[0].(selected := true)],
       info := d.info[0 := d.info[0].(selected := true)])
  }

  /** One iteration of `init`'s loop: push the camel onto its field and
      record that field as its start. */
  function Push(g: GameState, entry: (nat, CamelColor)): (r: GameState)
    requires Shaped(g) && entry.0 < 16
    ensures Shaped(r)
    ensures forall p :: 0 <= p < 16 ==>
      r.fields[p].camels == if p == entry.0 then g.fields[p].camels + [entry.1] else g.fields[p].camels
    ensures forall k :: 0 <= k < 5 ==>
      r.info[k].startPos == if k == ToIndex(entry.1) then entry.0 else g.info[k].startPos
    ensures forall p :: 0 <= p < 16 ==> r.fields[p].(camels := g.fields[p].camels) == g.fields[p]
    ensures forall k :: 0 <= k < 5 ==> r.info[k].(startPos := g.info[k].startPos) == g.info[k]
    ensures r.(fields := g.fields, info := g.info) == g
  {
    var (i, c) := entry;
    var k := ToIndex(c);
    g.(fields := g.fields[i := g.fields[i].(camels := g.fields[i].camels + [c])],
       info := g.info[k := g.info[k].(startPos := i)])
  }

  /** `init`: from `Selected0`, each listed camel in turn is pushed onto its
      field.  The source indexes the field array with the listed field, so
      a field past the board panics; here that is the precondition. */
  function Init(config: seq<(nat, CamelColor)>): (g: GameState)
    requires ListingInRange(config)
    ensures Shaped(g)
  {
    if |config| == 0 then Selected0()
    else Push(Init(config[..|config| - 1]), config[|config| - 1])
  }

  /** Each field of the initial state holds the camels listed for it, in
      list order. */
  lemma {:induction false} InitFields(config: seq<(nat, CamelColor)>)
    requires ListingInRange(config)
    ensures forall p :: 0 <= p < 16 ==> Init(config).fields[p].camels == Listed(config, p)
  {
    if |config| > 0 {
      InitFields(config[..|config| - 1]);
    }
  }

  /** Each camel starts on the field of its last listing, on field 0 when
      it is not listed. */
  lemma {:induction false} InitStarts(config: seq<(nat, CamelColor)>)
    requires ListingInRange(config)
    ensures forall k :: 0 <= k < 5 ==> Init(config).info[k].startPos == LastField(config, AllCamels[k])
  {
    if |config| > 0 {
      InitStarts(config[..|config| - 1]);
      forall k | 0 <= k < 5 ensures Init(config).info[k].startPos == LastField(config, AllCamels[k]) {
        InitStartStep(config, k);
      }
    }
  }

  /** The last listing decides one camel's start. */
  lemma InitStartStep(config: seq<(nat, CamelColor)>, k: nat)
    requires ListingInRange(config) && |config| > 0 && k < 5
    ensures var front := config[..|config| - 1];
      Init(front).info[k].startPos == LastField(front, AllCamels[k]) ==>
      Init(config).info[k].startPos == LastField(config, AllCamels[k])
  {
    var c := config[|config| - 1].1;
    assert k == ToIndex(c) <==> AllCamels[k] == c;
  }

  /** The rest of the initial state: field 0 and colour 0 selected, no
      camel moved, no distances, no dice. */
  lemma {:induction false} InitFlags(config: seq<(nat, CamelColor)>)
    requires ListingInRange(config)
    ensures var g := Init(config);
      && ColorSelected(g) && FieldSelected(g)
      && g.selectedColor == 0 && g.selectedField == 0 && g.rolledDice == 0
      && forall k :: 0 <= k < 5 ==>
        g.info[k] == NewCamelState(AllCamels[k]).(selected := k == 0, startPos := g.info[k].startPos)
  {
    if |config| > 0 {
      InitFlags(config[..|config| - 1]);
    }
  }

  /** The initial board carries exactly the listed camels. */
  lemma {:induction false} InitCamels(config: seq<(nat, CamelColor)>)
    requires ListingInRange(config)
    ensures multiset(Flatten(Init(config).fields)) == multiset(ListedColors(config))
  {
    if |config| == 0 {
      var g := Selected0();
      FlattenEmpty(g.fields);
    } else {
      var front := config[..|config| - 1];
      var (i, c) := config[|config| - 1];
      InitCamels(front);
      PushCamels(Init(front), i, c);
    }
  }

  lemma {:induction false} FlattenEmpty(fs: seq<CamelField>)
    requires forall q :: 0 <= q < |fs| ==> fs[q].camels == []
    ensures Flatten(fs) == []
  {
    if |fs| > 0 {
      FlattenEmpty(fs[1..]);
    }
  }

  /** A push adds its camel to the board. */
  lemma PushCamels(g: GameState, i: nat, c: CamelColor)
    requires Shaped(g) && i < 16
    ensures multiset(Flatten(Push(g, (i, c)).fields)) == multiset(Flatten(g.fields)) + multiset{c}
  {
    var s := g.fields[i].camels;
    var r := Push(g, (i, c));
    FlattenUpdate(g.fields, i, s + [c]);
    FlattenCamelsOnly(g.fields[i := g.fields[i].(camels := s + [c])], r.fields);
    AddOne(multiset(Flatten(g.fields)), multiset(Flatten(r.fields)), multiset(s), c);
  }

  lemma AddOne<T>(a: multiset<T>, b: multiset<T>, s: multiset<T>, x: T)
    requires b + s == a + (s + multiset{x})
    ensures b == a + multiset{x}
  {
    forall z ensures b[z] == (a + multiset{x})[z] {
      assert (b + s)[z] == (a + (s + multiset{x}))[z];
    }
  }

  /** A listing of each camel exactly once sets up a consistent game. */
  lemma InitConsistent(config: seq<(nat, CamelColor)>)
    requires ListingInRange(config) && multiset(ListedColors(config)) == multiset(AllCamels)
    ensures Consistent(Init(config))
  {
    InitCamels(config);
  }

  // ---------------------------------------------------------------------
  // convert_game_state_configuration

  /** A TUI stack in the simulator's colours. */
  function CalcStack(camels: seq<CamelColor>): (r: seq<Colors.Color>)
    ensures |r| == |camels| && forall j :: 0 <= j < |camels| ==> r[j] == ToCalc(camels[j])
  {
    seq(|camels|, j requires 0 <= j < |camels| => ToCalc(camels[j]))
  }

  /** The placements of the fields from `base` on: each field's camels,
      bottom-up, tagged with the field's index, fields in order. */
  function PlacementsFrom(fs: seq<CamelField>, base: nat): (ps: seq<(nat, Colors.Color)>)
    ensures forall j :: 0 <= j < |ps| ==> base <= ps[j].0 < base + |fs| && Colors.IsCamel(ps[j].1)
  {
    if |fs| == 0 then [] else Tag(base, fs[0].camels) + PlacementsFrom(fs[1..], base + 1)
  }

  /** One field's camels tagged with the field's index. */
  function Tag(base: nat, camels: seq<CamelColor>): (r: seq<(nat, Colors.Color)>)
    ensures |r| == |camels| && forall j :: 0 <= j < |r| ==> r[j] == (base, ToCalc(camels[j]))
  {
    seq(|camels|, j requires 0 <= j < |camels| => (base, ToCalc(camels[j])))
  }

  /** The colours `filter_map` keeps: those of the records that have not
      moved, in record order. */
  function Waiting(info: seq<CamelState>): seq<Colors.Color> {
    if |info| == 0 then []
    else
      var last := info[|info| - 1];
      Waiting(info[..|info| - 1]) + (if !last.hasMoved then [ToCalc(last.camelColor)] else [])
  }

  /** Of the first `n` records in colour order, a colour is kept exactly
      when its camel has not moved. */
  lemma {:induction false} WaitingPrefix(info: seq<CamelState>, n: nat)
    requires n <= |info| == 5 && forall k :: 0 <= k < 5 ==> info[k].camelColor == AllCamels[k]
    ensures forall k :: 0 <= k < 5 ==> (ToCalc(AllCamels[k]) in Waiting(info[..n]) <==> k < n && !info[k].hasMoved)
  {
    if n > 0 {
      WaitingPrefix(info, n - 1);
      WaitingStep(info, n);
    }
  }

  /** One more record in `WaitingPrefix`. */
  lemma WaitingStep(info: seq<CamelState>, n: nat)
    requires 0 < n <= |info| == 5 && forall k :: 0 <= k < 5 ==> info[k].camelColor == AllCamels[k]
    requires forall k :: 0 <= k < 5 ==> (ToCalc(AllCamels[k]) in Waiting(info[..n - 1]) <==> k < n - 1 && !info[k].hasMoved)
    ensures forall k :: 0 <= k < 5 ==> (ToCalc(AllCamels[k]) in Waiting(info[..n]) <==> k < n && !info[k].hasMoved)
  {
    assert info[..n][..n - 1] == info[..n - 1];
    var added: seq<Colors.Color> := if !info[n - 1].hasMoved then [ToCalc(AllCamels[n - 1])] else [];
    assert Waiting(info[..n]) == Waiting(info[..n - 1]) + added;
    AllCamelsDistinct();
    forall k | 0 <= k < 5 ensures ToCalc(AllCamels[k]) == ToCalc(AllCamels[n - 1]) ==> k == n - 1 {
      if ToCalc(AllCamels[k]) == ToCalc(AllCamels[n - 1]) {
        ToCalcInjective(AllCamels[k], AllCamels[n - 1]);
      }
    }
  }

  /** `convert_game_state_configuration`: the simulator's configuration of
      the board, with the colours that have not moved yet to throw and no
      queued dice. */
  function ConvertGameState(g: GameState): (r: Configurations.Configuration)
    requires Shaped(g)
    ensures CamelMaps.Shaped(r.board) && r.board.cards == CamelMaps.NoCards()
    ensures r.diceQueue == []
  {
    var positions := PlacementsFrom(g.fields, 0);
    var colors := Waiting(g.info);
    Configurations.BuildConfiguration(
      Configurations.WithAvailableColors(Configurations.WithMap(Configurations.NewBuilder(), positions), colors))
  }

  /** What the builder makes of the two lists. */
  lemma ConvertParts(g: GameState)
    requires Shaped(g)
    ensures CamelMaps.PlacementsInRange(PlacementsFrom(g.fields, 0))
    ensures ConvertGameState(g).board == CamelMaps.New(PlacementsFrom(g.fields, 0))
    ensures forall x :: CS.Contains(ConvertGameState(g).available, x) <==> Colors.IsCamel(x) && x in Waiting(g.info)
  {
    var positions := PlacementsFrom(g.fields, 0);
    var b := Configurations.NewBuilder();
    Configurations.BuildSetters(b, positions, CamelMaps.New(positions), Waiting(g.info), CS.Default());
    Configurations.BuildSetters(Configurations.WithMap(b, positions), positions, CamelMaps.New(positions), Waiting(g.info), CS.Default());
  }

  /** The converted board: every field holds the same stack, bottom-up, in
      the simulator's colours. */
  lemma ConvertBoard(g: GameState)
    requires Shaped(g)
    ensures forall i :: 0 <= i < 16 ==> CamelMaps.Stack(ConvertGameState(g).board, i) == CalcStack(g.fields[i].camels)
  {
    var positions := PlacementsFrom(g.fields, 0);
    ConvertParts(g);
    CamelMaps.NewSpec(positions);
    ConvertStacks(g.fields, 0);
  }

  /** The converted colour set: exactly the colours whose camel has not
      moved this round. */
  lemma ConvertColors(g: GameState)
    requires Shaped(g)
    ensures forall k :: 0 <= k < 5 ==> (CS.Contains(ConvertGameState(g).available, ToCalc(AllCamels[k])) <==> !g.info[k].hasMoved)
    ensures forall x :: CS.Contains(ConvertGameState(g).available, x) ==> Colors.IsCamel(x)
  {
    var positions := PlacementsFrom(g.fields, 0);
    ConvertParts(g);
    WaitingPrefix(g.info, 5);
    assert g.info[..5] == g.info;
  }

  /** A consistent game converts to a valid board on which all five
      camels stand: the precondition of the simulator's round. */
  lemma ConvertConsistent(g: GameState)
    requires Consistent(g)
    ensures CamelMaps.Valid(ConvertGameState(g).board) && CamelMaps.Full(ConvertGameState(g).board)
  {
    var positions := PlacementsFrom(g.fields, 0);
    ConvertParts(g);
    ConvertDistinct(g);
    CamelMaps.NewSpec(positions);
    var m := CamelMaps.New(positions);
    forall c | Colors.IsCamel(c) ensures CamelMaps.Placed(m, c) {
      var j := ConvertLists(g, c);
    }
  }

  /** On a consistent board the placements name each colour once. */
  lemma ConvertDistinct(g: GameState)
    requires Consistent(g)
    ensures CamelMaps.DistinctColors(PlacementsFrom(g.fields, 0))
  {
    var positions := PlacementsFrom(g.fields, 0);
    var flat := Flatten(g.fields);
    PlacementColors(g.fields, 0);
    AllCamelsDistinct();
    SameMultisetDistinct(flat, AllCamels);
    forall j, l | 0 <= j < l < |positions| ensures positions[j].1 != positions[l].1 {
      if positions[j].1 == positions[l].1 {
        ToCalcInjective(flat[j], flat[l]);
      }
    }
  }

  /** On a consistent board the placements name every colour. */
  lemma ConvertLists(g: GameState, c: Colors.Color) returns (j: nat)
    requires Consistent(g) && Colors.IsCamel(c)
    ensures j < |PlacementsFrom(g.fields, 0)| && PlacementsFrom(g.fields, 0)[j].1 == c
  {
    var flat := Flatten(g.fields);
    PlacementColors(g.fields, 0);
    var d := FromCalc(c);
    assert d in multiset(AllCamels) by {
      assert AllCamels[ToIndex(d)] == d;
    }
    j :| 0 <= j < |flat| && flat[j] == d;
  }

  /** The TUI colour of a simulator camel colour, by index. */
  lemma FromCalc(c: Colors.Color) returns (d: CamelColor)
    requires Colors.IsCamel(c)
    ensures ToCalc(d) == c
  {
    d := AllCamels[Colors.Index(c)];
    assert ToIndex(d) == Colors.Index(c) as nat by {
      var i := Colors.Index(c) as nat;
      if i == 0 {} else if i == 1 {} else if i == 2 {} else if i == 3 {} else {}
    }
    Colors.IndexRoundTrip(c);
  }

  /** Different TUI colours convert to different simulator colours. */
  lemma ToCalcInjective(a: CamelColor, b: CamelColor)
    requires ToCalc(a) == ToCalc(b)
    ensures a == b
  {
    assert ToIndex(a) == Colors.Index(ToCalc(a)) as nat == ToIndex(b);
  }

  lemma AllCamelsDistinct()
    ensures Distinct(AllCamels)
  {
    forall j, l | 0 <= j < l < 5 ensures AllCamels[j] != AllCamels[l] {
      assert ToIndex(AllCamels[j]) == j;
    }
  }

  /** A sequence with the elements of a repeat-free sequence has no repeats. */
  lemma SameMultisetDistinct<T>(s: seq<T>, t: seq<T>)
    requires multiset(s) == multiset(t) && Distinct(t)
    ensures Distinct(s)
  {
    DistinctMultiset(t);
    forall j, l | 0 <= j < l < |s| ensures s[j] != s[l] {
      var x := s[j];
      assert s == s[..l] + s[l..];
      assert x in multiset(s[..l]);
      assert multiset(s)[x] == multiset(s[..l])[x] + multiset(s[l..])[x];
      assert s[l] in multiset(s[l..]);
    }
  }

  /** The placements list the board's camels, field by field, in the
      simulator's colours. */
  lemma {:induction false} PlacementColors(fs: seq<CamelField>, base: nat)
    ensures |PlacementsFrom(fs, base)| == |Flatten(fs)|
    ensures forall j :: 0 <= j < |Flatten(fs)| ==> PlacementsFrom(fs, base)[j].1 == ToCalc(Flatten(fs)[j])
    decreases |fs|
  {
    if |fs| > 0 {
      PlacementColors(fs[1..], base + 1);
    }
  }

  /** The placements of the fields from `base` on put each field's camels
      on that field. */
  lemma {:induction false} ConvertStacks(fs: seq<CamelField>, base: nat)
    ensures forall i: nat :: CamelMaps.OnField(PlacementsFrom(fs, base), i) == Expected(fs, base, i)
    decreases |fs|
  {
    if |fs| > 0 {
      ConvertStacks(fs[1..], base + 1);
      forall i: nat ensures CamelMaps.OnField(PlacementsFrom(fs, base), i) == Expected(fs, base, i) {
        OnFieldAppend(Tag(base, fs[0].camels), PlacementsFrom(fs[1..], base + 1), i);
        OwnField(fs[0].camels, base, i);
        if base < i < base + |fs| {
          assert fs[1..][i - (base + 1)] == fs[i - base];
        }
      }
    }
  }

  /** What field `i` should hold: the stack of `fs` at `i - base`, if any. */
  function Expected(fs: seq<CamelField>, base: nat, i: nat): seq<Colors.Color> {
    if base <= i < base + |fs| then CalcStack(fs[i - base].camels) else []
  }

  lemma {:induction false} OnFieldAppend(a: seq<(nat, Colors.Color)>, b: seq<(nat, Colors.Color)>, i: nat)
    ensures CamelMaps.OnField(a + b, i) == CamelMaps.OnField(a, i) + CamelMaps.OnField(b, i)
  {
    if |a| > 0 {
      assert (a + b)[1..] == a[1..] + b;
      OnFieldAppend(a[1..], b, i);
    } else {
      assert a + b == b;
    }
  }

  /** One field's tagged camels lie on that field only. */
  lemma {:induction false} OwnField(camels: seq<CamelColor>, base: nat, i: nat)
    ensures CamelMaps.OnField(Tag(base, camels), i) == if i == base then CalcStack(camels) else []
  {
    if |camels| > 0 {
      OwnField(camels[1..], base, i);
      assert Tag(base, camels)[1..] == Tag(base, camels[1..]);
      if i == base {
        assert CalcStack(camels) == [ToCalc(camels[0])] + CalcStack(camels[1..]);
      }
    }
  }
}
