/** `calc/src/configuration.rs`: a board plus the colours that have not
    rolled yet, and the debug-only queue of rolled dice. */
module Configurations {
  import opened Colors
  import opened Wrappers
  import opened Seqs
  import opened CamelMaps
  import CS = ColorStates

  /** One rolled die: the colour and the value shown. */
  datatype Dice = Dice(color: Color, value: nat)

  datatype Configuration = Configuration(board: CamelMap, diceQueue: seq<Dice>, available: CS.ColorState)

  /** `PartialEq`: the board and the membership bits of the colour set; the
      dice queue and the iteration cursor play no part. */
  predicate Equal(a: Configuration, b: Configuration) {
    a.board == b.board && CS.Equal(a.available, b.available)
  }

  /** What `Hash` feeds the hasher: the board and the membership byte. */
  function Key(c: Configuration): (CamelMap, bv8) {
    (c.board, CS.Hash(c.available))
  }

  /** Equal configurations are those with the same board and the same
      colours still to roll; they hash alike. */
  lemma EqualMeansSameBoardAndColors(a: Configuration, b: Configuration)
    ensures Equal(a, b) <==> a.board == b.board && forall c :: CS.Contains(a.available, c) <==> CS.Contains(b.available, c)
    ensures Equal(a, b) <==> Key(a) == Key(b)
  {
    CS.EqualIsSameMembers(a.available, b.available);
  }

  /** Every stack holds only real colours. */
  ghost predicate CamelsOnly(m: CamelMap)
    requires Shaped(m)
  {
    forall i, j :: 0 <= i < FieldCount && 0 <= j < |Stack(m, i)| ==> IsCamel(Stack(m, i)[j])
  }

  /** The smallest entry: what `positions.sort()` puts first. */
  function MinOf(s: seq<nat>): (r: nat)
    requires |s| > 0
    ensures r in s
    ensures forall j :: 0 <= j < |s| ==> r <= s[j]
  {
    if |s| == 1 then s[0]
    else
      var rest := MinOf(s[1..]);
      if s[0] <= rest then s[0] else rest
  }

  /** One iteration of the `normalize` loop: a stack on field `i` is taken
      off and put back on field `max(i - s, 0)`, its colours re-indexed. */
  function ShiftStep(t: CamelMap, s: nat, i: nat): (r: CamelMap)
    requires Shaped(t) && CamelsOnly(t) && i < FieldCount
    ensures Shaped(r) && CamelsOnly(r) && r.cards == t.cards
  {
    match t.fields[i]
    case None => t
    case Some(camels) =>
      assert Stack(t, i) == camels;
      var newIdx := Max0(i - s);
      var r := CamelMap(t.fields[i := Option.None][newIdx := Some(camels)],
                        SetPositions(t.colorPos, camels, newIdx), t.cards);
      assert forall j :: 0 <= j < FieldCount ==> Stack(r, j) == if j == newIdx then camels else if j == i then [] else Stack(t, j);
      r
  }

  /** The `normalize` loop from field `i` on. */
  function ShiftFrom(t: CamelMap, s: nat, i: nat): (r: CamelMap)
    requires Shaped(t) && CamelsOnly(t) && i <= FieldCount
    ensures Shaped(r) && CamelsOnly(r) && r.cards == t.cards
    decreases FieldCount - i
  {
    if i == FieldCount then t else ShiftFrom(ShiftStep(t, s, i), s, i + 1)
  }

  /** `normalize` on the board: nothing when some camel stands on field 0
      (or, as `find_camel` reports 0 for it, is off the board); otherwise
      every field moves down by the smallest camel position. The cards are
      left where they are. */
  function NormalizeMap(m: CamelMap): (r: CamelMap)
    requires Shaped(m) && CamelsOnly(m)
    ensures Shaped(r) && CamelsOnly(r) && r.cards == m.cards
  {
    var s := MinOf(m.colorPos);
    if s == 0 then m else ShiftFrom(m, s, 0)
  }

  function Normalize(c: Configuration): Configuration
    requires Shaped(c.board) && CamelsOnly(c.board)
  {
    c.(board := NormalizeMap(c.board))
  }

  /** The loop state after fields `0..i-1` were handled: those fields hold
      what was `s` fields higher, or nothing, and the colours seen so far are
      re-indexed. */
  ghost predicate ShiftedUpTo(m: CamelMap, s: nat, i: nat, t: CamelMap)
    requires Shaped(m)
  {
    && i <= FieldCount && Shaped(t) && t.cards == m.cards
    && (forall j {:trigger t.fields[j]} :: 0 <= j < FieldCount ==>
          t.fields[j] == if j >= i then m.fields[j] else if j + s < i then m.fields[j + s] else Option.None)
    && (forall k :: 0 <= k < 5 ==>
          t.colorPos[k] == if m.colorPos[k] < i then m.colorPos[k] - s else m.colorPos[k])
  }

  /** On a full valid board the camels of field `i` are exactly the colours
      indexed to `i`, and no field below the minimum is occupied. */
  lemma FieldFacts(m: CamelMap, i: nat)
    requires Valid(m) && Full(m) && i < FieldCount
    ensures m.fields[i].None? ==> forall k :: 0 <= k < 5 ==> m.colorPos[k] != i
    ensures m.fields[i].Some? ==> i >= MinOf(m.colorPos)
    ensures m.fields[i].Some? ==> forall k :: 0 <= k < 5 ==> (m.colorPos[k] == i <==> All[k] in m.fields[i].value)
  {
    forall k | 0 <= k < 5 ensures All[k] in Stack(m, m.colorPos[k]) {
      assert Placed(m, All[k]) && Index(All[k]) == k;
    }
    if m.fields[i].Some? {
      var x := Stack(m, i)[0];
      assert m.colorPos[Index(x)] == i;
      forall k | 0 <= k < 5 && All[k] in m.fields[i].value ensures m.colorPos[k] == i {
        OnFieldIsPlaced(m, i, All[k]);
        assert Index(All[k]) == k;
      }
    }
  }

  /** What the loop relies on: below the shift nothing stands, and each
      occupied field holds exactly the colours indexed to it. */
  ghost predicate ShiftReady(m: CamelMap, s: nat)
    requires Shaped(m)
  {
    && s > 0
    && (forall i :: 0 <= i < FieldCount && m.fields[i].Some? ==> i >= s)
    && (forall i, k :: 0 <= i < FieldCount && 0 <= k < 5 && m.fields[i].None? ==> m.colorPos[k] != i)
    && (forall i, k :: 0 <= i < FieldCount && 0 <= k < 5 && m.fields[i].Some? ==>
          (m.colorPos[k] == i <==> All[k] in m.fields[i].value))
  }

  lemma ReadyToShift(m: CamelMap)
    requires Valid(m) && Full(m) && MinOf(m.colorPos) > 0
    ensures ShiftReady(m, MinOf(m.colorPos))
  {
    forall i | 0 <= i < FieldCount ensures
      && (m.fields[i].Some? ==> i >= MinOf(m.colorPos))
      && (forall k :: 0 <= k < 5 && m.fields[i].None? ==> m.colorPos[k] != i)
      && (forall k :: 0 <= k < 5 && m.fields[i].Some? ==> (m.colorPos[k] == i <==> All[k] in m.fields[i].value))
    {
      FieldFacts(m, i);
    }
  }

  lemma ShiftStepSpec(m: CamelMap, s: nat, i: nat, t: CamelMap)
    requires Shaped(m) && ShiftReady(m, s) && i < FieldCount
    requires ShiftedUpTo(m, s, i, t) && CamelsOnly(t)
    ensures ShiftedUpTo(m, s, i + 1, ShiftStep(t, s, i))
  {
    ShiftStepFields(m, s, i, t);
    ShiftStepPositions(m, s, i, t);
  }

  lemma ShiftStepFields(m: CamelMap, s: nat, i: nat, t: CamelMap)
    requires Shaped(m) && ShiftReady(m, s) && i < FieldCount
    requires ShiftedUpTo(m, s, i, t) && CamelsOnly(t)
    ensures var r := ShiftStep(t, s, i);
      forall j {:trigger r.fields[j]} :: 0 <= j < FieldCount ==>
        r.fields[j] == if j >= i + 1 then m.fields[j] else if j + s < i + 1 then m.fields[j + s] else Option.None
  {
    var r := ShiftStep(t, s, i);
    assert t.fields[i] == m.fields[i];
    if t.fields[i].Some? {
      assert i >= s;
      assert r.fields == t.fields[i := Option.None][i - s := t.fields[i]];
    } else {
      assert r == t;
      if i >= s {
        assert t.fields[i - s] == Option.None;
      }
    }
  }

  lemma ShiftStepPositions(m: CamelMap, s: nat, i: nat, t: CamelMap)
    requires Shaped(m) && ShiftReady(m, s) && i < FieldCount
    requires ShiftedUpTo(m, s, i, t) && CamelsOnly(t)
    ensures var r := ShiftStep(t, s, i);
      forall k :: 0 <= k < 5 ==>
        r.colorPos[k] == if m.colorPos[k] < i + 1 then m.colorPos[k] - s else m.colorPos[k]
  {
    var r := ShiftStep(t, s, i);
    assert t.fields[i] == m.fields[i];
    if t.fields[i].Some? {
      assert i >= s;
      var camels := t.fields[i].value;
      assert r.colorPos == SetPositions(t.colorPos, camels, i - s);
      forall k | 0 <= k < 5 ensures r.colorPos[k] == if m.colorPos[k] < i + 1 then m.colorPos[k] - s else m.colorPos[k] {
        if All[k] in camels {
          var idx :| 0 <= idx < |camels| && camels[idx] == All[k];
          assert Index(All[k]) == k;
        }
      }
    }
  }

  lemma {:induction false} ShiftFromSpec(m: CamelMap, s: nat, i: nat, t: CamelMap)
    requires Shaped(m) && ShiftReady(m, s) && i <= FieldCount
    requires ShiftedUpTo(m, s, i, t) && CamelsOnly(t)
    ensures ShiftedUpTo(m, s, FieldCount, ShiftFrom(t, s, i))
    decreases FieldCount - i
  {
    if i < FieldCount {
      ShiftStepSpec(m, s, i, t);
      ShiftFromSpec(m, s, i + 1, ShiftStep(t, s, i));
    }
  }

  /** A board whose smallest index is not 0 has all five camels on it. */
  lemma PositiveMinIsFull(m: CamelMap)
    requires Valid(m) && MinOf(m.colorPos) > 0
    ensures Full(m)
  {
    forall c | IsCamel(c) ensures Placed(m, c) {
      assert m.colorPos[Index(c)] >= MinOf(m.colorPos);
      assert All[Index(c)] == c;
    }
  }

  /** The shifted board is valid, full, and has its smallest index at 0. */
  lemma ShiftedValid(m: CamelMap, s: nat, r: CamelMap)
    requires Valid(m) && Full(m) && s == MinOf(m.colorPos) && s > 0
    requires ShiftedUpTo(m, s, FieldCount, r)
    ensures Valid(r) && Full(r) && MinOf(r.colorPos) == 0
    ensures forall j {:trigger Stack(r, j)} :: 0 <= j < FieldCount ==> Stack(r, j) == if j + s < FieldCount then Stack(m, j + s) else []
  {
    ShiftedStacks(m, s, r);
    PlacedAboveMin(m, s);
    ShiftedIndexAgrees(m, s, r);
    ShiftedFull(m, s, r);
    ShiftedMinZero(m, s, r);
  }

  /** On a full board every colour's index names its field, at or above
      the smallest index. */
  lemma PlacedAboveMin(m: CamelMap, s: nat)
    requires Valid(m) && Full(m) && s == MinOf(m.colorPos)
    ensures forall k :: 0 <= k < 5 ==> m.colorPos[k] >= s && All[k] in Stack(m, m.colorPos[k])
  {
    forall k | 0 <= k < 5 ensures m.colorPos[k] >= s && All[k] in Stack(m, m.colorPos[k]) {
      assert Placed(m, All[k]) && Index(All[k]) == k;
    }
  }

  /** The colour at the smallest index ends on field 0. */
  lemma ShiftedMinZero(m: CamelMap, s: nat, r: CamelMap)
    requires Valid(m) && s == MinOf(m.colorPos) && ShiftedUpTo(m, s, FieldCount, r)
    ensures MinOf(r.colorPos) == 0
  {
    var k0 :| 0 <= k0 < 5 && m.colorPos[k0] == s;
    assert r.colorPos[k0] == 0;
  }

  lemma ShiftedStacks(m: CamelMap, s: nat, r: CamelMap)
    requires Valid(m) && ShiftedUpTo(m, s, FieldCount, r)
    ensures forall j {:trigger Stack(r, j)} :: 0 <= j < FieldCount ==> Stack(r, j) == if j + s < FieldCount then Stack(m, j + s) else []
    ensures NoEmptyStack(r) && StacksDistinct(r)
  {
    assert forall j {:trigger Stack(r, j)} :: 0 <= j < FieldCount ==> Stack(r, j) == if j + s < FieldCount then Stack(m, j + s) else [];
  }

  lemma ShiftedIndexAgrees(m: CamelMap, s: nat, r: CamelMap)
    requires Valid(m) && ShiftedUpTo(m, s, FieldCount, r)
    requires forall j {:trigger Stack(r, j)} :: 0 <= j < FieldCount ==> Stack(r, j) == if j + s < FieldCount then Stack(m, j + s) else []
    ensures IndexAgrees(r)
  {
    forall i, j | 0 <= i < FieldCount && 0 <= j < |Stack(r, i)|
      ensures IsCamel(Stack(r, i)[j]) && r.colorPos[Index(Stack(r, i)[j])] == i
    {
      OnFieldIsPlaced(m, i + s, Stack(r, i)[j]);
    }
  }

  lemma ShiftedFull(m: CamelMap, s: nat, r: CamelMap)
    requires Valid(m) && ShiftedUpTo(m, s, FieldCount, r)
    requires forall j {:trigger Stack(r, j)} :: 0 <= j < FieldCount ==> Stack(r, j) == if j + s < FieldCount then Stack(m, j + s) else []
    requires forall k :: 0 <= k < 5 ==> m.colorPos[k] >= s && All[k] in Stack(m, m.colorPos[k])
    ensures IndexInRange(r) && Full(r)
  {
    forall k | 0 <= k < 5 ensures r.colorPos[k] < FieldCount && All[k] in Stack(r, r.colorPos[k]) {
      ShiftedEntry(m, s, r, k);
    }
    forall c | IsCamel(c) ensures Placed(r, c) {
      assert All[Index(c)] == c;
    }
  }

  /** One colour of the shifted board stands where its index says. */
  lemma ShiftedEntry(m: CamelMap, s: nat, r: CamelMap, k: nat)
    requires Valid(m) && ShiftedUpTo(m, s, FieldCount, r) && k < 5
    requires forall j {:trigger Stack(r, j)} :: 0 <= j < FieldCount ==> Stack(r, j) == if j + s < FieldCount then Stack(m, j + s) else []
    requires m.colorPos[k] >= s && All[k] in Stack(m, m.colorPos[k])
    ensures r.colorPos[k] < FieldCount && All[k] in Stack(r, r.colorPos[k])
  {
    var p := m.colorPos[k];
    assert p < FieldCount;
    assert r.colorPos[k] == p - s;
    assert Stack(r, p - s) == Stack(m, p);
  }

  /** `r` is `m` moved down by `s` fields: same stacks and distances, the
      same cards, and smallest position 0. */
  ghost predicate ShiftedDown(m: CamelMap, s: nat, r: CamelMap)
    requires Shaped(m)
  {
    && Valid(r) && r.cards == m.cards && MinOf(r.colorPos) == 0
    && (forall j {:trigger Stack(r, j)} :: 0 <= j < FieldCount ==> Stack(r, j) == if j + s < FieldCount then Stack(m, j + s) else [])
    && (forall k :: 0 <= k < 5 ==> r.colorPos[k] == m.colorPos[k] - s)
  }

  lemma NormalizeShifts(m: CamelMap)
    requires Valid(m) && MinOf(m.colorPos) > 0
    ensures CamelsOnly(m)
    ensures ShiftedDown(m, MinOf(m.colorPos), NormalizeMap(m)) && Full(m) && Full(NormalizeMap(m))
  {
    var s := MinOf(m.colorPos);
    PositiveMinIsFull(m);
    ShiftStarts(m);
    ShiftFromSpec(m, s, 0, m);
    NormalizeIsShiftFrom(m);
    ShiftedIsShiftedDown(m, s, ShiftFrom(m, s, 0));
  }

  lemma NormalizeIsShiftFrom(m: CamelMap)
    requires Valid(m) && MinOf(m.colorPos) > 0
    ensures CamelsOnly(m)
    ensures NormalizeMap(m) == ShiftFrom(m, MinOf(m.colorPos), 0)
  {
  }

  lemma ShiftStarts(m: CamelMap)
    requires Valid(m) && Full(m) && MinOf(m.colorPos) > 0
    ensures CamelsOnly(m)
    ensures ShiftReady(m, MinOf(m.colorPos)) && ShiftedUpTo(m, MinOf(m.colorPos), 0, m)
  {
    ReadyToShift(m);
  }

  lemma ShiftedIsShiftedDown(m: CamelMap, s: nat, r: CamelMap)
    requires Valid(m) && Full(m) && s == MinOf(m.colorPos) && s > 0
    requires ShiftedUpTo(m, s, FieldCount, r)
    ensures ShiftedDown(m, s, r) && Full(r)
  {
    ShiftedValid(m, s, r);
    forall k | 0 <= k < 5 ensures r.colorPos[k] == m.colorPos[k] - s {
      assert m.colorPos[k] < FieldCount;
    }
  }

  lemma NormalizeKeeps(m: CamelMap)
    requires Valid(m) && MinOf(m.colorPos) == 0
    ensures CamelsOnly(m)
    ensures ShiftedDown(m, 0, NormalizeMap(m)) && NormalizeMap(m) == m
  {
    assert forall j {:trigger Stack(m, j)} :: 0 <= j < FieldCount ==> Stack(m, j) == if j + 0 < FieldCount then Stack(m, j + 0) else [];
  }

  /** `normalize` shifts every stack down by the smallest camel position,
      keeping stacks and distances; the board stays valid, the smallest
      position becomes 0, the cards stay on their fields, and a board already
      starting at 0 is left unchanged. */
  lemma NormalizeSpec(m: CamelMap)
    requires Valid(m)
    ensures CamelsOnly(m)
    ensures ShiftedDown(m, MinOf(m.colorPos), NormalizeMap(m))
    ensures Full(NormalizeMap(m)) <==> Full(m)
    ensures MinOf(m.colorPos) == 0 ==> NormalizeMap(m) == m
  {
    if MinOf(m.colorPos) > 0 {
      NormalizeShifts(m);
    } else {
      NormalizeKeeps(m);
    }
  }

  /** Normalizing twice is normalizing once. */
  lemma NormalizeIdempotent(m: CamelMap)
    requires Valid(m)
    ensures CamelsOnly(m) && CamelsOnly(NormalizeMap(m))
    ensures NormalizeMap(NormalizeMap(m)) == NormalizeMap(m)
  {
    NormalizedValid(m);
    var r := NormalizeMap(m);
    NormalizeKeeps(r);
  }

  lemma NormalizedValid(m: CamelMap)
    requires Valid(m)
    ensures CamelsOnly(m)
    ensures Valid(NormalizeMap(m)) && MinOf(NormalizeMap(m).colorPos) == 0
  {
    NormalizeSpec(m);
  }

  // ---------------------------------------------------------------------
  // Leaderboard

  /** The camels of fields `n - 1` down to 0 in race order: a higher field
      first, and within a field from the top of the stack down. */
  function Standings(m: CamelMap, n: nat): seq<Color>
    requires Shaped(m) && n <= FieldCount
  {
    if n == 0 then [] else Reverse(Stack(m, n - 1)) + Standings(m, n - 1)
  }

  /** `leaderboard`: the standings written into a five-entry array that
      starts as all `Color::None`; a sixth camel would index past its end. */
  function Leaderboard(m: CamelMap): (r: seq<Color>)
    requires Shaped(m) && |Standings(m, FieldCount)| <= 5
    ensures |r| == 5
  {
    var st := Standings(m, FieldCount);
    st + seq(5 - |st|, _ => Color.None)
  }

  /** How high in its stack a camel stands (0 is the bottom). */
  function Height(m: CamelMap, c: Color): nat
    requires Valid(m) && Placed(m, c)
  {
    IndexOf(Stack(m, FindCamel(m, c)), c)
  }

  /** `a` leads `b`: it is on a later field, or on the same field above it. */
  ghost predicate Ahead(m: CamelMap, a: Color, b: Color)
    requires Valid(m) && Placed(m, a) && Placed(m, b)
  {
    FindCamel(m, a) > FindCamel(m, b)
    || (FindCamel(m, a) == FindCamel(m, b) && Height(m, a) > Height(m, b))
  }

  /** In a repeat-free stack a camel's first index is its only index. */
  lemma IndexOfDistinct(s: seq<Color>, p: nat)
    requires Distinct(s) && p < |s|
    ensures IndexOf(s, s[p]) == p
  {
    var k := IndexOf(s, s[p]);
    assert s[k] == s[p];
  }

  /** The standings up to field `n` hold exactly the camels placed below `n`. */
  lemma {:induction false} StandingsMember(m: CamelMap, n: nat, c: Color)
    requires Valid(m) && n <= FieldCount
    ensures c in Standings(m, n) <==> Placed(m, c) && FindCamel(m, c) < n
  {
    if n > 0 {
      StandingsMember(m, n - 1, c);
      StandingsMemberStep(m, n, c);
    }
  }

  lemma StandingsMemberStep(m: CamelMap, n: nat, c: Color)
    requires Valid(m) && 0 < n <= FieldCount
    requires c in Standings(m, n - 1) <==> Placed(m, c) && FindCamel(m, c) < n - 1
    ensures c in Standings(m, n) <==> Placed(m, c) && FindCamel(m, c) < n
  {
    ReverseMembers(Stack(m, n - 1), c);
    if c in Stack(m, n - 1) {
      OnFieldIsPlaced(m, n - 1, c);
    }
  }

  /** No camel is listed twice. */
  lemma {:induction false} StandingsDistinct(m: CamelMap, n: nat)
    requires Valid(m) && n <= FieldCount
    ensures Distinct(Standings(m, n))
  {
    if n > 0 {
      StandingsDistinct(m, n - 1);
      StandingsDistinctStep(m, n);
    }
  }

  lemma StandingsDistinctStep(m: CamelMap, n: nat)
    requires Valid(m) && 0 < n <= FieldCount && Distinct(Standings(m, n - 1))
    ensures Distinct(Standings(m, n))
  {
    var top := Reverse(Stack(m, n - 1));
    ReverseDistinct(Stack(m, n - 1));
    forall x | x in top ensures x !in Standings(m, n - 1) {
      ReverseMembers(Stack(m, n - 1), x);
      OnFieldIsPlaced(m, n - 1, x);
      StandingsMember(m, n - 1, x);
    }
    AppendDistinct(top, Standings(m, n - 1));
  }

  /** Every camel of `s` is placed and leads every camel listed after it. */
  ghost predicate RaceOrder(m: CamelMap, s: seq<Color>)
    requires Valid(m)
  {
    && (forall x :: x in s ==> Placed(m, x))
    && (forall j, l :: 0 <= j < l < |s| ==> Ahead(m, s[j], s[l]))
  }

  /** Every listed camel leads every camel listed after it. */
  lemma {:induction false} StandingsOrdered(m: CamelMap, n: nat)
    requires Valid(m) && n <= FieldCount
    ensures forall x :: x in Standings(m, n) ==> Placed(m, x)
    ensures forall j, l :: 0 <= j < l < |Standings(m, n)| ==> Ahead(m, Standings(m, n)[j], Standings(m, n)[l])
  {
    StandingsInOrder(m, n);
  }

  lemma {:induction false} StandingsInOrder(m: CamelMap, n: nat)
    requires Valid(m) && n <= FieldCount
    ensures RaceOrder(m, Standings(m, n))
  {
    if n > 0 {
      StandingsInOrder(m, n - 1);
      StandingsInOrderStep(m, n);
    }
  }

  lemma StandingsInOrderStep(m: CamelMap, n: nat)
    requires Valid(m) && 0 < n <= FieldCount && RaceOrder(m, Standings(m, n - 1))
    ensures RaceOrder(m, Standings(m, n))
  {
    TopInOrder(m, n - 1);
    TopAheadOfRest(m, n - 1);
    AppendInOrder(m, Reverse(Stack(m, n - 1)), Standings(m, n - 1));
  }

  /** Every camel on field `i` leads every camel below field `i`. */
  lemma TopAheadOfRest(m: CamelMap, i: nat)
    requires Valid(m) && i < FieldCount
    ensures forall a, b :: a in Reverse(Stack(m, i)) && b in Standings(m, i) ==>
      Placed(m, a) && Placed(m, b) && Ahead(m, a, b)
  {
    TopInOrder(m, i);
    forall a, b | a in Reverse(Stack(m, i)) && b in Standings(m, i)
      ensures Placed(m, a) && Placed(m, b) && Ahead(m, a, b)
    {
      StandingsMember(m, i, b);
    }
  }

  /** A field read from the top of its stack down is in race order, and
      all of it stands on that field. */
  lemma TopInOrder(m: CamelMap, i: nat)
    requires Valid(m) && i < FieldCount
    ensures RaceOrder(m, Reverse(Stack(m, i)))
    ensures forall x :: x in Reverse(Stack(m, i)) ==> Placed(m, x) && FindCamel(m, x) == i
  {
    var st := Stack(m, i);
    var top := Reverse(st);
    forall x | x in top ensures Placed(m, x) && FindCamel(m, x) == i {
      ReverseMembers(st, x);
      OnFieldIsPlaced(m, i, x);
    }
    forall j, l | 0 <= j < l < |top| ensures Ahead(m, top[j], top[l]) {
      IndexOfDistinct(st, |st| - 1 - j);
      IndexOfDistinct(st, |st| - 1 - l);
    }
  }

  /** Two lists in race order, the first wholly ahead of the second. */
  lemma AppendInOrder(m: CamelMap, top: seq<Color>, rest: seq<Color>)
    requires Valid(m) && RaceOrder(m, top) && RaceOrder(m, rest)
    requires forall a, b :: a in top && b in rest ==> Placed(m, a) && Placed(m, b) && Ahead(m, a, b)
    ensures RaceOrder(m, top + rest)
  {
    var s := top + rest;
    forall j, l | 0 <= j < l < |s| ensures Ahead(m, s[j], s[l]) {
      if l < |top| {
        assert s[j] == top[j] && s[l] == top[l];
      } else if j < |top| {
        assert s[j] == top[j] && s[l] == rest[l - |top|];
      } else {
        assert s[j] == rest[j - |top|] && s[l] == rest[l - |top|];
      }
    }
  }

  /** A valid board lists at most five camels, so `leaderboard` does not
      run past its array. */
  lemma StandingsFit(m: CamelMap)
    requires Valid(m)
    ensures |Standings(m, FieldCount)| <= 5
  {
    var st := Standings(m, FieldCount);
    StandingsDistinct(m, FieldCount);
    forall x | x in st ensures x in (set c | c in All) {
      StandingsMember(m, FieldCount, x);
      assert All[Index(x)] == x;
    }
    AllDistinct();
    DistinctCard(All);
    DistinctWithin(st, set c | c in All);
  }

  /** The leaderboard of a valid board: the placed camels, each once and in
      race order, followed by `Color::None` for the missing places; with all
      five camels on the board it is a permutation of the colours. */
  lemma LeaderboardSpec(m: CamelMap)
    requires Valid(m)
    ensures |Standings(m, FieldCount)| <= 5
    ensures var r := Leaderboard(m);
      && (forall c :: IsCamel(c) ==> (c in r <==> Placed(m, c)))
      && (forall j, l :: 0 <= j < l < 5 && IsCamel(r[l]) ==>
            IsCamel(r[j]) && Placed(m, r[j]) && Placed(m, r[l]) && Ahead(m, r[j], r[l]))
      && (forall j, l :: 0 <= j < l < 5 && IsCamel(r[j]) ==> r[j] != r[l])
      && (Full(m) ==> multiset(r) == multiset(All))
  {
    StandingsFit(m);
    var st := Standings(m, FieldCount);
    var r := Leaderboard(m);
    assert r == st + seq(5 - |st|, _ => Color.None);
    LeaderboardMembers(m, st, r);
    LeaderboardOrdered(m, st, r);
    if Full(m) {
      FullLeaderboard(m, st, r);
    }
  }

  lemma LeaderboardMembers(m: CamelMap, st: seq<Color>, r: seq<Color>)
    requires Valid(m) && st == Standings(m, FieldCount) && |st| <= 5
    requires r == st + seq(5 - |st|, _ => Color.None)
    ensures forall c :: IsCamel(c) ==> (c in r <==> Placed(m, c))
    ensures forall j :: 0 <= j < 5 ==> (IsCamel(r[j]) <==> j < |st|)
  {
    forall c | IsCamel(c) ensures c in r <==> Placed(m, c) {
      StandingsMember(m, FieldCount, c);
    }
    forall j | 0 <= j < 5 ensures IsCamel(r[j]) <==> j < |st| {
      if j < |st| {
        StandingsMember(m, FieldCount, st[j]);
      }
    }
  }

  lemma LeaderboardOrdered(m: CamelMap, st: seq<Color>, r: seq<Color>)
    requires Valid(m) && st == Standings(m, FieldCount) && |st| <= 5
    requires r == st + seq(5 - |st|, _ => Color.None)
    requires forall j :: 0 <= j < 5 ==> (IsCamel(r[j]) <==> j < |st|)
    ensures forall j, l :: 0 <= j < l < 5 && IsCamel(r[l]) ==>
              IsCamel(r[j]) && Placed(m, r[j]) && Placed(m, r[l]) && Ahead(m, r[j], r[l])
    ensures forall j, l :: 0 <= j < l < 5 && IsCamel(r[j]) ==> r[j] != r[l]
  {
    StandingsDistinct(m, FieldCount);
    StandingsOrdered(m, FieldCount);
    forall j, l | 0 <= j < l < 5 && IsCamel(r[l])
      ensures IsCamel(r[j]) && Placed(m, r[j]) && Placed(m, r[l]) && Ahead(m, r[j], r[l])
    {
      assert r[j] == st[j] && r[l] == st[l];
    }
    forall j, l | 0 <= j < l < 5 && IsCamel(r[j]) ensures r[j] != r[l] {
      assert r[j] == st[j];
      if l < |st| {
        assert r[l] == st[l];
      }
    }
  }

  lemma FullLeaderboard(m: CamelMap, st: seq<Color>, r: seq<Color>)
    requires Valid(m) && Full(m) && st == Standings(m, FieldCount) && |st| <= 5
    requires r == st + seq(5 - |st|, _ => Color.None)
    ensures multiset(r) == multiset(All)
  {
    FullStandings(m, st);
    assert r == st;
  }

  /** With all five camels on the board the standings list each colour once. */
  lemma FullStandings(m: CamelMap, st: seq<Color>)
    requires Valid(m) && Full(m) && st == Standings(m, FieldCount)
    ensures multiset(st) == multiset(All) && |st| == 5
  {
    StandingsDistinct(m, FieldCount);
    FullStandingsMembers(m, st);
    AllDistinct();
    SameElementsPermutation(st, All);
  }

  lemma FullStandingsMembers(m: CamelMap, st: seq<Color>)
    requires Valid(m) && Full(m) && st == Standings(m, FieldCount)
    ensures forall x :: x in st <==> x in All
  {
    forall x ensures x in st <==> x in All {
      StandingsMember(m, FieldCount, x);
      if IsCamel(x) {
        assert All[Index(x)] == x;
      }
    }
  }

  // ---------------------------------------------------------------------
  // ConfigurationBuilder

  datatype ConfigurationBuilder = ConfigurationBuilder(
    board: Option<CamelMap>,
    diceQueue: Option<seq<Dice>>,
    available: Option<CS.ColorState>)

  /** `ConfigurationBuilder::new`: nothing set. */
  function NewBuilder(): ConfigurationBuilder {
    ConfigurationBuilder(Option.None, Option.None, Option.None)
  }

  /** `with_map`: a board built by `CamelMap::new` from the placements. */
  function WithMap(b: ConfigurationBuilder, ps: seq<(nat, Color)>): ConfigurationBuilder
    requires PlacementsInRange(ps)
  {
    b.(board := Some(New(ps)))
  }

  /** `with_camel_map`. */
  function WithCamelMap(b: ConfigurationBuilder, m: CamelMap): ConfigurationBuilder {
    b.(board := Some(m))
  }

  /** `with_available_colors`: the set `ColorState::new` makes of the list. */
  function WithAvailableColors(b: ConfigurationBuilder, cols: seq<Color>): ConfigurationBuilder {
    b.(available := Some(CS.New(cols)))
  }

  /** `with_color_state`. */
  function WithColorState(b: ConfigurationBuilder, s: CS.ColorState): ConfigurationBuilder {
    b.(available := Some(s))
  }

  /** `with_dice_queue`: one die per `(colour, value)` pair, replacing any queue. */
  function WithDiceQueue(b: ConfigurationBuilder, data: seq<(Color, nat)>): ConfigurationBuilder {
    b.(diceQueue := Some(seq(|data|, i requires 0 <= i < |data| => Dice(data[i].0, data[i].1))))
  }

  /** `add_dice`: appends to the queue, starting one if there is none. */
  function AddDice(b: ConfigurationBuilder, color: Color, value: nat): ConfigurationBuilder {
    match b.diceQueue
    case Some(queue) => b.(diceQueue := Some(queue + [Dice(color, value)]))
    case None => b.(diceQueue := Some([Dice(color, value)]))
  }

  /** The starting placements `build` falls back on. */
  const DefaultPlacements: seq<(nat, Color)> := [(0, Blue), (0, Green), (1, White), (1, Yellow), (2, Orange)]

  /** `build`: what was set, else the default board, an empty queue and the
      full colour set. */
  function BuildConfiguration(b: ConfigurationBuilder): Configuration {
    Configuration(
      if b.board.Some? then b.board.value else New(DefaultPlacements),
      if b.diceQueue.Some? then b.diceQueue.value else [],
      if b.available.Some? then b.available.value else CS.Default())
  }

  /** The built configuration holds what each setter last set, and each
      setter touches only its own part. */
  lemma BuildSetters(b: ConfigurationBuilder, ps: seq<(nat, Color)>, m: CamelMap, cols: seq<Color>, st: CS.ColorState)
    requires PlacementsInRange(ps)
    ensures var c := BuildConfiguration(WithMap(b, ps));
      c.board == New(ps) && c.diceQueue == BuildConfiguration(b).diceQueue && c.available == BuildConfiguration(b).available
    ensures var c := BuildConfiguration(WithCamelMap(b, m));
      c.board == m && c.diceQueue == BuildConfiguration(b).diceQueue && c.available == BuildConfiguration(b).available
    ensures var c := BuildConfiguration(WithAvailableColors(b, cols));
      && (forall x :: CS.Contains(c.available, x) <==> IsCamel(x) && x in cols)
      && CS.Len(c.available) == |set x | x in cols && IsCamel(x)|
      && c.board == BuildConfiguration(b).board && c.diceQueue == BuildConfiguration(b).diceQueue
    ensures var c := BuildConfiguration(WithColorState(b, st));
      c.available == st && c.board == BuildConfiguration(b).board && c.diceQueue == BuildConfiguration(b).diceQueue
  {
    CS.NewLen(cols);
  }

  /** The queue lists the dice in the order they were given: `with_dice_queue`
      replaces it, `add_dice` appends one die to whatever `build` would
      otherwise have produced. */
  lemma BuildDiceQueue(b: ConfigurationBuilder, data: seq<(Color, nat)>, color: Color, value: nat)
    ensures var q := BuildConfiguration(WithDiceQueue(b, data)).diceQueue;
      |q| == |data| && forall i :: 0 <= i < |data| ==> q[i].color == data[i].0 && q[i].value == data[i].1
    ensures BuildConfiguration(AddDice(b, color, value)).diceQueue == BuildConfiguration(b).diceQueue + [Dice(color, value)]
    ensures BuildConfiguration(AddDice(b, color, value)).board == BuildConfiguration(b).board
    ensures BuildConfiguration(AddDice(b, color, value)).available == BuildConfiguration(b).available
  {
  }
}
