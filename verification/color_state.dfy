/** `calc/src/color_state.rs`: a one-byte set of camel colours.  Bits 7..3
    (mask 0xF8) record which colours are members, Blue in bit 7; bits 2..0
    (mask 0x07) are the cursor of the destructive iterator. */
module ColorStates {
  import opened Colors
  import opened Wrappers
  import opened Seqs

  datatype ColorState = ColorState(state: bv8)

  /** `0b1000_0000 >> i`: the bit of index `i`, as a table of literals. */
  function Bit(i: nat): bv8
    requires i < 8
  {
    match i
    case 0 => 0x80
    case 1 => 0x40
    case 2 => 0x20
    case 3 => 0x10
    case 4 => 0x08
    case 5 => 0x04
    case 6 => 0x02
    case 7 => 0x01
  }

  /** The table agrees with the shift the source writes. */
  lemma BitIsShift(i: nat)
    requires i < 8
    ensures Bit(i) == (0x80 as bv8) >> i
  {
  }

  /** Setting or clearing one bit leaves every other bit as it was. */
  lemma BitOther(x: bv8, i: nat, j: nat)
    requires i < 8 && j < 8 && i != j
    ensures (x & !Bit(i)) & Bit(j) == x & Bit(j)
    ensures (x | Bit(i)) & Bit(j) == x & Bit(j)
  {
  }

  /** Setting a bit sets it; clearing it clears it. */
  lemma BitSelf(x: bv8, i: nat)
    requires i < 8
    ensures (x & !Bit(i)) & Bit(i) == 0
    ensures (x | Bit(i)) & Bit(i) != 0
  {
  }

  /** Equal membership bits agree on each of the indices 0..4. */
  lemma MembershipBitsAgree(a: bv8, b: bv8, i: nat)
    requires a & 0xF8 == b & 0xF8 && i < 5
    ensures a & Bit(i) != 0 <==> b & Bit(i) != 0
  {
    if i == 0 {} else if i == 1 {} else if i == 2 {} else if i == 3 {} else {}
  }

  /** Agreement on the indices 0..4 gives equal membership bits. */
  lemma MembershipBitsEqual(a: ColorState, b: ColorState)
    requires forall i :: 0 <= i < 5 ==> (HasIndex(a, i) <==> HasIndex(b, i))
    ensures a.state & 0xF8 == b.state & 0xF8
  {
    assert HasIndex(a, 0) <==> HasIndex(b, 0);
    assert HasIndex(a, 1) <==> HasIndex(b, 1);
    assert HasIndex(a, 2) <==> HasIndex(b, 2);
    assert HasIndex(a, 3) <==> HasIndex(b, 3);
    assert HasIndex(a, 4) <==> HasIndex(b, 4);
  }

  /** The cursor bits are determined by bits 5..7. */
  lemma CursorBits(a: bv8, b: bv8)
    requires forall i :: 5 <= i < 8 ==> (a & Bit(i) != 0 <==> b & Bit(i) != 0)
    ensures a & 0x07 == b & 0x07
  {
    assert a & Bit(5) != 0 <==> b & Bit(5) != 0;
    assert a & Bit(6) != 0 <==> b & Bit(6) != 0;
    assert a & Bit(7) != 0 <==> b & Bit(7) != 0;
  }

  /** The bit with index `i` is set. */
  predicate HasIndex(s: ColorState, i: nat)
    requires i < 8
  {
    s.state & Bit(i) != 0
  }

  /** Set membership: a camel colour whose bit is set. */
  predicate Contains(s: ColorState, c: Color) {
    IsCamel(c) && HasIndex(s, Index(c))
  }

  /** The iterator cursor held in the low three bits. */
  function Cursor(s: ColorState): nat {
    (s.state & 0x07) as nat
  }

  /** A set whose cursor is 0, as every set built by `new`, `default`,
      `remove_color` and `add_color` from camel colours is. */
  predicate Fresh(s: ColorState) {
    s.state & 0x07 == 0
  }

  /** The membership bits, `state & 0b1111_1000`: what `Hash` feeds the hasher. */
  function Hash(s: ColorState): bv8 {
    s.state & 0xF8
  }

  /** `PartialEq`: compares the membership bits only. */
  predicate Equal(a: ColorState, b: ColorState) {
    a.state & 0xF8 == b.state & 0xF8
  }

  /** The members whose index is at least `i`, in ascending index order. */
  function ElementsFrom(s: ColorState, i: nat): (r: seq<Color>)
    requires i <= 5
    ensures |r| <= 5 - i
    ensures forall k :: 0 <= k < |r| ==> Contains(s, r[k]) && Index(r[k]) >= i
    decreases 5 - i
  {
    if i == 5 then []
    else if HasIndex(s, i) then [All[i]] + ElementsFrom(s, i + 1)
    else ElementsFrom(s, i + 1)
  }

  /** The members are listed in ascending index order. */
  lemma {:induction false} ElementsAscending(s: ColorState, i: nat)
    requires i <= 5
    ensures Ascending(ElementsFrom(s, i))
    decreases 5 - i
  {
    if i < 5 {
      ElementsAscending(s, i + 1);
      if HasIndex(s, i) {
        AscendingCons(All[i], ElementsFrom(s, i + 1));
      }
    }
  }

  /** A colour below every entry of an ascending list can head it. */
  lemma AscendingCons(x: Color, rest: seq<Color>)
    requires Ascending(rest)
    requires forall k :: 0 <= k < |rest| ==> Index(x) < Index(rest[k])
    ensures Ascending([x] + rest)
  {
    var a := [x] + rest;
    forall k, l | 0 <= k < l < |a| ensures Index(a[k]) < Index(a[l]) {
      assert a[l] == rest[l - 1];
      if k > 0 {
        assert a[k] == rest[k - 1];
      }
    }
  }

  /** Every member at index `i` or above is listed. */
  lemma {:induction false} ElementsComplete(s: ColorState, i: nat)
    requires i <= 5
    ensures forall j :: i <= j < 5 && HasIndex(s, j) ==> All[j] in ElementsFrom(s, i)
    decreases 5 - i
  {
    if i < 5 {
      ElementsComplete(s, i + 1);
    }
  }

  /** All members in ascending index order. */
  function Elements(s: ColorState): seq<Color> {
    ElementsFrom(s, 0)
  }

  /** Number of set bits among the bits with index `i` and above. */
  function CountOnesFrom(b: bv8, i: nat): nat
    requires i <= 8
    decreases 8 - i
  {
    if i == 8 then 0
    else (if b & Bit(i) != 0 then 1 else 0) + CountOnesFrom(b, i + 1)
  }

  /** `len`: `count_ones` of the membership bits.  It is the number of
      members, so it lies in 0..=5. */
  function Len(s: ColorState): (n: nat)
    ensures n == |Elements(s)|
    ensures n <= 5
  {
    LenCountsElements(s, 0);
    CountOnesFrom(s.state & 0xF8, 0)
  }

  lemma {:induction false} LenCountsElements(s: ColorState, i: nat)
    requires i <= 5
    ensures CountOnesFrom(s.state & 0xF8, i) == |ElementsFrom(s, i)|
    decreases 5 - i
  {
    if i == 5 {
      NoCursorOnes(s.state & 0xF8);
    } else {
      LenCountsElements(s, i + 1);
      CountStep(s, i);
    }
  }

  /** The membership bits carry no ones at indices 5..7. */
  lemma NoCursorOnes(m: bv8)
    requires m & 0x07 == 0
    ensures CountOnesFrom(m, 5) == 0
  {
    assert m & Bit(5) == 0 && m & Bit(6) == 0 && m & Bit(7) == 0;
    assert CountOnesFrom(m, 7) == 0;
  }

  /** One index of the count and of the member list. */
  lemma CountStep(s: ColorState, i: nat)
    requires i < 5
    requires CountOnesFrom(s.state & 0xF8, i + 1) == |ElementsFrom(s, i + 1)|
    ensures CountOnesFrom(s.state & 0xF8, i) == |ElementsFrom(s, i)|
  {
    MaskedBit(s.state, i);
    if HasIndex(s, i) {
      assert ElementsFrom(s, i) == [All[i]] + ElementsFrom(s, i + 1);
    } else {
      assert ElementsFrom(s, i) == ElementsFrom(s, i + 1);
    }
  }

  /** Masking to the membership bits keeps the bits of indices 0..4. */
  lemma MaskedBit(x: bv8, i: nat)
    requires i < 5
    ensures (x & 0xF8) & Bit(i) == x & Bit(i)
  {
    if i == 0 {} else if i == 1 {} else if i == 2 {} else if i == 3 {} else {}
  }

  /** `Default`: every colour, cursor 0. */
  function Default(): (s: ColorState)
    ensures forall c :: IsCamel(c) ==> Contains(s, c)
    ensures Fresh(s) && Len(s) == 5
  {
    DefaultMembers();
    DefaultLen();
    ColorState(0xF8)
  }

  lemma DefaultMembers()
    ensures forall c :: IsCamel(c) ==> Contains(ColorState(0xF8), c)
  {
  }

  lemma DefaultElements()
    ensures Elements(ColorState(0xF8)) == All
  {
    FullElements(ColorState(0xF8));
  }

  /** A set holding every colour lists all five, in order. */
  lemma FullElements(s: ColorState)
    requires s.state & 0xF8 == 0xF8
    ensures ElementsFrom(s, 0) == All
  {
    FullUpper(s);
    ElementsCons(s, 1);
    var e1 := ElementsFrom(s, 1);
    assert e1 == [Green, Orange, White, Yellow];
    ElementsCons(s, 0);
    assert ElementsFrom(s, 0) == [Blue] + e1;
  }

  /** The full set from index 2 on. */
  lemma FullUpper(s: ColorState)
    requires s.state & 0xF8 == 0xF8
    ensures ElementsFrom(s, 2) == [Orange, White, Yellow]
  {
    ElementsCons(s, 4);
    ElementsCons(s, 3);
    ElementsCons(s, 2);
  }

  /** A member at index `i` heads the list from `i`. */
  lemma ElementsCons(s: ColorState, i: nat)
    requires i < 5 && s.state & 0xF8 == 0xF8
    ensures ElementsFrom(s, i) == [All[i]] + ElementsFrom(s, i + 1)
    ensures i == 4 ==> ElementsFrom(s, i + 1) == []
  {
    MaskedBit(s.state, i);
    assert HasIndex(s, i) by {
      if i == 0 {} else if i == 1 {} else if i == 2 {} else if i == 3 {} else {}
    }
  }

  lemma DefaultLen()
    ensures Len(ColorState(0xF8)) == 5
  {
    DefaultElements();
  }

  /** `assign_to_index`: sets (`value`) or clears the bit `0x80 >> index`
      and leaves every other bit alone.  A shift by 8 or more overflows in
      Rust, hence the precondition. */
  function AssignToIndex(s: ColorState, index: nat, value: bool): (r: ColorState)
    requires index < 8
    ensures HasIndex(r, index) == value
    ensures forall j :: 0 <= j < 8 && j != index ==> HasIndex(r, j) == HasIndex(s, j)
  {
    var r := if value then ColorState(s.state | Bit(index)) else ColorState(s.state & !Bit(index));
    BitSelf(s.state, index);
    forall j | 0 <= j < 8 && j != index
      ensures HasIndex(r, j) == HasIndex(s, j)
    {
      BitOther(s.state, index, j);
    }
    r
  }

  /** Changing a membership bit (index below 5) keeps the cursor. */
  lemma AssignKeepsCursor(s: ColorState, index: nat, value: bool)
    requires index < 5
    ensures Cursor(AssignToIndex(s, index, value)) == Cursor(s)
  {
    CursorBits(AssignToIndex(s, index, value).state, s.state);
  }

  /** With no member below index `i`, listing from `i` lists every member. */
  lemma {:induction false} ElementsSkip(s: ColorState, i: nat)
    requires i <= 5 && forall j :: 0 <= j < i ==> !HasIndex(s, j)
    ensures ElementsFrom(s, i) == Elements(s)
  {
    if i > 0 {
      ElementsSkip(s, i - 1);
    }
  }

  /** Sets agreeing on all member indices except `k`, where `r` lacks it,
      differ in length by whether `s` has `k`. */
  lemma {:induction false} ElementsDropIndex(r: ColorState, s: ColorState, k: nat, i: nat)
    requires k < 5 && i <= 5
    requires forall j :: 0 <= j < 5 && j != k ==> HasIndex(r, j) == HasIndex(s, j)
    requires !HasIndex(r, k)
    ensures HasIndex(s, k) && k >= i ==> |ElementsFrom(r, i)| == |ElementsFrom(s, i)| - 1
    ensures !(HasIndex(s, k) && k >= i) ==> ElementsFrom(r, i) == ElementsFrom(s, i)
    decreases 5 - i
  {
    if i < 5 {
      ElementsDropIndex(r, s, k, i + 1);
    }
  }

  /** `remove_color`: for a camel colour, drops that member only and keeps
      the cursor, so the length falls by one exactly when it was a member. */
  function RemoveColor(s: ColorState, c: Color): (r: ColorState)
    ensures !Contains(r, c)
    ensures forall d :: d != c ==> (Contains(r, d) <==> Contains(s, d))
    ensures IsCamel(c) ==> Cursor(r) == Cursor(s)
    ensures IsCamel(c) ==> Len(r) == (if Contains(s, c) then Len(s) - 1 else Len(s))
  {
    var r := AssignToIndex(s, Index(c), false);
    RemoveFacts(s, c);
    r
  }

  /** Removing the member at list position `i` drops exactly that entry
      of the ascending member list. */
  lemma RemoveElements(s: ColorState, i: nat)
    requires i < |Elements(s)|
    ensures Elements(RemoveColor(s, Elements(s)[i])) == Without(Elements(s), i)
  {
    var e := Elements(s);
    var c := e[i];
    var r := RemoveColor(s, c);
    ElementsMembers(s);
    ElementsMembers(r);
    WithoutAscending(e, i);
    forall x ensures x in Elements(r) <==> x in Without(e, i) {
      assert x in Elements(r) <==> x != c && Contains(s, x);
    }
    AscendingUnique(Elements(r), Without(e, i));
  }

  /** Strictly increasing colour indices. */
  ghost predicate Ascending(a: seq<Color>) {
    forall k, l :: 0 <= k < l < |a| ==> Index(a[k]) < Index(a[l])
  }

  /** The member list holds exactly the members, in ascending index order. */
  lemma ElementsMembers(s: ColorState)
    ensures Ascending(Elements(s))
    ensures forall x :: x in Elements(s) <==> Contains(s, x)
  {
    ElementsComplete(s, 0);
    ElementsAscending(s, 0);
    forall x | Contains(s, x) ensures x in Elements(s) {
      assert All[Index(x)] == x;
    }
  }

  /** Taking an entry out keeps the order and loses that entry only. */
  lemma WithoutAscending(a: seq<Color>, i: nat)
    requires Ascending(a) && i < |a|
    ensures Ascending(Without(a, i))
    ensures forall x :: x in Without(a, i) <==> x in a && x != a[i]
  {
    var w := Without(a, i);
    forall x | x in a && x != a[i] ensures x in w {
      var k :| 0 <= k < |a| && a[k] == x;
      if k < i {
        assert w[k] == x;
      } else {
        assert w[k - 1] == x;
      }
    }
  }

  /** Two ascending lists with the same members are the same list. */
  lemma {:induction false} AscendingUnique(a: seq<Color>, b: seq<Color>)
    requires Ascending(a) && Ascending(b)
    requires forall x :: x in a <==> x in b
    ensures a == b
    decreases |a|
  {
    if |a| > 0 {
      assert a[0] in a;
    }
    if |b| > 0 {
      assert b[0] in b;
    }
    if |a| > 0 {
      assert a[0] in b && b[0] in a;
      AscendingHead(a);
      AscendingHead(b);
      IndexInjective(a[0], b[0]);
      forall x ensures x in a[1..] <==> x in b[1..] {
        TailMembers(a, x);
        TailMembers(b, x);
      }
      AscendingUnique(a[1..], b[1..]);
      assert a == [a[0]] + a[1..] && b == [b[0]] + b[1..];
    }
  }

  /** The head of an ascending list has the smallest index. */
  lemma AscendingHead(a: seq<Color>)
    requires Ascending(a) && |a| > 0
    ensures forall k :: 0 <= k < |a| ==> Index(a[0]) <= Index(a[k])
  {
  }

  lemma IndexInjective(c: Color, d: Color)
    requires Index(c) == Index(d)
    ensures c == d
  {
  }

  lemma TailMembers(a: seq<Color>, x: Color)
    requires Ascending(a) && |a| > 0
    ensures x in a[1..] <==> x in a && x != a[0]
  {
    if x in a[1..] {
      var k :| 0 <= k < |a| - 1 && a[1..][k] == x;
      assert Index(a[0]) < Index(a[k + 1]);
    }
    if x in a && x != a[0] {
      var k :| 0 <= k < |a| && a[k] == x;
      assert a[1..][k - 1] == x;
    }
  }

  lemma RemoveFacts(s: ColorState, c: Color)
    ensures IsCamel(c) ==> Cursor(AssignToIndex(s, Index(c), false)) == Cursor(s)
    ensures IsCamel(c) ==> var r := AssignToIndex(s, Index(c), false);
      Len(r) == (if Contains(s, c) then Len(s) - 1 else Len(s))
  {
    if IsCamel(c) {
      AssignKeepsCursor(s, Index(c), false);
      ElementsDropIndex(AssignToIndex(s, Index(c), false), s, Index(c), 0);
    }
  }

  lemma AddFacts(s: ColorState, c: Color)
    ensures IsCamel(c) ==> Cursor(AssignToIndex(s, Index(c), true)) == Cursor(s)
  {
    if IsCamel(c) {
      AssignKeepsCursor(s, Index(c), true);
    }
  }

  /** `add_color`: for a camel colour, adds that member only and keeps the cursor. */
  function AddColor(s: ColorState, c: Color): (r: ColorState)
    ensures IsCamel(c) ==> Contains(r, c)
    ensures forall d :: d != c ==> (Contains(r, d) <==> Contains(s, d))
    ensures IsCamel(c) ==> Cursor(r) == Cursor(s)
  {
    var r := AssignToIndex(s, Index(c), true);
    AddFacts(s, c);
    r
  }

  /** `ColorState::new`: the OR of the masks of the listed colours.  The
      members are exactly the listed camel colours (duplicates collapse),
      and the cursor is 0 unless the sentinel was listed. */
  function New(cols: seq<Color>): (s: ColorState)
    ensures forall c :: Contains(s, c) <==> IsCamel(c) && c in cols
    ensures Cursor(s) == (if Color.None in cols then 4 else 0)
  {
    var s := NewBits(cols);
    forall c ensures Contains(s, c) <==> IsCamel(c) && c in cols {
      if IsCamel(c) {
        assert Index(c) < 5;
        assert forall d :: d in cols && Index(d) == Index(c) ==> d == c;
      }
    }
    assert HasIndex(s, 5) <==> Color.None in cols by {
      if Color.None in cols { assert Index(Color.None) == 5; }
    }
    CursorOfLowBits(s.state);
    s
  }

  /** The bits `new` sets: bit `j` is set exactly when a listed colour has
      index `j`; bits 6 and 7 stay clear. */
  function NewBits(cols: seq<Color>): (s: ColorState)
    ensures forall j :: 0 <= j < 6 ==> (HasIndex(s, j) <==> exists d :: d in cols && Index(d) == j)
    ensures !HasIndex(s, 6) && !HasIndex(s, 7)
  {
    if |cols| == 0 then ColorState(0)
    else
      var prev := NewBits(cols[..|cols| - 1]);
      var last := cols[|cols| - 1];
      assert cols == cols[..|cols| - 1] + [last];
      var s := ColorState(prev.state | AsByte(last));
      OrMask(prev, last);
      s
  }

  /** OR-ing in the mask of `last` sets its bit and no other. */
  lemma OrMask(prev: ColorState, last: Color)
    ensures var s := ColorState(prev.state | AsByte(last));
      forall j :: 0 <= j < 8 ==> HasIndex(s, j) == (HasIndex(prev, j) || j == Index(last))
  {
    var s := ColorState(prev.state | AsByte(last));
    assert AsByte(last) == Bit(Index(last));
    BitSelf(prev.state, Index(last));
    forall j | 0 <= j < 8 && j != Index(last)
      ensures HasIndex(s, j) == HasIndex(prev, j)
    {
      BitOther(prev.state, Index(last), j);
    }
  }

  /** With bits 6 and 7 clear, the cursor is 4 or 0 as bit 5 is set or not. */
  lemma CursorOfLowBits(x: bv8)
    requires x & 0x02 == 0 && x & 0x01 == 0
    ensures (x & 0x07) as nat == (if x & 0x04 != 0 then 4 else 0)
  {
  }

  /** `retain`: walks the six bits `0x80 >> i` for `i` in 0..6 and clears
      each set bit whose mask the predicate rejects.  Index 5 is cursor
      bit 2, so the walk reaches into the cursor; bits 1 and 0 are never
      touched and no bit is ever set. */
  method Retain(s: ColorState, keep: bv8 -> bool) returns (r: ColorState)
    ensures forall i :: 0 <= i < 6 ==> (HasIndex(r, i) <==> HasIndex(s, i) && keep(Bit(i)))
    ensures HasIndex(r, 6) == HasIndex(s, 6) && HasIndex(r, 7) == HasIndex(s, 7)
  {
    r := s;
    var i := 0;
    while i < 6
      invariant 0 <= i <= 6
      invariant forall j :: 0 <= j < i ==> (HasIndex(r, j) <==> HasIndex(s, j) && keep(Bit(j)))
      invariant forall j :: i <= j < 8 ==> HasIndex(r, j) == HasIndex(s, j)
    {
      var elem := Bit(i);
      var isCurrentlySet := r.state & elem != 0;
      if isCurrentlySet && !keep(elem) {
        r := AssignToIndex(r, i, false);
      }
      i := i + 1;
    }
  }

  /** The state `next` leaves after consuming index `i`: bit `i` cleared,
      cursor `i + 1`, other membership bits kept. */
  function Consume(s: ColorState, i: nat): (r: ColorState)
    requires i < 5
    ensures !HasIndex(r, i)
    ensures forall j :: 0 <= j < 5 && j != i ==> HasIndex(r, j) == HasIndex(s, j)
    ensures Cursor(r) == i + 1
  {
    var cleared := s.state & !Bit(i);
    var r := ColorState((cleared & 0xF8) | ((i + 1) as bv8));
    ConsumeBits(s.state, i);
    r
  }

  lemma ConsumeBits(x: bv8, i: nat)
    requires i < 5
    ensures var y := ((x & !Bit(i)) & 0xF8) | ((i + 1) as bv8);
      && y & Bit(i) == 0
      && (forall j :: 0 <= j < 5 && j != i ==> (y & Bit(j) != 0 <==> x & Bit(j) != 0))
      && (y & 0x07) as nat == i + 1
  {
    var y := ((x & !Bit(i)) & 0xF8) | ((i + 1) as bv8);
    match i
    case 0 =>
      assert y & Bit(1) == x & Bit(1) && y & Bit(2) == x & Bit(2) && y & Bit(3) == x & Bit(3) && y & Bit(4) == x & Bit(4);
    case 1 =>
      assert y & Bit(0) == x & Bit(0) && y & Bit(2) == x & Bit(2) && y & Bit(3) == x & Bit(3) && y & Bit(4) == x & Bit(4);
    case 2 =>
      assert y & Bit(0) == x & Bit(0) && y & Bit(1) == x & Bit(1) && y & Bit(3) == x & Bit(3) && y & Bit(4) == x & Bit(4);
    case 3 =>
      assert y & Bit(0) == x & Bit(0) && y & Bit(1) == x & Bit(1) && y & Bit(2) == x & Bit(2) && y & Bit(4) == x & Bit(4);
    case 4 =>
      assert y & Bit(0) == x & Bit(0) && y & Bit(1) == x & Bit(1) && y & Bit(2) == x & Bit(2) && y & Bit(3) == x & Bit(3);
  }

  /** The scan of `Iterator::next` from index `i`: the first set bit at or
      after `i` and below 5 is consumed and its mask yielded; with none, the
      result is `None` and the set is unchanged. */
  function NextFrom(s: ColorState, i: nat): (Option<bv8>, ColorState)
    requires i <= 7
    decreases 8 - i
  {
    if i >= 5 then (Option.None, s)
    else if s.state & Bit(i) != 0 then (Some(Bit(i)), Consume(s, i))
    else NextFrom(s, i + 1)
  }

  function Min5(n: nat): nat {
    if n < 5 then n else 5
  }

  /** `Iterator::next`, starting the scan at the stored cursor.  It yields
      the mask of the smallest member whose index is at least the cursor,
      removes that member and moves the cursor just past it; or it yields
      `None` and leaves the set unchanged when no such member is left. */
  function Next(s: ColorState): (r: (Option<bv8>, ColorState))
    ensures NextSpec(s, Cursor(s), r)
  {
    NextFromSpec(s, Cursor(s));
    NextFrom(s, Cursor(s))
  }

  /** What `next` promises, stated for the scan from index `i`. */
  ghost predicate NextSpec(s: ColorState, i: nat, r: (Option<bv8>, ColorState))
  {
    && (r.0.None? ==> r.1 == s && ElementsFrom(s, Min5(i)) == [])
    && (r.0.Some? ==>
      var c := FromByte(r.0.value);
      && Contains(s, c) && Index(c) >= i
      && ElementsFrom(s, Min5(i)) == [c] + ElementsFrom(r.1, Index(c) + 1)
      && !Contains(r.1, c)
      && (forall d :: d != c ==> (Contains(r.1, d) <==> Contains(s, d)))
      && Cursor(r.1) == Index(c) + 1
      && Len(r.1) == Len(s) - 1)
  }

  lemma {:induction false} NextFromSpec(s: ColorState, i: nat)
    requires i <= 7
    ensures NextSpec(s, i, NextFrom(s, i))
    decreases 8 - i
  {
    if i >= 5 {
      EndSpec(s, i);
    } else if HasIndex(s, i) {
      ConsumeSpec(s, i);
    } else {
      NextFromSpec(s, i + 1);
      SkipSpec(s, i);
    }
  }

  lemma EndSpec(s: ColorState, i: nat)
    requires 5 <= i <= 7
    ensures NextSpec(s, i, NextFrom(s, i))
  {
    assert Min5(i) == 5;
  }

  /** Skipping an absent index keeps what the scan promises. */
  lemma SkipSpec(s: ColorState, i: nat)
    requires i < 5 && !HasIndex(s, i)
    requires NextSpec(s, i + 1, NextFrom(s, i + 1))
    ensures NextSpec(s, i, NextFrom(s, i))
  {
    assert NextFrom(s, i) == NextFrom(s, i + 1);
    assert ElementsFrom(s, i) == ElementsFrom(s, i + 1);
    assert Min5(i) == i && Min5(i + 1) == i + 1;
  }

  lemma ConsumeSpec(s: ColorState, i: nat)
    requires i < 5 && HasIndex(s, i)
    ensures NextSpec(s, i, NextFrom(s, i))
  {
    var t := Consume(s, i);
    assert NextFrom(s, i) == (Some(Bit(i)), t);
    ByteOfBit(i);
    ConsumeElements(s, i);
    ConsumeMembers(s, i);
    ConsumeLen(s, i);
    assert Min5(i) == i;
  }

  /** The mask of index `i` decodes to the colour of index `i`. */
  lemma ByteOfBit(i: nat)
    requires i < 5
    ensures FromByte(Bit(i)) == All[i] && Index(All[i]) == i
  {
    if i == 0 {} else if i == 1 {} else if i == 2 {} else if i == 3 {} else {}
  }

  /** The consumed member heads the list; the rest is what `next` leaves above it. */
  lemma ConsumeElements(s: ColorState, i: nat)
    requires i < 5 && HasIndex(s, i)
    ensures ElementsFrom(s, i) == [All[i]] + ElementsFrom(Consume(s, i), i + 1)
  {
    ElementsAgreeAbove(s, Consume(s, i), i + 1);
  }

  /** Consuming index `i` drops the colour of index `i` and no other. */
  lemma ConsumeMembers(s: ColorState, i: nat)
    requires i < 5
    ensures !Contains(Consume(s, i), All[i])
    ensures forall d :: d != All[i] ==> (Contains(Consume(s, i), d) <==> Contains(s, d))
  {
    var t := Consume(s, i);
    ByteOfBit(i);
    forall d | d != All[i] ensures Contains(t, d) <==> Contains(s, d) {
      if IsCamel(d) { assert Index(d) != i; }
    }
  }

  /** Consuming a member shortens the set by one. */
  lemma ConsumeLen(s: ColorState, i: nat)
    requires i < 5 && HasIndex(s, i)
    ensures Len(Consume(s, i)) == Len(s) - 1
  {
    ElementsDropIndex(Consume(s, i), s, i, 0);
  }

  /** Sets with the same members at indices `i` and above list the same elements there. */
  lemma {:induction false} ElementsAgreeAbove(s: ColorState, t: ColorState, i: nat)
    requires i <= 5
    requires forall j :: i <= j < 5 ==> HasIndex(s, j) == HasIndex(t, j)
    ensures ElementsFrom(s, i) == ElementsFrom(t, i)
    decreases 5 - i
  {
    if i < 5 {
      ElementsAgreeAbove(s, t, i + 1);
    }
  }

  /** Running the iterator to exhaustion: the yielded masks, in order.
      (`for color_code in &set` runs it on a copy of the set, which in this
      value model is the set itself.)  The masks are those of the members at
      or after the cursor, in ascending index order. */
  function Drain(s: ColorState): (r: seq<bv8>)
    ensures r == Masks(ElementsFrom(s, Min5(Cursor(s))))
    decreases 8 - Cursor(s)
  {
    var (item, rest) := Next(s);
    match item
    case None => []
    case Some(b) =>
      var tail := Drain(rest);
      assert Min5(Cursor(rest)) == Cursor(rest);
      ByteRoundTrip(FromByte(b));
      [b] + tail
  }

  /** The masks of a list of colours, in order. */
  function Masks(cols: seq<Color>): (r: seq<bv8>)
    ensures |r| == |cols|
    ensures forall k :: 0 <= k < |cols| ==> r[k] == AsByte(cols[k])
  {
    if |cols| == 0 then [] else [AsByte(cols[0])] + Masks(cols[1..])
  }

  /** On a fresh set the iterator yields every member, in ascending index
      order, each exactly once. */
  lemma DrainFresh(s: ColorState)
    requires Fresh(s)
    ensures Drain(s) == Masks(Elements(s))
    ensures |Drain(s)| == Len(s)
  {
    assert Cursor(s) == 0;
  }

  /** Equality is membership: two sets are equal exactly when they contain
      the same colours, whatever their cursors; equal sets hash alike. */
  lemma EqualIsSameMembers(a: ColorState, b: ColorState)
    ensures Equal(a, b) <==> forall c :: Contains(a, c) <==> Contains(b, c)
    ensures Equal(a, b) ==> Hash(a) == Hash(b)
  {
    if Equal(a, b) {
      forall c | IsCamel(c) ensures Contains(a, c) <==> Contains(b, c) {
        MembershipBitsAgree(a.state, b.state, Index(c));
      }
    }
    if forall c :: Contains(a, c) <==> Contains(b, c) {
      forall i | 0 <= i < 5 ensures HasIndex(a, i) <==> HasIndex(b, i) {
        assert Contains(a, All[i]) <==> Contains(b, All[i]);
      }
      MembershipBitsEqual(a, b);
    }
  }

  /** Between fresh sets `PartialEq` is plain equality, so a cache key's
      cursor can never make `next` behave differently for two keys the
      cache considers equal. */
  lemma FreshEqualIsIdentical(a: ColorState, b: ColorState)
    requires Fresh(a) && Fresh(b)
    ensures Equal(a, b) <==> a == b
  {
  }

  /** The `assign_to_index` sequence of the unit tests: from `Default`,
      clearing 0, 2, 3, 4 leaves 0b0100_0000 (length 1); then setting 3
      and 4 gives 0b0101_1000 (length 3). */
  lemma AssignSequence()
    ensures var s1 := AssignToIndex(AssignToIndex(AssignToIndex(AssignToIndex(Default(), 0, false), 2, false), 3, false), 4, false);
      && s1.state == 0x40 && Len(s1) == 1
      && var s2 := AssignToIndex(AssignToIndex(s1, 3, true), 4, true);
      && s2.state == 0x58 && Len(s2) == 3
  {
    var a := AssignToIndex(Default(), 0, false);
    AssignState(Default(), 0, false);
    var b := AssignToIndex(a, 2, false);
    AssignState(a, 2, false);
    var c := AssignToIndex(b, 3, false);
    AssignState(b, 3, false);
    var s1 := AssignToIndex(c, 4, false);
    AssignState(c, 4, false);
    assert s1.state == 0x40;
    LenOfGreen(s1);
    var d := AssignToIndex(s1, 3, true);
    AssignState(s1, 3, true);
    var s2 := AssignToIndex(d, 4, true);
    AssignState(d, 4, true);
    assert s2.state == 0x58;
    LenOfGreenWhiteYellow(s2);
  }

  lemma AssignState(s: ColorState, i: nat, v: bool)
    requires i < 8
    ensures AssignToIndex(s, i, v).state == if v then s.state | Bit(i) else s.state & !Bit(i)
  {
  }

  lemma LenOfGreen(s: ColorState)
    requires s.state == 0x40
    ensures Len(s) == 1
  {
    assert Elements(s) == [Green];
  }

  lemma LenOfGreenWhiteYellow(s: ColorState)
    requires s.state == 0x58
    ensures Len(s) == 3
  {
    assert Elements(s) == [Green, White, Yellow];
  }

  /** The iterator test: the full set yields the Blue, Green, Orange, White
      and Yellow masks and then nothing. */
  lemma DefaultIteration(s: ColorState)
    requires s == Default()
    ensures Drain(s) == [AsByte(Blue), AsByte(Green), AsByte(Orange), AsByte(White), AsByte(Yellow)]
  {
    DrainDefault(s);
    MasksOfAll();
  }

  lemma DrainDefault(s: ColorState)
    requires s == Default()
    ensures Drain(s) == Masks(All)
  {
    DefaultElements();
    DrainFresh(s);
  }

  lemma MasksOfAll()
    ensures Masks(All) == [AsByte(Blue), AsByte(Green), AsByte(Orange), AsByte(White), AsByte(Yellow)]
  {
  }

  /** The sentinel's mask lies in the cursor bits: adding `None` to the full
      set moves its cursor to 4 and changes no member, which is why the set
      operations must be given camel colours. */
  lemma SentinelHitsCursor()
    ensures AsByte(Color.None) & 0xF8 == 0
    ensures Cursor(AddColor(Default(), Color.None)) == 4
    ensures Equal(AddColor(Default(), Color.None), Default())
  {
  }

  /** `ColorState::new(cols).len()` counts the different camel colours listed. */
  lemma NewLen(cols: seq<Color>)
    ensures Len(New(cols)) == |set c | c in cols && IsCamel(c)|
  {
    var s := New(cols);
    var e := Elements(s);
    ElementsMembers(s);
    AscendingDistinct(e);
    DistinctCard(e);
    assert (set x | x in e) == (set c | c in cols && IsCamel(c));
  }

  /** Strictly increasing indices never repeat a colour. */
  lemma AscendingDistinct(a: seq<Color>)
    requires Ascending(a)
    ensures Distinct(a)
  {
    forall k, l | 0 <= k < l < |a| ensures a[k] != a[l] {
      assert Index(a[k]) < Index(a[l]);
    }
  }
}
