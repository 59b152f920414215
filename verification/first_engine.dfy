/** `src/main.rs`, the first engine: the board is a hash map from field
    number to the stack standing there, a throw lifts the rolled camel with
    everything above it, and a round is expanded breadth-first, one die
    pass at a time, without a cache.  The colour set, the colour order and
    the dice record are the ones of the `calc` crate. */
module FirstEngine {
  import opened Colors
  import opened Wrappers
  import opened Seqs
  import opened Counting
  import CamelMaps
  import Configurations
  import Simulation
  import Aggregation
  import CS = ColorStates

  // ---------------------------------------------------------------------
  // Board

  /** `HashMap<u8, Vec<Color>>`: each key a field, each value the stack on
      it from the bottom up. */
  type Stacks = map<nat, seq<Color>>

  /** The shape every board of the engine keeps: `u8` keys, non-empty
      repeat-free stacks of camels, and no camel on two fields. */
  ghost predicate Sound(b: Stacks) {
    && (forall p :: p in b ==> p < 256 && |b[p]| > 0 && Distinct(b[p]))
    && (forall p, c :: p in b && c in b[p] ==> IsCamel(c))
    && (forall p, q, c :: p in b && q in b && c in b[p] && c in b[q] ==> p == q)
  }

  /** Camel `c` stands on some field. */
  ghost predicate Placed(b: Stacks, c: Color) {
    exists p :: p in b && c in b[p]
  }

  /** The `filter_map(..).next()` search for the field holding `c`, over
      the `u8` keys from `p` up.  The map's iteration order is the hasher's;
      on a sound board at most one key qualifies, so any order finds it. */
  function FindKey(b: Stacks, c: Color, p: nat): (r: Option<nat>)
    requires p <= 256
    ensures r.Some? ==> p <= r.value < 256 && r.value in b && c in b[r.value]
    ensures r.None? ==> forall q :: p <= q < 256 && q in b ==> c !in b[q]
    decreases 256 - p
  {
    if p == 256 then Option.None
    else if p in b && c in b[p] then Some(p)
    else FindKey(b, c, p + 1)
  }

  /** `old_pos`: the field a placed camel stands on.  The search's
      `unwrap` succeeds, and the field is the only one holding the camel. */
  function KeyOf(b: Stacks, c: Color): (k: nat)
    requires Sound(b) && Placed(b, c)
    ensures k < 256 && k in b && c in b[k]
    ensures forall p :: p in b && c in b[p] ==> p == k
  {
    PlacedIsFound(b, c);
    FindKey(b, c, 0).value
  }

  lemma PlacedIsFound(b: Stacks, c: Color)
    requires Sound(b) && Placed(b, c)
    ensures FindKey(b, c, 0).Some?
  {
    var p :| p in b && c in b[p];
    assert p < 256;
  }

  /** The `while let Some(last) = pop()` loop: pops until `c` itself has
      been popped.  It returns what is left of the stack and the popped
      camels in the order they came off, top first.  What is left is the
      stack below the topmost `c`, and the popped camels reversed are `c`
      and everything above it, in stack order. */
  function PopUntil(stack: seq<Color>, c: Color): (r: (seq<Color>, seq<Color>))
    requires c in stack
    ensures |r.0| < |stack| && r.0 == stack[..|r.0|] && stack[|r.0|] == c
    ensures Reverse(r.1) == stack[|r.0|..]
    ensures c !in stack[|r.0| + 1..]
    decreases |stack|
  {
    var last := stack[|stack| - 1];
    var front := stack[..|stack| - 1];
    if last == c then (front, [last])
    else
      assert stack == front + [last];
      var (rest, popped) := PopUntil(front, c);
      assert Reverse([last] + popped) == Reverse(popped) + [last];
      (rest, [last] + popped)
  }

  /** The board half of `simulate_dice_throw` for die value `n`: the camels
      from `c` up are popped off their field, the field is dropped from the
      map if that emptied it, and the group, back in stack order, goes on
      top of field `old + n` (created if absent).  `old + n` is a `u8` sum,
      which must not overflow. */
  function Move(b: Stacks, c: Color, n: nat): (r: Stacks)
    requires Sound(b) && Placed(b, c)
    requires KeyOf(b, c) + n < 256
  {
    var from := KeyOf(b, c);
    var (rest, popped) := PopUntil(b[from], c);
    var left := if |rest| == 0 then b - {from} else b[from := rest];
    var moving := Reverse(popped);
    var dest := from + n;
    if dest in left then left[dest := left[dest] + moving] else left[dest := moving]
  }

  /** In a repeat-free stack, what `PopUntil` leaves is the stack below `c`. */
  lemma PopSplit(s: seq<Color>, c: Color)
    requires Distinct(s) && c in s
    ensures |PopUntil(s, c).0| == CamelMaps.IndexOf(s, c)
  {
    var k := CamelMaps.IndexOf(s, c);
    var h := |PopUntil(s, c).0|;
    assert s[k] == c && s[h] == c;
  }

  /** What a move does to the map: with `c` at height `k` of field `p`,
      field `p` keeps the camels below `k` and disappears when there are
      none; field `p + n` gets the group `c` and above, in order, on top of
      what stood there; every other field is untouched. */
  lemma MoveSpec(b: Stacks, c: Color, n: nat)
    requires Sound(b) && Placed(b, c) && 1 <= n && KeyOf(b, c) + n < 256
    ensures var p := KeyOf(b, c); var k := CamelMaps.IndexOf(b[p], c); var r := Move(b, c, n);
      && (p in r <==> k > 0)
      && (k > 0 ==> r[p] == b[p][..k])
      && p + n in r
      && r[p + n] == (if p + n in b then b[p + n] else []) + b[p][k..]
      && (forall q :: q != p && q != p + n ==> (q in r <==> q in b))
      && (forall q :: q != p && q != p + n && q in b ==> r[q] == b[q])
  {
    var p: nat := KeyOf(b, c);
    var k := CamelMaps.IndexOf(b[p], c);
    var (rest, popped) := PopUntil(b[p], c);
    PopSplit(b[p], c);
    assert rest == b[p][..k] && Reverse(popped) == b[p][k..];
    var left := if |rest| == 0 then b - {p} else b[p := rest];
    assert Move(b, c, n) == if p + n in left then left[p + n := left[p + n] + b[p][k..]] else left[p + n := b[p][k..]];
    assert p + n in left <==> p + n in b;
    assert p + n in b ==> left[p + n] == b[p + n];
  }

  /** The camels of the moved group stand on field `p` and on no other. */
  lemma GroupFacts(b: Stacks, p: nat, k: nat)
    requires Sound(b) && p in b && k <= |b[p]|
    ensures forall x :: x in b[p][k..] ==> x in b[p] && x !in b[p][..k]
    ensures forall x, q :: x in b[p][k..] && q in b && x in b[q] ==> q == p
  {
    var s := b[p];
    forall x | x in s[k..] ensures x in s && x !in s[..k] {
      var i :| 0 <= i < |s[k..]| && s[k..][i] == x;
      assert s[k + i] == x;
    }
  }

  /** `r` is `b` after lifting the camels from height `k` of field `p` on
      top of field `d`, as `MoveSpec` describes. */
  ghost predicate Moved(b: Stacks, r: Stacks, p: nat, d: nat, k: nat) {
    && Sound(b) && p in b && k < |b[p]| && p != d && d < 256
    && (p in r <==> k > 0)
    && (k > 0 ==> r[p] == b[p][..k])
    && d in r && r[d] == (if d in b then b[d] else []) + b[p][k..]
    && (forall q :: q != p && q != d ==> (q in r <==> q in b))
    && (forall q :: q != p && q != d && q in b ==> r[q] == b[q])
  }

  /** Where each camel of the moved board stood before. */
  lemma MovedOrigin(b: Stacks, r: Stacks, p: nat, d: nat, k: nat)
    requires Moved(b, r, p, d, k)
    ensures forall q, x :: q in r && x in r[q] && q != d ==> q in b && x in b[q] && (q == p ==> x !in b[p][k..])
    ensures forall x :: x in r[d] ==> (d in b && x in b[d]) || x in b[p][k..]
  {
    GroupFacts(b, p, k);
    forall q, x | q in r && x in r[q] && q != d ensures q in b && x in b[q] && (q == p ==> x !in b[p][k..]) {
      if q == p {
        var i :| 0 <= i < k && b[p][..k][i] == x;
        assert b[p][i] == x;
      }
    }
  }

  /** Each stack of the moved board is a non-empty repeat-free stack of camels. */
  lemma MovedStacks(b: Stacks, r: Stacks, p: nat, d: nat, k: nat)
    requires Moved(b, r, p, d, k)
    ensures forall q :: q in r ==> q < 256 && |r[q]| > 0 && Distinct(r[q])
    ensures forall q, x :: q in r && x in r[q] ==> IsCamel(x)
  {
    MovedOrigin(b, r, p, d, k);
    GroupFacts(b, p, k);
    var s := b[p];
    var under := if d in b then b[d] else [];
    assert Distinct(r[d]) by {
      assert forall x :: x in under ==> x !in s[k..];
      AppendDistinct(under, s[k..]);
    }
  }

  /** No camel of the moved board stands on two fields. */
  lemma MovedUnique(b: Stacks, r: Stacks, p: nat, d: nat, k: nat)
    requires Moved(b, r, p, d, k)
    ensures forall q1, q2, x :: q1 in r && q2 in r && x in r[q1] && x in r[q2] ==> q1 == q2
  {
    MovedOrigin(b, r, p, d, k);
    GroupFacts(b, p, k);
  }

  /** A camel of the moved field `p` is still on the board, on `p` when
      below height `k` and on `d` otherwise. */
  lemma MovedKeeps(b: Stacks, r: Stacks, p: nat, d: nat, k: nat, i: nat)
    requires Moved(b, r, p, d, k) && i < |b[p]|
    ensures Placed(r, b[p][i])
  {
    var x := b[p][i];
    if i < k {
      assert r[p][i] == x;
    } else {
      assert b[p][k..][i - k] == x;
      assert x in r[d];
    }
  }

  /** The moved board holds the same camels. */
  lemma MovedPlaced(b: Stacks, r: Stacks, p: nat, d: nat, k: nat, x: Color)
    requires Moved(b, r, p, d, k)
    ensures Placed(r, x) <==> Placed(b, x)
  {
    if Placed(b, x) {
      var q :| q in b && x in b[q];
      if q == p {
        var i :| 0 <= i < |b[p]| && b[p][i] == x;
        MovedKeeps(b, r, p, d, k, i);
      } else if q == d {
        assert x in r[d];
      } else {
        assert x in r[q];
      }
    }
    if Placed(r, x) {
      MovedOrigin(b, r, p, d, k);
      var q :| q in r && x in r[q];
      if q == d && x in b[p][k..] {
        GroupFacts(b, p, k);
      }
    }
  }

  lemma MoveIsMoved(b: Stacks, c: Color, n: nat)
    requires Sound(b) && Placed(b, c) && 1 <= n && KeyOf(b, c) + n < 256
    ensures Moved(b, Move(b, c, n), KeyOf(b, c), KeyOf(b, c) + n, CamelMaps.IndexOf(b[KeyOf(b, c)], c))
  {
    MoveSpec(b, c, n);
  }

  /** A move keeps the board sound and keeps every camel on it. */
  lemma MoveSound(b: Stacks, c: Color, n: nat)
    requires Sound(b) && Placed(b, c) && 1 <= n && KeyOf(b, c) + n < 256
    ensures Sound(Move(b, c, n))
    ensures forall x :: Placed(Move(b, c, n), x) <==> Placed(b, x)
  {
    var p: nat := KeyOf(b, c);
    var k := CamelMaps.IndexOf(b[p], c);
    var r := Move(b, c, n);
    MoveIsMoved(b, c, n);
    MovedStacks(b, r, p, p + n, k);
    MovedUnique(b, r, p, p + n, k);
    forall x ensures Placed(r, x) <==> Placed(b, x) {
      MovedPlaced(b, r, p, p + n, k, x);
    }
  }

  // ---------------------------------------------------------------------
  // Configurations and throws

  /** `Configuration`: the board, the dice rolled so far and the colours
      still to roll.  (Its derived `PartialEq` compares the whole colour
      byte, cursor included; nothing here compares configurations.) */
  datatype Configuration = Configuration(board: Stacks, diceQueue: seq<Configurations.Dice>, available: CS.ColorState)

  /** The configuration a throw of `c` with value `n` leads to: the die is
      queued, `c` leaves the colours to roll and its group moves. */
  function Throw(conf: Configuration, c: Color, n: nat): Configuration
    requires Sound(conf.board) && Placed(conf.board, c) && KeyOf(conf.board, c) + n < 256
  {
    Configuration(Move(conf.board, c, n), conf.diceQueue + [Configurations.Dice(c, n)], CS.RemoveColor(conf.available, c))
  }

  /** The mask of a camel colour is the bit of its index. */
  lemma MaskIsBit(c: Color)
    requires IsCamel(c)
    ensures AsByte(c) == CS.Bit(Index(c))
    ensures forall i :: 0 <= i < 6 ==> (CS.Bit(i) == AsByte(c) <==> i == Index(c))
  {
  }

  /** Bytes that agree on each of the eight bits are equal. */
  lemma SameBits(x: bv8, y: bv8)
    requires (x & 0x80 != 0 <==> y & 0x80 != 0) && (x & 0x40 != 0 <==> y & 0x40 != 0)
    requires (x & 0x20 != 0 <==> y & 0x20 != 0) && (x & 0x10 != 0 <==> y & 0x10 != 0)
    requires (x & 0x08 != 0 <==> y & 0x08 != 0) && (x & 0x04 != 0 <==> y & 0x04 != 0)
    requires (x & 0x02 != 0 <==> y & 0x02 != 0) && (x & 0x01 != 0 <==> y & 0x01 != 0)
    ensures x == y
  {
  }

  /** What `retain(|b| b != c.as_byte())` leaves, as `ColorStates.Retain`
      states it for that predicate. */
  ghost predicate RetainedWithout(s: CS.ColorState, c: Color, r: CS.ColorState) {
    && (forall i :: 0 <= i < 6 ==> (CS.HasIndex(r, i) <==> CS.HasIndex(s, i) && CS.Bit(i) != AsByte(c)))
    && CS.HasIndex(r, 6) == CS.HasIndex(s, 6) && CS.HasIndex(r, 7) == CS.HasIndex(s, 7)
  }

  lemma RetainedBit(s: CS.ColorState, c: Color, r: CS.ColorState, i: nat)
    requires IsCamel(c) && RetainedWithout(s, c, r) && i < 8
    ensures CS.HasIndex(r, i) <==> CS.HasIndex(CS.AssignToIndex(s, Index(c), false), i)
  {
    MaskIsBit(c);
  }

  /** `retain(|b| b != dice_color.as_byte())` removes exactly the rolled
      colour: the set it leaves is the one `remove_color` would. */
  lemma RetainRemoves(s: CS.ColorState, c: Color, r: CS.ColorState)
    requires IsCamel(c) && RetainedWithout(s, c, r)
    ensures r == CS.RemoveColor(s, c)
  {
    var t := CS.AssignToIndex(s, Index(c), false);
    RetainedBit(s, c, r, 0);
    RetainedBit(s, c, r, 1);
    RetainedBit(s, c, r, 2);
    RetainedBit(s, c, r, 3);
    RetainedBit(s, c, r, 4);
    RetainedBit(s, c, r, 5);
    RetainedBit(s, c, r, 6);
    RetainedBit(s, c, r, 7);
    SameBits(r.state, t.state);
  }

  /** `simulate_dice_throw`: for `n` in 1, 2, 3, a copy of the configuration
      with the die `(colour, n)` queued, the colour retained out of the set
      and its group moved `n` fields.  The mask must decode to a camel
      colour (`assert_ne!`), and that camel must stand on the board with
      room for three more fields in a `u8`. */
  method SimulateDiceThrow(conf: Configuration, code: bv8) returns (confs: seq<Configuration>)
    requires IsCamel(FromByte(code))
    requires Sound(conf.board) && Placed(conf.board, FromByte(code)) && KeyOf(conf.board, FromByte(code)) + 3 < 256
    ensures |confs| == 3
    ensures forall i :: 0 <= i < 3 ==>
      && confs[i].diceQueue == conf.diceQueue + [Configurations.Dice(FromByte(code), i + 1)]
      && confs[i].available == CS.RemoveColor(conf.available, FromByte(code))
      && confs[i].board == Move(conf.board, FromByte(code), i + 1)
    ensures forall i :: 0 <= i < 3 ==> confs[i] == Throw(conf, FromByte(code), i + 1)
  {
    var color := FromByte(code);
    confs := [];
    var n := 1;
    while n <= 3
      invariant 1 <= n <= 4 && |confs| == n - 1
      invariant forall i :: 0 <= i < n - 1 ==> confs[i] == Throw(conf, color, i + 1)
    {
      var queue := conf.diceQueue + [Configurations.Dice(color, n)];
      var kept := CS.Retain(conf.available, b => b != AsByte(color));
      RetainRemoves(conf.available, color, kept);
      var board := Move(conf.board, color, n);
      confs := confs + [Configuration(board, queue, kept)];
      n := n + 1;
    }
  }

  // ---------------------------------------------------------------------
  // Rounds

  /** A configuration with `j` colours left to roll that the engine can
      expand to the end of the round: a sound board holding every colour
      still to roll, a set whose cursor is 0 (as `retain` and `default`
      leave it), and field numbers low enough that `j` more throws of up
      to 3 fields each stay within `u8`. */
  ghost predicate Live(conf: Configuration, j: nat) {
    && Sound(conf.board)
    && CS.Fresh(conf.available) && |CS.Elements(conf.available)| == j
    && (forall c :: c in CS.Elements(conf.available) ==> Placed(conf.board, c))
    && (forall p :: p in conf.board ==> p + 3 * j < 256)
  }

  ghost predicate AllLive(cs: seq<Configuration>, j: nat) {
    forall i :: 0 <= i < |cs| ==> Live(cs[i], j)
  }

  /** A colour still to roll stands on the board, with room to move 3. */
  lemma ThrowRoom(conf: Configuration, c: Color, j: nat)
    requires Live(conf, j) && c in CS.Elements(conf.available)
    ensures j > 0 && Sound(conf.board) && Placed(conf.board, c) && KeyOf(conf.board, c) + 3 < 256
  {
  }

  /** Removing a listed colour drops it from the list and keeps the cursor. */
  lemma RemoveListed(s: CS.ColorState, c: Color)
    requires CS.Fresh(s) && c in CS.Elements(s)
    ensures CS.Fresh(CS.RemoveColor(s, c))
    ensures |CS.Elements(CS.RemoveColor(s, c))| == |CS.Elements(s)| - 1
    ensures forall x :: x in CS.Elements(CS.RemoveColor(s, c)) ==> x in CS.Elements(s)
  {
    var r := CS.RemoveColor(s, c);
    CS.ElementsMembers(s);
    CS.ElementsMembers(r);
    assert CS.Contains(s, c);
    assert CS.Cursor(r) == CS.Cursor(s);
  }

  /** The configuration a throw leads to has one colour fewer left. */
  lemma ThrowLive(conf: Configuration, c: Color, n: nat, k: nat)
    requires Live(conf, k + 1) && c in CS.Elements(conf.available) && 1 <= n <= 3
    ensures KeyOf(conf.board, c) + 3 < 256
    ensures Live(Throw(conf, c, n), k)
  {
    ThrowRoom(conf, c, k + 1);
    MoveBound(conf.board, c, n, k);
    MoveSound(conf.board, c, n);
    RemoveListed(conf.available, c);
  }

  /** A move of at most 3 keeps every field 3 short of the next bound. */
  lemma MoveBound(b: Stacks, c: Color, n: nat, k: nat)
    requires Sound(b) && Placed(b, c) && 1 <= n <= 3
    requires forall p :: p in b ==> p + 3 * (k + 1) < 256
    ensures KeyOf(b, c) + n < 256
    ensures forall q :: q in Move(b, c, n) ==> q + 3 * k < 256
  {
    var p := KeyOf(b, c);
    MoveSpec(b, c, n);
    forall q | q in Move(b, c, n) ensures q + 3 * k < 256 {
      if q != p + n {
        assert q in b;
      }
    }
  }

  /** Configurations that can all be expanded further can be joined. */
  lemma AllLiveAppend(a: seq<Configuration>, b: seq<Configuration>, j: nat)
    requires AllLive(a, j) && AllLive(b, j)
    ensures AllLive(a + b, j)
  {
    forall i | 0 <= i < |a + b| ensures Live((a + b)[i], j) {
      if i < |a| {
        assert (a + b)[i] == a[i];
      } else {
        assert (a + b)[i] == b[i - |a|];
      }
    }
  }

  // ---------------------------------------------------------------------
  // What a round reaches

  /** The board after the throws `q`, in order, from board `b`: each moves
      its colour's group by its value as `Move` does, or `None` once a
      throw could not be made (the camel missing, a value outside 1..3, or
      a field past the `u8` range). */
  ghost function Replay(b: Stacks, q: seq<Configurations.Dice>): Option<Stacks>
    decreases |q|
  {
    if |q| == 0 then Some(b)
    else
      var d := q[|q| - 1];
      match Replay(b, q[..|q| - 1])
      case None => Option.None
      case Some(a) =>
        if Sound(a) && Placed(a, d.color) && 1 <= d.value <= 3 && KeyOf(a, d.color) + d.value < 256
        then Some(Move(a, d.color, d.value))
        else Option.None
  }

  /** The colours of a run of throws, in order. */
  function Rolled(q: seq<Configurations.Dice>): (r: seq<Color>)
    ensures |r| == |q| && forall i :: 0 <= i < |q| ==> r[i] == q[i].color
  {
    seq(|q|, i requires 0 <= i < |q| => q[i].color)
  }

  /** The throws recorded in `conf` since `init`. */
  function Since(init: Configuration, conf: Configuration): seq<Configurations.Dice>
    requires |init.diceQueue| <= |conf.diceQueue|
  {
    conf.diceQueue[|init.diceQueue|..]
  }

  /** `conf` is `init` after the throws recorded since: its queue extends
      the start's, replaying the new throws on the start board gives its
      board, and the new throws rolled different colours of the start's
      set, which are exactly the ones that left it. */
  ghost predicate Reached(init: Configuration, conf: Configuration) {
    && |init.diceQueue| <= |conf.diceQueue|
    && conf.diceQueue[..|init.diceQueue|] == init.diceQueue
    && Replay(init.board, Since(init, conf)) == Some(conf.board)
    && Distinct(Rolled(Since(init, conf)))
    && (forall c :: CS.Contains(init.available, c) <==> CS.Contains(conf.available, c) || c in Rolled(Since(init, conf)))
    && (forall c :: c in Rolled(Since(init, conf)) ==> !CS.Contains(conf.available, c))
  }

  ghost predicate AllReached(init: Configuration, cs: seq<Configuration>) {
    forall i :: 0 <= i < |cs| ==> Reached(init, cs[i])
  }

  /** Every configuration is reached from itself. */
  lemma ReachedStart(init: Configuration)
    ensures Reached(init, init)
  {
    assert Since(init, init) == [];
  }

  /** A throw of a colour still to roll, from a reached configuration,
      reaches the configuration it leads to. */
  lemma ThrowReached(init: Configuration, conf: Configuration, c: Color, n: nat)
    requires Reached(init, conf) && CS.Contains(conf.available, c) && 1 <= n <= 3
    requires Sound(conf.board) && Placed(conf.board, c) && KeyOf(conf.board, c) + n < 256
    ensures Reached(init, Throw(conf, c, n))
  {
    var next := Throw(conf, c, n);
    var q := Since(init, conf);
    var d := Configurations.Dice(c, n);
    QueueStep(init, conf, next, d);
    ReplayStep(init.board, q, d, conf.board);
    assert Rolled(q + [d]) == Rolled(q) + [c];
    RollStep(init.available, conf.available, Rolled(q), c);
  }

  /** Rolling a colour still to roll moves it from the set to the rolled
      colours, which stay different. */
  lemma RollStep(a0: CS.ColorState, a: CS.ColorState, q: seq<Color>, c: Color)
    requires forall x :: CS.Contains(a0, x) <==> CS.Contains(a, x) || x in q
    requires forall x :: x in q ==> !CS.Contains(a, x)
    requires Distinct(q) && CS.Contains(a, c)
    ensures forall x :: CS.Contains(a0, x) <==> CS.Contains(CS.RemoveColor(a, c), x) || x in q + [c]
    ensures forall x :: x in q + [c] ==> !CS.Contains(CS.RemoveColor(a, c), x)
    ensures Distinct(q + [c])
  {
    AppendDistinct(q, [c]);
  }

  /** Queueing one more die extends the throws since the start by it. */
  lemma QueueStep(init: Configuration, conf: Configuration, next: Configuration, d: Configurations.Dice)
    requires |init.diceQueue| <= |conf.diceQueue| && conf.diceQueue[..|init.diceQueue|] == init.diceQueue
    requires next.diceQueue == conf.diceQueue + [d]
    ensures |init.diceQueue| <= |next.diceQueue| && next.diceQueue[..|init.diceQueue|] == init.diceQueue
    ensures Since(init, next) == Since(init, conf) + [d]
  {
  }

  /** Replaying one more throw makes that move on the replayed board. */
  lemma ReplayStep(b: Stacks, q: seq<Configurations.Dice>, d: Configurations.Dice, a: Stacks)
    requires Replay(b, q) == Some(a) && 1 <= d.value <= 3
    requires Sound(a) && Placed(a, d.color) && KeyOf(a, d.color) + d.value < 256
    ensures Replay(b, q + [d]) == Some(Move(a, d.color, d.value))
  {
    assert (q + [d])[..|q|] == q;
  }

  /** Replaying throws keeps the board sound and every camel on it. */
  lemma {:induction false} ReplayKeeps(b: Stacks, q: seq<Configurations.Dice>, a: Stacks)
    requires Sound(b) && Replay(b, q) == Some(a)
    ensures Sound(a) && forall x :: Placed(a, x) <==> Placed(b, x)
    decreases |q|
  {
    if |q| > 0 {
      var d := q[|q| - 1];
      var a' := Replay(b, q[..|q| - 1]).value;
      ReplayKeeps(b, q[..|q| - 1], a');
      MoveSound(a', d.color, d.value);
    }
  }

  /** A configuration reached from a sound board holding every camel holds
      every camel on a sound board. */
  lemma ReachedFull(init: Configuration, conf: Configuration)
    requires Reached(init, conf) && Sound(init.board) && Full(init.board)
    ensures Sound(conf.board) && Full(conf.board)
  {
    ReplayKeeps(init.board, Since(init, conf), conf.board);
  }

  lemma AllReachedAppend(init: Configuration, a: seq<Configuration>, b: seq<Configuration>)
    requires AllReached(init, a) && AllReached(init, b)
    ensures AllReached(init, a + b)
  {
    forall i | 0 <= i < |a + b| ensures Reached(init, (a + b)[i]) {
      if i < |a| {
        assert (a + b)[i] == a[i];
      } else {
        assert (a + b)[i] == b[i - |a|];
      }
    }
  }

  /** At the end of a round from `init` every colour of the start was
      rolled exactly once, and the board is the start board with those
      throws replayed in the recorded order. */
  lemma RoundOutcome(init: Configuration, conf: Configuration)
    requires Reached(init, conf) && CS.Len(conf.available) == 0
    ensures Replay(init.board, Since(init, conf)) == Some(conf.board)
    ensures Distinct(Rolled(Since(init, conf)))
    ensures forall c :: c in Rolled(Since(init, conf)) <==> CS.Contains(init.available, c)
  {
    forall c | CS.Contains(conf.available, c) ensures false {
      CS.ElementsMembers(conf.available);
    }
  }

  /** `a` configurations become `b`, then `o`, as one pass and the rest do. */
  lemma PassCount(a: nat, b: nat, o: nat, j: nat)
    requires j > 0 && b == a * (3 * j) && o == b * Outcomes(j - 1)
    ensures o == a * Outcomes(j)
  {
    OutcomesStep(a, j);
  }

  /** `a` configurations of `3·j` each, then `Outcomes(j - 1)` each. */
  lemma OutcomesStep(a: nat, j: nat)
    requires j > 0
    ensures a * (3 * j) * Outcomes(j - 1) == a * Outcomes(j)
  {
    var o := Outcomes(j - 1);
    TimesIsProduct(3, o);
    TimesIsProduct(j, 3 * o);
    assert Outcomes(j) == j * (3 * o);
    assert a * (3 * j) * o == a * (j * (3 * o));
  }

  /** On a set with cursor 0 the iterator yields the masks of the members,
      in index order. */
  lemma DrainElements(s: CS.ColorState)
    requires CS.Fresh(s)
    ensures |CS.Drain(s)| == |CS.Elements(s)|
    ensures forall t :: 0 <= t < |CS.Elements(s)| ==> FromByte(CS.Drain(s)[t]) == CS.Elements(s)[t]
  {
    CS.DrainFresh(s);
    forall t | 0 <= t < |CS.Elements(s)| ensures FromByte(CS.Drain(s)[t]) == CS.Elements(s)[t] {
      ByteRoundTrip(CS.Elements(s)[t]);
    }
  }

  /** One iteration of the colour loop: `simulate_dice_throw` on a colour
      still to roll yields its three throws, each with `k` colours left
      instead of `k + 1`, each reached from wherever `conf` was. */
  method ThrowColor(conf: Configuration, k: nat, code: bv8, ghost init: Configuration) returns (thrown: seq<Configuration>)
    requires Live(conf, k + 1) && FromByte(code) in CS.Elements(conf.available)
    ensures |thrown| == 3 && AllLive(thrown, k)
    ensures forall i :: 0 <= i < 3 ==> thrown[i] == Throw(conf, FromByte(code), i + 1)
    ensures Reached(init, conf) ==> AllReached(init, thrown)
  {
    var c := FromByte(code);
    ThrowRoom(conf, c, k + 1);
    assert IsCamel(c) by {
      CS.ElementsMembers(conf.available);
    }
    thrown := SimulateDiceThrow(conf, code);
    ThrownLive(conf, c, k, thrown);
    if Reached(init, conf) {
      ThrownReached(init, conf, c, k, thrown);
    }
  }

  /** The three throws of a colour still to roll each have a colour fewer. */
  lemma ThrownLive(conf: Configuration, c: Color, k: nat, thrown: seq<Configuration>)
    requires Live(conf, k + 1) && c in CS.Elements(conf.available) && KeyOf(conf.board, c) + 3 < 256
    requires |thrown| == 3 && forall i :: 0 <= i < 3 ==> thrown[i] == Throw(conf, c, i + 1)
    ensures AllLive(thrown, k)
  {
    forall i | 0 <= i < 3 ensures Live(thrown[i], k) {
      ThrowLive(conf, c, i + 1, k);
    }
  }

  lemma ThrownReached(init: Configuration, conf: Configuration, c: Color, k: nat, thrown: seq<Configuration>)
    requires Live(conf, k + 1) && c in CS.Elements(conf.available) && KeyOf(conf.board, c) + 3 < 256
    requires |thrown| == 3 && forall i :: 0 <= i < 3 ==> thrown[i] == Throw(conf, c, i + 1)
    requires Reached(init, conf)
    ensures AllReached(init, thrown)
  {
    CS.ElementsMembers(conf.available);
    forall i | 0 <= i < 3 ensures Reached(init, thrown[i]) {
      ThrowReached(init, conf, c, i + 1);
    }
  }

  /** `for color_code in &conf.available_colours`, with the throws of each
      colour appended in turn: three configurations per colour, each with
      one colour fewer to roll. */
  method ExpandConfiguration(conf: Configuration, k: nat, ghost init: Configuration) returns (more: seq<Configuration>)
    requires Live(conf, k + 1)
    ensures |more| == 3 * (k + 1) && AllLive(more, k)
    ensures Reached(init, conf) ==> AllReached(init, more)
  {
    var codes := CS.Drain(conf.available);
    CodesListed(conf, k + 1);
    more := ThrowAll(conf, k, codes, 0, init);
  }

  /** The colour codes the loop visits are those of the colours to roll. */
  lemma CodesListed(conf: Configuration, j: nat)
    requires Live(conf, j)
    ensures |CS.Drain(conf.available)| == j
    ensures forall t :: 0 <= t < j ==> FromByte(CS.Drain(conf.available)[t]) in CS.Elements(conf.available)
  {
    DrainElements(conf.available);
  }

  /** The colour loop from the `t`-th colour code on: the throws of each
      code in turn. */
  method ThrowAll(conf: Configuration, k: nat, codes: seq<bv8>, t: nat, ghost init: Configuration) returns (more: seq<Configuration>)
    requires Live(conf, k + 1) && t <= |codes|
    requires forall u :: 0 <= u < |codes| ==> FromByte(codes[u]) in CS.Elements(conf.available)
    ensures |more| == 3 * (|codes| - t) && AllLive(more, k)
    ensures Reached(init, conf) ==> AllReached(init, more)
    decreases |codes| - t
  {
    if t == |codes| {
      more := [];
    } else {
      var thrown := ThrowColor(conf, k, codes[t], init);
      var rest := ThrowAll(conf, k, codes, t + 1, init);
      AllLiveAppend(thrown, rest, k);
      if Reached(init, conf) {
        AllReachedAppend(init, thrown, rest);
      }
      more := thrown + rest;
    }
  }

  /** One pass of the outer loop of `simulate_round`: each configuration
      with `k + 1` colours left becomes `3·(k + 1)` with `k` left. */
  method NextLayer(configs: seq<Configuration>, k: nat, ghost init: Configuration) returns (next: seq<Configuration>)
    requires AllLive(configs, k + 1)
    ensures |next| == |configs| * (3 * (k + 1)) && AllLive(next, k)
    ensures AllReached(init, configs) ==> AllReached(init, next)
  {
    next := ExpandFrom(configs, k, 0, init);
    TimesIsProduct(|configs|, 3 * (k + 1));
  }

  /** The pass from the `i`-th configuration on. */
  method ExpandFrom(configs: seq<Configuration>, k: nat, i: nat, ghost init: Configuration) returns (next: seq<Configuration>)
    requires AllLive(configs, k + 1) && i <= |configs|
    ensures |next| == Times(|configs| - i, 3 * (k + 1)) && AllLive(next, k)
    ensures AllReached(init, configs) ==> AllReached(init, next)
    decreases |configs| - i
  {
    if i == |configs| {
      next := [];
    } else {
      var more := ExpandConfiguration(configs[i], k, init);
      var rest := ExpandFrom(configs, k, i + 1, init);
      AllLiveAppend(more, rest, k);
      if AllReached(init, configs) {
        AllReachedAppend(init, more, rest);
      }
      next := more + rest;
    }
  }

  /** `simulate_round`: `len()` passes, each replacing every configuration
      by all of its throws.  It ends with `k!·3^k` configurations for the
      `k` colours to roll; each has none left, is the start with its
      recorded throws replayed (every start colour rolled once), and holds
      every camel when the start did. */
  method SimulateRound(init: Configuration) returns (configs: seq<Configuration>)
    requires Live(init, CS.Len(init.available))
    ensures |configs| == Outcomes(CS.Len(init.available))
    ensures AllLive(configs, 0) && AllReached(init, configs)
    ensures forall i :: 0 <= i < |configs| ==> CS.Len(configs[i].available) == 0
    ensures Full(init.board) ==> AllFull(configs)
  {
    var amount := CS.Len(init.available);
    ReachedStart(init);
    assert AllReached(init, [init]);
    configs := Passes([init], amount, init);
    if Full(init.board) {
      ReachedAllFull(init, configs);
    }
  }

  /** Configurations reached from a sound board holding every camel hold
      every camel. */
  lemma ReachedAllFull(init: Configuration, cs: seq<Configuration>)
    requires AllReached(init, cs) && Sound(init.board) && Full(init.board)
    ensures AllFull(cs)
  {
    forall k | 0 <= k < |cs| ensures Sound(cs[k].board) && Full(cs[k].board) {
      ReachedFull(init, cs[k]);
    }
  }

  /** The remaining `left` passes of `simulate_round`. */
  method Passes(configs: seq<Configuration>, left: nat, ghost init: Configuration) returns (outcomes: seq<Configuration>)
    requires AllLive(configs, left)
    ensures |outcomes| == |configs| * Outcomes(left)
    ensures AllLive(outcomes, 0)
    ensures AllReached(init, configs) ==> AllReached(init, outcomes)
    decreases left
  {
    if left == 0 {
      outcomes := configs;
    } else {
      var next := NextLayer(configs, left - 1, init);
      outcomes := Passes(next, left - 1, init);
      PassCount(|configs|, |next|, |outcomes|, left);
    }
  }

  // ---------------------------------------------------------------------
  // Leaderboard

  /** The number of `u8` keys. */
  const KeySpace: nat := 256

  /** The stack on field `p`, empty when the map has no such key. */
  function StackAt(b: Stacks, p: nat): seq<Color> {
    if p in b then b[p] else []
  }

  /** The keys sorted from the highest down, each stack read from the top:
      the camels of fields `n - 1` down to 0 in race order. */
  function StandingsBelow(b: Stacks, n: nat): seq<Color> {
    if n == 0 then [] else Reverse(StackAt(b, n - 1)) + StandingsBelow(b, n - 1)
  }

  /** `Configuration::leaderboard`: the standings written into a five-entry
      array that starts as all `Color::None`; a sixth camel would index
      past its end. */
  function Leaderboard(b: Stacks): (r: seq<Color>)
    requires |StandingsBelow(b, KeySpace)| <= 5
    ensures |r| == 5
  {
    var st := StandingsBelow(b, KeySpace);
    st + seq(5 - |st|, _ => Color.None)
  }

  /** All five camels stand on the board. */
  ghost predicate Full(b: Stacks) {
    forall c :: IsCamel(c) ==> Placed(b, c)
  }

  /** How high in its stack a camel stands (0 is the bottom). */
  function Height(b: Stacks, c: Color): nat
    requires Sound(b) && Placed(b, c)
  {
    CamelMaps.IndexOf(b[KeyOf(b, c)], c)
  }

  /** `a` leads `c`: it is on a higher field, or on the same field above it. */
  ghost predicate Ahead(b: Stacks, a: Color, c: Color)
    requires Sound(b) && Placed(b, a) && Placed(b, c)
  {
    KeyOf(b, a) > KeyOf(b, c) || (KeyOf(b, a) == KeyOf(b, c) && Height(b, a) > Height(b, c))
  }

  /** A camel in the stack of field `p` stands on `p`. */
  lemma OnKey(b: Stacks, p: nat, c: Color)
    requires Sound(b) && c in StackAt(b, p)
    ensures Placed(b, c) && KeyOf(b, c) == p
  {
  }

  /** The standings below `n` hold exactly the camels on a field below `n`. */
  lemma {:induction false} BelowMember(b: Stacks, n: nat, c: Color)
    requires Sound(b)
    ensures c in StandingsBelow(b, n) <==> Placed(b, c) && KeyOf(b, c) < n
  {
    if n > 0 {
      BelowMember(b, n - 1, c);
      ReverseMembers(StackAt(b, n - 1), c);
      if c in StackAt(b, n - 1) {
        OnKey(b, n - 1, c);
      }
    }
  }

  /** No camel is listed twice. */
  lemma {:induction false} BelowDistinct(b: Stacks, n: nat)
    requires Sound(b)
    ensures Distinct(StandingsBelow(b, n))
  {
    if n > 0 {
      BelowDistinct(b, n - 1);
      var top := Reverse(StackAt(b, n - 1));
      ReverseDistinct(StackAt(b, n - 1));
      forall x | x in top ensures x !in StandingsBelow(b, n - 1) {
        ReverseMembers(StackAt(b, n - 1), x);
        OnKey(b, n - 1, x);
        BelowMember(b, n - 1, x);
      }
      AppendDistinct(top, StandingsBelow(b, n - 1));
    }
  }

  /** Every listed camel leads every camel listed after it. */
  lemma {:induction false} BelowOrdered(b: Stacks, n: nat)
    requires Sound(b)
    ensures forall x :: x in StandingsBelow(b, n) ==> Placed(b, x)
    ensures forall j, l :: 0 <= j < l < |StandingsBelow(b, n)| ==>
      Ahead(b, StandingsBelow(b, n)[j], StandingsBelow(b, n)[l])
  {
    forall x | x in StandingsBelow(b, n) ensures Placed(b, x) {
      BelowMember(b, n, x);
    }
    if n > 0 {
      BelowOrdered(b, n - 1);
      var top := Reverse(StackAt(b, n - 1));
      var rest := StandingsBelow(b, n - 1);
      assert StandingsBelow(b, n) == top + rest;
      forall j, l | 0 <= j < l < |top + rest| ensures Ahead(b, (top + rest)[j], (top + rest)[l]) {
        if l < |top| {
          StackOrder(b, n - 1, j, l);
        } else if j < |top| {
          ReverseMembers(StackAt(b, n - 1), top[j]);
          AboveRest(b, n, top[j], rest[l - |top|]);
        } else {
          assert (top + rest)[j] == rest[j - |top|] && (top + rest)[l] == rest[l - |top|];
        }
      }
    }
  }

  /** Read from the top, a stack lists its camels from the leader down. */
  lemma StackOrder(b: Stacks, p: nat, j: nat, l: nat)
    requires Sound(b) && j < l < |StackAt(b, p)|
    ensures var top := Reverse(StackAt(b, p));
      Placed(b, top[j]) && Placed(b, top[l]) && Ahead(b, top[j], top[l])
  {
    var st := StackAt(b, p);
    var top := Reverse(st);
    OnKey(b, p, top[j]);
    OnKey(b, p, top[l]);
    Configurations.IndexOfDistinct(st, |st| - 1 - j);
    Configurations.IndexOfDistinct(st, |st| - 1 - l);
  }

  /** A camel on field `n - 1` leads every camel on a lower field. */
  lemma AboveRest(b: Stacks, n: nat, x: Color, y: Color)
    requires Sound(b) && n > 0 && x in StackAt(b, n - 1) && y in StandingsBelow(b, n - 1)
    ensures Placed(b, x) && Placed(b, y) && Ahead(b, x, y)
  {
    OnKey(b, n - 1, x);
    BelowMember(b, n - 1, y);
  }

  /** A sound board lists at most five camels, so `leaderboard` does not
      run past its array. */
  lemma BelowFit(b: Stacks)
    requires Sound(b)
    ensures |StandingsBelow(b, KeySpace)| <= 5
  {
    var st := StandingsBelow(b, KeySpace);
    BelowDistinct(b, KeySpace);
    forall x | x in st ensures x in (set c | c in All) {
      BelowMember(b, KeySpace, x);
      assert Placed(b, x);
      assert x in b[KeyOf(b, x)];
      assert IsCamel(x);
      assert All[Index(x)] == x;
    }
    AllDistinct();
    DistinctCard(All);
    DistinctWithin(st, set c | c in All);
  }

  /** The leaderboard of a sound board: the placed camels, each once and in
      race order, followed by `Color::None` for the missing places; with all
      five camels on the board it is a permutation of the colours. */
  lemma LeaderboardSpec(b: Stacks)
    requires Sound(b)
    ensures |StandingsBelow(b, KeySpace)| <= 5
    ensures var r := Leaderboard(b);
      && (forall c :: IsCamel(c) ==> (c in r <==> Placed(b, c)))
      && (forall j, l :: 0 <= j < l < 5 && IsCamel(r[l]) ==>
            IsCamel(r[j]) && Placed(b, r[j]) && Placed(b, r[l]) && Ahead(b, r[j], r[l]))
      && (forall j, l :: 0 <= j < l < 5 && IsCamel(r[j]) ==> r[j] != r[l])
      && (Full(b) ==> multiset(r) == multiset(All))
  {
    BelowFit(b);
    var st := StandingsBelow(b, KeySpace);
    var r := Leaderboard(b);
    assert r == st + seq(5 - |st|, _ => Color.None);
    LeaderboardMembers(b, st, r);
    LeaderboardOrdered(b, st, r);
    if Full(b) {
      BelowDistinct(b, KeySpace);
      FullStandings(b, st);
      FullLeaderboard(st, r);
    }
  }

  lemma LeaderboardMembers(b: Stacks, st: seq<Color>, r: seq<Color>)
    requires Sound(b) && st == StandingsBelow(b, KeySpace) && |st| <= 5
    requires r == st + seq(5 - |st|, _ => Color.None)
    ensures forall c :: IsCamel(c) ==> (c in r <==> Placed(b, c))
    ensures forall j :: 0 <= j < 5 ==> (IsCamel(r[j]) <==> j < |st|)
  {
    forall c | IsCamel(c) ensures c in r <==> Placed(b, c) {
      BelowMember(b, KeySpace, c);
    }
    forall j | 0 <= j < 5 ensures IsCamel(r[j]) <==> j < |st| {
      if j < |st| {
        BelowMember(b, KeySpace, st[j]);
      }
    }
  }

  lemma LeaderboardOrdered(b: Stacks, st: seq<Color>, r: seq<Color>)
    requires Sound(b) && st == StandingsBelow(b, KeySpace) && |st| <= 5
    requires r == st + seq(5 - |st|, _ => Color.None)
    requires forall j :: 0 <= j < 5 ==> (IsCamel(r[j]) <==> j < |st|)
    ensures forall j, l :: 0 <= j < l < 5 && IsCamel(r[l]) ==>
              IsCamel(r[j]) && Placed(b, r[j]) && Placed(b, r[l]) && Ahead(b, r[j], r[l])
    ensures forall j, l :: 0 <= j < l < 5 && IsCamel(r[j]) ==> r[j] != r[l]
  {
    BelowDistinct(b, KeySpace);
    BelowOrdered(b, KeySpace);
    forall j, l | 0 <= j < l < 5 && IsCamel(r[l])
      ensures IsCamel(r[j]) && Placed(b, r[j]) && Placed(b, r[l]) && Ahead(b, r[j], r[l])
    {
      assert r[j] == st[j] && r[l] == st[l];
    }
    forall j, l | 0 <= j < l < 5 && IsCamel(r[j]) ensures r[j] != r[l] {
      assert r[j] == st[j];
      if l < |st| {
        assert r[l] == st[l];
      }
    }
  }

  /** Five distinct camels padded to five places are a permutation of the
      colours. */
  lemma FullLeaderboard(st: seq<Color>, r: seq<Color>)
    requires Distinct(st) && (forall x :: x in st <==> x in All) && |st| <= 5
    requires r == st + seq(5 - |st|, _ => Color.None)
    ensures multiset(r) == multiset(All)
  {
    AllDistinct();
    SameElementsPermutation(st, All);
    assert |st| == |multiset(st)| == |multiset(All)| == 5;
    assert r == st;
  }

  /** With all five camels on the board the standings list exactly them. */
  lemma FullStandings(b: Stacks, st: seq<Color>)
    requires Sound(b) && Full(b) && st == StandingsBelow(b, KeySpace)
    ensures forall x :: x in st <==> x in All
  {
    forall x ensures x in st <==> x in All {
      BelowMember(b, KeySpace, x);
      if IsCamel(x) {
        assert All[Index(x)] == x;
      } else if x in st {
        assert x in b[KeyOf(b, x)];
      }
    }
  }

  // ---------------------------------------------------------------------
  // Aggregation

  /** `leaderboard()` with each colour turned into its index. */
  function BoardPlacement(b: Stacks): (p: Simulation.Placement)
    requires Sound(b)
    ensures |p| == 5
    ensures |StandingsBelow(b, KeySpace)| <= 5 && forall i :: 0 <= i < 5 ==> FromIndex(p[i]) == Leaderboard(b)[i]
  {
    BelowFit(b);
    Simulation.PlacementOf(Leaderboard(b))
  }

  /** A board with all five camels ranks each colour index once. */
  lemma BoardRanking(b: Stacks)
    requires Sound(b) && Full(b)
    ensures Simulation.Ranking(BoardPlacement(b))
  {
    LeaderboardSpec(b);
    Simulation.FullLeaderboardCamels(Leaderboard(b));
    Simulation.CamelsRanking(Leaderboard(b));
  }

  /** Every board is sound and holds all five camels. */
  ghost predicate AllFull(configs: seq<Configuration>) {
    forall k :: 0 <= k < |configs| ==> Sound(configs[k].board) && Full(configs[k].board)
  }

  /** The placements of the configurations, in order. */
  function Placements(configs: seq<Configuration>): (ps: seq<Simulation.Placement>)
    requires AllFull(configs)
    ensures |ps| == |configs|
    ensures Simulation.AllRankings(ps)
  {
    if |configs| == 0 then []
    else
      var front := configs[..|configs| - 1];
      assert AllFull(front) by {
        forall k | 0 <= k < |front| ensures Sound(front[k].board) && Full(front[k].board) {
          assert front[k] == configs[k];
        }
      }
      BoardRanking(configs[|configs| - 1].board);
      var ps := Placements(front) + [BoardPlacement(configs[|configs| - 1].board)];
      assert forall j :: 0 <= j < |ps| - 1 ==> ps[j] == Placements(front)[j];
      ps
  }

  /** `aggragate_placements`: for every configuration and every place of
      its leaderboard, one more in `[colour][place]`. */
  method AggregatePlacements(configs: seq<Configuration>) returns (table: seq<seq<nat>>)
    requires AllFull(configs)
    ensures Aggregation.Matrix(table)
    ensures forall c, place :: 0 <= c < 5 && 0 <= place < 5 ==>
      table[c][place] == Aggregation.CountAt(Placements(configs), place, c)
  {
    var ps := Placements(configs);
    Aggregation.RankingsIndexed(ps);
    table := Aggregation.AggregatedLeaderboard(ps);
  }

  /** Each colour finishes somewhere in every configuration and each place
      holds one colour, so every row and every column of the matrix adds up
      to the number of configurations. */
  lemma AggregateTotals(configs: seq<Configuration>, k: nat)
    requires AllFull(configs) && k < 5
    ensures var ps := Placements(configs);
      Aggregation.CountAt(ps, 0, k) + Aggregation.CountAt(ps, 1, k) + Aggregation.CountAt(ps, 2, k)
      + Aggregation.CountAt(ps, 3, k) + Aggregation.CountAt(ps, 4, k) == |configs|
    ensures var ps := Placements(configs);
      Aggregation.CountAt(ps, k, 0) + Aggregation.CountAt(ps, k, 1) + Aggregation.CountAt(ps, k, 2)
      + Aggregation.CountAt(ps, k, 3) + Aggregation.CountAt(ps, k, 4) == |configs|
  {
    var ps := Placements(configs);
    Aggregation.RankingsIndexed(ps);
    Aggregation.RowTotal(ps, k);
    Aggregation.ColumnTotal(ps, k);
  }

  // ---------------------------------------------------------------------
  // The first round and the colour-set test

  /** The board `main` starts from: Blue under Green on field 0, Yellow
      under White on 1, Orange alone on 2. */
  const InitialBoard: Stacks := map[0 := [Blue, Green], 1 := [Yellow, White], 2 := [Orange]]

  /** `init_conf`: the starting board, no dice yet, all five colours to roll. */
  function InitialConfiguration(): Configuration {
    Configuration(InitialBoard, [], CS.Default())
  }

  /** The starting configuration is one a full round can expand, and the
      round ends with exactly `COUNT_ALL` configurations; every camel
      stands on the starting board. */
  lemma InitialRound()
    ensures Live(InitialConfiguration(), CS.Len(InitialConfiguration().available))
    ensures CS.Len(InitialConfiguration().available) == 5
    ensures Outcomes(CS.Len(InitialConfiguration().available)) == CountAll
    ensures Full(InitialBoard)
  {
    InitialLive();
    InitialFull();
    OutcomesOfFive();
  }

  lemma InitialLive()
    ensures Live(InitialConfiguration(), 5)
    ensures CS.Len(InitialConfiguration().available) == 5
  {
    var conf := InitialConfiguration();
    CS.DefaultElements();
    CS.DefaultLen();
    InitialSound();
    InitialFull();
    InitialKeys();
    LiveFrom(conf, 5);
  }

  lemma InitialKeys()
    ensures forall p :: p in InitialBoard ==> p < 3
  {
  }

  /** A sound board holding all five camels, with room for `j` more throws,
      can roll any `j` camel colours. */
  lemma LiveFrom(conf: Configuration, j: nat)
    requires Sound(conf.board) && Full(conf.board)
    requires CS.Fresh(conf.available) && |CS.Elements(conf.available)| == j
    requires forall c :: c in CS.Elements(conf.available) ==> IsCamel(c)
    requires forall p :: p in conf.board ==> p + 3 * j < 256
    ensures Live(conf, j)
  {
  }

  lemma InitialSound()
    ensures Sound(InitialBoard)
  {
    forall p, q, c | p in InitialBoard && q in InitialBoard && c in InitialBoard[p] && c in InitialBoard[q]
      ensures p == q
    {
    }
  }

  lemma InitialFull()
    ensures Full(InitialBoard)
  {
    forall c | IsCamel(c) ensures Placed(InitialBoard, c) {
      if c == Blue || c == Green {
        assert c in InitialBoard[0];
      } else if c == Yellow || c == White {
        assert c in InitialBoard[1];
      } else {
        assert c in InitialBoard[2];
      }
    }
  }

  /** `color_state_retain`: keeping only Blue's mask in the full set leaves
      a set whose iterator yields Blue once and then ends. */
  method RetainOnlyBlue() returns (first: Option<bv8>, second: Option<bv8>)
    ensures first == Some(AsByte(Blue)) && second == Option.None
  {
    var s := CS.New(All);
    var kept := CS.Retain(s, b => b == AsByte(Blue));
    OnlyBlueKept(s, kept);
    var r1 := CS.Next(kept);
    var r2 := CS.Next(r1.1);
    first, second := r1.0, r2.0;
  }

  lemma OnlyBlueKept(s: CS.ColorState, kept: CS.ColorState)
    requires s == CS.New(All)
    requires forall i :: 0 <= i < 6 ==> (CS.HasIndex(kept, i) <==> CS.HasIndex(s, i) && CS.Bit(i) == AsByte(Blue))
    requires CS.HasIndex(kept, 6) == CS.HasIndex(s, 6) && CS.HasIndex(kept, 7) == CS.HasIndex(s, 7)
    ensures CS.Cursor(kept) == 0
    ensures forall c :: CS.Contains(kept, c) <==> c == Blue
  {
    MaskValues();
    assert Color.None !in All;
    assert CS.Contains(s, Blue);
    assert CS.Cursor(s) == 0;
    assert CS.HasIndex(kept, 0);
    assert !CS.HasIndex(kept, 5) && !CS.HasIndex(kept, 6) && !CS.HasIndex(kept, 7);
    forall i | 1 <= i < 6 ensures !CS.HasIndex(kept, i) {
      assert CS.Bit(i) != CS.Bit(0);
    }
    CS.CursorOfLowBits(kept.state);
  }
}
