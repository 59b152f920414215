# Camel-race round simulator, modelled in Dafny

The simulator works on one round of a camel race with five camels:
Blue, Green, Orange, White and Yellow. The board has 16 fields. A field
holds a stack of camels, listed bottom to top, and may carry an effect
card: an Oasis moves a landing camel one field on, and a Desert moves it
one field back, underneath the camels already there. In one round each
camel still to roll draws a die showing 1, 2 or 3. Its stack segment
(the camel and everything above it) then moves that far.

The simulator enumerates every order of the remaining colours and every
die value. That gives `k!·3^k` finishing orders for `k` colours still to
roll when no roll runs a camel off the board: 29160 for the whole round
from the default start. It memoises sub-results in a cache
keyed by board and colour set. Finally it counts, per colour and place,
how often each colour finishes there.

The model covers these parts of the system:

- The `calc` crate:
  - `Color` and its byte and index codings;
  - the `ColorState` bit set with its cursor-carrying iterator;
  - `CamelMap` with its builder and `move_camel`;
  - `Configuration` with `normalize`, `leaderboard` and its builder;
  - the memoised `simulate_round_rec`, `simulate_rounds` and `aggragated_leaderboard`.
- The earlier stand-alone engine in `calc/src/main.rs` (module `EarlyEngine`),
  and its agreement with the crate (module `EarlyAgreement`).
- The first engine in `src/main.rs` (module `FirstEngine`).
- The TUI game state logic in `camel_tui/src/gamestate.rs` and
  `camel_tui/src/camelfield.rs` (module `Tui`).

How the model is laid out:

- `Wrappers`, `Seqs` and `Counting` hold `Option`/`Result`, sequence facts,
  and `Fact`, `Pow3` and `Outcomes(k) = k!·3^k`.
- `Colors` and `ColorStates` model `color.rs` and `color_state.rs`:
  - The colour set is a `bv8` with the source's masks: bit `0x80 >> i`
    for colour `i`, and the low three bits hold the iterator cursor.
  - The early engine (`calc/src/main.rs:7-187`) carries a copy of
    `Color` and `ColorState` that says the same as the crate's, masked
    equality and hash, `remove_color` and `add_color` included. It is
    modelled once.
  - The first engine's copy (`src/main.rs:6-163`) shares the bit layout,
    `len`, `assign_to_index`, `new`, `retain` and the iterator, which are
    modelled once. It differs in three ways:
    - its derived `PartialEq` compares the whole byte, cursor included;
    - it has no `Hash`;
    - it has no `remove_color` or `add_color`, so a throw drops its
      colour through `retain` (`FirstEngine.RetainRemoves`).
    The first engine never compares or hashes configurations, so its
    equality is recorded but not modelled.
- `CamelMaps` models `camel_map.rs`:
  - A board is a record of 16 optional stacks, the five camel positions
    (`color_pos_map`) and 16 optional cards.
  - `Valid` is the invariant the builder establishes when its position
    list names each camel at most once (`DistinctColors`, see
    `CamelMaps.NewSpec`), and that `move_camel` keeps:
    every camel stands in exactly one stack, at the field its position
    entry names, and camels that are not on the board keep position 0.
- `Configurations` models `configuration.rs`. The configuration builder
  is modelled as the facts `build` establishes.
- `Simulation` and `Aggregation` model `simulation.rs`:
  - `Simulation.Sim` is the reference definition of a round's outcomes.
    It expands colours in the iterator's order and die values 1 to 3,
    normalising after the empty check exactly as the recursion does.
  - The loop visits the members of the colour set from its cursor on
    (`Rolls`), so a set whose cursor is past a member never rolls it.
  - `Safe` holds exactly when the round runs without a panic: every roll
    the loops make finds its camel and lands on one of the 16 fields.
    `Room` is a checkable sufficient condition for it.
  - The cached recursion is proved to return exactly `Sim` while the
    cache stays sound, for any cursor.
- `EarlyEngine` models the engine of `calc/src/main.rs`:
  - Its move is the crate's move on a board without cards.
  - Its recursion has no `normalize`. `EarlyAgreement` proves that
    wherever it runs without a panic, the crate's recursion runs too and
    returns the same outcomes in the same order.
- `FirstEngine` models the engine of `src/main.rs`:
  - The board is a `HashMap<u8, Vec<Color>>` from field to stack,
    modelled as a `map<nat, seq<Color>>`.
  - The engine expands configurations breadth-first, layer by layer.
    Every final configuration is the start with its recorded throws
    replayed on the board.
- `Tui` models the terminal front end's `GameState`:
  - moving a camel;
  - the colour and field cursors;
  - `init`;
  - the conversion to a simulator `Configuration`.
- `RoundExamples` runs the crate on the default configuration: a whole
  round of 29160 outcomes, and the same colours with another cursor.

`normalize` shifts the stacks and the camel positions but leaves the
effect cards where they were, so on a board with cards the normalised
board can differ in play from the original. The model follows the code
here (`Configurations.NormalizeSpec` states it), and `Simulation.Sim`
normalises exactly where the recursion does.

Rust panics become preconditions: an index past the board, a `u8`
subtraction below zero, and `unwrap` on a missing camel. For the round
recursions the precondition is `Safe` (`RunSafe` for the earlier engine),
which says exactly that none of these happens anywhere in the round. `From` conversions
that panic on bad input return `Option`.

## Model

| member | source | states |
|---|---|---|
| Colors.Index | calc/src/color.rs:43-67 | Blue..Yellow map to 0..4 and None to 5. Each camel colour sits at its own index in the colour list, and the index is 5 exactly for None. |
| Colors.FromIndex | calc/src/color.rs:30-41 | Indices 0..4 give the five colours in order. Every larger value gives None. |
| Colors.AsByte | calc/src/color.rs:12-16 | Every mask is a single bit. Camel masks lie outside the three cursor bits, and None's mask 0x04 lies inside them. |
| Colors.FromByte | calc/src/color.rs:18-28 | Whenever decoding yields a colour other than None, that colour's mask is exactly the decoded byte. |
| Colors.IndexRoundTrip | calc/src/color.rs:30-67 | Converting any of the six colours to its index and back returns the same colour. |
| Colors.FromIndexRoundTrip | calc/src/color.rs:56-80 | Every index 0..4 survives the trip to a colour and back to `u8`. |
| Colors.ByteRoundTrip | calc/src/color.rs:12-28 | `from_byte(as_byte(c)) == c` for every camel colour. |
| Colors.MaskValues | calc/src/color.rs:12-16 | The masks are 0x80, 0x40, 0x20, 0x10 and 0x08, that is `0x80 >> index`. |
| Colors.AsByteInjective | calc/src/color.rs:12-16 | Different colours have different masks. |
| ColorStates.Len | calc/src/color_state.rs:40-45 | The count of membership bits equals the number of member colours, which is at most 5. |
| ColorStates.LenCountsElements | calc/src/color_state.rs:40-45 | `count_ones` of the masked byte equals the length of the ascending member list. |
| ColorStates.Default | calc/src/color_state.rs:32-37 | The default set holds all five camels, with cursor 0 and length 5. |
| ColorStates.DefaultElements | calc/src/color_state.rs:32-37 | The members of the default set, in index order, are exactly the colour list. |
| ColorStates.AssignToIndex | calc/src/color_state.rs:46-53 | Bit `index` becomes `value` and every other bit is unchanged. |
| ColorStates.AssignKeepsCursor | calc/src/color_state.rs:46-53 | Assigning a colour bit leaves the iterator cursor where it was. |
| ColorStates.RemoveColor | calc/src/color_state.rs:55-57 | Only `col` stops being a member and the cursor is kept. The length drops by one exactly when `col` was a member. |
| ColorStates.RemoveElements | calc/src/color_state.rs:55-57 | The member list loses exactly the entry of `col` and keeps the others in order. |
| ColorStates.AddColor | calc/src/color_state.rs:59-61 | A camel colour `col` becomes a member, every other colour keeps its membership, and the cursor is kept. |
| ColorStates.New | calc/src/color_state.rs:63-69 | Members are exactly the camel colours listed. The cursor is 4 if None is listed and 0 otherwise. |
| ColorStates.NewLen | calc/src/color_state.rs:63-69 | The length of `new(list)` is the number of distinct camel colours listed. |
| ColorStates.Retain | calc/src/color_state.rs:71-81 | For each index 0..5, a bit stays set iff it was set and the predicate accepts its mask. The two lowest cursor bits (indices 6 and 7) are untouched. |
| ColorStates.Next | calc/src/color_state.rs:101-124 | Yields the mask of the smallest member at or after the cursor, removes it, moves the cursor just past it and shortens the set by one. Otherwise it yields None and leaves the set as it was. |
| ColorStates.NextFromSpec | calc/src/color_state.rs:104-123 | Scanning from any index 0..7 meets `next`'s promise, including the early exit at index 5. |
| ColorStates.ConsumeElements | calc/src/color_state.rs:108-115 | Consuming member `i` leaves, past the new cursor, exactly the members after `i`. |
| ColorStates.ConsumeMembers | calc/src/color_state.rs:108-115 | Consuming member `i` removes that member and keeps all others. |
| ColorStates.ConsumeLen | calc/src/color_state.rs:108-115 | Consuming a member lowers the length by one. |
| ColorStates.Drain | calc/src/color_state.rs:92-124 | Iterating a copy yields the masks of the members from the cursor on, in ascending index order. |
| ColorStates.DrainFresh | calc/src/color_state.rs:92-124 | On a set with cursor 0 the iterator yields every member's mask once, ascending, and `Len` of them in total. |
| ColorStates.EqualIsSameMembers | calc/src/color_state.rs:17-30 | Two sets are equal iff they have the same members, and equal sets hash the same. |
| ColorStates.FreshEqualIsIdentical | calc/src/color_state.rs:24-30 | For sets with cursor 0, equality coincides with identical bytes. |
| ColorStates.SentinelHitsCursor | calc/src/color_state.rs:59-61 | None's mask has no membership bit. Adding None to the default set moves its cursor to 4 and leaves a set equal to the default. |
| ColorStates.AssignSequence | calc/tests/color_state_tests.rs:4-16 | The assign, remove and add sequence of the test ends with the lengths and bytes the test expects. |
| ColorStates.DefaultIteration | calc/tests/color_state_tests.rs:19-27 | Iterating the default set yields the five masks in order and then ends. |
| CamelMaps.FindCamel | calc/src/camel_map.rs:95-97 | On a valid board the position of a placed camel is the one field whose stack holds it. |
| CamelMaps.IndexOf | calc/src/camel_map.rs:53-56 | Finds the height of the first occurrence of the camel in its stack, with no earlier occurrence below. |
| CamelMaps.MoveCamel | calc/src/camel_map.rs:41-93 | The board stays valid and the cards are unchanged. The same camels stay on the board, and the group's position entries become the destination while the others keep theirs. The destination stack is as the card rule says, and every other field keeps what the group did not take. |
| CamelMaps.MoveCamelSpec | calc/src/camel_map.rs:41-93 | The statement-by-statement move (split, set positions, Oasis on top or Desert underneath) meets `MoveCamel`'s contract. |
| CamelMaps.MoveBoardFields | calc/src/camel_map.rs:53-91 | After the move the origin keeps the camels below the group, the landing field gets the group on top or underneath, and no other field changes. |
| CamelMaps.MoveBoardPositions | calc/src/camel_map.rs:63-66 | Exactly the camels of the group get the destination as their position. |
| CamelMaps.KeptBehind | calc/src/camel_map.rs:53-61 | The camels below the moved camel stay on the origin field. |
| CamelMaps.PartsDistinct | calc/src/camel_map.rs:53-61 | The part left behind and the moving group share no camel. |
| CamelMaps.MovedValid | calc/src/camel_map.rs:41-93 | Every camel stays in exactly one stack, and its position entry agrees with that stack. |
| CamelMaps.MovedPlaced | calc/src/camel_map.rs:41-93 | A camel is on the board after the move iff it was before. |
| CamelMaps.Builder | calc/src/camel_map.rs:32-39 | The builder starts with no positions and 16 empty card slots. |
| CamelMaps.WithEffectCards | calc/src/camel_map.rs:107-112 | A listed field gets the card of its last listing. Unlisted fields keep their card and the positions are untouched. |
| CamelMaps.InsertCamel | calc/src/camel_map.rs:129-140 | The camel goes on top of the stack of its field and its position entry becomes that field. Nothing else changes. |
| CamelMaps.InsertAllStacks | calc/src/camel_map.rs:114-140 | Each field ends up holding its listed camels appended in list order, so later entries stand on top. |
| CamelMaps.InsertAllLast | calc/src/camel_map.rs:129-140 | A camel's position entry is the field of its last listing. |
| CamelMaps.InsertAllUntouched | calc/src/camel_map.rs:129-140 | Fields and camels that are not listed keep their state. |
| CamelMaps.Build | calc/src/camel_map.rs:142-153 | Returns an error iff `with_positions` was never called (an empty position list still builds), and otherwise the board made of the builder's stacks, positions and cards. |
| CamelMaps.NewSpec | calc/src/camel_map.rs:114-153 | Each field holds the camels listed for it, in list order, and a camel never listed is not on the board. With each camel listed once the board is valid and every camel stands on its listed field. |
| CamelMaps.NewIsInsertAll | calc/src/main.rs:197-217 | The earlier engine's `CamelMap::new` (16 empty fields, then `insert_camel` per entry) is the same board. |
| CamelMaps.NewValid | calc/src/camel_map.rs:129-140 | Inserting distinct camels on fields 0..15 gives a valid board. |
| CamelMapExamples.BuildWithCards | calc/tests/effect_card_tests.rs:4-51 | Builds a board with positions and cards in which the listed fields carry their cards and all others carry none. |
| CamelMapExamples.MoveCamelExample | calc/tests/camel_map_tests.rs:4-15 | Green moves 3 alone from the top of Blue to the empty field 3, while Blue and Orange stay. |
| CamelMapExamples.OasisOnTopExample | calc/tests/effect_card_tests.rs:72-88 | Landing on an Oasis carries the group one field on, on top of the camels there. |
| CamelMapExamples.DesertBeneathExample | calc/tests/effect_card_tests.rs:127-143 | Landing on a Desert moves the group one field back, underneath the camels there. |
| CamelMapExamples.DesertBackToOriginExample | calc/tests/effect_card_tests.rs:165-182 | A Desert sending the group back onto its origin field puts it underneath the camels that stayed. |
| CamelMapExamples.BuildNeedsPositions | calc/src/camel_map.rs:142-145 | Building without positions is an error. |
| CamelMapExamples.EmptyIsNone | calc/src/camel_map.rs:68-73 | A field emptied by a move becomes `None`, not an empty stack. |
| Configurations.EqualMeansSameBoardAndColors | calc/src/configuration.rs:22-35 | Configurations are equal iff boards and colour sets are equal, whatever the dice queue. Equal configurations hash the same. |
| Configurations.MinOf | calc/src/configuration.rs:45-52 | Gives the smallest of the five position entries, the value `positions.sort()` puts first. |
| Configurations.ShiftStepSpec | calc/src/configuration.rs:56-65 | One loop iteration extends the shifted part of the board by field `i`: its stack moves down by the minimum and its camels' positions follow. |
| Configurations.NormalizeSpec | calc/src/configuration.rs:44-66 | Stacks and positions move down by the minimum while the cards stay where they were. All five camels are on the board afterwards iff they were before, and with minimum 0 nothing changes. |
| Configurations.NormalizeShifts | calc/src/configuration.rs:56-65 | A positive minimum means all five camels are on the board. Every stack moves down by the minimum, the positions move with it, and the cards stay in place. |
| Configurations.NormalizeKeeps | calc/src/configuration.rs:49-55 | When the minimum is 0, for instance because a camel is missing, the board is left as it was. |
| Configurations.NormalizeIdempotent | calc/src/configuration.rs:44-66 | Normalising twice is normalising once. |
| Configurations.NormalizedValid | calc/src/configuration.rs:56-65 | A normalised valid board is valid, and its minimum position is 0. |
| Configurations.LeaderboardSpec | calc/src/configuration.rs:70-88 | A camel is listed iff it is on the board. Listed camels are in race order: a higher field first, and on a field the top camel first. No camel repeats, and padding is None. With all five placed, it is a permutation of the colours. |
| Configurations.StandingsMember | calc/src/configuration.rs:71-86 | The standings below field `n` hold exactly the camels on fields below `n`. |
| Configurations.StandingsInOrder | calc/src/configuration.rs:71-86 | Every camel in the standings leads every camel listed after it. |
| Configurations.StandingsFit | calc/src/configuration.rs:80-86 | A valid board lists at most five camels, so the writes stay inside the array. |
| Configurations.BuildSetters | calc/src/configuration.rs:111-175 | `build` takes the board, the colour set and the queue the setters gave, and falls back to the default board and all colours. |
| Configurations.BuildDiceQueue | calc/src/configuration.rs:137-157 | `with_dice_queue` and `add_dice` append their dice in call order. |
| ConfigurationExamples.DefaultBuild | calc/tests/configuration_tests.rs:4-19 | The default configuration has camels on fields 0 to 2, all five colours and no dice. |
| ConfigurationExamples.CustomMapBuild | calc/tests/configuration_tests.rs:22-38 | A custom position list is placed as listed. |
| ConfigurationExamples.AvailableColorsBuild | calc/tests/configuration_tests.rs:41-47 | `with_available_colors([Blue, Orange])` gives a set of length 2. |
| ConfigurationExamples.AddDiceBuild | calc/tests/configuration_tests.rs:69-83 | Dice added one by one are queued in order. |
| ConfigurationExamples.NormalizationExample | calc/tests/configuration_tests.rs:120-139 | A board whose rearmost camel stands on field 2 is shifted so that it stands on field 0. |
| Simulation.PlacementOf | calc/src/simulation.rs:109 | Each entry of the placement converts back to the leaderboard's colour at that place. |
| Simulation.DecodeMasks | calc/src/simulation.rs:129-131 | Decoding the masks the iterator yields gives back the camel colours, so the `debug_assert_ne` holds. |
| Simulation.RollsIterate | calc/src/simulation.rs:129-131 | Decoding the masks that the iterator yields on a copy of the set gives the members from the cursor on, in ascending index order. Each of them is a camel still to roll. |
| Simulation.AllRolls | calc/src/simulation.rs:129 | When no member sits below the cursor, the loop visits every member once, in index order. |
| Simulation.RollRoom | calc/src/simulation.rs:144-145 | On a board with room for the round, a roll of 1 to 3 for a colour still to roll finds its camel and lands on the board. The moved board has room for the colours left. |
| Simulation.RoomSafe | calc/src/simulation.rs:100-162 | A board with room for the round runs the whole round without a panic. |
| Simulation.SimCount | calc/tests/simulation_tests.rs:26-39 | A round that runs without a panic has `k!·3^k` outcomes for `k` colours still to roll, 3 for one colour. It has none when a member sits below the cursor. |
| Simulation.SimRankings | calc/tests/simulation_tests.rs:26-39 | With all five camels on the board, every outcome of a round that runs without a panic is a ranking: each index 0..4 exactly once, so every entry is at most 4. |
| Simulation.LeaderboardRanking | calc/src/simulation.rs:105-110 | The base case's placement of a full board is a ranking. |
| Simulation.SimulateRoundRec | calc/src/simulation.rs:100-162 | For a configuration that runs without a panic, whatever its cursor, it returns exactly the reference outcomes `Sim`. It keeps every cache entry correct for its key, read with the round's cursor. |
| Simulation.RememberSound | calc/src/simulation.rs:159-160 | Inserting a configuration with its correct outcomes keeps the cache sound. |
| Simulation.ColorLoop | calc/src/simulation.rs:128-157 | The colour loop gives the reference outcomes of every colour it visits, in visiting order, and keeps the cache sound. |
| Simulation.ExpandDiceRec | calc/src/simulation.rs:133-156 | The die loop of one colour gives the reference outcomes for values 1, 2 and 3, in order. |
| Simulation.Step | calc/src/simulation.rs:134-145 | The child configuration has the colour removed from the list and the die appended, and its outcomes are the parent's branch. |
| Simulation.SimulateRounds | calc/src/simulation.rs:82-98 | From an empty cache, gives the reference outcomes: `k!·3^k` of them for `k` colours to roll, and none when a member sits below the cursor. |
| Aggregation.AggregatedLeaderboard | calc/src/simulation.rs:66-78 | Entry `[colour][place]` is the number of placements with that colour at that place. |
| Aggregation.ColumnTotal | calc/src/simulation.rs:66-78 | Each place's counts add up to the number of placements. |
| Aggregation.RowTotal | calc/src/simulation.rs:66-78 | On rankings, each colour's counts add up to the number of placements. |
| Aggregation.RoundTotals | calc/src/simulation.rs:66-98 | For a round with all five camels that runs without a panic, every row and column of the matrix adds up to the round's number of outcomes, `k!·3^k`. |
| EarlyEngine.AdvanceIsMove | calc/src/main.rs:220-250 | On a card-free board the earlier move is the crate's `move_camel`. |
| EarlyEngine.AdvanceSpec | calc/src/main.rs:220-250 | The group lands on top at the old field plus the steps, and other fields keep what the group did not take. The board stays valid and card-free with the same camels. |
| EarlyEngine.AdvanceExample | calc/src/main.rs:504-517 | Green, on top of Blue at 0, moves 3 alone to field 3, while Blue and Orange stay. |
| EarlyEngine.AdvanceRoom | calc/src/main.rs:220-222 | On a card-free board with room for the round, a roll of 1 to 3 for a colour still to roll stays on the board and is the crate's move. The colours left still have room. |
| EarlyEngine.RoomRuns | calc/src/main.rs:393-421 | A card-free board with room for the round runs the earlier round without a panic. |
| EarlyEngine.RunCount | calc/src/main.rs:489-502 | Whenever the earlier round runs without a panic, it has the crate's count: `k!·3^k` outcomes for `k` colours, and none when a member sits below the cursor. |
| EarlyEngine.RunRankings | calc/src/main.rs:489-502 | With all five camels on the board, every outcome of a round that runs without a panic is a ranking, so every entry is at most 4. |
| EarlyEngine.MainRound | calc/src/main.rs:428-444 | The round `main` runs from `init_conf` runs without a panic. It has `COUNT_ALL` = 29160 outcomes, each a ranking of the five camels. |
| EarlyEngine.RoundRec | calc/src/main.rs:366-426 | For a configuration that runs without a panic, whatever its cursor, the cached recursion returns exactly the reference outcomes `Run` and keeps the cache sound. |
| EarlyEngine.StoreSound | calc/src/main.rs:423 | Storing correct outcomes keeps the cache sound. |
| EarlyEngine.RoundColors | calc/src/main.rs:393-421 | The first `i` colour iterations give the reference outcomes of the first `i` colours. |
| EarlyEngine.RoundDice | calc/src/main.rs:397-420 | The die loop gives the outcomes of values 1, 2 and 3, in order. |
| EarlyEngine.Throw | calc/src/main.rs:398-409 | The child configuration has the die queued, the colour removed and the camel moved, and its outcomes are the parent's branch. |
| EarlyEngine.SimulateRounds | calc/src/main.rs:354-364 | From an empty cache, gives the reference outcomes: `k!·3^k` of them, and none when a member sits below the cursor. |
| EarlyAgreement.RunIsSim | calc/src/main.rs:366-426 | Whenever the earlier engine's round runs without a panic, the crate's round from the same board and colours runs without one too. It gives the same outcomes in the same order, although only the crate normalises. |
| EarlyAgreement.LoweredRun | calc/src/configuration.rs:44-66 | The earlier round on a card-free board gives the crate's outcomes for the same board moved down past empty fields. |
| EarlyAgreement.LoweredAdvance | calc/src/main.rs:220-250 | The same roll on a board and on that board moved down keeps the two boards the same distance apart. |
| FirstEngine.FindKey | src/main.rs:306-317 | Finds a key holding the camel, or establishes that no key from `p` on holds it. |
| FirstEngine.KeyOf | src/main.rs:306-317 | The `unwrap` of the search succeeds for a placed camel, and the key found is the only one holding it. |
| FirstEngine.PopUntil | src/main.rs:321-329 | Pops until the camel is reached. What remains is a prefix ending just below the camel, and the popped list reversed is the camel and everything above it. |
| FirstEngine.PopSplit | src/main.rs:321-334 | In a repeat-free stack the part left behind is the stack below the camel. |
| FirstEngine.MoveSpec | src/main.rs:319-341 | The old key disappears iff the camel was at the bottom. The group lands on top at `p + n`, and every other key is unchanged. |
| FirstEngine.MoveSound | src/main.rs:319-341 | The board keeps non-empty repeat-free stacks with no camel on two fields, and the same camels. |
| FirstEngine.RetainRemoves | src/main.rs:302-304 | `retain(b != mask)` removes exactly the rolled colour, as `remove_color` would. |
| FirstEngine.SimulateDiceThrow | src/main.rs:290-346 | Gives three configurations, one per die value, each with the die queued, the colour removed and the group moved. |
| FirstEngine.ThrowColor | src/main.rs:278-279 | The three throws of a colour still to roll each have one colour fewer to roll. |
| FirstEngine.ExpandConfiguration | src/main.rs:277-281 | A configuration with `k + 1` colours to roll expands into `3·(k + 1)` configurations with `k` left. |
| FirstEngine.NextLayer | src/main.rs:276-283 | One pass multiplies the number of configurations by `3·(k + 1)`. |
| FirstEngine.SimulateRound | src/main.rs:271-287 | Gives `k!·3^k` final configurations, each with no colour left. Each is the start with its recorded throws replayed, every throw of a different start colour. Each holds all five camels on a sound board when the start did. |
| FirstEngine.ThrowReached | src/main.rs:290-346 | A throw of a colour still to roll, from a configuration reached from the start, reaches the child configuration. |
| FirstEngine.ReplayKeeps | src/main.rs:319-341 | Replaying throws keeps the board sound, with the same camels on it. |
| FirstEngine.RoundOutcome | src/main.rs:271-287 | At the end of a round every start colour was rolled exactly once. The board is the start board with the throws replayed in the recorded order. |
| FirstEngine.LeaderboardSpec | src/main.rs:173-187 | Lists exactly the placed camels in race order, without repeats, and is a permutation of the colours when all five are placed. |
| FirstEngine.BelowOrdered | src/main.rs:173-187 | Every listed camel leads every camel listed after it. |
| FirstEngine.BelowFit | src/main.rs:178-185 | A sound board lists at most five camels, so the array writes stay in bounds. |
| FirstEngine.BoardRanking | src/main.rs:261-263 | The placement of a board with all five camels is a ranking. |
| FirstEngine.AggregatePlacements | src/main.rs:257-268 | Entry `[colour][place]` counts the configurations whose leaderboard places that colour there. |
| FirstEngine.AggregateTotals | src/main.rs:257-268 | Every row and every column of that matrix adds up to the number of configurations. |
| FirstEngine.InitialRound | src/main.rs:191-204 | The start configuration has five colours to roll and room for every throw, so a round has `COUNT_ALL` outcomes. |
| FirstEngine.RetainOnlyBlue | src/main.rs:374-385 | Keeping only Blue's mask leaves a fresh set whose only member is Blue. |
| FirstEngine.OnlyBlueKept | src/main.rs:374-385 | The iterator over the result yields Blue's mask once and then ends. |
| RoundExamples.DefaultRoom | calc/src/configuration.rs:159-175 | The default configuration has room for its whole round. It has five camels on fields 0 to 2, no cards, and all five colours to roll with cursor 0. |
| RoundExamples.DefaultRound | calc/src/simulation.rs:82-98 | The whole round from the default configuration runs without a panic. It has `COUNT_ALL` = 29160 outcomes, each a ranking of the five camels. |
| RoundExamples.CursorNotKeyed | calc/src/configuration.rs:22-35 | The default set and the same colours with the cursor at 4 give equal cache keys. Yet from the default board their rounds have 29160 and 0 outcomes. |
| Tui.ToIndex | camel_tui/src/camelfield.rs:31-41 | Each TUI colour maps to its declaration index 0..4 and is the entry at that index of the colour list. |
| Tui.FromIndex | camel_tui/src/camelfield.rs:43-54 | Inverts `ToIndex` on 0..4. Any other value is an error. |
| Tui.AllColors | camel_tui/src/camelfield.rs:57-65 | Lists the five colours once each, with entry `i` converting to `i`. |
| Tui.CharToIndex | camel_tui/src/camelfield.rs:67-76 | The initials `b g y o w` map to their index in that string. Any other character is an error. |
| Tui.ToCalc | camel_tui/src/gamestate.rs:50 | The simulator colour has the same index as the TUI colour. |
| Tui.ToCalcInjective | camel_tui/src/gamestate.rs:50 | Different TUI colours become different simulator colours. |
| Tui.NewField | camel_tui/src/camelfield.rs:160-167 | The field keeps its camels and indices and is not selected. |
| Tui.DefaultState | camel_tui/src/gamestate.rs:21-31 | 16 empty unselected fields and five records that are neither moved nor selected. |
| Tui.AddDiceRolled | camel_tui/src/gamestate.rs:74-76 | Only the dice counter grows, by one. |
| Tui.MoveCamel | camel_tui/src/gamestate.rs:92-134 | A target past the board or an already moved camel gives `InvalidMove`. A camel on no field gives `InvalidConfiguration`. Otherwise the move succeeds iff the target is 1 to 3 fields ahead, any other target gives `InvalidMove`, and a success is as `Moved` describes. |
| Tui.MoveOk | camel_tui/src/gamestate.rs:123-131 | A successful move lifts the camel and the camels above it onto the target. Only the rolled camel is marked moved, each camel of the group records the distance, and nothing else changes. |
| Tui.MoveKeepsShape | camel_tui/src/gamestate.rs:92-134 | A successful move keeps 16 fields, 5 records and both selections in range. |
| Tui.MovePreservesCamels | camel_tui/src/gamestate.rs:123-131 | A successful move neither loses nor duplicates a camel, so a board with each camel once keeps that. |
| Tui.MoveSelectedColorRel | camel_tui/src/gamestate.rs:184-194 | The colour cursor moves by `by`, jumps to 0 past the end and to 4 below 0. Exactly the selected record stays flagged, and nothing else changes. |
| Tui.ColorStepBack | camel_tui/src/gamestate.rs:184-194 | One step forward and one back restore a consistently selected state. |
| Tui.ColorCycle | camel_tui/src/gamestate.rs:184-194 | Five steps forward return to the starting state. |
| Tui.MoveSelectedColor | camel_tui/src/gamestate.rs:170-182 | Selects colour `next`, moving the flag. Every camel that has not moved forgets its previewed distance, and nothing else changes. |
| Tui.ForgetPreviews | camel_tui/src/gamestate.rs:174-178 | Only the records of unmoved camels lose their distance. |
| Tui.SelectColorIdempotent | camel_tui/src/gamestate.rs:170-182 | Selecting the same colour twice is selecting it once. |
| Tui.AddRoundRel | camel_tui/src/gamestate.rs:163-167 | Each record's distance grows by `by` once for each listing of its camel in the group. |
| Tui.MoveSelectedFieldRel | camel_tui/src/gamestate.rs:136-168 | The field cursor moves by `by` and wraps to 15 or 0. Exactly the new field is flagged, the selected camel's group records the shift, and nothing else changes. |
| Tui.FieldStepBack | camel_tui/src/gamestate.rs:136-168 | One step forward and one back restore a consistently selected state: flags, cursor and distances. |
| Tui.InitFields | camel_tui/src/gamestate.rs:78-90 | Each field holds the camels listed for it, in list order. |
| Tui.InitStarts | camel_tui/src/gamestate.rs:84-87 | Each listed camel's start is the field of its last listing, and unlisted camels start at 0. |
| Tui.InitFlags | camel_tui/src/gamestate.rs:78-90 | Field 0 and colour 0 are selected, and no camel has moved. |
| Tui.InitCamels | camel_tui/src/gamestate.rs:78-90 | The board holds exactly the listed camels, as a multiset. |
| Tui.InitConsistent | camel_tui/src/gamestate.rs:78-90 | A list with each camel once gives a board with each camel once. |
| Tui.ConvertGameState | camel_tui/src/gamestate.rs:40-72 | The converted board has 16 fields and no cards, and the dice queue is empty. |
| Tui.ConvertParts | camel_tui/src/gamestate.rs:40-72 | The board is `CamelMap::new` of the TUI stacks' placements, and the colours to roll are exactly the converted colours of the camels that have not moved. |
| Tui.ConvertBoard | camel_tui/src/gamestate.rs:41-54 | The simulator board is the TUI board, field by field and bottom-up, with colours converted. |
| Tui.ConvertColors | camel_tui/src/gamestate.rs:56-66 | A simulator colour is to roll iff its TUI camel has not moved. |
| Tui.ConvertConsistent | camel_tui/src/gamestate.rs:40-72 | A board with each camel once converts to a valid simulator board with all five camels placed. |
| Tui.ConvertDistinct | camel_tui/src/gamestate.rs:41-54 | The converted position list names each camel once. |
| Tui.WaitingPrefix | camel_tui/src/gamestate.rs:56-66 | Among the first `n` records, a colour is kept for rolling exactly when its camel has not moved. |

## Left out

- Widths: positions, dice and counts are unbounded `nat`s. Where a `u8` or
  `i8` would overflow or underflow (a move past field 15, a subtraction
  below zero), the model has a precondition instead.
- The TUI's `i32` cursor arithmetic is unbounded; the values involved are
  small.
- `CamelMap::new`: absent from `calc/src/camel_map.rs`. It is modelled as
  `builder().with_positions(ps).build().unwrap()`, which is also what the
  earlier `calc/src/main.rs:197-217` does.
- `Color::all()`: absent. It is taken to be the five colours in index order.
- `ColorState::is_empty`: absent. It is taken to be `len() == 0`.
- `CamelState`: its definition is not part of this model. It is taken as
  a record of colour, moved flag, selection flag, start field and
  previewed distance.
- Rendering: TUI drawing, camel patterns, `text_color` and `to_color`,
  `EffectCard::to_color`, and all of `gamefield.rs`, `numbersfield.rs`,
  `camel_tui/src/main.rs` and `colors.py`. These are screen output.
- `calc/src/lib.rs`: re-exports only.
- I/O: `Debug` and `Display` output, printing, `CacheStatistics` and
  the benches. These are logging and timing only.
- Floating point: the percentage output in the `main` functions.
- `Rc` sharing and the hasher: the cache is a map keyed by the board and
  the colour set's membership byte. `ColorStates.EqualIsSameMembers` shows
  that this key is what `Hash` and `Eq` compare.
- Hash-map iteration order in `src/main.rs`: the search for a camel's
  field is an ascending scan over the keys. On a sound board only one key
  holds the camel, so every order finds the same field.
- The equality of `src/main.rs`'s `ColorState` (`src/main.rs:75`): it is
  derived, so it compares the whole byte, cursor included, unlike the
  crate's masked equality. There is also no `Hash`. Nothing in that file
  compares or hashes colour sets or configurations, so no member models it.
- FirstEngine.SimulateRound: relates every final configuration to the
  start by replaying its recorded throws. It does not match the outcomes
  one by one against `Simulation.Sim`: the breadth-first passes list them
  in another order than the crate's depth-first recursion.
- Simulation.SimulateRoundRec, EarlyEngine.RoundRec: the cache key leaves
  the iterator cursor out, so an entry stored under one cursor can be
  wrong for the same members under another (`RoundExamples.CursorNotKeyed`).
  Cache soundness is stated for the cursor of the starting set, which every
  configuration of one call keeps. A cache shared between calls with
  different cursors is not covered; the source makes a fresh cache per call.
- EarlyAgreement.RunIsSim: one direction only. The crate may finish a round
  in which the earlier engine panics, because normalising first moves the
  board down, away from the end of the board.
- `Tui.ToCalc`: the conversion goes by index, so the TUI's Yellow, Orange
  and White become the simulator's Orange, White and Yellow. The model
  follows the code. The relabelling is consistent in both directions, so
  the counts per camel are only renamed.
- `Tui.MoveSelectedFieldRel`: the source's `expect` on a selected camel
  that is on no field is a precondition.
