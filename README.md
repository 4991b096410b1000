# Dungeon_Crawler core, modelled in Dafny

A model of the game logic of Dungeon_Crawler, a roguelike for the terminal. It covers three files of the game and leaves out everything they draw on the screen:

- `object.cpp`: object piles on the dungeon grid and the object pickers.
- `pc.c`: placing the player character (PC) and the key loop of `pc_next_pos`.
- `io.cpp`: the parts that compute rather than draw:
  - the message queue;
  - the word wrapping of `split`;
  - the terrain glyph tables;
  - the teleport cursor and relocation;
  - the choice of the nearest visible monster;
  - the gold pile and the marketplace's buy rule;
  - the key dispatch of the input loop.

Modules follow the program's parts:

- `Grid`: the dungeon's size, cells, rooms and terrain.
- `Objects`: object descriptions, objects and piles, type tests, the pickers.
- `DungeonState`: the classes `Character` and `Dungeon`, whose grids are `array2` fields that the code updates in place.
- `ObjectMap`: `to_pile`, `gen_object`, `gen_objects`, `destroy_objects`.
- `Pc`: `pc.c`.
- `Keys`: the key codes and the movement keys shared by `io.cpp`'s switches.
- `IoText`: `split`, `is_vowel`, the glyph switches.
- `Messages`: the message queue, as a class whose sequence field stands for the linked list.
- `Teleport`, `NearestMonster`, `Gold`, `Input`: the remaining routines of `io.cpp`.

How the model treats randomness and missing code:

- Each `rand_range` rejection loop becomes a choice (`:|`) among the values that end the loop. Its precondition is that such a value exists, since without one the loop never ends.
- Dice rolls become a `Stats` parameter.
- `can_see` becomes a function parameter.
- Keys become a sequence the loop reads from.
- The fail codes of `move_pc` and of the inventory menus become a sequence given with the keys.

## Model

| member | source | states |
|---|---|---|
| Objects.NewObject | Dungeon_Crawler/object.cpp:9-30 | the new object heads a pile whose rest is the given `next`; it copies the description's name, text, type and colour, takes the position and the rolled stats, and starts unseen |
| Objects.Symbol | Dungeon_Crawler/object.cpp:131-134 | the symbol is '&' or one of the type symbols, and it is '&' exactly when the object has a next one or its type's symbol is '&' |
| Objects.SymbolOfPile | Dungeon_Crawler/object.cpp:131-134 | a cell shows '&' exactly when its top object has a next object, otherwise its type's symbol |
| Objects.IsEquipable | Dungeon_Crawler/object.cpp:175-178 | a type is equipable exactly when get_eq_slot_index gives it a slot |
| Objects.EqSlotIndex | Dungeon_Crawler/object.cpp:195-203 | -1 exactly for types outside WEAPON..RING; for those a slot in range equal to type - 1 |
| Objects.EqSlotsDistinct | Dungeon_Crawler/object.cpp:195-203 | distinct equipable types use distinct slots |
| Objects.IsNew | Dungeon_Crawler/object.cpp:40-47 | true iff no object of the list carries the description's name |
| Objects.PickNew | Dungeon_Crawler/object.cpp:49-61 | the rejection loop returns an unseen object made from a description of a wanted type whose name is in no listed object |
| Objects.GenRandomWeapon | Dungeon_Crawler/object.cpp:49-61 | a new weapon whose name is not in the list; it is equipable and takes slot 0 |
| Objects.GenRandomPotion | Dungeon_Crawler/object.cpp:63-74 | a new potion whose name is not in the list; it cannot be worn |
| Objects.GenRandomAcces | Dungeon_Crawler/object.cpp:76-87 | a new ring, armour or light whose name is not in the list; it is equipable in a slot other than the weapon's |
| ObjectMap.ToPile | Dungeon_Crawler/object.cpp:205-209 | the cell's pile becomes the object on top of the old pile; no other cell changes |
| ObjectMap.GenObject | Dungeon_Crawler/object.cpp:89-116 | the chosen cell lies in a room with terrain up to ter_stairs and now holds exactly one new, unseen object made from a generable non-potion description; no other cell changes |
| ObjectMap.PlaceObject | Dungeon_Crawler/object.cpp:124-126 | one pass of gen_objects' loop: the new object's cell is the only one added to the occupied cells, the object carries this pass's roll, and a cell holding one object still holds one |
| ObjectMap.GenObjects | Dungeon_Crawler/object.cpp:118-129 | num_objects == max_objects; every cell is empty or holds one generated object lying on that cell; every object carries one of this call's rolls; at most max_objects cells hold an object, and at least one does when max_objects is positive |
| ObjectMap.DestroyObjects | Dungeon_Crawler/object.cpp:156-168 | every cell of the object grid is empty |
| Pc.PcIsAlive | Dungeon_Crawler/pc.c:20-23 | the PC's alive flag, unchanged; Pc.ConfigPc states that it is 1 once the PC is configured |
| Pc.PcInRoom | Dungeon_Crawler/pc.c:290-303 | 1 iff the room exists and the PC lies in its half-open extent, else 0 |
| Pc.PlacePc | Dungeon_Crawler/pc.c:25-33 | the PC lies in room 0, bounds `position + size - 1` included, so pc_in_room(d, 0) == 1 |
| DungeonState.Character.Zero | Dungeon_Crawler/pc.c:37 | the memset of the PC: every field the model keeps is zero or false, the inventory untouched |
| Pc.ConfigPc | Dungeon_Crawler/pc.c:35-52 | symbol '@', speed PC_SPEED, alive 1, sequence number 0, PC data and no NPC data, no kills, in room 0; the character grid holds the PC at its position and is unchanged elsewhere |
| Pc.KeyVectorsFollowKeypad | Dungeon_Crawler/pc.c:59-108 | each digit key steps by its place on the keypad, '5' is not a movement key, and every movement key steps to one of the eight neighbours like some digit |
| Pc.KeyEffect | Dungeon_Crawler/pc.c:59-137 | a movement key is taken iff the target cell's hardness is 0; ' ' and '5' give (0,0); '<' and '>' only on the matching staircase; 'q' ends the program |
| Pc.FirstEscape | Dungeon_Crawler/pc.c:144-180 | the index of the first escape key after the 'm' key, and no escape before it |
| Pc.DecidedByLastKey | Dungeon_Crawler/pc.c:55-190 | a decision is made by the last key read, which is not 'm' and is a key the loop takes |
| Pc.DecidedStepIsLegal | Dungeon_Crawler/pc.c:59-137 | a decided move is a unit step onto a cell of hardness 0 or stays in place, and a staircase is taken only while standing on it |
| Pc.PcNextPos | Dungeon_Crawler/pc.c:55-190 | the loop's outcome is Decide: rejected keys are skipped and the 'm' listing swallows keys up to the escape |
| Keys.MoveDirection | Dungeon_Crawler/io.cpp:633-703 | each movement key stands for a keypad digit other than 5; any other key for none |
| Keys.DirectionVector | Dungeon_Crawler/io.cpp:633-703 | a keypad digit's step is in [-1,1] on both axes, and is (0,0) only for 5 |
| Keys.DirectionsDistinct | Dungeon_Crawler/io.cpp:633-703 | distinct digits step in distinct directions |
| Keys.DigitKeysMoveByTheirDigit | Dungeon_Crawler/io.cpp:2016-2056 | a digit key stands for its own digit |
| IoText.Normalize | Dungeon_Crawler/io.cpp:57-60 | same length, every newline replaced by a space and nothing else changed |
| IoText.SplitOnPiecesHaveNoSpace | Dungeon_Crawler/io.cpp:63 | no piece of boost::split on " " contains a space |
| IoText.JoinSplitOn | Dungeon_Crawler/io.cpp:63 | joining the pieces, each followed by a space, gives back the string plus one space |
| IoText.LineEndFits | Dungeon_Crawler/io.cpp:66-75 | the line the inner loop builds is shorter than n, and the word after it would not fit |
| IoText.LinesConcat | Dungeon_Crawler/io.cpp:64-76 | the lines put back together are the words, each followed by a space |
| IoText.LinesShape | Dungeon_Crawler/io.cpp:64-76 | every line is non-empty and shorter than n, and the next line's first word would not fit on it |
| IoText.SplitLines | Dungeon_Crawler/io.cpp:49-78 | for words of at most n - 2 characters, the lines concatenate to the normalised string plus a space and are wrapped |
| IoText.FillLine | Dungeon_Crawler/io.cpp:66-73 | the inner loop takes at least one word and stops where LineEnd says, the line being those words each followed by a space |
| IoText.Split | Dungeon_Crawler/io.cpp:49-78 | split returns the lines of the normalised string, which concatenate to it plus a space and are wrapped to n |
| IoText.IsVowel | Dungeon_Crawler/io.cpp:796-800 | is_vowel holds exactly for a lower-case vowel once case is folded |
| IoText.TerrainGlyph | Dungeon_Crawler/io.cpp:397-426 | every terrain has a glyph from " .#*<>+0", and '0' only for a terrain the switch does not list |
| IoText.GlyphClasses | Dungeon_Crawler/io.cpp:397-426 | each glyph stands exactly for the terrains of its case |
| IoText.NoFogGlyph | Dungeon_Crawler/io.cpp:510-536 | every terrain has a glyph from " .#*<>+0" |
| IoText.GlyphTablesAgree | Dungeon_Crawler/io.cpp:510-536 | the no-fog switch agrees with the map's on every terrain but ter_unknown, which it draws as '0' |
| Messages.Truncate | Dungeon_Crawler/io.cpp:26 | a message keeps at most 70 characters, is a prefix of the text, and is the whole text when that fits |
| Messages.TruncateIdempotent | Dungeon_Crawler/io.cpp:26 | truncating twice is truncating once |
| Messages.MessageQueue.Enqueue | Dungeon_Crawler/io.cpp:92-116 | the truncated message is appended at the tail; every queued message still fits |
| Messages.MessageQueue.Drain | Dungeon_Crawler/io.cpp:118-136 | messages come out in the order queued, one prompt between consecutive ones, and the queue is left empty |
| Messages.MessageQueue.Clear | Dungeon_Crawler/io.cpp:80-90 | the queue is left empty |
| Teleport.CursorMove | Dungeon_Crawler/io.cpp:633-703 | from an interior cell the cursor stays interior, moving by the key's step clamped to the interior; other keys leave it |
| Teleport.CursorAfter | Dungeon_Crawler/io.cpp:584-704 | the cursor after a run of keys stays interior if it started there |
| Teleport.CursorAfterNear | Dungeon_Crawler/io.cpp:590-704 | the cursor moves at most one cell per key on each axis |
| Teleport.TeleportPc | Dungeon_Crawler/io.cpp:573-729 | keys are read up to the first 't' or 'r'; 't' takes the cursor cell, 'r' a free floor cell; an occupied destination moves nothing, otherwise the old cell is cleared, the destination holds the PC, the PC stands on it, and no other cell changes; the queued messages are shown, followed by the failure message when the destination was occupied, and the queue is left empty |
| NearestMonster.CompareDistance | Dungeon_Crawler/io.cpp:320-329 | negative, zero or positive exactly as the first monster is nearer, as near, or farther |
| NearestMonster.CompareDistanceAntisymmetric | Dungeon_Crawler/io.cpp:320-329 | swapping the arguments negates the result |
| NearestMonster.SortedMeansComparatorAgrees | Dungeon_Crawler/io.cpp:349 | sorted by distance iff the comparator finds no pair inverted |
| NearestMonster.SortByDistance | Dungeon_Crawler/io.cpp:349 | a permutation of the candidates sorted by distance exists, so qsort's result can be chosen |
| NearestMonster.FirstVisibleIsNearest | Dungeon_Crawler/io.cpp:351-356 | in a list sorted by distance, the first visible candidate is no farther than any visible one |
| NearestMonster.SelectionMeaning | Dungeon_Crawler/io.cpp:331-362 | the scan's result is null iff no monster is visible, and otherwise a visible monster at minimal distance |
| NearestMonster.NearestVisibleMonster | Dungeon_Crawler/io.cpp:331-362 | null iff no monster inside the border is visible; otherwise a visible non-PC character whose pc_distance is minimal among visible ones |
| Gold.CutLastAsWritten | Dungeon_Crawler/io.cpp:1667-1671 | one pass cuts the last ingot, and succeeds only on piles of two or more |
| Gold.TakeAwayAsWrittenMeaning | Dungeon_Crawler/io.cpp:1663-1674 | taking n ingots as written succeeds iff n == 0 or the pile holds more than n, and drops the last n |
| Gold.TakingAllGoldAsWrittenFails | Dungeon_Crawler/io.cpp:1663-1674 | taking every ingot of a pile as written always dereferences NULL |
| Gold.TakeAwayGoldAsWritten | Dungeon_Crawler/io.cpp:1663-1674 | only the gold slot changes, losing its last `value` ingots; the head is never removed |
| Gold.TakeAwayGold | Dungeon_Crawler/io.cpp:1663-1674 | only the gold slot changes, losing its last `value` ingots, the whole pile when it holds exactly that many |
| Gold.AddGold | Dungeon_Crawler/io.cpp:1781-1796 | a new unseen ingot of description 1 goes at the tail of the gold pile, or alone into the first open slot when there is no gold |
| Gold.BuyAllowedMeaning | Dungeon_Crawler/io.cpp:1679-1683 | with int-sized values, the three guards with their uint32_t casts allow a purchase iff 1 <= price <= gold count and a slot is open |
| Gold.PaidKeepsOpenSlot | Dungeon_Crawler/io.cpp:1683-1684 | paying keeps an open slot open, at or before the first one before paying |
| Gold.BuyItem | Dungeon_Crawler/io.cpp:1677-1696 | bought iff 1 <= value/100 <= gold count and a slot is open; then the price is paid and the item fills the first open slot; otherwise nothing changes |
| Gold.BuyingWithAllGoldCrashesAsWritten | Dungeon_Crawler/io.cpp:1677-1684 | one ingot and an item worth 100 pass every guard, and the as-written take-away then dereferences NULL |
| Input.Dispatch | Dungeon_Crawler/io.cpp:2016-2180 | movement keys call move_pc with their keypad digit, and only they, '<' and '>' call it; the rest keys are exactly '5', ' ', '.' and KEY_B2; an unbound command carries its key |
| Input.DispatchCases | Dungeon_Crawler/io.cpp:2058-2180 | '<' and '>' call move_pc with their own code; only 'Q' quits; only 'q' runs the message demonstration; a key is unbound exactly when the switch has no case for it |
| Input.KeysAndTurns | Dungeon_Crawler/io.cpp:2016-2180 | 'T', 'D', 'H', 's', 'g', 'm', 'f', 'i', 'e', 'I', 'c', 'L' and unbound keys give fail code 1; '5', ' ', '.', KEY_B2, 'Q', 'U', '+' and 'q' give 0; movement keys, '<', '>', 'w', 't', 'd' and 'x' give what their routine returns |
| Input.MoveKeysAgree | Dungeon_Crawler/io.cpp:2016-2056 | among plain characters, pc_next_pos's movement keys are exactly io_handle_input's, and step the same way |
| Input.OnlyOneDemoMessageCut | Dungeon_Crawler/io.cpp:2161-2162 | only the sixth demonstration text is too long, and it is cut to 70 characters |
| Input.EnqueueDemoMessages | Dungeon_Crawler/io.cpp:2148-2167 | the nine messages are appended to the queue in order |
| Input.QueueKeptWithoutDrawing | Dungeon_Crawler/io.cpp:2016-2180 | commands that neither draw the map nor run the demonstration leave the message queue as it was |
| Input.QueueForgetsAfterDrawing | Dungeon_Crawler/io.cpp:2016-2180 | once a command has drawn the map, the final queue no longer depends on the messages queued before the commands |
| Input.RunCommand | Dungeon_Crawler/io.cpp:2016-2180 | one pass of the switch: the fail code as the key's case sets it, quit set by 'Q' alone, the demonstration messages appended by 'q', and the queue emptied by a command that draws the map |
| Input.HandleInput | Dungeon_Crawler/io.cpp:1991-2182 | keys are dispatched in order until the first one whose fail code is 0; 'Q' then sets quit; the queue is what the commands leave: 'q' appends the demonstration messages and each command that draws the map empties it |

## Left out

- Drawing is not modelled: all ncurses output, colours, the `select` polling loops, the screens of `io_display*` and `io_redisplay_*`, the inventory, equipment and market menus, and the monster listing's text. They are terminal output.
- The floating-point hardness display is not modelled, because it is drawing with floating point.
- Code that is not part of this model becomes parameters or is left out: `can_see`, `move_pc`, `dijkstra`, `dijkstra_tunnel`, `pc_observe_terrain`, `delete_dungeon`, `gen_dungeon` and `gen_monsters`. Taking a staircase in `pc_next_pos` is recorded as a decision; the new level is not built.
- The PC's inventory queries (`get_gold_slot`, `get_gold_count`, `has_gold_in_inv`, `has_open_inventory_slot`, `get_first_open_inventory_slot`) are given reference definitions. The gold count is the number of ingots in the gold pile.
- Gold.GoldCount: being the pile's length is an assumption, because the method's body is not part of this model.
- Enum numbering and constants from headers that are not part of this model are assumptions:
  - the terrain and object-type enums follow their declaration order;
  - ter_marketplace and objtype_POTION come last;
  - DUNGEON_X is 80, DUNGEON_Y is 21, MAX_INVENTORY is 10, PC_SPEED is 10;
  - the ncurses key codes take their usual values.
- `pc.c`'s ter_staircase_up/down are taken to be `io.cpp`'s ter_stairs_up/down.
- Objects.IsNew: compares names as strings. The source compares `d.get_name()` with `obj_list[i]->get_name()` using `==`. object::get_name returns `name.c_str()`, a pointer into the object's own copy of the name (object.cpp:141-144). If object_description::get_name also returns a `const char *`, the test compares pointers, never holds, and is_new is always true. If it returns a `std::string`, `==` compares contents and the model is exact. The header that declares it is not part of this model.
- Objects.NewObject: the constructor's call `od.generate()` (object.cpp:29) and the destructor's `od.destroy()` are not modelled, because object_description is not part of this model. So the model does not capture whatever those calls record for `can_be_generated`, and a gen_objects run may pick a description more often than the source allows. The damage dice are not kept either, because no modelled code rolls them.
- ObjectMap.GenObject: the rarity roll (`pass_rarity_roll`) is a random test and is not modelled. Any generable non-potion description may be chosen.
- Pc.PcNextPos: keys are characters, as `char ch = getch()` stores them (pc.c:58-60). That assignment keeps only the low byte of an ncurses key code of 256 or more, so a function key can read as a letter (0x179 reads as 'y'). The model does not capture this truncation.
- Dice rolls of the object constructor are a `Stats` parameter.
- Messages.MessageQueue.Enqueue: a failed `malloc` in io_queue_message prints an error and exits the program (io.cpp:97-100). The model's allocation always succeeds.
- Messages.Truncate: `vsnprintf` formatting is not modelled; the formatted text is the argument, and only the 70-character bound is kept.
- Split's words must be at most n - 2 characters long. With a longer word the source's outer loop pushes empty lines forever, and the model does not describe that divergence.
- The rejection loops (`gen_random_*`, `gen_object`, the random teleport) require that a value ending them exists. Otherwise the source loops forever, and the model does not describe that divergence.
- Input.HandleInput: records the display, teleport, potion, market, inventory and inspection commands but not their effects other than on the message queue, because they are drawing or code outside this model. The `fog_off` flag set by 'f' is not modelled. The fail codes of `move_pc`, `io_wear_eq`, `io_remove_eq`, `io_drop_in` and `io_expunge_in` are given as inputs. So is whether each of those routines drew the map, since only some of their branches call io_display and so empty the queue.
- NearestMonster.NearestVisibleMonster: the `assert(count <= d->num_monsters)` (io.cpp:343) is not modelled; the list holds every non-PC character found, however many there are.
- NearestMonster.NearestVisibleMonster: distance differences are assumed to fit an int. Each character is assumed to stand where its position says. qsort's order among equal distances is a choice.
- Market item selection in `io_print_market_items` is not modelled: it reads an uninitialised variable and can index past its vector. `io_sell_item` is not modelled either: it matches items by comparing name pointers, and it can read `o` after `destroy_in` has freed it.
- Memory management is not modelled: `free`, `delete`, the recursive destructor, and the nodes `gen_object` and `io_take_away_gold` leak. Piles are sequences.
- Dead code is not modelled: the commented-out legacy AI in `pc.c` and the `#if o` adjectives block.
- `io_display_no_fog`'s glyph switch has no case for ter_unknown, so such a cell is drawn as '0' there, where the other switch draws a blank. The model follows the code (IoText.NoFogGlyph).

## Findings

| source | as written | input that shows it | evidently intended | confidence | as-written member | corrected member |
|---|---|---|---|---|---|---|
| Dungeon_Crawler/io.cpp:1663-1684 | `io_buy_item` lets a purchase through when the gold count equals the price. `io_take_away_gold` then walks to the second-last ingot through `get_next()->get_next()`, which dereferences NULL once the pile is down to one ingot. | one gold ingot and an item of value 100 | the last ingot is removed by emptying the slot | medium, not executed (assumes get_gold_count is the pile length) | Gold.BuyingWithAllGoldCrashesAsWritten | Gold.TakeAwayGold |
