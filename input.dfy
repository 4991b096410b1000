/*
 * io_handle_input (Dungeon_Crawler/io.cpp): read keys and run the command
 * each one stands for until a command uses up the PC's turn (its fail
 * code is 0).  The commands that draw screens, and the inventory,
 * equipment and movement routines, are code outside this model: a
 * command is recorded, and the fail code of move_pc, io_wear_eq,
 * io_remove_eq, io_drop_in and io_expunge_in is given with the key.
 */
module Input {
  import opened DungeonState
  import opened Keys
  import opened Messages
  import Pc

  /** What a key of io_handle_input's switch does. */
  datatype Command =
    | MovePc(dir: int)     // move_pc(d, dir): a keypad digit, or '<' / '>'
    | Rest                 // stay in place
    | Quit                 // d->quit = 1
    | UsePotion            // io_use_potion
    | Marketplace          // io_display_marketplace
    | ShowTunnel           // io_display_tunnel
    | ShowDistance         // io_display_distance
    | ShowHardness         // io_display_hardness
    | ShowMap              // io_display
    | Teleport             // io_teleport_pc
    | ListMonsters         // io_list_monsters
    | ShowNoFog            // io_display_no_fog
    | Wear                 // io_wear_eq
    | TakeOff              // io_remove_eq
    | Drop                 // io_drop_in
    | Expunge              // io_expunge_in
    | ShowInventory        // io_display_in
    | ShowEquipment        // io_display_eq
    | ShowCharacter        // io_display_ch
    | InspectItem          // io_inspect_in
    | InspectMonster       // io_inspect_monster
    | DemoMessages         // the message queue demonstration
    | Unbound(key: int)    // "Unbound key"

  /** The keys that rest: '5', ' ', '.' and the keypad's centre. */
  const RestKeys: set<int> := {Code('5'), Code(' '), Code('.'), KeyB2}

  /** The keys whose command never uses up the turn: the screens, teleporting and listing. */
  const KeepTurnKeys: set<int> := {
    Code('T'), Code('D'), Code('H'), Code('s'), Code('g'), Code('m'),
    Code('f'), Code('i'), Code('e'), Code('I'), Code('c'), Code('L')}

  /** The other keys whose command always uses up the turn. */
  const EndTurnKeys: set<int> := {Code('Q'), Code('U'), Code('+'), Code('q')}

  /** The keys besides the movement keys whose routine decides the fail code. */
  const RoutineKeys: set<int> := {Code('<'), Code('>'), Code('w'), Code('t'), Code('d'), Code('x')}

  /** The keys the switch has a case for. */
  predicate Bound(key: int) {
    MoveDirection(key) != 0 || key in RestKeys || key in KeepTurnKeys || key in EndTurnKeys || key in RoutineKeys
  }

  /**
   * The switch of io_handle_input.  Its movement keys are the ones the
   * teleport cursor uses, each moving the PC the way it moves the cursor;
   * the rest keys are '5', ' ', '.' and the keypad's centre.
   */
  function Dispatch(key: int): (c: Command)
    ensures MoveDirection(key) != 0 ==> c == MovePc(MoveDirection(key))
    ensures c.MovePc? ==> MoveDirection(key) != 0 || key == Code('>') || key == Code('<')
    ensures c == Rest <==> key in RestKeys
    ensures c.Unbound? ==> c.key == key
  {
    if key == Code('7') || key == Code('y') || key == KeyHome then MovePc(7)
    else if key == Code('8') || key == Code('k') || key == KeyUp then MovePc(8)
    else if key == Code('9') || key == Code('u') || key == KeyPPage then MovePc(9)
    else if key == Code('6') || key == Code('l') || key == KeyRight then MovePc(6)
    else if key == Code('3') || key == Code('n') || key == KeyNPage then MovePc(3)
    else if key == Code('2') || key == Code('j') || key == KeyDown then MovePc(2)
    else if key == Code('1') || key == Code('b') || key == KeyEnd then MovePc(1)
    else if key == Code('4') || key == Code('h') || key == KeyLeft then MovePc(4)
    else if key == Code('5') || key == Code(' ') || key == Code('.') || key == KeyB2 then Rest
    else if key == Code('>') then MovePc(Code('>'))
    else if key == Code('<') then MovePc(Code('<'))
    else if key == Code('Q') then Quit
    else if key == Code('U') then UsePotion
    else if key == Code('+') then Marketplace
    else if key == Code('T') then ShowTunnel
    else if key == Code('D') then ShowDistance
    else if key == Code('H') then ShowHardness
    else if key == Code('s') then ShowMap
    else if key == Code('g') then Teleport
    else if key == Code('m') then ListMonsters
    else if key == Code('f') then ShowNoFog
    else if key == Code('w') then Wear
    else if key == Code('t') then TakeOff
    else if key == Code('d') then Drop
    else if key == Code('x') then Expunge
    else if key == Code('i') then ShowInventory
    else if key == Code('e') then ShowEquipment
    else if key == Code('c') then ShowCharacter
    else if key == Code('I') then InspectItem
    else if key == Code('L') then InspectMonster
    else if key == Code('q') then DemoMessages
    else Unbound(key)
  }

  /**
   * The rest of the switch's table: '<' and '>' move the PC by their own
   * code, only 'Q' quits, only 'q' queues the demonstration, and a key is
   * unbound exactly when the switch has no case for it.
   */
  lemma DispatchCases(key: int)
    ensures key == Code('>') || key == Code('<') ==> Dispatch(key) == MovePc(key)
    ensures Dispatch(key) == Quit <==> key == Code('Q')
    ensures Dispatch(key) == DemoMessages <==> key == Code('q')
    ensures Dispatch(key).Unbound? <==> !Bound(key)
  {
  }

  /** The commands whose fail code comes from a routine outside this model. */
  predicate ExternalResult(c: Command) {
    c.MovePc? || c == Wear || c == TakeOff || c == Drop || c == Expunge
  }

  /** The commands that use up the turn whatever happens. */
  predicate EndsTurn(c: Command) {
    c == Rest || c == Quit || c == UsePotion || c == Marketplace || c == DemoMessages
  }

  /** The fail code a command leaves; `external` is the one its routine returns. */
  function FailCode(c: Command, external: int): int {
    if ExternalResult(c) then external
    else if EndsTurn(c) then 0
    else 1
  }

  /**
   * Key by key, what io_handle_input's loop does with the fail code:
   * screens, teleporting, listing and unbound keys keep the turn, rest,
   * quit, potions, the market and the message demonstration use it up,
   * and moving, wearing, taking off, dropping and expunging leave what
   * their routine returns.
   */
  lemma KeysAndTurns(key: int, external: int)
    ensures key in KeepTurnKeys ==> FailCode(Dispatch(key), external) == 1
    ensures key in RestKeys || key in EndTurnKeys ==> FailCode(Dispatch(key), external) == 0
    ensures MoveDirection(key) != 0 || key in RoutineKeys ==> FailCode(Dispatch(key), external) == external
    ensures !Bound(key) ==> FailCode(Dispatch(key), external) == 1
  {
  }

  /**
   * The keys pc_next_pos reads as movement keys are, among plain
   * characters, exactly those of io_handle_input, and each steps the same
   * way in both.
   */
  lemma MoveKeysAgree(ch: char)
    requires ch as int < 256
    ensures Pc.KeyVector(ch).Some? <==> MoveDirection(Code(ch)) != 0
    ensures Pc.KeyVector(ch).Some? ==> Pc.KeyVector(ch).value == DirectionVector(MoveDirection(Code(ch)))
  {
  }

  /** The messages the 'q' command queues, formatted. */
  const DemoTexts: seq<string> := [
    "This is the first message.",
    "Since there are multiple messages, you will see \"more\" prompts.",
    "You can use any key to advance through messages.",
    "Normal gameplay will not resume until the queue is empty.",
    "Long lines will be truncated, not wrapped.",
    "io_queue_message() is variadic and handles all printf() conversion specifiers.",
    "Did you see what I did there?",
    "When the last message is displayed, there will be no \"more\" prompt.",
    "Have fun!  And happy printing!"]

  /** The queue entries those messages become. */
  function DemoQueue(): seq<string> {
    [Truncate(DemoTexts[0]), Truncate(DemoTexts[1]), Truncate(DemoTexts[2]),
     Truncate(DemoTexts[3]), Truncate(DemoTexts[4]), Truncate(DemoTexts[5]),
     Truncate(DemoTexts[6]), Truncate(DemoTexts[7]), Truncate(DemoTexts[8])]
  }

  /** Of the demonstration messages only the sixth is too long for its buffer, and it is cut. */
  lemma OnlyOneDemoMessageCut()
    ensures forall k :: 0 <= k < |DemoTexts| && k != 5 ==> DemoQueue()[k] == DemoTexts[k]
    ensures DemoQueue()[5] != DemoTexts[5] && |DemoQueue()[5]| == MessageLength
  {
    forall k | 0 <= k < |DemoTexts| && k != 5
      ensures DemoQueue()[k] == DemoTexts[k]
    {
      assert |DemoTexts[k]| <= MessageLength;
    }
    assert |DemoTexts[5]| > MessageLength;
  }

  /** The command ends io_handle_input's loop: its fail code is 0. */
  predicate EndsLoop(c: Command, external: int) {
    FailCode(c, external) == 0
  }

  /** The key at k ends the loop. */
  predicate TurnUsedAt(keys: seq<int>, results: seq<int>, k: int)
    requires |results| == |keys|
  {
    0 <= k < |keys| && EndsLoop(Dispatch(keys[k]), results[k])
  }

  /**
   * The commands whose routine always draws the map with io_display or
   * io_display_no_fog, which shows and empties the message queue.
   */
  predicate Redraws(c: Command) {
    c == ShowMap || c == ShowNoFog || c == Teleport || c == ListMonsters || c == ShowInventory ||
    c == ShowEquipment || c == ShowCharacter || c == InspectItem || c == InspectMonster
  }

  /**
   * Whether running c leaves the queue empty: always for the commands that
   * redraw, and for a routine outside this model when `shows` says it drew
   * the map.
   */
  predicate Empties(c: Command, shows: bool) {
    Redraws(c) || (ExternalResult(c) && shows)
  }

  /**
   * The message queue after one command: 'q' appends the demonstration
   * messages, a command that draws the map empties it, and every other
   * command leaves it.
   */
  function QueueStep(msgs: seq<string>, c: Command, shows: bool): seq<string> {
    if c == DemoMessages then msgs + DemoQueue()
    else if Empties(c, shows) then []
    else msgs
  }

  /** The message queue after the commands, from `msgs`; `shows[k]` tells whether the k-th command drew the map. */
  function QueueAfter(msgs: seq<string>, cmds: seq<Command>, shows: seq<bool>): seq<string>
    requires |cmds| <= |shows|
  {
    if cmds == [] then msgs
    else
      var n := |cmds| - 1;
      QueueStep(QueueAfter(msgs, cmds[..n], shows), cmds[n], shows[n])
  }

  /** The queue after one more command is that command's step from the queue before it. */
  lemma QueueAfterNext(msgs: seq<string>, cmds: seq<Command>, c: Command, shows: seq<bool>)
    requires |cmds| < |shows|
    ensures QueueAfter(msgs, cmds + [c], shows) == QueueStep(QueueAfter(msgs, cmds, shows), c, shows[|cmds|])
  {
    assert (cmds + [c])[..|cmds|] == cmds;
  }

  /** Without 'q' or a command that draws the map, the queue is left as it was. */
  lemma {:induction false} QueueKeptWithoutDrawing(msgs: seq<string>, cmds: seq<Command>, shows: seq<bool>)
    requires |cmds| <= |shows|
    requires forall k :: 0 <= k < |cmds| ==> cmds[k] != DemoMessages && !Empties(cmds[k], shows[k])
    ensures QueueAfter(msgs, cmds, shows) == msgs
  {
    if cmds != [] {
      QueueKeptWithoutDrawing(msgs, cmds[..|cmds| - 1], shows);
    }
  }

  /**
   * Once a command has drawn the map, the messages queued before the
   * commands are gone: the queue is what the later commands put in it.
   */
  lemma {:induction false} QueueForgetsAfterDrawing(m1: seq<string>, m2: seq<string>, cmds: seq<Command>, shows: seq<bool>, k: int)
    requires |cmds| <= |shows| && 0 <= k < |cmds| && Empties(cmds[k], shows[k]) && cmds[k] != DemoMessages
    ensures QueueAfter(m1, cmds, shows) == QueueAfter(m2, cmds, shows)
  {
    var n := |cmds| - 1;
    if k < n {
      QueueForgetsAfterDrawing(m1, m2, cmds[..n], shows, k);
    }
  }

  /**
   * io_handle_input: keys are read and dispatched until one leaves fail
   * code 0.  `results[k]` is what the routine of the k-th key returns when
   * the key calls one, and `shows[k]` whether it drew the map.  The
   * commands run are returned in order; 'Q' sets the quit flag, 'q' queues
   * the demonstration messages, and each command that draws the map shows
   * and empties the queue.
   */
  method HandleInput(d: Dungeon, q: MessageQueue, keys: seq<int>, results: seq<int>, shows: seq<bool>)
    returns (cmds: seq<Command>)
    requires q.Valid() && |results| == |keys| && |shows| == |keys|
    requires exists k :: TurnUsedAt(keys, results, k)
    modifies d`quit, q
    ensures 1 <= |cmds| <= |keys|
    ensures forall k :: 0 <= k < |cmds| ==> cmds[k] == Dispatch(keys[k])
    ensures EndsLoop(cmds[|cmds| - 1], results[|cmds| - 1])
    ensures forall k :: 0 <= k < |cmds| - 1 ==> !EndsLoop(cmds[k], results[k])
    ensures d.quit == (old(d.quit) || cmds[|cmds| - 1] == Quit)
    ensures q.msgs == QueueAfter(old(q.msgs), cmds, shows)
    ensures q.Valid()
  {
    cmds := [];
    ghost var m0 := q.msgs;
    ghost var last :| TurnUsedAt(keys, results, last);
    while true
      invariant |cmds| <= last
      invariant forall k :: 0 <= k < |cmds| ==> cmds[k] == Dispatch(keys[k]) && !EndsLoop(cmds[k], results[k])
      invariant d.quit == old(d.quit)
      invariant q.msgs == QueueAfter(m0, cmds, shows) && q.Valid()
      decreases last - |cmds|
    {
      var i := |cmds|;
      var c := Dispatch(keys[i]);
      QueueAfterNext(m0, cmds, c, shows);
      var failCode := RunCommand(d, q, c, results[i], shows[i]);
      cmds := cmds + [c];
      if failCode == 0 {
        return;
      }
    }
  }

  /**
   * One pass of io_handle_input's loop body for the command c, whose
   * routine (when it calls one outside this model) returns `external` and
   * draws the map when `shows` holds.
   */
  method RunCommand(d: Dungeon, q: MessageQueue, c: Command, external: int, shows: bool) returns (failCode: int)
    requires q.Valid()
    modifies d`quit, q
    ensures failCode == FailCode(c, external)
    ensures d.quit == (old(d.quit) || c == Quit)
    ensures q.msgs == QueueStep(old(q.msgs), c, shows) && q.Valid()
  {
    if ExternalResult(c) {
      failCode := external;
    } else if c == Quit {
      d.quit := true;
      failCode := 0;
    } else if c == DemoMessages {
      EnqueueDemoMessages(q);
      failCode := 0;
    } else if EndsTurn(c) {
      failCode := 0;
    } else {
      failCode := 1;
    }
    if Empties(c, shows) {
      var _, _ := q.Drain();
    }
  }

  /** The 'q' command's nine io_queue_message calls. */
  method EnqueueDemoMessages(q: MessageQueue)
    requires q.Valid()
    modifies q
    ensures q.msgs == old(q.msgs) + DemoQueue() && q.Valid()
  {
    q.Enqueue(DemoTexts[0]);
    q.Enqueue(DemoTexts[1]);
    q.Enqueue(DemoTexts[2]);
    q.Enqueue(DemoTexts[3]);
    q.Enqueue(DemoTexts[4]);
    q.Enqueue(DemoTexts[5]);
    q.Enqueue(DemoTexts[6]);
    q.Enqueue(DemoTexts[7]);
    q.Enqueue(DemoTexts[8]);
  }
}
