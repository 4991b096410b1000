/*
 * Gold and buying in the marketplace (Dungeon_Crawler/io.cpp): io_add_gold,
 * io_take_away_gold and io_buy_item.  Gold is a pile of ingots in one
 * inventory slot, linked through `next`; a pile is a sequence, head first.
 * The inventory queries these functions call (get_gold_slot,
 * get_gold_count, has_gold_in_inv, has_open_inventory_slot,
 * get_first_open_inventory_slot) live in code that is not part of this
 * model; they are given reference definitions here.
 */
module Gold {
  import opened Wrappers
  import opened Grid
  import opened Objects
  import opened DungeonState

  /** A pile headed by gold. */
  predicate IsGoldPile(p: Pile) {
    p != [] && p[0].otype == Gold
  }

  predicate IsOpen(p: Pile) {
    p == []
  }

  /** The first slot at or after `from` whose pile satisfies `test`, or |inv| when none does. */
  function FirstSlot(inv: seq<Pile>, test: Pile -> bool, from: nat): (i: nat)
    requires from <= |inv|
    decreases |inv| - from
    ensures from <= i <= |inv|
    ensures i < |inv| ==> test(inv[i])
    ensures forall k :: from <= k < i ==> !test(inv[k])
  {
    if from == |inv| || test(inv[from]) then from else FirstSlot(inv, test, from + 1)
  }

  /** get_gold_slot: the first slot holding gold. */
  function GoldSlot(inv: seq<Pile>): nat {
    FirstSlot(inv, IsGoldPile, 0)
  }

  /** has_gold_in_inv */
  predicate HasGold(inv: seq<Pile>) {
    GoldSlot(inv) < |inv|
  }

  /** get_gold_count: the number of ingots in the gold pile, 0 without one. */
  function GoldCount(inv: seq<Pile>): nat {
    if HasGold(inv) then |inv[GoldSlot(inv)]| else 0
  }

  /** get_first_open_inventory_slot */
  function FirstOpenSlot(inv: seq<Pile>): nat {
    FirstSlot(inv, IsOpen, 0)
  }

  /** has_open_inventory_slot */
  predicate HasOpenSlot(inv: seq<Pile>) {
    FirstOpenSlot(inv) < |inv|
  }

  /** The slot queries find what their names say, and nothing before it. */
  lemma SlotQueries(inv: seq<Pile>)
    ensures HasGold(inv) <==> exists k :: 0 <= k < |inv| && IsGoldPile(inv[k])
    ensures HasGold(inv) ==> IsGoldPile(inv[GoldSlot(inv)]) && GoldCount(inv) >= 1
    ensures HasOpenSlot(inv) <==> exists k :: 0 <= k < |inv| && inv[k] == []
    ensures HasOpenSlot(inv) ==>
      inv[FirstOpenSlot(inv)] == [] && forall k :: 0 <= k < FirstOpenSlot(inv) ==> inv[k] != []
  {
    if exists k :: 0 <= k < |inv| && IsGoldPile(inv[k]) {
      var k :| 0 <= k < |inv| && IsGoldPile(inv[k]);
      assert GoldSlot(inv) <= k;
    }
    if exists k :: 0 <= k < |inv| && inv[k] == [] {
      var k :| 0 <= k < |inv| && inv[k] == [];
      assert IsOpen(inv[k]);
    }
  }

  /** A pile differs from another only by dropping ingots from its tail. */
  lemma GoldSlotKept(inv: seq<Pile>, g: nat, p: Pile)
    requires HasGold(inv) && g == GoldSlot(inv) && IsGoldPile(p) && p[0] == inv[g][0]
    ensures GoldSlot(inv[g := p]) == g
  {
    var inv' := inv[g := p];
    assert forall k :: 0 <= k < g ==> inv'[k] == inv[k];
    assert IsGoldPile(inv'[g]);
  }

  /* ---- io_take_away_gold as written ---- */

  /**
   * One pass of io_take_away_gold's loop body: walk to the ingot before
   * the last and cut the last one off.  The walk reads the second ingot's
   * `next`, so a pile of one ingot dereferences NULL: None.
   */
  function CutLastAsWritten(pile: Pile): (r: Option<Pile>)
    ensures r.Some? <==> |pile| >= 2
    ensures r.Some? ==> r.value == pile[..|pile| - 1]
  {
    if |pile| >= 2 then Some(pile[..|pile| - 1]) else None
  }

  /** `n` passes of the loop body on the gold pile; None once one of them dereferences NULL. */
  function TakeAwayAsWritten(pile: Pile, n: int): Option<Pile>
    decreases n
  {
    if n <= 0 then Some(pile)
    else match CutLastAsWritten(pile)
      case None => None
      case Some(p) => TakeAwayAsWritten(p, n - 1)
  }

  /**
   * Taking n ingots away as written succeeds exactly when the pile holds
   * more than n of them, and then drops the last n.
   */
  lemma {:induction false} TakeAwayAsWrittenMeaning(pile: Pile, n: int)
    requires n >= 0
    ensures TakeAwayAsWritten(pile, n).Some? <==> n == 0 || |pile| > n
    ensures TakeAwayAsWritten(pile, n).Some? ==> TakeAwayAsWritten(pile, n).value == pile[..|pile| - n]
    decreases n
  {
    if n > 0 && |pile| >= 2 {
      var p := pile[..|pile| - 1];
      TakeAwayAsWrittenMeaning(p, n - 1);
      if TakeAwayAsWritten(p, n - 1).Some? {
        assert p[..|p| - (n - 1)] == pile[..|pile| - n];
      }
    }
  }

  /** Taking away every ingot of a gold pile, as written, always dereferences NULL. */
  lemma TakingAllGoldAsWrittenFails(pile: Pile)
    requires pile != []
    ensures TakeAwayAsWritten(pile, |pile|) == None
  {
    TakeAwayAsWrittenMeaning(pile, |pile|);
  }

  /**
   * io_take_away_gold as written: `value` times, find the gold slot, walk
   * its pile to the ingot before the last and cut the tail.  The head is
   * never removed.  The code demands that the pile hold more than `value`
   * ingots, or the walk dereferences NULL.
   */
  method TakeAwayGoldAsWritten(d: Dungeon, value: int)
    requires d.Valid()
    requires value > 0 ==>
      HasGold(d.pc.inv[..]) && TakeAwayAsWritten(d.pc.inv[GoldSlot(d.pc.inv[..])], value).Some?
    modifies d.pc.inv
    ensures value > 0 ==>
      var g := GoldSlot(old(d.pc.inv[..]));
      d.pc.inv[..] == old(d.pc.inv[..])[g := TakeAwayAsWritten(old(d.pc.inv[g]), value).value]
    ensures value <= 0 ==> d.pc.inv[..] == old(d.pc.inv[..])
  {
    if value <= 0 {
      return;
    }
    ghost var inv0 := d.pc.inv[..];
    ghost var g := GoldSlot(inv0);
    ghost var pile0 := inv0[g];
    TakeAwayAsWrittenMeaning(pile0, value);
    assert pile0[..|pile0|] == pile0;
    assert inv0[g := pile0[..|pile0|]] == inv0;
    var i := value;
    while i > 0
      invariant 0 <= i <= value
      invariant |pile0| - (value - i) >= i + 1
      invariant d.pc.inv[..] == inv0[g := pile0[..|pile0| - (value - i)]]
    {
      var inv := d.pc.inv[..];
      assert pile0[..|pile0| - (value - i)][0] == pile0[0];
      GoldSlotKept(inv0, g, pile0[..|pile0| - (value - i)]);
      var slot := GoldSlot(inv);
      var pile := d.pc.inv[slot];
      var k := 0;
      while k + 2 < |pile|
        invariant 0 <= k && k + 2 <= |pile|
      {
        k := k + 1;
      }
      assert pile[..k + 1] == pile0[..|pile0| - (value - i) - 1];
      d.pc.inv[slot] := pile[..k + 1];
      assert d.pc.inv[..] == inv[g := pile[..k + 1]];
      i := i - 1;
    }
  }

  /* ---- io_take_away_gold as intended ---- */

  /**
   * io_take_away_gold with the last ingot handled: when the pile is down
   * to one ingot, the slot itself is emptied.  The pile must hold at least
   * `value` ingots; the last `value` are removed, the whole pile when it
   * holds exactly that many.
   */
  method TakeAwayGold(d: Dungeon, value: int)
    requires d.Valid()
    requires value > 0 ==> HasGold(d.pc.inv[..]) && value <= GoldCount(d.pc.inv[..])
    modifies d.pc.inv
    ensures value > 0 ==>
      var g := GoldSlot(old(d.pc.inv[..]));
      d.pc.inv[..] == old(d.pc.inv[..])[g := old(d.pc.inv[g])[..|old(d.pc.inv[g])| - value]]
    ensures value <= 0 ==> d.pc.inv[..] == old(d.pc.inv[..])
  {
    if value <= 0 {
      return;
    }
    ghost var inv0 := d.pc.inv[..];
    ghost var g := GoldSlot(inv0);
    ghost var pile0 := inv0[g];
    assert pile0[..|pile0|] == pile0;
    assert inv0[g := pile0[..|pile0|]] == inv0;
    var i := value;
    while i > 0
      invariant 0 <= i <= value
      invariant |pile0| - (value - i) >= i
      invariant d.pc.inv[..] == inv0[g := pile0[..|pile0| - (value - i)]]
    {
      var inv := d.pc.inv[..];
      assert pile0[..|pile0| - (value - i)][0] == pile0[0];
      GoldSlotKept(inv0, g, pile0[..|pile0| - (value - i)]);
      var slot := GoldSlot(inv);
      var pile := d.pc.inv[slot];
      if |pile| == 1 {
        assert pile0[..|pile0| - (value - i) - 1] == [];
        d.pc.inv[slot] := [];
        assert d.pc.inv[..] == inv[g := []];
      } else {
        var k := 0;
        while k + 2 < |pile|
          invariant 0 <= k && k + 2 <= |pile|
        {
          k := k + 1;
        }
        assert pile[..k + 1] == pile0[..|pile0| - (value - i) - 1];
        d.pc.inv[slot] := pile[..k + 1];
        assert d.pc.inv[..] == inv[g := pile[..k + 1]];
      }
      i := i - 1;
    }
  }

  /**
   * io_add_gold: a new ingot made from description 1 (with an unset
   * position) goes at the tail of the gold pile, or, when the PC has no
   * gold, alone into the first open slot.
   */
  method AddGold(d: Dungeon, rolled: Stats)
    requires d.Valid() && |d.objectDescriptions| > 1
    requires !HasGold(d.pc.inv[..]) ==> HasOpenSlot(d.pc.inv[..])
    modifies d.pc.inv
    ensures exists ingot: Object ::
      FromDescription(ingot, d.objectDescriptions[1]) && !ingot.seen && ingot.stats == rolled &&
      var inv := old(d.pc.inv[..]);
      if HasGold(inv) then
        d.pc.inv[..] == inv[GoldSlot(inv) := inv[GoldSlot(inv)] + [ingot]]
      else
        d.pc.inv[..] == inv[FirstOpenSlot(inv) := [ingot]]
  {
    var v := d.objectDescriptions;
    var p: Pair := *;
    var ingot := NewObject(v[1], p, rolled, [])[0];
    var inv := d.pc.inv[..];
    if HasGold(inv) {
      var slot := GoldSlot(inv);
      var pile := d.pc.inv[slot];
      var k := 0;
      while k + 1 < |pile|
        invariant 0 <= k < |pile|
      {
        k := k + 1;
      }
      assert pile[..k + 1] == pile;
      d.pc.inv[slot] := pile[..k + 1] + [ingot];
    } else {
      d.pc.inv[FirstOpenSlot(inv)] := [ingot];
    }
  }

  /* ---- io_buy_item ---- */

  /** The low 32 bits, read as an unsigned number: a cast to uint32_t. */
  function U32(x: int): int {
    x % 0x1_0000_0000
  }

  /** C's integer division, truncating toward zero. */
  function CDiv(a: int, b: int): int
    requires b > 0
  {
    if a >= 0 then a / b else -((-a) / b)
  }

  /** The value of an item in ingots: its value over 100, rounded toward zero. */
  function Price(o: Object): int {
    CDiv(o.stats.value, 100)
  }

  /**
   * The three refusals of io_buy_item, in order: too little gold (compared
   * as uint32_t), no open slot, a price of zero ingots.
   */
  predicate BuyAllowed(inv: seq<Pile>, o: Object) {
    U32(GoldCount(inv)) >= U32(Price(o)) && HasOpenSlot(inv) && Price(o) != 0
  }

  /**
   * With a gold count and a value that fit an int, the casts change
   * nothing that matters: an item is bought exactly when it costs at least
   * one ingot and no more ingots than the PC has, and a slot is open.
   */
  lemma BuyAllowedMeaning(inv: seq<Pile>, o: Object)
    requires GoldCount(inv) < 0x8000_0000
    requires -0x8000_0000 <= o.stats.value < 0x8000_0000
    ensures BuyAllowed(inv, o) <==> 1 <= Price(o) <= GoldCount(inv) && HasOpenSlot(inv)
  {
    var v := o.stats.value;
    if v < 0 {
      assert -0x8000_0000 / 100 <= Price(o) <= 0;
      if Price(o) < 0 {
        assert U32(Price(o)) == Price(o) + 0x1_0000_0000;
      }
    } else {
      assert 0 <= Price(o) < 0x8000_0000;
    }
  }

  /** The inventory after paying `price` ingots, as TakeAwayGold leaves it. */
  function Paid(inv: seq<Pile>, price: nat): seq<Pile>
    requires HasGold(inv) && price <= GoldCount(inv)
  {
    var g := GoldSlot(inv);
    inv[g := inv[g][..|inv[g]| - price]]
  }

  /** Paying keeps every open slot open, so a slot is still free for the item. */
  lemma PaidKeepsOpenSlot(inv: seq<Pile>, price: nat)
    requires HasGold(inv) && price <= GoldCount(inv) && HasOpenSlot(inv)
    ensures HasOpenSlot(Paid(inv, price)) && FirstOpenSlot(Paid(inv, price)) <= FirstOpenSlot(inv)
  {
    SlotQueries(inv);
    var paid := Paid(inv, price);
    var k := FirstOpenSlot(inv);
    assert paid[k] == [] by {
      SlotQueries(inv);
    }
    SlotQueries(paid);
    assert FirstSlot(paid, IsOpen, 0) <= k by {
      assert IsOpen(paid[k]);
    }
  }

  /**
   * io_buy_item, with the gold taken away by TakeAwayGold.  When the
   * purchase is allowed, the price is paid and the item goes alone into
   * the first slot open after paying; otherwise nothing changes.
   */
  method BuyItem(d: Dungeon, o: Object) returns (bought: bool)
    requires d.Valid()
    requires GoldCount(d.pc.inv[..]) < 0x8000_0000
    requires -0x8000_0000 <= o.stats.value < 0x8000_0000
    modifies d.pc.inv
    ensures bought <==> 1 <= Price(o) <= GoldCount(old(d.pc.inv[..])) && HasOpenSlot(old(d.pc.inv[..]))
    ensures !bought ==> d.pc.inv[..] == old(d.pc.inv[..])
    ensures bought ==>
      HasGold(old(d.pc.inv[..])) &&
      var paid := Paid(old(d.pc.inv[..]), Price(o));
      HasOpenSlot(paid) && d.pc.inv[..] == paid[FirstOpenSlot(paid) := [o]]
  {
    var inv := d.pc.inv[..];
    BuyAllowedMeaning(inv, o);
    if U32(GoldCount(inv)) < U32(Price(o)) {
      return false;
    }
    if !HasOpenSlot(inv) {
      return false;
    }
    var value := Price(o);
    if value == 0 {
      return false;
    }
    TakeAwayGold(d, value);
    PaidKeepsOpenSlot(inv, value);
    var slot := FirstOpenSlot(d.pc.inv[..]);
    d.pc.inv[slot] := [o];
    return true;
  }

  /* ---- the discrepancy ---- */

  /**
   * The buy guard lets through a purchase that spends every ingot: one
   * ingot and an item worth 100.  io_take_away_gold as written would then
   * dereference NULL.
   */
  lemma BuyingWithAllGoldCrashesAsWritten(ingot: Object, item: Object)
    requires ingot.otype == Gold && item.stats.value == 100
    ensures var inv := [[ingot], [], [], [], [], [], [], [], [], []];
      |inv| == MaxInventory && BuyAllowed(inv, item) &&
      GoldCount(inv) == Price(item) == 1 &&
      TakeAwayAsWritten(inv[GoldSlot(inv)], Price(item)) == None
  {
    var inv := [[ingot], [], [], [], [], [], [], [], [], []];
    assert GoldSlot(inv) == 0;
    assert FirstOpenSlot(inv) == 1 by {
      assert !IsOpen(inv[0]) && IsOpen(inv[1]);
    }
    TakingAllGoldAsWrittenFails([ingot]);
  }
}
