/*
 * Objects and object descriptions (Dungeon_Crawler/object.cpp): the value
 * part.  An object's `next` pointer is modelled by the pile it lies in: a
 * pile is a sequence of objects with the newest on top (index 0), and an
 * object has a `next` exactly when it is not the last of its pile.
 */
module Objects {
  import opened Grid

  /* Object type numbers (object_type_t).  The enumeration is not part of
     this model; the numbering is the one the code relies on, with WEAPON
     at 1 so that `type - 1` is an equipment slot. */
  const NoType: int := 0
  const Weapon: int := 1
  const Offhand: int := 2
  const Ranged: int := 3
  const Light: int := 4
  const Armor: int := 5
  const Helmet: int := 6
  const Cloak: int := 7
  const Gloves: int := 8
  const Boots: int := 9
  const Amulet: int := 10
  const Ring: int := 11
  const Scroll: int := 12
  const Book: int := 13
  const Flask: int := 14
  const Gold: int := 15
  const Ammunition: int := 16
  const Food: int := 17
  const Wand: int := 18
  const Container: int := 19
  const Potion: int := 20

  /** Number of equipment slots: one per type from WEAPON to RING. */
  const NumEqSlots: int := Ring - Weapon + 1

  /** An object description as read from the description file. */
  datatype ObjectDescription = ObjectDescription(
    name: string,
    description: string,
    otype: int,
    color: int,
    canBeGenerated: bool)

  /** The values that the object constructor rolls from the description's dice. */
  datatype Stats = Stats(
    hit: int, dodge: int, defence: int, weight: int,
    speed: int, attribute: int, value: int)

  datatype Object = Object(
    name: string,
    description: string,
    otype: int,
    color: int,
    stats: Stats,
    seen: bool,
    position: Pair)

  /** A pile: the objects of one cell, newest first; [] is an empty cell (NULL). */
  type Pile = seq<Object>

  /** The object was made from description `od`. */
  predicate FromDescription(o: Object, od: ObjectDescription) {
    o.name == od.name && o.description == od.description &&
    o.otype == od.otype && o.color == od.color
  }

  /**
   * The object constructor object(o, p, next): the new object heads a
   * pile whose rest is `next`; it copies the description and the position
   * and starts unseen.
   */
  function NewObject(od: ObjectDescription, p: Pair, rolled: Stats, next: Pile): (pile: Pile)
    ensures |pile| == |next| + 1 && pile[1..] == next
    ensures FromDescription(pile[0], od)
    ensures pile[0].position == p && !pile[0].seen && pile[0].stats == rolled
  {
    [Object(od.name, od.description, od.otype, od.color, rolled, false, p)] + next
  }

  /**
   * object::get_symbol for the object on top of a pile: '&' when it has a
   * next object, otherwise the symbol of its type.
   */
  function Symbol(pile: Pile, objectSymbol: seq<char>): (c: char)
    requires pile != [] && 0 <= pile[0].otype < |objectSymbol|
    ensures c == '&' || c in objectSymbol
    ensures c == '&' <==> |pile| > 1 || objectSymbol[pile[0].otype] == '&'
  {
    if |pile| > 1 then '&' else objectSymbol[pile[0].otype]
  }

  /** A cell's symbol is the pile marker exactly when more than one object lies there. */
  lemma SymbolOfPile(o: Object, below: Pile, objectSymbol: seq<char>)
    requires 0 <= o.otype < |objectSymbol| && objectSymbol[o.otype] != '&'
    ensures Symbol([o] + below, objectSymbol) == '&' <==> below != []
    ensures below == [] ==> Symbol([o] + below, objectSymbol) == objectSymbol[o.otype]
  {
  }

  /**
   * object::is_equipable: types WEAPON through RING, which are exactly the
   * types get_eq_slot_index gives a slot.
   */
  predicate IsEquipable(t: int): (b: bool)
    ensures b <==> EqSlotIndex(t) != -1
  {
    Weapon <= t <= Ring
  }

  /**
   * object::get_eq_slot_index: -1 for a type outside WEAPON..RING, else
   * type - 1, so that the NumEqSlots types get the slots 0 up, in order.
   */
  function EqSlotIndex(t: int): (i: int)
    ensures i == -1 <==> t < Weapon || t > Ring
    ensures i != -1 ==> 0 <= i < NumEqSlots && i + Weapon == t
  {
    if t < Weapon || t > Ring then -1 else t - 1
  }

  /** Distinct equipable types use distinct equipment slots. */
  lemma EqSlotsDistinct(t1: int, t2: int)
    requires IsEquipable(t1) && IsEquipable(t2) && t1 != t2
    ensures EqSlotIndex(t1) != EqSlotIndex(t2)
  {
  }

  /**
   * is_new: scans the list from the front and answers false at the first
   * object named like the description.
   */
  function IsNew(od: ObjectDescription, list: seq<Object>): (r: bool)
    ensures r <==> forall j :: 0 <= j < |list| ==> list[j].name != od.name
  {
    if list == [] then true
    else if list[0].name == od.name then false
    else
      var rest := IsNew(od, list[1..]);
      assert forall j :: 1 <= j < |list| ==> list[j] == list[1..][j - 1];
      rest
  }

  /** The type sets the three pickers of object.cpp accept. */
  const WeaponTypes: set<int> := {Weapon}
  const PotionTypes: set<int> := {Potion}
  const AccessoryTypes: set<int> := {Ring, Armor, Light}

  /** A description a picker for `wanted` may settle on. */
  predicate Pickable(od: ObjectDescription, wanted: set<int>, list: seq<Object>) {
    od.otype in wanted && IsNew(od, list)
  }

  /**
   * The rejection loop shared by gen_random_weapon, gen_random_potion and
   * gen_random_acces: draw descriptions at random until one has a wanted
   * type and a name not yet in `list`.  A random draw is a choice among
   * all indexes; the loop ends only when such a description exists.  The
   * new object is made with an uninitialised position and no next object.
   */
  method PickNew(v: seq<ObjectDescription>, list: seq<Object>, wanted: set<int>, rolled: Stats)
    returns (o: Object)
    requires exists i :: 0 <= i < |v| && Pickable(v[i], wanted, list)
    ensures o.otype in wanted && !o.seen && o.stats == rolled
    ensures forall j :: 0 <= j < |list| ==> list[j].name != o.name
    ensures exists i :: 0 <= i < |v| && Pickable(v[i], wanted, list) && FromDescription(o, v[i])
  {
    var i :| 0 <= i < |v| && Pickable(v[i], wanted, list);
    var p: Pair := *;
    var pile := NewObject(v[i], p, rolled, []);
    o := pile[0];
  }

  /** gen_random_weapon: a weapon whose name is not in `list`. */
  method GenRandomWeapon(v: seq<ObjectDescription>, list: seq<Object>, rolled: Stats)
    returns (o: Object)
    requires exists i :: 0 <= i < |v| && Pickable(v[i], WeaponTypes, list)
    ensures o.otype == Weapon && !o.seen
    ensures IsEquipable(o.otype) && EqSlotIndex(o.otype) == 0
    ensures forall j :: 0 <= j < |list| ==> list[j].name != o.name
    ensures exists i :: 0 <= i < |v| && v[i].otype == Weapon && FromDescription(o, v[i])
  {
    o := PickNew(v, list, WeaponTypes, rolled);
  }

  /** gen_random_potion: a potion whose name is not in `list`. */
  method GenRandomPotion(v: seq<ObjectDescription>, list: seq<Object>, rolled: Stats)
    returns (o: Object)
    requires exists i :: 0 <= i < |v| && Pickable(v[i], PotionTypes, list)
    ensures o.otype == Potion && !o.seen
    ensures !IsEquipable(o.otype) && EqSlotIndex(o.otype) == -1
    ensures forall j :: 0 <= j < |list| ==> list[j].name != o.name
    ensures exists i :: 0 <= i < |v| && v[i].otype == Potion && FromDescription(o, v[i])
  {
    o := PickNew(v, list, PotionTypes, rolled);
  }

  /** gen_random_acces: a ring, armour or light whose name is not in `list`. */
  method GenRandomAcces(v: seq<ObjectDescription>, list: seq<Object>, rolled: Stats)
    returns (o: Object)
    requires exists i :: 0 <= i < |v| && Pickable(v[i], AccessoryTypes, list)
    ensures o.otype == Ring || o.otype == Armor || o.otype == Light
    ensures IsEquipable(o.otype) && EqSlotIndex(o.otype) > 0 && !o.seen
    ensures forall j :: 0 <= j < |list| ==> list[j].name != o.name
    ensures exists i :: 0 <= i < |v| && v[i].otype in AccessoryTypes && FromDescription(o, v[i])
  {
    o := PickNew(v, list, AccessoryTypes, rolled);
  }
}
