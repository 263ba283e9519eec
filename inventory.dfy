/**
 * Inventory: the player's item list counted by slot weight, stacking onto the
 * first open stack, equipment in single slots that refuse when occupied and in
 * fixed-size accessory (2) and card (4) arrays filled at the first empty index,
 * and crafting from a recipe.
 */
module Inventory {
  import opened Common
  import opened Characters

  /** `maxSlots`, the limit on the weighted item count. */
  const MaxSlots: nat := 40

  // ---------------------------------------------------------------------------
  // Counting and stacking
  // ---------------------------------------------------------------------------

  /** What one entry adds to `getItemCount`: a stackable entry counts 1, any other its quantity. */
  function Weight(e: Item): int
  {
    if e.stackable then 1 else e.quantity
  }

  /** `inventory.reduce((count, item) => count + weight(item), 0)` */
  function ItemCount(inv: seq<Item>): int
  {
    if inv == [] then 0 else ItemCount(inv[..|inv| - 1]) + Weight(inv[|inv| - 1])
  }

  lemma {:induction false} ItemCountAppend(a: seq<Item>, b: seq<Item>)
    ensures ItemCount(a + b) == ItemCount(a) + ItemCount(b)
    decreases |b|
  {
    if b != [] {
      var b0 := b[..|b| - 1];
      assert (a + b)[..|a + b| - 1] == a + b0;
      ItemCountAppend(a, b0);
    } else {
      assert a + b == a;
    }
  }

  /** Replacing one entry changes the count by the difference of the two weights. */
  lemma {:induction false} ItemCountUpdate(inv: seq<Item>, i: nat, x: Item)
    requires i < |inv|
    ensures ItemCount(inv[i := x]) == ItemCount(inv) - Weight(inv[i]) + Weight(x)
    decreases |inv|
  {
    var n := |inv| - 1;
    if i < n {
      assert inv[i := x][..n] == inv[..n][i := x];
      ItemCountUpdate(inv[..n], i, x);
    } else {
      assert inv[i := x][..n] == inv[..n];
    }
  }

  /** The `findStack` test: same id, stackable, and below its stack limit. */
  predicate OpenStack(e: Item, id: string)
  {
    e.id == id && e.stackable && e.quantity < e.maxStack
  }

  /** `findStack`: the first open stack of that id. */
  function FindStack(inv: seq<Item>, id: string): (r: Option<nat>)
    ensures r.Some? ==> r.value < |inv| && OpenStack(inv[r.value], id)
    ensures r.Some? ==> forall j :: 0 <= j < r.value ==> !OpenStack(inv[j], id)
    ensures r.None? ==> forall j :: 0 <= j < |inv| ==> !OpenStack(inv[j], id)
  {
    if inv == [] then None
    else if OpenStack(inv[0], id) then Some(0)
    else match FindStack(inv[1..], id)
      case None => None
      case Some(k) => Some(k + 1)
  }

  /**
   * `InventorySystem.addItem`: a stackable item raises the quantity of the
   * first open stack of its id; otherwise it is appended while the weighted
   * count is below 40; otherwise nothing changes.
   */
  function AddItemSpec(inv: seq<Item>, item: Item): (bool, seq<Item>)
  {
    var stack := if item.stackable then FindStack(inv, item.id) else None;
    if stack.Some? then
      var e := inv[stack.value];
      (true, inv[stack.value := e.(quantity := e.quantity + 1)])
    else if ItemCount(inv) >= MaxSlots then (false, inv)
    else (true, inv + [item])
  }

  /** Some entry is an open stack for a stackable item's id. */
  predicate HasOpenStack(inv: seq<Item>, item: Item)
  {
    item.stackable && exists j :: 0 <= j < |inv| && OpenStack(inv[j], item.id)
  }

  /**
   * `addItem` with an open stack for the item: the first open stack's
   * quantity rises by one and nothing else changes, so the length and the
   * weighted count stay the same.
   */
  lemma AddItemStacks(inv: seq<Item>, item: Item)
    requires HasOpenStack(inv, item)
    ensures AddItemSpec(inv, item).0
    ensures |AddItemSpec(inv, item).1| == |inv|
    ensures ItemCount(AddItemSpec(inv, item).1) == ItemCount(inv)
    ensures exists i :: (0 <= i < |inv| && OpenStack(inv[i], item.id) &&
                         (forall j :: 0 <= j < i ==> !OpenStack(inv[j], item.id)) &&
                         AddItemSpec(inv, item).1 == inv[i := inv[i].(quantity := inv[i].quantity + 1)])
  {
    var j :| 0 <= j < |inv| && OpenStack(inv[j], item.id);
    var i := FindStack(inv, item.id).value;
    var e := inv[i].(quantity := inv[i].quantity + 1);
    ItemCountUpdate(inv, i, e);
    assert AddItemSpec(inv, item).1 == inv[i := e];
  }

  /**
   * `addItem` with no open stack: the item is appended exactly when the
   * weighted count is below 40, which adds the item's weight to the count;
   * otherwise it is refused and nothing changes.
   */
  lemma AddItemAppends(inv: seq<Item>, item: Item)
    requires !HasOpenStack(inv, item)
    ensures AddItemSpec(inv, item).0 <==> ItemCount(inv) < MaxSlots
    ensures AddItemSpec(inv, item).0 ==> AddItemSpec(inv, item).1 == inv + [item]
    ensures AddItemSpec(inv, item).0 ==> ItemCount(AddItemSpec(inv, item).1) == ItemCount(inv) + Weight(item)
    ensures !AddItemSpec(inv, item).0 ==> AddItemSpec(inv, item).1 == inv
  {
    assert item.stackable ==> FindStack(inv, item.id).None?;
    ItemCountAppend(inv, [item]);
    assert [item][..0] == [];
  }

  // ---------------------------------------------------------------------------
  // Crafting
  // ---------------------------------------------------------------------------

  datatype Ingredient = Ingredient(id: string, amount: int)
  datatype Recipe = Recipe(ingredients: seq<Ingredient>, result: Item)

  /**
   * `hasIngredients`: every ingredient is held in at least its amount, as
   * measured by the item-quantity lookup.
   */
  predicate HasIngredients(inv: seq<Item>, ingredients: seq<Ingredient>, quantityOf: (seq<Item>, string) -> int)
  {
    forall k :: 0 <= k < |ingredients| ==> quantityOf(inv, ingredients[k].id) >= ingredients[k].amount
  }

  /** The inventory after removing every ingredient in recipe order. */
  function RemoveAll(inv: seq<Item>, ingredients: seq<Ingredient>,
                     remove: (seq<Item>, string, int) -> seq<Item>): seq<Item>
  {
    if ingredients == [] then inv
    else
      var last := ingredients[|ingredients| - 1];
      remove(RemoveAll(inv, ingredients[..|ingredients| - 1], remove), last.id, last.amount)
  }

  /** A recipe with a missing ingredient changes nothing, whatever the other ingredients. */
  lemma MissingIngredientBlocks(inv: seq<Item>, ingredients: seq<Ingredient>,
                                quantityOf: (seq<Item>, string) -> int, k: nat)
    requires k < |ingredients| && quantityOf(inv, ingredients[k].id) < ingredients[k].amount
    ensures !HasIngredients(inv, ingredients, quantityOf)
  {
  }

  // ---------------------------------------------------------------------------
  // Equipment
  // ---------------------------------------------------------------------------

  /** The equipment slots as values: the single slots that hold an item, and the two arrays. */
  datatype Slots = Slots(singles: map<string, Item>, accessory: seq<Option<Item>>, card: seq<Option<Item>>)

  /** `findIndex(s => !s)`: the lowest empty index, or -1 when every entry is filled. */
  function FirstEmpty(s: seq<Option<Item>>): (r: int)
    ensures -1 <= r < |s|
    ensures r == -1 <==> forall j :: 0 <= j < |s| ==> s[j].Some?
    ensures r >= 0 ==> s[r].None? && forall j :: 0 <= j < r ==> s[j].Some?
  {
    if s == [] then -1
    else if s[0].None? then 0
    else
      var k := FirstEmpty(s[1..]);
      if k == -1 then -1 else k + 1
  }

  /**
   * `requiredLevel > level` fails, and so does a required job other than the
   * player's; an empty job name is falsy and requires nothing.
   */
  predicate MeetsRequirements(item: Item, level: int, job: string)
  {
    !(item.requiredLevel.Some? && item.requiredLevel.value > level) &&
    !(item.requiredJob.Some? && item.requiredJob.value != "" && item.requiredJob.value != job)
  }

  predicate IsArraySlot(slot: string)
  {
    slot == "accessory" || slot == "card"
  }

  function PlaceFirstEmpty(s: seq<Option<Item>>, item: Item): (bool, seq<Option<Item>>)
  {
    var i := FirstEmpty(s);
    if i == -1 then (false, s) else (true, s[i := Some(item)])
  }

  /**
   * `InventorySystem.equip` on the slots. A slot name with no single slot
   * defined (not one of the five) is empty and so accepts the item.
   */
  function EquipSpec(sl: Slots, level: int, job: string, item: Item): (bool, Slots)
  {
    if !MeetsRequirements(item, level, job) then (false, sl)
    else if item.slot == "accessory" then
      var (ok, a) := PlaceFirstEmpty(sl.accessory, item); (ok, sl.(accessory := a))
    else if item.slot == "card" then
      var (ok, c) := PlaceFirstEmpty(sl.card, item); (ok, sl.(card := c))
    else if item.slot in sl.singles then (false, sl)
    else (true, sl.(singles := sl.singles[item.slot := item]))
  }

  /**
   * What `equip` does: it refuses with no change when a requirement fails; an
   * array slot receives the item at its lowest empty index, with every other
   * entry unchanged, and refuses with no change when full; a single slot
   * accepts only when empty and never swaps out an item.
   */
  lemma EquipEffect(sl: Slots, level: int, job: string, item: Item)
    ensures var (ok, sl') := EquipSpec(sl, level, job, item);
      && (ok ==> MeetsRequirements(item, level, job))
      && (!ok ==> sl' == sl)
      && |sl'.accessory| == |sl.accessory| && |sl'.card| == |sl.card|
      && (MeetsRequirements(item, level, job) && item.slot == "accessory" ==>
            (ok <==> exists j :: 0 <= j < |sl.accessory| && sl.accessory[j].None?))
      && (MeetsRequirements(item, level, job) && item.slot == "card" ==>
            (ok <==> exists j :: 0 <= j < |sl.card| && sl.card[j].None?))
      && (ok && IsArraySlot(item.slot) ==> sl'.singles == sl.singles)
      && (ok && item.slot == "accessory" ==> sl'.card == sl.card)
      && (ok && item.slot == "accessory" ==>
            exists i :: (0 <= i < |sl.accessory| && sl.accessory[i].None? &&
                         (forall j :: 0 <= j < i ==> sl.accessory[j].Some?) &&
                         sl'.accessory == sl.accessory[i := Some(item)]))
      && (ok && item.slot == "card" ==> sl'.accessory == sl.accessory)
      && (ok && item.slot == "card" ==>
            exists i :: (0 <= i < |sl.card| && sl.card[i].None? &&
                         (forall j :: 0 <= j < i ==> sl.card[j].Some?) &&
                         sl'.card == sl.card[i := Some(item)]))
      && (MeetsRequirements(item, level, job) && !IsArraySlot(item.slot) ==>
            (ok <==> item.slot !in sl.singles))
      && (ok && !IsArraySlot(item.slot) ==>
            sl' == sl.(singles := sl.singles[item.slot := item]))
  {
    if MeetsRequirements(item, level, job) {
      if item.slot == "accessory" {
        var i := FirstEmpty(sl.accessory);
        if i != -1 {
          assert sl.accessory[i].None?;
        }
      } else if item.slot == "card" {
        var i := FirstEmpty(sl.card);
        if i != -1 {
          assert sl.card[i].None?;
        }
      }
    }
  }

  // ---------------------------------------------------------------------------
  // The inventory system
  // ---------------------------------------------------------------------------

  class InventorySystem {
    const player: Character
    /** The single slots that hold an item; a slot with no entry is empty. */
    var singles: map<string, Item>
    const accessory: array<Option<Item>>
    const card: array<Option<Item>>

    predicate Valid()
    {
      accessory.Length == 2 && card.Length == 4 && accessory != card
    }

    function CurrentSlots(): Slots
      reads this`singles, accessory, card
    {
      Slots(singles, accessory[..], card[..])
    }

    constructor (player: Character)
      ensures Valid() && this.player == player && fresh(accessory) && fresh(card)
      ensures CurrentSlots() == Slots(map[], [None, None], [None, None, None, None])
    {
      this.player := player;
      singles := map[];
      accessory := new Option<Item>[2](_ => None);
      card := new Option<Item>[4](_ => None);
      new;
      assert accessory[..] == [None, None];
      assert card[..] == [None, None, None, None];
    }

    /** `applyItemStats`: each listed delta added to its attribute, the others unchanged. */
    method ApplyItemStats(item: Item)
      modifies player`stats
      ensures player.stats == old(player.stats).WithDeltas(item.stats)
      ensures forall s :: player.stats.Get(s) == old(player.stats).Get(s) + Delta(item.stats, s)
    {
      player.stats := AddDeltas(player.stats, item.stats);
    }

    method AddItem(item: Item) returns (ok: bool)
      modifies player`inventory
      ensures (ok, player.inventory) == AddItemSpec(old(player.inventory), item)
    {
      if item.stackable {
        var stack := FindStack(player.inventory, item.id);
        if stack.Some? {
          var e := player.inventory[stack.value];
          player.inventory := player.inventory[stack.value := e.(quantity := e.quantity + 1)];
          return true;
        }
      }
      if ItemCount(player.inventory) >= MaxSlots {
        return false;
      }
      player.inventory := player.inventory + [item];
      return true;
    }

    method Equip(item: Item) returns (ok: bool)
      requires Valid()
      modifies this`singles, accessory, card, player`stats
      ensures (ok, CurrentSlots()) == EquipSpec(old(CurrentSlots()), player.level, player.job, item)
      ensures player.stats == (if ok then old(player.stats).WithDeltas(item.stats) else old(player.stats))
    {
      if item.requiredLevel.Some? && item.requiredLevel.value > player.level {
        return false;
      }
      if item.requiredJob.Some? && item.requiredJob.value != "" && item.requiredJob.value != player.job {
        return false;
      }
      if IsArraySlot(item.slot) {
        var slots := if item.slot == "accessory" then accessory else card;
        var i := FirstEmpty(slots[..]);
        if i != -1 {
          slots[i] := Some(item);
          assert slots[..] == old(slots[..])[i := Some(item)];
          ApplyItemStats(item);
          return true;
        }
      } else if item.slot !in singles {
        singles := singles[item.slot := item];
        ApplyItemStats(item);
        return true;
      }
      return false;
    }

    /**
     * `craft`: when some ingredient is short nothing changes; otherwise each
     * ingredient is removed in recipe order, the result is added as `addItem`
     * adds it, and the craft succeeds even when that addition is refused.
     * The quantity lookup and the removal are the game's `getItemQuantity`
     * and `removeItem`, passed in.
     */
    method Craft(recipe: Recipe, quantityOf: (seq<Item>, string) -> int,
                 remove: (seq<Item>, string, int) -> seq<Item>) returns (ok: bool)
      modifies player`inventory
      ensures ok == HasIngredients(old(player.inventory), recipe.ingredients, quantityOf)
      ensures !ok ==> player.inventory == old(player.inventory)
      ensures ok ==> (player.inventory ==
                      AddItemSpec(RemoveAll(old(player.inventory), recipe.ingredients, remove), recipe.result).1)
    {
      if !HasIngredients(player.inventory, recipe.ingredients, quantityOf) {
        return false;
      }
      var ings := recipe.ingredients;
      var i := 0;
      while i < |ings|
        invariant 0 <= i <= |ings|
        invariant player.inventory == RemoveAll(old(player.inventory), ings[..i], remove)
      {
        assert ings[..i + 1][..i] == ings[..i];
        player.inventory := remove(player.inventory, ings[i].id, ings[i].amount);
        i := i + 1;
      }
      assert ings[..i] == ings;
      var _ := AddItem(recipe.result);
      return true;
    }
  }
}
