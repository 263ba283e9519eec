/**
 * Players: the operations a player adds to a character — the job change gate,
 * the per-player combo and rage counters, the SP check of a cast, the
 * 40-entry inventory with stacking, and equipping with stat deltas.
 */
module Players {
  import opened Common
  import opened Characters

  // ---------------------------------------------------------------------------
  // Job change
  // ---------------------------------------------------------------------------

  /** The bonus a new job grants: swordsman str+5 vit+3, mage int+5 and max SP+30, others none. */
  function JobBonus(newJob: string, s: Stats, maxSp: real): (Stats, real)
  {
    if newJob == "swordsman" then (s.(str := s.str + 5.0, vit := s.vit + 3.0), maxSp)
    else if newJob == "mage" then (s.(intel := s.intel + 5.0), maxSp + 30.0)
    else (s, maxSp)
  }

  predicate CanChangeJob(job: string, level: int)
  {
    job == "novice" && level >= 10
  }

  /** Only a novice of level 10 or more changes job; the change resets the job level. */
  method ChangeJob(p: Character, newJob: string) returns (ok: bool)
    modifies p`job, p`jobLevel, p`stats, p`maxSp
    ensures ok == CanChangeJob(old(p.job), p.level)
    ensures ok ==> p.job == newJob && p.jobLevel == 1 && (p.stats, p.maxSp) == JobBonus(newJob, old(p.stats), old(p.maxSp))
    ensures !ok ==> p.job == old(p.job) && p.jobLevel == old(p.jobLevel) && p.stats == old(p.stats) && p.maxSp == old(p.maxSp)
  {
    if p.job == "novice" && p.level >= 10 {
      p.job := newJob;
      p.jobLevel := 1;
      if newJob == "swordsman" {
        p.stats := p.stats.(str := p.stats.str + 5.0);
        p.stats := p.stats.(vit := p.stats.vit + 3.0);
      } else if newJob == "mage" {
        p.stats := p.stats.(intel := p.stats.intel + 5.0);
        p.maxSp := p.maxSp + 30.0;
      }
      return true;
    }
    return false;
  }

  /** A job other than swordsman or mage changes no attribute. */
  lemma OtherJobsGainNothing(newJob: string, s: Stats, maxSp: real)
    requires newJob != "swordsman" && newJob != "mage"
    ensures JobBonus(newJob, s, maxSp) == (s, maxSp)
  {
  }

  // ---------------------------------------------------------------------------
  // Combo and rage
  // ---------------------------------------------------------------------------

  /** The player's own combo window: an attack within 500 ms of the previous one. */
  predicate IsPlayerCombo(now: int, lastAttackTime: int)
  {
    now - lastAttackTime < 500
  }

  /**
   * The combo and rage bookkeeping of `Player.attack`: a combo raises the count
   * and adds 5 rage, any other attack resets the count to 0; the attack time is
   * recorded either way. (The damage this attack deals is not modelled.)
   */
  method Attack(p: Character, now: int) returns (isCombo: bool)
    modifies p`comboCount, p`rage, p`lastAttackTime
    ensures isCombo == IsPlayerCombo(now, old(p.lastAttackTime))
    ensures p.comboCount == (if isCombo then old(p.comboCount) + 1 else 0)
    ensures p.rage == (if isCombo then old(p.rage) + 5.0 else old(p.rage))
    ensures p.lastAttackTime == now
  {
    isCombo := now - p.lastAttackTime < 500;
    if isCombo {
      p.comboCount := p.comboCount + 1;
      p.rage := p.rage + 5.0;
    } else {
      p.comboCount := 0;
    }
    p.lastAttackTime := now;
  }

  // ---------------------------------------------------------------------------
  // Casting
  // ---------------------------------------------------------------------------

  /** The delay, in milliseconds, after which a cast takes effect: `castTime * (1 - dex * 0.01) * 1000`. */
  function CastDelay(skill: Skill, dex: real): real
  {
    skill.castTime * (1.0 - dex * 0.01) * 1000.0
  }

  /** The SP side of `Player.useSkill`: refused when SP is short, otherwise the cost is paid at once. */
  function CastSpec(sp: real, skill: Skill): (bool, real)
  {
    if sp < skill.spCost then (false, sp) else (true, sp - skill.spCost)
  }

  /**
   * `Player.useSkill`: refuses when SP is short, otherwise pays the SP cost at
   * once and schedules the effect after the cast delay, returned here.
   */
  method UseSkill(p: Character, skill: Skill) returns (ok: bool, delayMs: real)
    modifies p`currentSp
    ensures (ok, p.currentSp) == CastSpec(old(p.currentSp), skill)
    ensures ok ==> delayMs == CastDelay(skill, p.stats.dex)
  {
    if p.currentSp < skill.spCost {
      return false, 0.0;
    }
    p.currentSp := p.currentSp - skill.spCost;
    delayMs := CastDelay(skill, p.stats.dex);
    ok := true;
  }

  /** The SP left after a run of casts, each paid or refused by `CastSpec`. */
  function CastAll(sp: real, skills: seq<Skill>): real
  {
    if skills == [] then sp else CastSpec(CastAll(sp, skills[..|skills| - 1]), skills[|skills| - 1]).1
  }

  /**
   * Casting never takes SP below 0 or raises it: starting from non-negative SP,
   * any run of casts of skills with non-negative costs leaves SP between 0 and
   * where it started.
   */
  lemma {:induction false} CastKeepsSpNonNegative(sp: real, skills: seq<Skill>)
    requires sp >= 0.0 && forall k :: 0 <= k < |skills| ==> skills[k].spCost >= 0.0
    ensures 0.0 <= CastAll(sp, skills) <= sp
  {
    if skills != [] {
      CastKeepsSpNonNegative(sp, skills[..|skills| - 1]);
    }
  }

  /** A cast-time example: 2 s at 50 dexterity takes 1 s. */
  lemma CastDelayScenario(skill: Skill)
    requires skill.castTime == 2.0
    ensures CastDelay(skill, 50.0) == 1000.0
  {
  }

  // ---------------------------------------------------------------------------
  // Inventory
  // ---------------------------------------------------------------------------

  const InventoryLimit: nat := 40

  /** `inventory.find(i => i.id === id)`: the first entry with that id, whatever its stack state. */
  function FirstWithId(inv: seq<Item>, id: string): (r: Option<nat>)
    ensures r.Some? ==> r.value < |inv| && inv[r.value].id == id
    ensures r.Some? ==> forall j :: 0 <= j < r.value ==> inv[j].id != id
    ensures r.None? ==> forall j :: 0 <= j < |inv| ==> inv[j].id != id
  {
    if inv == [] then None
    else if inv[0].id == id then Some(0)
    else match FirstWithId(inv[1..], id)
      case None => None
      case Some(k) => Some(k + 1)
  }

  /**
   * `Player.addItem`: a stackable item goes onto the first entry with its id
   * when that entry is below its stack limit; otherwise the item is appended
   * while fewer than 40 entries are held; otherwise nothing changes.
   */
  function AddItemSpec(inv: seq<Item>, item: Item): (bool, seq<Item>)
  {
    var found := if item.stackable then FirstWithId(inv, item.id) else None;
    if found.Some? && inv[found.value].quantity < inv[found.value].maxStack then
      var e := inv[found.value];
      (true, inv[found.value := e.(quantity := e.quantity + 1)])
    else if |inv| < InventoryLimit then (true, inv + [item])
    else (false, inv)
  }

  method AddItem(p: Character, item: Item) returns (ok: bool)
    modifies p`inventory
    ensures (ok, p.inventory) == AddItemSpec(old(p.inventory), item)
  {
    if item.stackable {
      var existing := FirstWithId(p.inventory, item.id);
      if existing.Some? && p.inventory[existing.value].quantity < p.inventory[existing.value].maxStack {
        var e := p.inventory[existing.value];
        p.inventory := p.inventory[existing.value := e.(quantity := e.quantity + 1)];
        return true;
      }
    }
    if |p.inventory| < InventoryLimit {
      p.inventory := p.inventory + [item];
      return true;
    }
    return false;
  }

  /** `i` is the first entry of `inv` with the given id. */
  predicate FirstEntry(inv: seq<Item>, id: string, i: int)
  {
    0 <= i < |inv| && inv[i].id == id && forall j :: 0 <= j < i ==> inv[j].id != id
  }

  /**
   * What `addItem` can do: either it bumps the quantity of the first entry
   * that has the item's id (length unchanged, nothing else touched), or it
   * appends the item to an inventory of fewer than 40 entries, or it fails
   * with no change. Which one happens: a stackable item whose first entry is
   * below its stack limit is stacked there; in every other case the item is
   * appended when there is room and refused when there is not. So the length
   * never exceeds 40 through `addItem`.
   */
  lemma AddItemCases(inv: seq<Item>, item: Item)
    ensures var (ok, inv') := AddItemSpec(inv, item);
      || (ok && |inv'| == |inv| &&
          (exists i :: FirstEntry(inv, item.id, i) && item.stackable &&
                       inv[i].quantity < inv[i].maxStack &&
                       inv' == inv[i := inv[i].(quantity := inv[i].quantity + 1)]))
      || (ok && |inv| < InventoryLimit && inv' == inv + [item])
      || (!ok && |inv| >= InventoryLimit && inv' == inv)
    ensures forall i :: item.stackable && FirstEntry(inv, item.id, i) && inv[i].quantity < inv[i].maxStack ==>
      AddItemSpec(inv, item) == (true, inv[i := inv[i].(quantity := inv[i].quantity + 1)])
    ensures (!item.stackable || forall i :: FirstEntry(inv, item.id, i) ==> inv[i].quantity >= inv[i].maxStack) ==>
      AddItemSpec(inv, item) == (|inv| < InventoryLimit, if |inv| < InventoryLimit then inv + [item] else inv)
    ensures |inv| <= InventoryLimit ==> |AddItemSpec(inv, item).1| <= InventoryLimit
  {
    var found := FirstWithId(inv, item.id);
    if found.Some? {
      assert FirstEntry(inv, item.id, found.value);
      forall i | FirstEntry(inv, item.id, i)
        ensures i == found.value
      {
      }
    }
  }

  // ---------------------------------------------------------------------------
  // Equipment
  // ---------------------------------------------------------------------------

  /**
   * The outcome of `Player.equip`. `SlotTaken` is the case where the slot is
   * already filled: the source then calls `this.unequip`, which neither the
   * player nor the character defines, so the call throws before anything changes.
   */
  datatype EquipOutcome = Equipped | WrongJob | SlotTaken

  /** `!(item.requiredJob && item.requiredJob !== job)`: an absent or empty job name requires nothing. */
  predicate JobAllows(item: Item, job: string)
  {
    item.requiredJob.None? || item.requiredJob.value == "" || item.requiredJob.value == job
  }

  method Equip(p: Character, item: Item) returns (r: EquipOutcome)
    modifies p`equipment, p`stats
    ensures r == (if !JobAllows(item, p.job) then WrongJob
                  else if item.slot in old(p.equipment) then SlotTaken
                  else Equipped)
    ensures r == Equipped ==> p.equipment == old(p.equipment)[item.slot := item]
    ensures r == Equipped ==> forall s :: p.stats.Get(s) == old(p.stats).Get(s) + Delta(item.stats, s)
    ensures r != Equipped ==> p.equipment == old(p.equipment) && p.stats == old(p.stats)
  {
    if !JobAllows(item, p.job) {
      return WrongJob;
    }
    if item.slot in p.equipment {
      return SlotTaken;
    }
    p.equipment := p.equipment[item.slot := item];
    p.stats := AddDeltas(p.stats, item.stats);
    return Equipped;
  }
}
