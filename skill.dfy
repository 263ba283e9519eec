/**
 * Skills: the ordered validation chain of a cast, SP payment and cooldown
 * start, the damage and heal effects, the cooldown map ticked by `update`, and
 * skill levelling from the player's point pool.
 */
module Skills {
  import opened Common
  import opened Characters
  import opened Combat

  // ---------------------------------------------------------------------------
  // Cooldowns
  // ---------------------------------------------------------------------------

  /** `!cd[id] || cd[id] <= 0`: no entry, or an entry that is not positive (0 counts as ready). */
  predicate Ready(cd: map<string, real>, id: string)
  {
    id !in cd || cd[id] <= 0.0
  }

  /** `update`: every positive entry drops by `dt`; other entries and the key set stay as they are. */
  function Tick(cd: map<string, real>, dt: real): (r: map<string, real>)
    ensures r.Keys == cd.Keys
  {
    map k | k in cd :: if cd[k] > 0.0 then cd[k] - dt else cd[k]
  }

  function TickN(cd: map<string, real>, dt: real, n: nat): map<string, real>
  {
    if n == 0 then cd else TickN(Tick(cd, dt), dt, n - 1)
  }

  /**
   * A ready skill stays ready, and an entry that has reached zero or below is
   * never lowered again, so it drops at most once after crossing zero.
   */
  lemma TickKeepsReady(cd: map<string, real>, dt: real, id: string)
    ensures Ready(cd, id) ==> Ready(Tick(cd, dt), id)
    ensures id in cd && cd[id] <= 0.0 ==> Tick(cd, dt)[id] == cd[id]
    ensures id in cd && cd[id] > 0.0 ==> Tick(cd, dt)[id] == cd[id] - dt
  {
  }

  /** With a positive tick, a cooldown of `c` is over after any `n` ticks with `n * dt >= c`. */
  lemma {:induction false} EventuallyReady(cd: map<string, real>, dt: real, n: nat, id: string)
    requires dt > 0.0
    requires id in cd ==> (n as real) * dt >= cd[id]
    ensures Ready(TickN(cd, dt, n), id)
  {
    if n > 0 {
      var next := Tick(cd, dt);
      if id in cd && cd[id] <= 0.0 {
        TickNKeepsReady(next, dt, n - 1, id);
      } else {
        assert id in next ==> ((n - 1) as real) * dt >= next[id];
        EventuallyReady(next, dt, n - 1, id);
      }
    }
  }

  lemma {:induction false} TickNKeepsReady(cd: map<string, real>, dt: real, n: nat, id: string)
    requires Ready(cd, id)
    ensures Ready(TickN(cd, dt, n), id)
  {
    if n > 0 {
      TickKeepsReady(cd, dt, id);
      TickNKeepsReady(Tick(cd, dt), dt, n - 1, id);
    }
  }

  // ---------------------------------------------------------------------------
  // The validation chain
  // ---------------------------------------------------------------------------

  /** The first check of `useSkill` that fails, or `Usable` when all pass. */
  datatype SkillCheck = UnknownSkill | OnCooldown | InsufficientSp | WeaponMismatch | Usable

  /** `equipment.weapon?.type`: the weapon type equipped, if any. */
  function WeaponType(equipment: map<string, Item>): Option<string>
  {
    if "weapon" in equipment then Some(equipment["weapon"].kind) else None
  }

  /** `skill.requiredWeapon` is set and not empty (an empty name is falsy). */
  predicate NeedsWeapon(skill: Skill)
  {
    skill.requiredWeapon.Some? && skill.requiredWeapon.value != ""
  }

  /**
   * The checks of `useSkill` in their order: the skill exists, it is off
   * cooldown, SP covers its cost, and a required weapon type (when the skill
   * names one) matches the equipped weapon.
   */
  function Check(catalogue: map<string, Skill>, cd: map<string, real>, id: string,
                 sp: real, equipment: map<string, Item>): (r: SkillCheck)
    ensures r == Usable <==>
      && id in catalogue && Ready(cd, id) && sp >= catalogue[id].spCost
      && (NeedsWeapon(catalogue[id]) ==> WeaponType(equipment) == catalogue[id].requiredWeapon)
  {
    if id !in catalogue then UnknownSkill
    else if !Ready(cd, id) then OnCooldown
    else if sp < catalogue[id].spCost then InsufficientSp
    else if NeedsWeapon(catalogue[id]) && WeaponType(equipment) != catalogue[id].requiredWeapon then WeaponMismatch
    else Usable
  }

  /** The checks are ordered: a skill on cooldown is reported as such even when SP or the weapon also fail. */
  lemma CheckOrder(catalogue: map<string, Skill>, cd: map<string, real>, id: string,
                   sp: real, equipment: map<string, Item>)
    ensures id in catalogue && !Ready(cd, id) ==> Check(catalogue, cd, id, sp, equipment) == OnCooldown
    ensures id in catalogue && Ready(cd, id) && sp < catalogue[id].spCost ==>
      Check(catalogue, cd, id, sp, equipment) == InsufficientSp
    ensures Check(catalogue, cd, id, sp, equipment) == WeaponMismatch ==>
      id in catalogue && NeedsWeapon(catalogue[id]) && WeaponType(equipment) != catalogue[id].requiredWeapon
  {
  }

  // ---------------------------------------------------------------------------
  // Skill levels and power
  // ---------------------------------------------------------------------------

  /** `(skillLevels[id] || 0) + 1` */
  function NextLevel(levels: map<string, int>, id: string): int
  {
    (if id in levels then levels[id] else 0) + 1
  }

  /** `skillLevels[id] || 1`: an absent or zero level counts as level 1. */
  function EffectiveLevel(levels: map<string, int>, id: string): int
  {
    if id in levels && levels[id] != 0 then levels[id] else 1
  }

  /** `basePower + powerPerLevel * (level - 1)` */
  function Power(skill: Skill, levels: map<string, int>, id: string): real
  {
    skill.basePower + skill.powerPerLevel * ((EffectiveLevel(levels, id) - 1) as real)
  }

  /**
   * Levelling a skill already at level 1 or more adds exactly `powerPerLevel`
   * to its power; the first level-up from no entry leaves the power unchanged,
   * because an absent level already counts as 1.
   */
  lemma LevelUpPowerStep(skill: Skill, levels: map<string, int>, id: string)
    ensures id in levels && levels[id] >= 1 ==>
      Power(skill, levels[id := NextLevel(levels, id)], id) == Power(skill, levels, id) + skill.powerPerLevel
    ensures id !in levels ==> Power(skill, levels[id := NextLevel(levels, id)], id) == Power(skill, levels, id)
  {
  }

  // ---------------------------------------------------------------------------
  // The skill system
  // ---------------------------------------------------------------------------

  class SkillSystem {
    const catalogue: map<string, Skill>
    var skillCooldowns: map<string, real>
    var skillLevels: map<string, int>
    const player: Character
    const combat: CombatSystem

    constructor (catalogue: map<string, Skill>, player: Character, combat: CombatSystem)
      ensures this.catalogue == catalogue && this.player == player && this.combat == combat
      ensures skillCooldowns == map[] && skillLevels == map[]
    {
      this.catalogue := catalogue;
      this.player := player;
      this.combat := combat;
      skillCooldowns := map[];
      skillLevels := map[];
    }

    function CanUseSkill(id: string): (r: bool)
      reads this`skillCooldowns
      ensures r <==> id !in skillCooldowns || skillCooldowns[id] <= 0.0
    {
      Ready(skillCooldowns, id)
    }

    /**
     * `useSkill`. When a check fails nothing changes. Otherwise the SP cost is
     * paid, the cooldown starts at the skill's cooldown, and the effect of its
     * type follows: "damage" attacks the target through the combat system,
     * "heal" raises HP by the skill's power up to the maximum, any other type
     * changes no HP.
     */
    method UseSkill(id: string, target: Character, now: int, roll: real) returns (ok: bool)
      modifies this`skillCooldowns, player`currentSp, player`currentHp, player`rage
      modifies combat`comboCount, combat`comboTimer, combat`lastAttacker
      modifies target`currentHp, target`target, target`exp, target`currentSp
      ensures ok == (Check(catalogue, old(skillCooldowns), id, old(player.currentSp), player.equipment) == Usable)
      ensures !ok ==> skillCooldowns == old(skillCooldowns) && unchanged(player, target, combat)
      ensures ok ==> skillCooldowns == old(skillCooldowns)[id := catalogue[id].cooldown]
      ensures ok && (catalogue[id].kind != "damage" || target != player) ==>
        player.currentSp == old(player.currentSp) - catalogue[id].spCost
      ensures ok && catalogue[id].kind == "damage" ==>
        combat.lastAttacker == player && combat.comboTimer == now && target.target == player
      ensures ok && catalogue[id].kind == "damage" ==>
        var skill := catalogue[id];
        var isCombo := IsCombo(now, old(combat.comboTimer), old(combat.lastAttacker), player);
        var d := ElementAdjusted(CalculateDamage(old(player.stats), old(target.stats), Some(skill), isCombo,
                                                 old(combat.comboCount), roll), Some(skill), old(target.element));
        var hit := if target == player then old(target.CurrentSheet()).(currentSp := old(player.currentSp) - skill.spCost)
                   else old(target.CurrentSheet());
        && target.CurrentSheet() == TakeDamageSpec(hit, d).1
        && combat.comboCount == (if isCombo then old(combat.comboCount) + 1 else 1)
        && player.rage == (if isCombo && old(player.rage) != 0.0 then old(player.rage) + 5.0 else old(player.rage))
      ensures ok && catalogue[id].kind == "damage" && target != player ==>
        player.currentHp == old(player.currentHp)
      ensures ok && catalogue[id].kind == "heal" ==>
        player.currentHp == Min(old(player.maxHp), old(player.currentHp) + catalogue[id].power)
      ensures ok && catalogue[id].kind != "damage" ==>
        && unchanged(combat) && player.rage == old(player.rage)
        && target.target == old(target.target) && target.exp == old(target.exp)
        && (target != player ==> target.currentHp == old(target.currentHp) && target.currentSp == old(target.currentSp))
      ensures ok && catalogue[id].kind != "damage" && catalogue[id].kind != "heal" ==>
        player.currentHp == old(player.currentHp) && unchanged(target`currentHp)
    {
      if id !in catalogue || !CanUseSkill(id) {
        return false;
      }
      var skill := catalogue[id];
      if player.currentSp < skill.spCost {
        return false;
      }
      if NeedsWeapon(skill) && WeaponType(player.equipment) != skill.requiredWeapon {
        return false;
      }
      player.currentSp := player.currentSp - skill.spCost;
      skillCooldowns := skillCooldowns[id := skill.cooldown];
      if skill.kind == "damage" {
        var _ := combat.Attack(player, target, Some(skill), now, roll);
      } else if skill.kind == "heal" {
        player.currentHp := Min(player.maxHp, player.currentHp + skill.power);
      }
      ok := true;
    }

    /** `levelUpSkill`: spends one skill point to raise the level; with no points nothing changes. */
    method LevelUpSkill(id: string) returns (ok: bool)
      modifies this`skillLevels, player`skillPoints
      ensures ok == (old(player.skillPoints) > 0)
      ensures ok ==> skillLevels == old(skillLevels)[id := NextLevel(old(skillLevels), id)]
      ensures ok ==> player.skillPoints == old(player.skillPoints) - 1
      ensures !ok ==> skillLevels == old(skillLevels) && player.skillPoints == old(player.skillPoints)
    {
      if player.skillPoints <= 0 {
        return false;
      }
      skillLevels := skillLevels[id := NextLevel(skillLevels, id)];
      player.skillPoints := player.skillPoints - 1;
      return true;
    }

    /** `getSkillPower` for a skill of the catalogue. */
    function GetSkillPower(id: string): (p: real)
      requires id in catalogue
      reads this`skillLevels
      ensures id !in skillLevels || skillLevels[id] == 0 ==> p == catalogue[id].basePower
      ensures id in skillLevels && skillLevels[id] != 0 ==>
        p == catalogue[id].basePower + catalogue[id].powerPerLevel * ((skillLevels[id] - 1) as real)
    {
      Power(catalogue[id], skillLevels, id)
    }

    /** `update`: one cooldown tick over every entry of the map. */
    method Update(deltaTime: real)
      modifies this`skillCooldowns
      ensures skillCooldowns == Tick(old(skillCooldowns), deltaTime)
    {
      var cd := skillCooldowns;
      var todo := cd.Keys;
      var result := cd;
      while todo != {}
        invariant todo <= cd.Keys
        invariant result.Keys == cd.Keys
        invariant forall k :: k in cd && k !in todo ==> result[k] == Tick(cd, deltaTime)[k]
        invariant forall k :: k in todo ==> result[k] == cd[k]
        decreases todo
      {
        var k :| k in todo;
        if result[k] > 0.0 {
          result := result[k := result[k] - deltaTime];
        }
        todo := todo - {k};
      }
      skillCooldowns := result;
    }
  }
}
