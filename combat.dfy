/**
 * Combat: the hybrid damage formula, the directed element chart, the global
 * combo tracker and the list of timed area effects.
 *
 * Time is passed in: `now` is the game clock in milliseconds and `deltaTime`
 * the tick length in seconds. The critical roll (`Math.random()`) is passed in
 * as `roll`.
 */
module Combat {
  import opened Common
  import opened Characters
  import GameUtils

  // ---------------------------------------------------------------------------
  // Element chart
  // ---------------------------------------------------------------------------

  /**
   * `chart[attack]?.[target] || 1`. Each advantage (1.5) and disadvantage (0.5)
   * is a directed pair; every pair not in the chart, including any pair with
   * `Neutral`, gives 1.
   */
  function ElementMultiplier(attack: Element, target: Element): (m: real)
    ensures m == 0.5 || m == 1.0 || m == 1.5
    ensures attack == Neutral || target == Neutral || attack == target ==> m == 1.0
  {
    match (attack, target)
    case (Fire, Earth) => 1.5
    case (Fire, Water) => 0.5
    case (Water, Fire) => 1.5
    case (Water, Wind) => 0.5
    case (Wind, Earth) => 1.5
    case (Wind, Fire) => 0.5
    case (Earth, Wind) => 1.5
    case (Earth, Water) => 0.5
    case _ => 1.0
  }

  /** The chart is not symmetric: fire is strong against earth, but earth is neutral against fire. */
  lemma ChartNotSymmetric()
    ensures ElementMultiplier(Fire, Earth) == 1.5 && ElementMultiplier(Earth, Fire) == 1.0
  {
  }

  /**
   * Each element is strong against exactly one other and weak against exactly
   * one other; wind and earth are each strong against the other.
   */
  lemma ChartShape(a: Element, t: Element, u: Element)
    ensures ElementMultiplier(a, t) == 1.5 && ElementMultiplier(a, u) == 1.5 ==> t == u
    ensures ElementMultiplier(a, t) == 0.5 && ElementMultiplier(a, u) == 0.5 ==> t == u
    ensures a != Neutral ==> exists s :: ElementMultiplier(a, s) == 1.5
    ensures a != Neutral ==> exists s :: ElementMultiplier(a, s) == 0.5
    ensures ElementMultiplier(Wind, Earth) == 1.5 && ElementMultiplier(Earth, Wind) == 1.5
  {
    match a
    case Fire => assert ElementMultiplier(a, Earth) == 1.5 && ElementMultiplier(a, Water) == 0.5;
    case Water => assert ElementMultiplier(a, Fire) == 1.5 && ElementMultiplier(a, Wind) == 0.5;
    case Wind => assert ElementMultiplier(a, Earth) == 1.5 && ElementMultiplier(a, Fire) == 0.5;
    case Earth => assert ElementMultiplier(a, Wind) == 1.5 && ElementMultiplier(a, Water) == 0.5;
    case Neutral =>
  }

  // ---------------------------------------------------------------------------
  // Damage formula
  // ---------------------------------------------------------------------------

  /** `skill?.power || attacker.stats.str`: no skill, or a skill of power 0, falls back to strength. */
  function BasePower(attacker: Stats, skill: Option<Skill>): real
  {
    if skill.Some? && skill.value.power != 0.0 then skill.value.power else attacker.str
  }

  function IsCritical(attacker: Stats, roll: real): bool
  {
    roll < attacker.dex * 0.01
  }

  /** `(basePower + skillBonus) * (1 + comboBonus) * critMultiplier`, before defence. */
  function RawDamage(attacker: Stats, skill: Option<Skill>, isCombo: bool, comboCount: int, roll: real): real
  {
    var skillBonus := if skill.Some? then attacker.intel * 0.5 else 0.0;
    var comboBonus := if isCombo then comboCount as real * 0.1 else 0.0;
    var crit := if IsCritical(attacker, roll) then GameUtils.CritMultiplier else 1.0;
    (BasePower(attacker, skill) + skillBonus) * (1.0 + comboBonus) * crit
  }

  /**
   * `CombatSystem.calculateDamage`: the raw damage less `0.8 * target vit`,
   * never below 1. `comboCount` is the tracker's count before this attack.
   */
  function CalculateDamage(attacker: Stats, target: Stats, skill: Option<Skill>,
                           isCombo: bool, comboCount: int, roll: real): (d: real)
    ensures d >= 1.0
    ensures d >= RawDamage(attacker, skill, isCombo, comboCount, roll) - 0.8 * target.vit
  {
    Max(1.0, RawDamage(attacker, skill, isCombo, comboCount, roll) - target.vit * 0.8)
  }

  /** The element multiplier is applied only when the skill names an element, after the `max(1, ...)`. */
  function ElementAdjusted(damage: real, skill: Option<Skill>, targetElement: Element): real
  {
    if skill.Some? && skill.value.element.Some? then
      damage * ElementMultiplier(skill.value.element.value, targetElement)
    else damage
  }

  /** 10 strength, no skill, no combo, no critical hit, 8 vitality: 10 - 6.4 = 3.6. */
  lemma DamageScenario(attacker: Stats, target: Stats, roll: real)
    requires attacker.str == 10.0 && attacker.dex == 0.0 && target.vit == 8.0 && roll >= 0.0
    ensures CalculateDamage(attacker, target, None, false, 0, roll) == 3.6
  {
  }

  /** A skill with power 0 uses the attacker's strength, because of `||`. */
  lemma ZeroPowerFallsBack(attacker: Stats, skill: Skill)
    requires skill.power == 0.0
    ensures BasePower(attacker, Some(skill)) == attacker.str
  {
  }

  /**
   * Defence is applied twice on a hit without an element: once by the formula
   * and again by `takeDamage`, so a hit deals `max(1, raw - 1.6 vit)` for a
   * target of non-negative vitality.
   */
  lemma DefenceAppliedTwice(attacker: Stats, target: Sheet, skill: Option<Skill>,
                            isCombo: bool, comboCount: int, roll: real)
    requires target.stats.vit >= 0.0
    requires skill.None? || skill.value.element.None?
    ensures var d := ElementAdjusted(CalculateDamage(attacker, target.stats, skill, isCombo, comboCount, roll), skill, Neutral);
      TakeDamageSpec(target, d).0 == Max(1.0, RawDamage(attacker, skill, isCombo, comboCount, roll) - 1.6 * target.stats.vit)
  {
  }

  // ---------------------------------------------------------------------------
  // Area effects
  // ---------------------------------------------------------------------------

  datatype AreaEffect = AreaEffect(x: real, y: real, radius: real, damage: real, duration: real, startTime: int)

  /** `distance(effect, entity) <= radius`, compared on squares. */
  predicate InZone(e: AreaEffect, px: real, py: real)
  {
    e.radius >= 0.0 && (px - e.x) * (px - e.x) + (py - e.y) * (py - e.y) <= e.radius * e.radius
  }

  predicate InAnyZone(effects: seq<AreaEffect>, px: real, py: real)
  {
    exists i :: 0 <= i < |effects| && InZone(effects[i], px, py)
  }

  /** One effect after a tick: its duration drops by `dt`; it survives only while the duration stays positive. */
  function TickOne(e: AreaEffect, dt: real): seq<AreaEffect>
  {
    var e' := e.(duration := e.duration - dt);
    if e'.duration > 0.0 then [e'] else []
  }

  /** The effect list after a tick: each duration drops by `dt` and the expired effects are filtered out, in order. */
  function TickEffects(effects: seq<AreaEffect>, dt: real): seq<AreaEffect>
  {
    if effects == [] then []
    else TickEffects(effects[..|effects| - 1], dt) + TickOne(effects[|effects| - 1], dt)
  }

  /** No effect is added by a tick: each survivor is an input effect with its duration lowered by `dt`. */
  lemma {:induction false} TickEffectsSound(effects: seq<AreaEffect>, dt: real)
    ensures |TickEffects(effects, dt)| <= |effects|
    ensures forall e :: e in TickEffects(effects, dt) ==>
      e.duration > 0.0 && e.(duration := e.duration + dt) in effects
  {
    if effects != [] {
      var init := effects[..|effects| - 1];
      var last := effects[|effects| - 1];
      TickEffectsSound(init, dt);
      assert effects == init + [last];
      forall e | e in TickEffects(effects, dt)
        ensures e.duration > 0.0 && e.(duration := e.duration + dt) in effects
      {
        if e !in TickEffects(init, dt) {
          assert e in TickOne(last, dt);
          assert e.(duration := e.duration + dt) == last;
        }
      }
    }
  }

  /** Every effect whose new duration is positive survives the tick. */
  lemma {:induction false} TickEffectsComplete(effects: seq<AreaEffect>, dt: real)
    ensures forall e :: e in effects && e.duration - dt > 0.0 ==>
      e.(duration := e.duration - dt) in TickEffects(effects, dt)
  {
    if effects != [] {
      var init := effects[..|effects| - 1];
      var last := effects[|effects| - 1];
      TickEffectsComplete(init, dt);
      assert effects == init + [last];
    }
  }

  /**
   * Exactly the effects whose new duration is positive survive, each with its
   * duration lowered by exactly `dt`, and none is added.
   */
  lemma TickEffectsSurvivors(effects: seq<AreaEffect>, dt: real)
    ensures |TickEffects(effects, dt)| <= |effects|
    ensures forall e :: e in TickEffects(effects, dt) ==>
      e.duration > 0.0 && e.(duration := e.duration + dt) in effects
    ensures forall e :: e in effects && e.duration - dt > 0.0 ==>
      e.(duration := e.duration - dt) in TickEffects(effects, dt)
  {
    TickEffectsSound(effects, dt);
    TickEffectsComplete(effects, dt);
  }

  /** Survivors keep their relative order: a tick of a concatenation is the concatenation of the ticks. */
  lemma {:induction false} TickEffectsAppend(a: seq<AreaEffect>, b: seq<AreaEffect>, dt: real)
    ensures TickEffects(a + b, dt) == TickEffects(a, dt) + TickEffects(b, dt)
    decreases |b|
  {
    if b == [] {
      assert a + b == a;
    } else {
      var b0 := b[..|b| - 1];
      assert a + b == (a + b0) + [b[|b| - 1]];
      assert (a + b)[..|a + b| - 1] == a + b0;
      TickEffectsAppend(a, b0, dt);
    }
  }

  /**
   * An effect of 0.3 s ticked three times by 0.1 s: it damages on the first two
   * ticks and is gone after the third. Each tick's hit goes through
   * `takeDamage`, which deals at least 1 once the nominal 1.0 is reduced by
   * defence, so an entity of non-negative vitality in range loses 2 HP in all.
   */
  lemma AreaEffectScenario(e: AreaEffect, c: Sheet)
    requires e.duration == 0.3 && e.damage == 10.0 && c.stats.vit >= 0.0
    ensures TickEffects([e], 0.1) == [e.(duration := 0.2)]
    ensures TickEffects(TickEffects([e], 0.1), 0.1) == [e.(duration := 0.1)]
    ensures TickEffects(TickEffects(TickEffects([e], 0.1), 0.1), 0.1) == []
    ensures TakeDamageSpec(c, e.damage * 0.1).0 == 1.0
  {
    assert TickEffects([e], 0.1) == TickOne(e, 0.1);
    assert TickEffects([e.(duration := 0.2)], 0.1) == TickOne(e.(duration := 0.2), 0.1);
    assert TickEffects([e.(duration := 0.1)], 0.1) == TickOne(e.(duration := 0.1), 0.1);
  }

  /** What one surviving effect deals on a tick: `effect.damage * deltaTime`. */
  function TickDamage(e: AreaEffect, dt: real): real
  {
    e.damage * dt
  }

  /** `n` hits of `d` through `takeDamage`, one after the other. */
  function Hits(s: Sheet, d: real, n: nat): Sheet
  {
    if n == 0 then s else TakeDamageSpec(Hits(s, d, n - 1), d).1
  }

  /**
   * What the surviving effects of one tick do to an entity at (px, py) that
   * appears `n` times in the entity list: each effect, in order, whose zone
   * holds the entity hits it `n` times for `damage * dt`.
   */
  function ZoneDamage(s: Sheet, survivors: seq<AreaEffect>, px: real, py: real, n: nat, dt: real): Sheet
  {
    if survivors == [] then s
    else
      var before := ZoneDamage(s, survivors[..|survivors| - 1], px, py, n, dt);
      var e := survivors[|survivors| - 1];
      if InZone(e, px, py) then Hits(before, TickDamage(e, dt), n) else before
  }

  /** An entity is in some zone of a list with one more effect iff it is in that effect's zone or in an earlier one. */
  lemma ZonesSnoc(effects: seq<AreaEffect>, effect: AreaEffect, px: real, py: real)
    ensures InAnyZone(effects + [effect], px, py) <==> InAnyZone(effects, px, py) || InZone(effect, px, py)
  {
    if InAnyZone(effects + [effect], px, py) {
      var k :| 0 <= k < |effects + [effect]| && InZone((effects + [effect])[k], px, py);
      if k < |effects| {
        assert effects[k] == (effects + [effect])[k];
      }
    }
    if InZone(effect, px, py) {
      assert (effects + [effect])[|effects|] == effect;
    } else if InAnyZone(effects, px, py) {
      var k :| 0 <= k < |effects| && InZone(effects[k], px, py);
      assert (effects + [effect])[k] == effects[k];
    }
  }

  /** One more surviving effect adds its hits after those of the earlier effects. */
  lemma ZoneDamageSnoc(s: Sheet, effects: seq<AreaEffect>, effect: AreaEffect, px: real, py: real, n: nat, dt: real)
    ensures ZoneDamage(s, effects + [effect], px, py, n, dt) ==
      if InZone(effect, px, py) then Hits(ZoneDamage(s, effects, px, py, n, dt), TickDamage(effect, dt), n)
      else ZoneDamage(s, effects, px, py, n, dt)
  {
    var all := effects + [effect];
    assert all[..|all| - 1] == effects && all[|all| - 1] == effect;
  }

  /** Outside every surviving zone an entity's sheet is left as it was. */
  lemma {:induction false} ZoneDamageOutside(s: Sheet, survivors: seq<AreaEffect>, px: real, py: real, n: nat, dt: real)
    requires !InAnyZone(survivors, px, py)
    ensures ZoneDamage(s, survivors, px, py, n, dt) == s
  {
    if survivors != [] {
      var init := survivors[..|survivors| - 1];
      ZonesSnoc(init, survivors[|survivors| - 1], px, py);
      assert survivors == init + [survivors[|survivors| - 1]];
      ZoneDamageOutside(s, init, px, py, n, dt);
    }
  }

  /**
   * Area damage touches only HP, SP and experience: level, attributes and
   * maxima are kept, and HP and SP never rise above their maxima when the
   * maxima are non-negative and the sheet starts within them.
   */
  lemma {:induction false} HitsKeepLimits(s: Sheet, d: real, n: nat)
    requires 0.0 <= s.maxHp && 0.0 <= s.maxSp && s.currentHp <= s.maxHp && s.currentSp <= s.maxSp
    ensures var r := Hits(s, d, n);
      r.level == s.level && r.stats == s.stats && r.maxHp == s.maxHp && r.maxSp == s.maxSp &&
      r.currentHp <= r.maxHp && r.currentSp <= r.maxSp
  {
    if n > 0 {
      HitsKeepLimits(s, d, n - 1);
    }
  }

  lemma {:induction false} ZoneDamageKeepsLimits(s: Sheet, survivors: seq<AreaEffect>, px: real, py: real, n: nat, dt: real)
    requires 0.0 <= s.maxHp && 0.0 <= s.maxSp && s.currentHp <= s.maxHp && s.currentSp <= s.maxSp
    ensures var r := ZoneDamage(s, survivors, px, py, n, dt);
      r.level == s.level && r.stats == s.stats && r.maxHp == s.maxHp && r.maxSp == s.maxSp &&
      r.currentHp <= r.maxHp && r.currentSp <= r.maxSp
  {
    if survivors != [] {
      var init := survivors[..|survivors| - 1];
      ZoneDamageKeepsLimits(s, init, px, py, n, dt);
      HitsKeepLimits(ZoneDamage(s, init, px, py, n, dt), TickDamage(survivors[|survivors| - 1], dt), n);
    }
  }

  /**
   * A 10-damage effect ticked by 0.1 s hits an entity at its centre for 1 HP
   * (vitality 0 or more, HP above 1), and twice that when the entity is listed
   * twice.
   */
  lemma ZoneDamageScenario(e: AreaEffect, c: Sheet)
    requires e.damage == 10.0 && e.radius >= 0.0 && c.stats.vit >= 0.0 && c.currentHp > 2.0
    ensures ZoneDamage(c, [e], e.x, e.y, 1, 0.1) == c.(currentHp := c.currentHp - 1.0)
    ensures ZoneDamage(c, [e], e.x, e.y, 2, 0.1) == c.(currentHp := c.currentHp - 2.0)
  {
    assert [e][..0] == [];
    assert InZone(e, e.x, e.y);
    assert TickDamage(e, 0.1) == 1.0;
    assert Hits(c, 1.0, 1) == TakeDamageSpec(c, 1.0).1 == c.(currentHp := c.currentHp - 1.0);
  }

  // ---------------------------------------------------------------------------
  // The combat system
  // ---------------------------------------------------------------------------

  /**
   * The result of `attack`. The source reads `isCritical` off the damage,
   * which is a number, so the field is always undefined (`None`).
   */
  datatype AttackResult = AttackResult(damage: real, isCritical: Option<bool>, isCombo: bool)

  /** The global combo rule: within 500 ms of the last attack, by the same attacker. */
  predicate IsCombo(now: int, comboTimer: int, lastAttacker: Character?, attacker: Character)
  {
    now - comboTimer < 500 && attacker == lastAttacker
  }

  class CombatSystem {
    var comboTimer: int
    var comboCount: int
    var lastAttacker: Character?
    var areaEffects: seq<AreaEffect>

    constructor ()
      ensures comboTimer == 0 && comboCount == 0 && lastAttacker == null && areaEffects == []
    {
      comboTimer := 0;
      comboCount := 0;
      lastAttacker := null;
      areaEffects := [];
    }

    /**
     * Resolves one hit. The combo bonus uses the count before this attack; the
     * count then becomes old + 1 on a combo and 1 otherwise. An attacker's rage
     * grows by 5 on a combo only when it is already non-zero.
     */
    method Attack(attacker: Character, target: Character, skill: Option<Skill>, now: int, roll: real)
      returns (r: AttackResult)
      modifies this`comboCount, this`comboTimer, this`lastAttacker, attacker`rage
      modifies target`currentHp, target`target, target`exp, target`currentSp
      ensures r.isCombo == IsCombo(now, old(comboTimer), old(lastAttacker), attacker)
      ensures var d := ElementAdjusted(
                CalculateDamage(old(attacker.stats), old(target.stats), skill, r.isCombo, old(comboCount), roll),
                skill, old(target.element));
              (r.damage, target.CurrentSheet()) == TakeDamageSpec(old(target.CurrentSheet()), d)
      ensures target.target == attacker
      ensures comboCount == (if r.isCombo then old(comboCount) + 1 else 1)
      ensures comboTimer == now && lastAttacker == attacker
      ensures attacker.rage == (if r.isCombo && old(attacker.rage) != 0.0 then old(attacker.rage) + 5.0 else old(attacker.rage))
      ensures r.isCritical == None
    {
      var isCombo := now - comboTimer < 500 && attacker == lastAttacker;
      var damage := CalculateDamage(attacker.stats, target.stats, skill, isCombo, comboCount, roll);
      if skill.Some? && skill.value.element.Some? {
        damage := damage * ElementMultiplier(skill.value.element.value, target.element);
      }
      var finalDamage := target.TakeDamage(damage, attacker);
      if isCombo {
        comboCount := comboCount + 1;
        if attacker.rage != 0.0 {
          attacker.rage := attacker.rage + 5.0;
        }
      } else {
        comboCount := 1;
      }
      comboTimer := now;
      lastAttacker := attacker;
      r := AttackResult(finalDamage, None, isCombo);
    }

    /** At 100 rage or more: strength x1.5, vitality x0.7, rage spent; below that nothing changes. */
    method ApplyBerserk(c: Character) returns (ok: bool)
      modifies c`stats, c`rage
      ensures ok == (old(c.rage) >= 100.0)
      ensures ok ==> c.stats == old(c.stats).(str := old(c.stats).str * 1.5, vit := old(c.stats).vit * 0.7) && c.rage == 0.0
      ensures !ok ==> c.stats == old(c.stats) && c.rage == old(c.rage)
    {
      if c.rage >= 100.0 {
        c.stats := c.stats.(str := c.stats.str * 1.5);
        c.stats := c.stats.(vit := c.stats.vit * 0.7);
        c.rage := 0.0;
        return true;
      }
      return false;
    }

    /** Registers a new effect at the end of the list, stamped with the current time. */
    method CreateAoeEffect(x: real, y: real, radius: real, damage: real, duration: real, now: int)
      modifies this`areaEffects
      ensures areaEffects == old(areaEffects) + [AreaEffect(x, y, radius, damage, duration, now)]
    {
      areaEffects := areaEffects + [AreaEffect(x, y, radius, damage, duration, now)];
    }

    /**
     * One tick. The combo count decays to 0 once more than 1000 ms have passed
     * since the last attack. Every effect's duration drops by `deltaTime`; a
     * surviving effect hits (through `takeDamage`, with no attacker) every
     * entity within its radius for `damage * deltaTime`; the expired effects
     * are dropped. Each entity ends with the sheet `ZoneDamage` gives for its
     * place and its number of occurrences in the list; an entity outside every
     * surviving effect is untouched.
     */
    method Update(deltaTime: real, now: int, entities: seq<Character>)
      modifies this`comboCount, this`areaEffects
      modifies (set e | e in entities)`currentHp, (set e | e in entities)`target
      modifies (set e | e in entities)`exp, (set e | e in entities)`currentSp
      ensures comboCount == (if now - old(comboTimer) > 1000 then 0 else old(comboCount))
      ensures areaEffects == TickEffects(old(areaEffects), deltaTime)
      ensures forall e :: e in entities ==> e.x == old(e.x) && e.y == old(e.y)
      ensures forall e :: e in entities ==>
        e.CurrentSheet() == ZoneDamage(old(e.CurrentSheet()), areaEffects, e.x, e.y, multiset(entities)[e], deltaTime)
      ensures forall e :: e in entities && !InAnyZone(areaEffects, e.x, e.y) ==> unchanged(e)
      ensures forall e :: e in entities && InAnyZone(areaEffects, e.x, e.y) ==> e.target == null
    {
      ghost var start := map e | e in entities :: e.CurrentSheet();
      if now - comboTimer > 1000 {
        comboCount := 0;
      }
      var combo := comboCount;
      var effects := areaEffects;
      var kept: seq<AreaEffect> := [];
      var i := 0;
      while i < |effects|
        invariant 0 <= i <= |effects|
        invariant kept == TickEffects(effects[..i], deltaTime)
        invariant comboCount == combo
        invariant forall e :: e in entities ==> e in start && start[e] == old(e.CurrentSheet())
        invariant forall e :: e in entities ==>
          e.CurrentSheet() == ZoneDamage(start[e], kept, e.x, e.y, multiset(entities)[e], deltaTime)
        invariant forall e :: e in entities && !InAnyZone(kept, e.x, e.y) ==> unchanged(e)
        invariant forall e :: e in entities && InAnyZone(kept, e.x, e.y) ==> e.target == null
      {
        var effect := effects[i].(duration := effects[i].duration - deltaTime);
        if effect.duration > 0.0 {
          ApplySurvivor(effect, deltaTime, entities, kept, start);
          kept := kept + [effect];
        }
        assert effects[..i + 1][..i] == effects[..i];
        i := i + 1;
      }
      assert effects[..i] == effects;
      areaEffects := kept;
    }

    /**
     * One surviving effect applied on top of the earlier ones: every entity's
     * sheet moves from `ZoneDamage` of the earlier effects to `ZoneDamage`
     * with this one added.
     */
    method ApplySurvivor(effect: AreaEffect, deltaTime: real, entities: seq<Character>,
                         ghost kept: seq<AreaEffect>, ghost start: map<Character, Sheet>)
      requires forall e :: e in entities ==>
        e in start && e.CurrentSheet() == ZoneDamage(start[e], kept, e.x, e.y, multiset(entities)[e], deltaTime)
      requires forall e :: e in entities && InAnyZone(kept, e.x, e.y) ==> e.target == null
      modifies (set e | e in entities)`currentHp, (set e | e in entities)`target
      modifies (set e | e in entities)`exp, (set e | e in entities)`currentSp
      ensures forall e :: e in entities ==>
        e.CurrentSheet() == ZoneDamage(start[e], kept + [effect], e.x, e.y, multiset(entities)[e], deltaTime)
      ensures forall e :: e in entities ==>
        (InAnyZone(kept + [effect], e.x, e.y) <==> InAnyZone(kept, e.x, e.y) || InZone(effect, e.x, e.y))
      ensures forall e :: e in entities && !InZone(effect, e.x, e.y) ==> unchanged(e)
      ensures forall e :: e in entities && InAnyZone(kept + [effect], e.x, e.y) ==> e.target == null
    {
      HitEntities(effect, deltaTime, entities);
      forall e | e in entities
        ensures InAnyZone(kept + [effect], e.x, e.y) <==> InAnyZone(kept, e.x, e.y) || InZone(effect, e.x, e.y)
        ensures ZoneDamage(start[e], kept + [effect], e.x, e.y, multiset(entities)[e], deltaTime) ==
          (if InZone(effect, e.x, e.y)
           then Hits(ZoneDamage(start[e], kept, e.x, e.y, multiset(entities)[e], deltaTime),
                     TickDamage(effect, deltaTime), multiset(entities)[e])
           else ZoneDamage(start[e], kept, e.x, e.y, multiset(entities)[e], deltaTime))
      {
        ZonesSnoc(kept, effect, e.x, e.y);
        ZoneDamageSnoc(start[e], kept, effect, e.x, e.y, multiset(entities)[e], deltaTime);
      }
    }

    /**
     * The `forEach` over the entities for one surviving effect: each entity in
     * its zone takes `damage * deltaTime` through `takeDamage`, once per
     * occurrence in the list; the others are untouched.
     */
    method HitEntities(effect: AreaEffect, deltaTime: real, entities: seq<Character>)
      modifies (set e | e in entities)`currentHp, (set e | e in entities)`target
      modifies (set e | e in entities)`exp, (set e | e in entities)`currentSp
      ensures forall e :: e in entities ==>
        e.CurrentSheet() == (if InZone(effect, e.x, e.y)
                             then Hits(old(e.CurrentSheet()), TickDamage(effect, deltaTime), multiset(entities)[e])
                             else old(e.CurrentSheet()))
      ensures forall e :: e in entities && !InZone(effect, e.x, e.y) ==> unchanged(e)
      ensures forall e :: e in entities && InZone(effect, e.x, e.y) ==> e.target == null
    {
      var j := 0;
      while j < |entities|
        invariant 0 <= j <= |entities|
        invariant forall e :: e in entities ==>
          e.CurrentSheet() == (if InZone(effect, e.x, e.y)
                               then Hits(old(e.CurrentSheet()), TickDamage(effect, deltaTime), multiset(entities[..j])[e])
                               else old(e.CurrentSheet()))
        invariant forall e :: e in entities && !(e in entities[..j] && InZone(effect, e.x, e.y)) ==> unchanged(e)
        invariant forall e :: e in entities[..j] && InZone(effect, e.x, e.y) ==> e.target == null
      {
        var entity := entities[j];
        assert entities[..j + 1] == entities[..j] + [entity];
        if InZone(effect, entity.x, entity.y) {
          var _ := entity.TakeDamage(TickDamage(effect, deltaTime), null);
        }
        j := j + 1;
      }
      assert entities[..j] == entities;
    }
  }
}
