/**
 * Characters: the entity shared by players, enemies and NPCs, with the
 * progression rules — the experience curve, the single-step level-up with its
 * fixed stat growth, defence-mitigated damage and the death penalty.
 *
 * The player-specific fields (job, inventory, combo and rage counters,
 * equipment, clan) live on the same class, since a player is a character with
 * those fields added; the player's own operations are in module Players.
 */
module Characters {
  import opened Common

  // ---------------------------------------------------------------------------
  // Experience curve
  // ---------------------------------------------------------------------------

  function Pow(b: real, n: nat): real
  {
    if n == 0 then 1.0 else b * Pow(b, n - 1)
  }

  lemma {:induction false} PowAtLeastOne(b: real, n: nat)
    requires b >= 1.0
    ensures Pow(b, n) >= 1.0
  {
    if n > 0 {
      PowAtLeastOne(b, n - 1);
    }
  }

  /** `1.2 ** (level - 1)` for any integer level (a negative exponent divides). */
  function Growth(level: int): (g: real)
    ensures g > 0.0
    ensures level >= 1 ==> g >= 1.0
  {
    if level >= 1 then
      PowAtLeastOne(1.2, level - 1);
      Pow(1.2, level - 1)
    else
      PowAtLeastOne(1.2, 1 - level);
      1.0 / Pow(1.2, 1 - level)
  }

  /** `Math.floor(100 * Math.pow(1.2, level - 1))` */
  function ExpToNextLevel(level: int): (r: int)
    ensures level >= 1 ==> r >= 100
  {
    (100.0 * Growth(level)).Floor
  }

  lemma ExpAtLevelOne()
    ensures ExpToNextLevel(1) == 100
  {
    assert Growth(1) == 1.0;
  }

  /** Each level needs at least 20 more experience than the one before. */
  lemma ExpCurveIncreasing(level: int)
    requires level >= 1
    ensures ExpToNextLevel(level + 1) >= ExpToNextLevel(level) + 20
  {
    var g := Growth(level);
    assert Growth(level + 1) == 1.2 * g;
    var a := 100.0 * g;
    assert 100.0 * Growth(level + 1) == a + 20.0 * g;
    assert 20.0 * g >= 20.0;
    assert (a + 20.0 * g).Floor >= (a + 20.0).Floor;
    assert (a + 20.0).Floor == a.Floor + 20;
  }

  // ---------------------------------------------------------------------------
  // Progression state and its rules, as values
  // ---------------------------------------------------------------------------

  /** The fields the progression rules read and write. */
  datatype Sheet = Sheet(
    level: int,
    exp: real,
    stats: Stats,
    maxHp: real,
    currentHp: real,
    maxSp: real,
    currentSp: real)

  /** `levelUp`: growth is computed from the attributes before they rise. */
  function LevelUpSpec(c: Sheet): Sheet
  {
    var maxHp := c.maxHp + 20.0 + c.stats.vit * 2.0;
    var maxSp := c.maxSp + 10.0 + c.stats.intel * 1.5;
    var s := c.stats;
    Sheet(c.level + 1, 0.0,
          s.(str := s.str + 2.0, vit := s.vit + 1.0, dex := s.dex + 1.0, intel := s.intel + 1.0),
          maxHp, maxHp, maxSp, maxSp)
  }

  /** `gainExp`: a single threshold check; at most one level per call. */
  function GainExpSpec(c: Sheet, amount: real): (bool, Sheet)
  {
    var e := c.exp + amount;
    if e >= ExpToNextLevel(c.level) as real then (true, LevelUpSpec(c.(exp := e)))
    else (false, c.(exp := e))
  }

  /** `die`: lose 5% of the current threshold (never below 0), respawn at 30% HP and SP. */
  function DieSpec(c: Sheet): Sheet
  {
    c.(exp := Max(0.0, c.exp - ExpToNextLevel(c.level) as real * 0.05),
       currentHp := c.maxHp * 0.3,
       currentSp := c.maxSp * 0.3)
  }

  /** `takeDamage`: mitigate by `0.8 * vit`, at least 1, and die when HP reaches 0. */
  function TakeDamageSpec(c: Sheet, damage: real): (real, Sheet)
  {
    var dealt := Max(1.0, damage - c.stats.vit * 0.8);
    var hp := c.currentHp - dealt;
    (dealt, if hp <= 0.0 then DieSpec(c.(currentHp := hp)) else c.(currentHp := hp))
  }

  /** A level-up raises the level by one, resets experience, refills HP and SP and grows the attributes. */
  lemma LevelUpEffect(c: Sheet)
    ensures var n := LevelUpSpec(c);
      && n.level == c.level + 1 && n.exp == 0.0
      && n.maxHp == c.maxHp + 20.0 + 2.0 * c.stats.vit
      && n.maxSp == c.maxSp + 10.0 + 1.5 * c.stats.intel
      && n.currentHp == n.maxHp && n.currentSp == n.maxSp
      && n.stats.str == c.stats.str + 2.0 && n.stats.vit == c.stats.vit + 1.0
      && n.stats.dex == c.stats.dex + 1.0 && n.stats.intel == c.stats.intel + 1.0
      && n.stats.agi == c.stats.agi && n.stats.luk == c.stats.luk
  {
  }

  /**
   * `gainExp` reports a level-up exactly when the new total reaches the
   * threshold, and then rises by one level only, discarding any overshoot.
   */
  lemma GainExpSingleStep(c: Sheet, amount: real)
    ensures var (up, n) := GainExpSpec(c, amount);
      && (up <==> c.exp + amount >= ExpToNextLevel(c.level) as real)
      && (up ==> n == LevelUpSpec(c) && n.level == c.level + 1 && n.exp == 0.0)
      && (!up ==> n == c.(exp := c.exp + amount))
  {
  }

  /** Gaining exactly 100 experience at level 1 from 0 gives exactly one level and 0 experience. */
  lemma GainExpScenario(c: Sheet)
    requires c.level == 1 && c.exp == 0.0
    ensures GainExpSpec(c, 100.0).0
    ensures GainExpSpec(c, 100.0).1.level == 2 && GainExpSpec(c, 100.0).1.exp == 0.0
  {
    ExpAtLevelOne();
  }

  /**
   * The death penalty keeps the level, never leaves experience negative and
   * never raises it, and restores 30% of HP and SP.
   */
  lemma DiePenalty(c: Sheet)
    requires c.level >= 1
    ensures var n := DieSpec(c);
      && n.level == c.level && n.stats == c.stats && n.maxHp == c.maxHp && n.maxSp == c.maxSp
      && n.exp >= 0.0 && (c.exp >= 0.0 ==> n.exp <= c.exp)
      && n.currentHp == 0.3 * c.maxHp && n.currentSp == 0.3 * c.maxSp
  {
  }

  /** Threshold 100 and 40 experience: dying leaves 35. */
  lemma DieScenario(c: Sheet)
    requires c.level == 1 && c.exp == 40.0
    ensures DieSpec(c).exp == 35.0
  {
    ExpAtLevelOne();
  }

  /**
   * `takeDamage` deals `max(1, damage - 0.8 vit)`, at least 1; HP drops by
   * exactly that unless it reaches 0, when the death penalty applies instead,
   * so a character with positive max HP is never left at or below 0 HP.
   */
  lemma TakeDamageEffect(c: Sheet, damage: real)
    ensures var (dealt, n) := TakeDamageSpec(c, damage);
      && dealt >= 1.0 && dealt >= damage - 0.8 * c.stats.vit
      && n.level == c.level && n.stats == c.stats && n.maxHp == c.maxHp && n.maxSp == c.maxSp
      && (c.currentHp - dealt > 0.0 ==> n == c.(currentHp := c.currentHp - dealt))
      && (c.currentHp - dealt <= 0.0 ==> n == DieSpec(c))
      && (c.maxHp > 0.0 ==> n.currentHp > 0.0)
  {
  }

  // ---------------------------------------------------------------------------
  // The character object
  // ---------------------------------------------------------------------------

  /** Constructor options; `None` stands for a missing (or falsy) option. */
  datatype CharacterConfig = CharacterConfig(
    name: Option<string>,
    level: Option<int>,
    exp: Option<real>,
    gold: Option<real>,
    stats: map<Stat, real>,
    maxHp: Option<real>,
    maxSp: Option<real>,
    x: Option<real>,
    y: Option<real>,
    job: Option<string>,
    element: Option<Element>)

  /** `option || fallback` for a number: 0 counts as missing. */
  function OrReal(o: Option<real>, fallback: real): real
  {
    if o.Some? && o.value != 0.0 then o.value else fallback
  }

  function OrInt(o: Option<int>, fallback: int): int
  {
    if o.Some? && o.value != 0 then o.value else fallback
  }

  function OrString(o: Option<string>, fallback: string): string
  {
    if o.Some? && o.value != "" then o.value else fallback
  }

  function StatOr(m: map<Stat, real>, s: Stat, fallback: real): real
  {
    if s in m && m[s] != 0.0 then m[s] else fallback
  }

  class Character {
    const id: string
    var name: string
    var level: int
    var exp: real
    var gold: real
    var stats: Stats
    var currentHp: real
    var maxHp: real
    var currentSp: real
    var maxSp: real
    var x: real
    var y: real
    var target: Character?
    var element: Element
    // player fields
    var job: string
    var jobLevel: int
    var skillPoints: int
    var inventory: seq<Item>
    var clan: Option<string>
    var comboCount: int
    var lastAttackTime: int
    var rage: real
    var equipment: map<string, Item>

    function CurrentSheet(): Sheet
      reads this`level, this`exp, this`stats, this`maxHp, this`currentHp, this`maxSp, this`currentSp
    {
      Sheet(level, exp, stats, maxHp, currentHp, maxSp, currentSp)
    }

    /**
     * The character and player defaults. Without a configured max HP the
     * character starts at 100 HP out of `100 + 5 vit` (and 50 SP out of
     * `50 + 3 int`). The id generator is not part of this model: the id is given.
     */
    constructor (id: string, config: CharacterConfig)
      ensures this.id == id && name == OrString(config.name, "Unknown")
      ensures x == OrReal(config.x, 0.0) && y == OrReal(config.y, 0.0)
      ensures level == OrInt(config.level, 1) && exp == OrReal(config.exp, 0.0) && gold == OrReal(config.gold, 0.0)
      ensures stats == Stats(StatOr(config.stats, Str, 10.0), StatOr(config.stats, Vit, 8.0),
                             StatOr(config.stats, Agi, 5.0), StatOr(config.stats, Dex, 5.0),
                             StatOr(config.stats, Int, 3.0), StatOr(config.stats, Luk, 1.0))
      ensures currentHp == OrReal(config.maxHp, 100.0) && maxHp == OrReal(config.maxHp, 100.0 + stats.vit * 5.0)
      ensures currentSp == OrReal(config.maxSp, 50.0) && maxSp == OrReal(config.maxSp, 50.0 + stats.intel * 3.0)
      ensures target == null && job == OrString(config.job, "novice") && jobLevel == 1 && skillPoints == 0
      ensures inventory == [] && clan == None && comboCount == 0 && lastAttackTime == 0 && rage == 0.0
      ensures equipment == map[] && element == (if config.element.Some? then config.element.value else Neutral)
    {
      this.id := id;
      name := OrString(config.name, "Unknown");
      level := OrInt(config.level, 1);
      exp := OrReal(config.exp, 0.0);
      gold := OrReal(config.gold, 0.0);
      var s := Stats(StatOr(config.stats, Str, 10.0), StatOr(config.stats, Vit, 8.0),
                     StatOr(config.stats, Agi, 5.0), StatOr(config.stats, Dex, 5.0),
                     StatOr(config.stats, Int, 3.0), StatOr(config.stats, Luk, 1.0));
      stats := s;
      currentHp := OrReal(config.maxHp, 100.0);
      maxHp := OrReal(config.maxHp, 100.0 + s.vit * 5.0);
      currentSp := OrReal(config.maxSp, 50.0);
      maxSp := OrReal(config.maxSp, 50.0 + s.intel * 3.0);
      x := OrReal(config.x, 0.0);
      y := OrReal(config.y, 0.0);
      target := null;
      element := if config.element.Some? then config.element.value else Neutral;
      job := OrString(config.job, "novice");
      jobLevel := 1;
      skillPoints := 0;
      inventory := [];
      clan := None;
      comboCount := 0;
      lastAttackTime := 0;
      rage := 0.0;
      equipment := map[];
    }

    /** Adds the experience, then levels up once if the threshold of the current level is reached. */
    method GainExp(amount: real) returns (leveledUp: bool)
      modifies this`level, this`exp, this`stats, this`maxHp, this`currentHp, this`maxSp, this`currentSp
      ensures (leveledUp, CurrentSheet()) == GainExpSpec(old(CurrentSheet()), amount)
    {
      exp := exp + amount;
      var expNeeded := ExpToNextLevel(level);
      if exp >= expNeeded as real {
        LevelUp();
        return true;
      }
      return false;
    }

    method LevelUp()
      modifies this`level, this`exp, this`stats, this`maxHp, this`currentHp, this`maxSp, this`currentSp
      ensures CurrentSheet() == LevelUpSpec(old(CurrentSheet()))
    {
      level := level + 1;
      exp := 0.0;
      maxHp := maxHp + 20.0 + stats.vit * 2.0;
      currentHp := maxHp;
      maxSp := maxSp + 10.0 + stats.intel * 1.5;
      currentSp := maxSp;
      stats := stats.(str := stats.str + 2.0);
      stats := stats.(vit := stats.vit + 1.0);
      stats := stats.(dex := stats.dex + 1.0);
      stats := stats.(intel := stats.intel + 1.0);
    }

    /** Applies mitigated damage, remembers the attacker as this character's target, and dies at 0 HP. */
    method TakeDamage(damage: real, attacker: Character?) returns (dealt: real)
      modifies this`currentHp, this`target, this`exp, this`currentSp
      ensures (dealt, CurrentSheet()) == TakeDamageSpec(old(CurrentSheet()), damage)
      ensures target == attacker
    {
      var defense := stats.vit * 0.8;
      dealt := Max(1.0, damage - defense);
      currentHp := currentHp - dealt;
      target := attacker;
      if currentHp <= 0.0 {
        Die();
      }
    }

    method Die()
      modifies this`exp, this`currentHp, this`currentSp
      ensures CurrentSheet() == DieSpec(old(CurrentSheet()))
    {
      exp := Max(0.0, exp - ExpToNextLevel(level) as real * 0.05);
      currentHp := maxHp * 0.3;
      currentSp := maxSp * 0.3;
    }
  }
}
