/**
 * Value types shared by the game-rules layer: the six base attributes, the
 * element set, item and skill records, and the additive application of an
 * item's stat deltas.
 */
module Common {

  datatype Option<+T> = None | Some(value: T)

  function Max(a: real, b: real): real { if a >= b then a else b }
  function Min(a: real, b: real): real { if a <= b then a else b }

  /** The elements of the elemental chart; `Neutral` is the default element of an entity. */
  datatype Element = Fire | Water | Wind | Earth | Neutral

  /** The six base attributes (`int` is spelled `Int` here, and `intel` as a field). */
  datatype Stat = Str | Vit | Agi | Dex | Int | Luk

  datatype Stats = Stats(str: real, vit: real, agi: real, dex: real, intel: real, luk: real)
  {
    function Get(s: Stat): real
    {
      match s
      case Str => str
      case Vit => vit
      case Agi => agi
      case Dex => dex
      case Int => intel
      case Luk => luk
    }

    /** `stats[s] += d` */
    function Add(s: Stat, d: real): (r: Stats)
      ensures r.Get(s) == Get(s) + d
      ensures forall t :: t != s ==> r.Get(t) == Get(t)
    {
      match s
      case Str => this.(str := str + d)
      case Vit => this.(vit := vit + d)
      case Agi => this.(agi := agi + d)
      case Dex => this.(dex := dex + d)
      case Int => this.(intel := intel + d)
      case Luk => this.(luk := luk + d)
    }

    /** Every listed delta added to its attribute; unlisted attributes keep their value. */
    function WithDeltas(d: map<Stat, real>): Stats
    {
      Stats(str + Delta(d, Str), vit + Delta(d, Vit), agi + Delta(d, Agi),
            dex + Delta(d, Dex), intel + Delta(d, Int), luk + Delta(d, Luk))
    }
  }

  /** The delta an item lists for `s`, 0 when it lists none. */
  function Delta(d: map<Stat, real>, s: Stat): real
  {
    if s in d then d[s] else 0.0
  }

  function Negated(d: map<Stat, real>): map<Stat, real>
  {
    map s | s in d :: -d[s]
  }

  /**
   * An inventory entry or piece of equipment. `kind` is the weapon type the
   * skill system compares with a skill's required weapon; `stats` lists the
   * attribute deltas the item grants when equipped. An absent or empty
   * `requiredJob` is `None`.
   */
  datatype Item = Item(
    id: string,
    stackable: bool,
    quantity: int,
    maxStack: int,
    slot: string,
    kind: string,
    requiredJob: Option<string>,
    requiredLevel: Option<int>,
    stats: map<Stat, real>)

  /**
   * A skill definition. `kind` is the skill's `type` ("damage", "heal",
   * "buff", "attack", ...). `power` is read by the combat formula and the heal
   * effect; `basePower` and `powerPerLevel` by the skill-level power curve.
   */
  datatype Skill = Skill(
    id: string,
    kind: string,
    power: real,
    spCost: real,
    cooldown: real,
    castTime: real,
    requiredWeapon: Option<string>,
    element: Option<Element>,
    basePower: real,
    powerPerLevel: real)

  /**
   * `for (const stat in deltas) stats[stat] += deltas[stat]`: the loop shared by
   * equipping on the player and on the inventory system.
   */
  method AddDeltas(s: Stats, d: map<Stat, real>) returns (r: Stats)
    ensures forall t :: r.Get(t) == s.Get(t) + Delta(d, t)
    ensures r == s.WithDeltas(d)
  {
    r := s;
    var todo := d.Keys;
    while todo != {}
      invariant todo <= d.Keys
      invariant forall t :: r.Get(t) == s.Get(t) + (if t in d && t !in todo then d[t] else 0.0)
      decreases todo
    {
      var k :| k in todo;
      r := r.Add(k, d[k]);
      todo := todo - {k};
    }
  }

  /** Removing what an item added restores every attribute (the basis of a clean unequip). */
  lemma DeltasUndo(s: Stats, d: map<Stat, real>)
    ensures s.WithDeltas(d).WithDeltas(Negated(d)) == s
  {
  }

  /** Two items' deltas give the same attributes in either equip order. */
  lemma DeltasCommute(s: Stats, d1: map<Stat, real>, d2: map<Stat, real>)
    ensures s.WithDeltas(d1).WithDeltas(d2) == s.WithDeltas(d2).WithDeltas(d1)
  {
  }
}
