# Knight Ragnarok Hybrid: game rules in Dafny

This project models the rules layer of a browser RPG that mixes Knight Online ("KO")
and Ragnarok Online ("RO") mechanics. Each JavaScript source file of the rules layer
becomes one Dafny module, with the same flavour as the original:

- **Combat** (`combat.dfy`, module `Combat`):
  - the hybrid damage formula with the critical roll passed in;
  - the directed element chart;
  - the global combo tracker;
  - area effects that are decremented, applied and filtered each tick.
- **Skills** (`skill.dfy`, `Skills`):
  - the ordered validation chain of a cast;
  - SP payment and cooldown start, damage and heal effects;
  - the cooldown tick and skill levelling.
- **Characters** (`character.dfy`, `Characters`):
  - the experience curve and the single-step level-up;
  - defence-mitigated damage and the death penalty.
- **Players** (`player.dfy`, `Players`): job change, the per-player combo and rage counter, the SP check of a cast, the 40-entry inventory with stacking, and equipping.
- **Inventory** (`inventory.dfy`, `Inventory`):
  - the weighted item count and stacking;
  - single equipment slots and the two-accessory and four-card arrays;
  - crafting.
- **Quests** (`quest.dfy`, `Quests`): start gates, per-objective counters, the completion check, and the move from the active to the completed list with rewards.
- **Chat** (`chat_system.dfy`, `Chat`, from `js/systems/clan.js`):
  - the one-second rate limit;
  - the global log bounded at 100 and the channel logs bounded at 50;
  - the slash-command parser, emotes and system notices.
- **Clans** (`clan_system.dfy`, `Clans`, from `js/systems/chat.js`): clans and membership, clan wars and their score, clan skills and the clan bonus.
- **Utilities** (`utils.dfy`, `GameUtils`): clamp, hex and RGB colour conversion, the legacy damage formula, `formatTime`, and the progress-bar fraction.
- **NPCs** (`npc.dfy`, `Npcs`): construction defaults, the quest-offer filter, the interaction dispatch, warp options, and the wander step.

The shared value types are in `common.dfy` (module `Common`): stats, items, skills, elements, and applying a map of stat deltas.

### How the model maps the program

- **Objects updated in place are classes.** The character, combat, skill, inventory, quest, chat and clan systems are classes. Their methods carry field-granular `modifies` clauses. Each method's `ensures` ties its new state to a value-level specification function (`GainExpSpec`, `AddItemSpec`, `EquipSpec`, `CompleteSpec`, `CreditSpec`, `Tick`, …), and the lemmas state the source's promises about those functions.
- **Player and NPC.** The player is `Characters.Character` with the player-only fields added, because Dafny here has no subclassing. The `Player` methods are module-level methods of `Players` that take the character. The NPC reads and returns values only, so it is a datatype with functions.
- **Inputs that come from outside are parameters:**
  - the clock (`Date.now()`, `game.time.now`);
  - `deltaTime`;
  - `Math.random()` rolls and the random wander offsets;
  - the character id;
  - the entity list of the combat update;
  - the callees the source does not define (see below).
- **Numbers.** Fractional coefficients are `real`; time in milliseconds is `int`.
- **JavaScript truthiness is spelled out.** A value used with `||` or `if (x)` counts as absent when it is 0, `""`, `null` or `undefined`. Examples: `skill?.power || str`, `skillLevels[id] || 1`, `!this.clanWar.score[clanId]`, `if (attacker.rage)`.

Some behaviours of the code are easy to miss, and the model keeps them:

- Defence is applied twice to a combat hit: once in `calculateDamage` and again in `takeDamage`.
- `attack` returns `isCritical: damage.isCritical` on a number, which is always `undefined` (the model has `None`).
- `attack` grows rage only when the rage is already non-zero.
- An area effect hit goes through `takeDamage`, so each tick deals at least 1. A 10-damage effect lasting 0.3 s, ticked every 0.1 s, deals 1 on each of its two surviving ticks, 2 in total (`Combat.AreaEffectScenario`, `Combat.ZoneDamageScenario`).
- An entity listed twice in the entity list is hit twice by every effect whose zone holds it.
- `isStationary` is always true, so an NPC never wanders.
- A quest NPC throws when its offer filter reaches a quest the player does not hold that has no `requirements` object.

## Model

| member | source | states |
|---|---|---|
| Common.Stats.Add | js/systems/inventory.js:80-82 | adding a delta to one stat changes that stat by exactly the delta and no other stat |
| Common.AddDeltas | js/systems/inventory.js:79-83 | the `for (stat in item.stats)` loop adds each listed delta to its stat and leaves unlisted stats unchanged; the result is the stats with the delta map applied |
| Common.DeltasUndo | js/systems/inventory.js:79-83 | applying an item's deltas and then their negation restores the stats |
| Common.DeltasCommute | js/systems/inventory.js:79-83 | equipping two items in either order gives the same stats |
| GameUtils.Clamp | js/core/utils.js:5-7 | the result never exceeds `hi`, is at least `lo` when `lo <= hi`, is `v` when `v` is in range, and is the nearer bound otherwise |
| GameUtils.NatToString | js/systems/chat.js:12 | the decimal rendering used in the clan id is a non-empty string of digits |
| GameUtils.HexToRgb | js/core/utils.js:20-27 | every channel read from a string is below 256 |
| GameUtils.MalformedIsBlack | js/core/utils.js:21-26 | anything but an optional `#` and six hex digits gives black `{0,0,0}` |
| GameUtils.HashOptional | js/core/utils.js:21 | the leading `#` is optional: six digits read the same with or without it |
| GameUtils.HexToRgbIgnoresCase | js/core/utils.js:21 | the pattern is case-insensitive: lower-casing the input does not change the colour |
| GameUtils.ToHex | js/core/utils.js:31 | `toString(16)` always yields at least one digit |
| GameUtils.ChannelHexDigits | js/core/utils.js:30-33 | a channel below 256 renders as exactly two lower-case digits, high nibble first, with a `0` pad when needed |
| GameUtils.HexDigitValue | js/core/utils.js:23-25 | `parseInt(_, 16)` reads back every digit `toString(16)` writes |
| GameUtils.RgbToHexShape | js/core/utils.js:29-34 | for channels in 0..255 the text is `#` followed by exactly six lower-case hex digits |
| GameUtils.HexRoundTrip | js/core/utils.js:20-34 | `hexToRgb(rgbToHex(r, g, b))` gives back `{r, g, b}` for every channel in 0..255 |
| GameUtils.PreCritDamage | js/core/utils.js:41-43 | the pre-critical damage is at least 1 and at least `str * (power \|\| 1) - 0.5 * vit` |
| GameUtils.LegacyDamage | js/core/utils.js:39-52 | the hit is critical iff the roll is below `dex * 0.01`; the damage is at least 1, and a critical hit doubles the pre-critical damage (`critMultiplier` 2.0) |
| GameUtils.LegacyCritBounds | js/core/utils.js:46 | with no dexterity a hit is never critical; with 100 or more it always is |
| GameUtils.FormatTimeShape | js/core/utils.js:107-111 | for a non-negative time, minutes and seconds split the whole seconds exactly, seconds lie in 0..59, and the text is the minutes, a colon and two zero-padded second digits |
| GameUtils.ProgressPercent | js/core/utils.js:96-97 | the bar fraction lies in [0, 1] and equals `current / max` when that is already in range |
| Characters.Growth | js/entities/character.js:72 | `1.2^(level-1)` is positive, and at least 1 from level 1 on |
| Characters.ExpToNextLevel | js/entities/character.js:70-73 | from level 1 on, at least 100 experience is needed |
| Characters.ExpAtLevelOne | js/entities/character.js:72 | level 1 needs exactly 100 experience |
| Characters.ExpCurveIncreasing | js/entities/character.js:70-73 | each level needs at least 20 more experience than the previous one |
| Characters.LevelUpEffect | js/entities/character.js:75-94 | a level-up adds one level and zeroes exp; it grows max HP by `20 + 2*vit` and max SP by `10 + 1.5*int` using the pre-increment stats; it refills HP and SP; it raises str by 2 and vit, dex and int by 1, and leaves agi and luk unchanged |
| Characters.GainExpSingleStep | js/entities/character.js:59-68 | `gainExp` levels up iff exp plus the amount reaches the threshold; it then rises exactly one level with exp 0, any overshoot lost; otherwise it only adds the amount |
| Characters.GainExpScenario | js/entities/character.js:59-73 | at level 1, gaining 100 reaches level 2 with exp 0 |
| Characters.DiePenalty | js/entities/character.js:114-119 | death keeps the level, stats and maxima; it lowers exp but never below 0, and sets HP and SP to 30% of their maxima |
| Characters.DieScenario | js/entities/character.js:116 | at level 1 with 40 exp, death leaves 35 |
| Characters.TakeDamageEffect | js/entities/character.js:99-112 | the damage taken is `max(1, damage - 0.8*vit)` (at least 1); HP drops by exactly that unless it reaches 0 or below, in which case the death penalty applies, so HP stays positive when max HP is |
| Characters.Character.constructor | js/entities/character.js:4-54 | every field takes its configured value or its default: name "Unknown", position (0, 0), level 1, str 10, vit 8, agi 5, dex 5, int 3, luk 1, HP `maxHp \|\| 100`, max HP `100 + 5*vit`, SP 50, max SP `50 + 3*int`; the player fields start as in js/entities/player.js:8-22 |
| Characters.Character.GainExp | js/entities/character.js:59-68 | the new level, exp, stats, HP and SP, and the result, are those of `GainExpSpec` |
| Characters.Character.LevelUp | js/entities/character.js:75-94 | the new state is `LevelUpSpec` of the old one |
| Characters.Character.TakeDamage | js/entities/character.js:99-112 | returns the mitigated damage and moves to the `TakeDamageSpec` state; the attacker becomes the target |
| Characters.Character.Die | js/entities/character.js:114-119 | the new state is `DieSpec` of the old one |
| Players.ChangeJob | js/entities/player.js:30-50 | succeeds iff the job is `novice` and the level is at least 10; it then sets the job, job level 1 and the job bonus (swordsman str+5 vit+3, mage int+5 max SP+30); on failure nothing changes |
| Players.OtherJobsGainNothing | js/entities/player.js:36-45 | a job other than swordsman or mage gives no stat or SP bonus |
| Players.Attack | js/entities/player.js:55-76 | a combo iff less than 500 ms since the last attack; a combo adds 1 to the combo count and 5 rage, otherwise the count resets to 0; the attack time becomes now |
| Players.UseSkill | js/entities/player.js:80-86 | the verdict and new SP are `CastSpec` of the old SP: refused with SP unchanged iff SP is below the cost, otherwise SP drops by exactly the cost; the effect is scheduled after `castTime * (1 - dex*0.01)` seconds |
| Players.CastKeepsSpNonNegative | js/entities/player.js:80-83 | from non-negative SP, any run of `useSkill` calls with non-negative costs keeps SP between 0 and where it started |
| Players.CastDelayScenario | js/entities/player.js:86-96 | a 2-second cast at 50 dex is delayed by 1000 ms |
| Players.FirstWithId | js/entities/player.js:107 | `inventory.find` returns the first entry with the item's id, or none when no entry has it |
| Players.AddItem | js/entities/player.js:104-121 | the new inventory and the result are `AddItemSpec` of the old inventory |
| Players.AddItemCases | js/entities/player.js:104-121 | `addItem` either increments the first same-id stackable entry that is below its maximum (length unchanged), or appends when fewer than 40 entries, or refuses with no change; a stackable item whose first same-id entry is below its maximum is always stacked there, and otherwise the item is appended exactly when fewer than 40 entries are held; the length never passes 40 |
| Players.Equip | js/entities/player.js:123-141 | a job mismatch refuses with no change; an occupied slot fails with no change (`unequip` is missing); otherwise the slot holds the item and each stat grows by the item's delta, the others unchanged |
| Combat.ElementMultiplier | js/systems/combat.js:68-77 | the multiplier is 0.5, 1 or 1.5, and 1 whenever either side is neutral or both are the same element |
| Combat.ChartNotSymmetric | js/systems/combat.js:70-75 | fire against earth is 1.5 while earth against fire is 1 |
| Combat.ChartShape | js/systems/combat.js:70-75 | each element is strong against exactly one element and weak against exactly one; wind and earth are strong against each other |
| Combat.CalculateDamage | js/systems/combat.js:51-66 | the damage is at least 1 and at least the raw damage minus `0.8*vit` |
| Combat.DamageScenario | js/systems/combat.js:51-66 | str 10, no skill, no combo, no critical hit, target vit 8: damage 3.6 |
| Combat.ZeroPowerFallsBack | js/systems/combat.js:53 | a skill power of 0 falls back to the attacker's str |
| Combat.DefenceAppliedTwice | js/systems/combat.js:19-27 | without an element, the HP a target loses is `max(1, raw - 1.6*vit)`: defence counts twice |
| Combat.TickEffectsSurvivors | js/systems/combat.js:108-121 | the survivors are exactly the effects whose reduced duration is positive, each with its duration reduced by `deltaTime` |
| Combat.TickEffectsSound | js/systems/combat.js:108-121 | a tick adds no effect: each survivor is an input effect with positive remaining duration, lowered by `deltaTime` |
| Combat.TickEffectsComplete | js/systems/combat.js:108-121 | every effect whose lowered duration is positive survives |
| Combat.TickEffectsAppend | js/systems/combat.js:108-121 | the filter keeps the original order: ticking a concatenation ticks each part |
| Combat.AreaEffectScenario | js/systems/combat.js:108-121 | a 0.3 s effect ticked at 0.1 s survives two ticks and is gone after the third; each tick of a 10-damage effect takes 1 HP |
| Combat.ZonesSnoc | js/systems/combat.js:112-117 | an entity is in some zone of a list with one more effect iff it is in that effect's zone or an earlier one |
| Combat.ZoneDamageSnoc | js/systems/combat.js:108-121 | one more surviving effect adds its hits after those of the earlier effects |
| Combat.ZoneDamageOutside | js/systems/combat.js:113-117 | an entity outside every surviving zone keeps its sheet |
| Combat.HitsKeepLimits | js/entities/character.js:99-119 | repeated `takeDamage` keeps level, stats and maxima, and keeps HP and SP within their maxima |
| Combat.ZoneDamageKeepsLimits | js/systems/combat.js:108-121 | a tick of area damage keeps level, stats and maxima, and keeps HP and SP within their maxima |
| Combat.ZoneDamageScenario | js/systems/combat.js:113-116 | a 10-damage effect ticked at 0.1 s takes 1 HP from an entity at its centre, and 2 HP when the entity is listed twice |
| Combat.CombatSystem.constructor | js/systems/combat.js:2-8 | no combo, no last attacker, no area effects |
| Combat.CombatSystem.Attack | js/systems/combat.js:13-49 | a combo iff less than 500 ms since the last hit and the attacker is the same; the target takes the element-adjusted damage through `takeDamage` and targets the attacker; the combo count becomes old + 1 on a combo and 1 otherwise; the timer becomes now and the attacker is recorded; rage grows by 5 only on a combo with non-zero rage; `isCritical` is absent |
| Combat.CombatSystem.ApplyBerserk | js/systems/combat.js:82-91 | only at 100 rage or more: str ×1.5, vit ×0.7, rage 0 and true; otherwise false and no change |
| Combat.CombatSystem.CreateAoeEffect | js/systems/combat.js:93-99 | appends one effect starting now and leaves the existing ones unchanged |
| Combat.CombatSystem.Update | js/systems/combat.js:101-122 | the combo count becomes 0 iff more than 1000 ms since the last hit, otherwise unchanged; the effects become the ticked survivors in order; every entity's HP, SP and exp become `ZoneDamage`: each surviving effect in order whose zone holds it hits it through `takeDamage` for `damage * deltaTime`, once per occurrence in the list; entities outside every surviving zone are unchanged, those inside lose their target, and no entity moves |
| Combat.CombatSystem.ApplySurvivor | js/systems/combat.js:112-118 | one surviving effect moves every entity from `ZoneDamage` of the earlier effects to `ZoneDamage` with this effect added |
| Combat.CombatSystem.HitEntities | js/systems/combat.js:113-117 | each entity in the effect's zone takes `damage * deltaTime` through `takeDamage` once per occurrence in the list; the others are unchanged |
| Skills.Tick | js/systems/skill.js:77-83 | a cooldown tick keeps the key set |
| Skills.TickKeepsReady | js/systems/skill.js:73-83 | a ready skill stays ready; an entry at 0 or below is never lowered again; a positive entry drops by exactly `deltaTime` |
| Skills.EventuallyReady | js/systems/skill.js:77-83 | with a positive tick, a cooldown `c` is over after any `n` ticks with `n*dt >= c` |
| Skills.TickNKeepsReady | js/systems/skill.js:77-83 | a ready skill stays ready through any number of ticks |
| Skills.Check | js/systems/skill.js:12-26 | a cast passes iff the skill exists, is off cooldown, SP covers the cost, and a required weapon type (when set and non-empty) matches the equipped weapon |
| Skills.CheckOrder | js/systems/skill.js:12-26 | the checks run in order: cooldown is reported before SP, SP before the weapon |
| Skills.LevelUpPowerStep | js/systems/skill.js:59-68 | raising a skill at level 1 or more adds exactly `powerPerLevel`; the first raise from no entry leaves the power unchanged |
| Skills.SkillSystem.constructor | js/systems/skill.js:2-6 | no cooldowns and no skill levels |
| Skills.SkillSystem.CanUseSkill | js/systems/skill.js:73-75 | true iff there is no entry or the entry is at most 0 |
| Skills.SkillSystem.UseSkill | js/systems/skill.js:11-51 | succeeds iff `Check` passes, and a failure changes nothing; success sets the cooldown and pays the SP cost; a damage skill attacks through the combat system: the target's HP, SP and exp become `TakeDamageSpec` of the element-adjusted damage, the combo count and the caster's rage change as in `Attack`; a damage skill on another character leaves the caster's HP alone; a heal sets HP to `min(maxHp, hp + power)`; any type other than damage leaves the combat state, the caster's rage and the target's `target` and exp alone, and the target's HP and SP too when it is not the caster; other types change no HP |
| Skills.SkillSystem.LevelUpSkill | js/systems/skill.js:56-62 | with no skill points, false and no change; otherwise the level becomes old (default 0) + 1 and one point is spent |
| Skills.SkillSystem.GetSkillPower | js/systems/skill.js:64-68 | `basePower + powerPerLevel*(level-1)`, an absent or zero level counting as 1 |
| Skills.SkillSystem.Update | js/systems/skill.js:77-83 | the loop over the map leaves it as `Tick` of the old map |
| Inventory.ItemCountAppend | js/systems/inventory.js:46-49 | the item count of two lists is the sum of their counts |
| Inventory.ItemCountUpdate | js/systems/inventory.js:46-49 | replacing one entry changes the count by the difference of the two weights |
| Inventory.FindStack | js/systems/inventory.js:40-44 | returns the first entry with the id that is stackable and below its maximum, or none when there is no such entry |
| Inventory.AddItemStacks | js/systems/inventory.js:21-29 | with an open stack, `addItem` succeeds by incrementing the first open stack only; the length and count stay the same |
| Inventory.AddItemAppends | js/systems/inventory.js:31-37 | without an open stack, `addItem` succeeds iff the count is below 40; it then appends the item, adding its weight to the count, and otherwise changes nothing |
| Inventory.MissingIngredientBlocks | js/systems/inventory.js:104-108 | one ingredient below its amount makes the whole recipe unavailable |
| Inventory.FirstEmpty | js/systems/inventory.js:63 | `findIndex(s => !s)` returns the lowest empty index, or -1 exactly when every entry is filled |
| Inventory.EquipEffect | js/systems/inventory.js:54-77 | success requires the level and job requirements; failure changes nothing; an array slot (accessory, card) accepts iff it has an empty entry, fills the lowest empty index and leaves the other array and the single slots unchanged; a single slot accepts iff empty and does not swap |
| Inventory.InventorySystem.constructor | js/systems/inventory.js:2-16 | all single slots empty, two empty accessory entries and four empty card entries |
| Inventory.InventorySystem.ApplyItemStats | js/systems/inventory.js:79-83 | each listed stat grows by exactly its delta; unlisted stats are unchanged |
| Inventory.InventorySystem.AddItem | js/systems/inventory.js:21-38 | the new inventory and result are `AddItemSpec` of the old inventory |
| Inventory.InventorySystem.Equip | js/systems/inventory.js:54-77 | the new slots and result are `EquipSpec` of the old slots; the stats gain the item's deltas exactly on success |
| Inventory.InventorySystem.Craft | js/systems/inventory.js:88-102 | succeeds iff every ingredient is held; on failure nothing changes; on success each ingredient is removed in order and then the result is added |
| Quests.FindDef | js/systems/quest.js:12 | the definition found is the first one with the id, and none is found only when no definition has it |
| Quests.FindActive | js/systems/quest.js:82 | returns the first active index with the id, or none when no active quest has it |
| Quests.CreateProgress | js/systems/quest.js:37-45 | one entry per objective in order, with its type and target, count 0 and the objective's amount required |
| Quests.StartQuestEffect | js/systems/quest.js:11-35 | `startQuest` succeeds iff the quest is known and not active, the level is met and every prerequisite is completed; success appends one quest with fresh progress, and failure changes nothing; no id is ever active twice |
| Quests.CompleteSpec | js/systems/quest.js:81-106 | completion succeeds iff the id is active, and a failure changes nothing; success makes the active list one shorter and the completed list one longer |
| Quests.CompleteEffect | js/systems/quest.js:81-106 | the first active quest with the id moves to the end of the completed list; the other active quests keep their order; gold grows by the gold reward; active ids stay unique |
| Quests.RemoveAtUnique | js/systems/quest.js:104 | splicing out one quest keeps the active ids unique |
| Quests.CompleteKeepsQuests | js/systems/quest.js:103-104 | completion loses and duplicates no quest: whatever was in either list still is |
| Quests.CompleteTracks | js/systems/quest.js:51-56 | after a completion the quest the loop holds is still found, unchanged, at its new place |
| Quests.CreditStep | js/systems/quest.js:52-56 | one progress entry keeps the tracked quest valid, with its progress length unchanged, and keeps the total number of quests |
| Quests.InnerCredit | js/systems/quest.js:52-57 | the inner loop never lengthens the active list and keeps the total number of quests |
| Quests.OuterCredit | js/systems/quest.js:51-58 | the outer loop keeps the total number of quests and never shrinks the completed list |
| Quests.BumpMonotone | js/systems/quest.js:72-76 | counting only raises counters, so a quest done part-way through the event is done at its end |
| Quests.InnerWithoutCompletion | js/systems/quest.js:52-57 | when the event completes no quest, the inner loop adds one to exactly the matching entries |
| Quests.OuterWithoutCompletion | js/systems/quest.js:51-58 | when no remaining quest completes, the outer loop credits every remaining quest in place |
| Quests.CreditWithoutCompletion | js/systems/quest.js:50-70 | when the event completes no quest, every matching entry of every active quest counts one more and nothing else changes |
| Quests.SkippedAfterCompletion | js/systems/quest.js:51-58 | two active one-slime quests: one kill completes the first and leaves the second uncounted |
| Quests.CompleteAllKeepsQuests | js/systems/quest.js:103-104 | completing a sequence of ids loses no quest |
| Quests.SnapshotCreditsEveryQuest | js/systems/quest.js:50-58 | iterating over a snapshot credits every active quest, and each ends in one of the two lists |
| Quests.QuestSystem.constructor | js/systems/quest.js:2-6 | both lists empty |
| Quests.QuestSystem.StartQuest | js/systems/quest.js:11-35 | the new active list and result are `StartSpec`; active ids stay unique |
| Quests.QuestSystem.AddRewardItems | js/systems/quest.js:94-96 | each reward item goes through the inventory's `addItem` in order, refusals included |
| Quests.QuestSystem.PayRewards | js/systems/quest.js:88-96 | experience (when non-zero) through `gainExp`, then gold (when non-zero), then the items |
| Quests.QuestSystem.CompleteQuest | js/systems/quest.js:81-106 | the new lists, character, gold and inventory are `CompleteSpec` of the old ones |
| Quests.QuestSystem.CheckCompletion | js/systems/quest.js:72-76 | completes the quest iff every entry has reached its requirement; otherwise nothing changes |
| Quests.QuestSystem.CreditEntry | js/systems/quest.js:53-56 | one entry of the inner loop moves the state and the tracked quest's place as `CreditStep` says |
| Quests.QuestSystem.Credit | js/systems/quest.js:51-58 | the nested loops, with the list shrinking under the outer one, end in `CreditSpec` of the old state |
| Quests.QuestSystem.OnEnemyDefeated | js/systems/quest.js:50-59 | the `kill` entries targeting the enemy type are credited as `CreditSpec` says |
| Quests.QuestSystem.OnItemCollected | js/systems/quest.js:61-70 | the `collect` entries targeting the item are credited as `CreditSpec` says |
| Chat.RateLimited | js/systems/clan.js:19-23 | a player admitted at time t is refused at any time less than 1000 ms later |
| Chat.PushBounded | js/systems/clan.js:41-50 | the message lands at the end; at most the oldest entry is dropped; a log within its limit stays within it, and a log below it only grows |
| Chat.PushBoundedKeepsNewest | js/systems/clan.js:41-50 | a bounded log keeps exactly its newest entries in order, at most the limit |
| Chat.SendKeepsLimits | js/systems/clan.js:41-50 | a send keeps the global log within 100 and every channel within 50, keeps the set of channels and the other channels' logs, and an admitted message is the newest entry of both its logs |
| Chat.Notify | js/systems/clan.js:88-95 | the notice goes after every old entry, which are all kept |
| Chat.SendAll | js/systems/clan.js:17-53 | a run of sends keeps the set of channels |
| Chat.Split | js/systems/clan.js:59 | `split(' ')` always gives at least one part, and no part contains a space |
| Chat.JoinSplit | js/systems/clan.js:59-75 | joining the split parts with spaces gives back the text |
| Chat.SplitWord | js/systems/clan.js:59 | a word and a space followed by a text split into the word and then the text's parts |
| Chat.ParseCommand | js/systems/clan.js:58-78 | a command only ever sends to one of the four channels |
| Chat.CommandSendsItsText | js/systems/clan.js:58-78 | `/party text` and `/trade text` send exactly the text to their channel; `/clan text` does so only for a player in a clan |
| Chat.UnknownCommandIgnored | js/systems/clan.js:60-77 | a command other than party, clan, trade or me does nothing |
| Chat.ChatSystem.constructor | js/systems/clan.js:2-12 | the four channels exist and are empty, as are the log and the rate-limit map |
| Chat.ChatSystem.SendMessage | js/systems/clan.js:17-53 | accepted iff at least 1000 ms since the player's last message (a missing entry counts as 0); the new logs and rate-limit map are `SendSpec`: a refusal changes nothing; an accepted message records the time and is pushed onto the global log (bounded at 100) and its channel (bounded at 50) |
| Chat.ChatSystem.SendEmote | js/systems/clan.js:81-83 | exactly a `sendMessage` of `* name action` on the global channel: same verdict, logs, trimming and rate-limit map as `SendSpec` |
| Chat.ChatSystem.HandleCommand | js/systems/clan.js:58-78 | a command that parses to nothing changes nothing; a parsed send and a parsed emote change the logs and rate-limit map exactly as `sendMessage` and `sendEmote` do (`SendSpec`) |
| Chat.ChatSystem.NotifySystem | js/systems/clan.js:88-95 | the global log becomes `Notify` of the old one: one notice appended, with no trim and no rate limit |
| Chat.NoticeExceedsLimit | js/systems/clan.js:88-95 | a notice pushes a full global log to 101 entries, and any run of sends after it keeps it at 101: the 100 bound is broken for good |
| Clans.NewClan | js/systems/chat.js:13-22 | a new clan has its leader as sole member, level 1, no reputation, no treasury and no skills |
| Clans.JoinOnce | js/systems/chat.js:27-33 | a join appends the player once to that clan only and records the clan; after it any further join is refused |
| Clans.ScoresFrozen | js/systems/chat.js:51-60 | after `declareWar`, no sequence of score updates changes the war or reports a victory |
| Clans.UpdateScoreIntended | js/systems/chat.js:51-60 | a clan taking part in the war gains the points, and victory is reported iff its score reaches 1000 |
| Clans.IntendedWarCanBeWon | js/systems/chat.js:38-60 | with the intended rule, 600 and then 400 points win a freshly declared war |
| Clans.ClanBonus | js/systems/chat.js:73-87 | 0 without a known clan; otherwise 1% per clan level plus 5% per level of the exp_bonus skill |
| Clans.BonusScenario | js/systems/chat.js:73-87 | a level-1 clan with exp_bonus at level 1 gives 6% |
| Clans.ClanSystem.constructor | js/systems/chat.js:2-6 | no clans and no war |
| Clans.ClanSystem.CreateClan | js/systems/chat.js:11-25 | adds the clan keyed `clan_<now>` and sets the leader's clan to it |
| Clans.ClanSystem.JoinClan | js/systems/chat.js:27-33 | the clans, the player's clan and the result are `JoinSpec`: a missing clan or a player already in a clan refuses with no change |
| Clans.ClanSystem.DeclareWar | js/systems/chat.js:38-49 | refused while a war exists; otherwise a one-hour war with both scores at 0 |
| Clans.ClanSystem.UpdateWarScore | js/systems/chat.js:51-60 | the war and the victory flag are those of `UpdateScoreSpec` (no change for an absent or zero score) |
| Clans.ClanSystem.UnlockClanSkill | js/systems/chat.js:65-71 | succeeds iff the clan exists and the skill is not already held; it then sets the skill to level 1, and otherwise changes nothing |
| Clans.ClanSystem.GetClanBonus | js/systems/chat.js:73-87 | the bonus is `ClanBonus`, whatever the bonus type |
| Npcs.NewNpc | js/entities/npc.js:4-20 | the name defaults to "Unknown" and the position to (0, 0) as for any character; the type defaults to vendor, the quest and shop lists are the configured ones or empty, and the NPC is always stationary |
| Npcs.FirstThrowing | js/entities/npc.js:46-49 | the first quest the player does not hold that has no `requirements` object, the one whose filter test throws; none iff there is no such quest |
| Npcs.OfferQuests | js/entities/npc.js:46-49 | the offer is never longer than the NPC's quest list (the filter when it does not throw; see `Npcs.Interact`) |
| Npcs.OfferedIff | js/entities/npc.js:44-56 | a quest is offered iff the NPC has it, the player does not hold its id, and its level requirement is set and met |
| Npcs.OfferAppend | js/entities/npc.js:46-49 | the filter keeps the NPC's order |
| Npcs.AcceptedNotReoffered | js/entities/npc.js:46-48 | once the player holds a quest's id, it is no longer offered |
| Npcs.WarpOptions | js/entities/npc.js:58-70 | Prontera for 100 then El Morad for 200, with the player's gold |
| Npcs.Interact | js/entities/npc.js:22-56 | vendor gives the shop in gold; quest fails iff the filter reaches an unheld quest without `requirements`, naming the first such quest, and otherwise gives the filtered offer under the NPC's name; warper gives the warp options, blacksmith the missing crafting menu; any other type gives nothing |
| Npcs.DefaultIsVendor | js/entities/npc.js:8-25 | an NPC configured without a type opens its shop |
| Npcs.MissingRequirementsScenario | js/entities/npc.js:46-49 | one quest without `requirements`: the interaction fails for a player who does not hold it, and offers nothing to one who does |
| Npcs.Wander | js/entities/npc.js:72-79 | only a non-stationary NPC that rolls below 0.005 changes, by starting to move towards the offset position |
| Npcs.NeverWanders | js/entities/npc.js:72-79 | a constructed NPC never changes through `update`, however the rolls fall |

## Left out

- Rendering, scenes, input, sound, saving and loading, loot tables, enemy AI, `throttle`, and character movement (`moveTo` direction, `update`, `calculateDirection`): these are I/O, timers, randomness or `sqrt`/`atan2` geometry.
- IEEE floating point: coefficients are exact `real`s, so rounding, `NaN` and `Infinity` are not modelled. Distances are compared as squared distance against squared radius.
- `Players.Attack`: the damage is not modelled. The source passes the `{damage, isCritical}` record where a number is expected, so the damage dealt is `NaN`. Only the combo, rage and attack-time fields are modelled.
- `Players.UseSkill`: the `setTimeout` effect is not run; the method returns the delay it would be scheduled with.
- `Players.Equip`: `unequip` is not part of this model. On an occupied slot the source's call to it would throw, which the model reports as `SlotTaken` with no change.
- `Skills.SkillSystem.UseSkill`: for a "buff" skill the source calls `applyBuff`, which is not part of this model. The model treats it as having no effect and does not model the throw after SP and cooldown have changed. `skill.onHit` is not modelled either.
- `Skills.SkillSystem.UseSkill`: the target is a non-null character. A `null` target of a damage skill would throw inside `attack`.
- `Skills.SkillSystem.UseSkill`: the SP-cost postcondition is not stated when a damage skill targets the caster. In that case the SP is still paid, but the hit may trigger the death penalty, which rewrites the caster's SP.
- `Skills.SkillSystem.GetSkillPower`: requires a known skill, because the source reads `skill.basePower` from `undefined` otherwise.
- `Inventory.InventorySystem.Craft`: `getItemQuantity` and `removeItem` are not part of this model; they are passed in as functions.
- `Inventory.InventorySystem.Equip`: `requiredLevel` is compared only when present; an absent one never blocks (`undefined > level` is false). Only the slot names `weapon`, `armor`, `helmet`, `gloves`, `boots`, `accessory` and `card` are meaningful; any other name is treated as a single slot.
- `Quests.QuestSystem.CompleteQuest`: `unlockSystem.unlock` is not part of this model, so reward unlocks have no effect.
- `Inventory.InventorySystem.AddItem`, `Inventory.InventorySystem.Craft` and `Players.AddItem`: items are values in the model. The source stores the caller's item object itself (js/systems/inventory.js:36, js/entities/player.js:116) and later raises that object's `quantity` in place (js/systems/inventory.js:26, js/entities/player.js:109). So inventory entries can be one shared object, and that object can also be the recipe's `result` (js/systems/inventory.js:100) or a quest's reward item (js/systems/quest.js:95). For example, crafting a stackable result with `maxStack` 2 four times gives three entries in the source, and the recipe's own quantity grows; the model gives two entries and leaves the recipe unchanged.
- `Inventory.AddItemStacks`: "the first open stack only" holds for the values of the model. In the source the incremented object may also sit at other indices, or be the caller's definition, and those change with it.
- `Players.AddItemCases`: "nothing else touched" holds for the values of the model. In the source the incremented object may also sit at other indices, and those change with it.
- Quest objects are shared between the active and completed lists in the source. The model holds each quest once and tracks its place (`Loc`), which covers every later write the loop makes. It does not cover aliasing with other holders of the quest object.
- `Clans.ClanSystem.UpdateWarScore`: `endWar` is not part of this model; reaching 1000 points is returned as a victory flag.
- `Clans.ClanSystem.CreateClan`: the clan id is built from the time passed in. A leader already in another clan stays listed as that clan's member, as in the source.
- `Chat.ChatSystem.SendMessage`:
  - it requires a channel that exists and, for a player in a clan, a clan the clan system knows; otherwise the source throws on `channels[channel]` or on `.name` of `undefined`;
  - a clan field that is an empty string counts as present;
  - message formatting keeps only the fields the log uses.
- `GameUtils.ProgressPercent`: requires a non-zero maximum; dividing by 0 gives `Infinity` or `NaN` in JavaScript. The bar's CSS strings are not modelled.
- `Npcs.Interact`: `showCraftingMenu` is not defined on the NPC, so the source throws for a blacksmith. The model returns `MissingHandler("showCraftingMenu")`. Dialog, services, clan and guard fields of an NPC are not used by any of its methods and are left out.
- `Characters.Character.constructor`: js/entities/character.js:6 calls `GameUtils.generateId`, which js/core/utils.js does not define, so as written every character, player and NPC construction throws a TypeError. The model assumes an id generator and takes the id as a parameter; `Npcs.NewNpc` builds on the same assumption.
- `Players.Attack`: js/entities/player.js uses `GameUtils` (lines 59 and 91) without importing it, so as a module it throws a ReferenceError before changing anything unless another script makes `GameUtils` global. The model assumes the name resolves.
- `GameUtils.LegacyDamage`: js/core/utils.js:47 reads `GameConfig` without importing it, so a critical hit throws a ReferenceError unless `GameConfig` is global. The model assumes it resolves, with the configured `critMultiplier` of 2.0.
- `Npcs.Wander`: js/entities/npc.js:75-76 calls `GameUtils.randomInt`, but npc.js imports only `Character` and js/core/utils.js defines no `randomInt` (the only one is a method of the engine, js/core/engine.js:111), so the moving branch throws. The model assumes the offsets resolve and takes them as parameters. A constructed NPC is always stationary (`Npcs.NeverWanders`), so the branch is never reached from `Npcs.NewNpc`.
- Item stat bonuses are keyed only by the six attributes. In the source any other key in `item.stats` (js/entities/player.js:135-137, js/systems/inventory.js:80-82) adds a new entry whose value is `NaN` (`undefined + n`); the model has no such keys.
- `Combat.CombatSystem.Update`: js/systems/combat.js:114 calls `GameUtils.distance` without importing `GameUtils`. As written, a surviving effect meeting a non-empty entity list throws a ReferenceError, after that effect's duration has already been lowered. The model assumes the name resolves.

## Findings

| source | as written | input that shows it | evidently intended | confidence | as-written member | corrected member |
|---|---|---|---|---|---|---|
| js/systems/quest.js:51-58 | `activeQuests.forEach` while `completeQuest` splices the same array: the quest after a completed one moves into the visited index and is skipped | two active quests each needing one "slime" kill, then one slime kill: the first completes, the second stays at 0 | every active quest is credited for the event (iterate over a copy of the list) | high; not executed | Quests.SkippedAfterCompletion | Quests.SnapshotCreditsEveryQuest |
| js/systems/chat.js:52 | `!this.clanWar.score[clanId]` treats a score of 0 as absent, and every war starts at 0 | `declareWar("a", "b")`, then `updateWarScore("a", 600)`: the score stays 0, so no war can ever be won | points go to any clan that has a score entry | high; not executed | Clans.ScoresFrozen | Clans.UpdateScoreIntended |

The class methods (`Quests.QuestSystem.Credit`, `Clans.ClanSystem.UpdateWarScore`) model the code as written. The corrected definitions `Quests.SnapshotCreditSpec` and `Clans.UpdateScoreIntended` stand beside them, with the intended property proved in `Quests.SnapshotCreditsEveryQuest` and `Clans.IntendedWarCanBeWon`.
