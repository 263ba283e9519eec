/**
 * NPCs: a character with an NPC type that decides what interacting with it
 * opens (a shop, a quest offer, warp destinations or a crafting menu), the
 * quests it offers, and a wander step that stationary NPCs never take.
 *
 * The player is passed in as the values the NPC reads: its quest ids, level
 * and gold. The wander roll and offsets are parameters.
 */
module Npcs {
  import opened Common
  import Characters

  /** A quest's `requirements` object; `level` is absent when not set. */
  datatype Requirements = Requirements(level: Option<int>)

  /** A quest an NPC gives; `requirements` is absent when the quest has no such object. */
  datatype NpcQuest = NpcQuest(id: string, requirements: Option<Requirements>)

  /** The configuration an NPC is built from; absent entries are `None`. */
  datatype NpcConfig = NpcConfig(name: Option<string>, npcType: Option<string>, quests: Option<seq<NpcQuest>>,
                                 shopItems: Option<seq<Item>>, isStationary: Option<bool>,
                                 x: Option<int>, y: Option<int>)

  /**
   * `targetPosition` and `isMoving` are what `moveTo` sets. The NPC's own
   * `update` replaces the character's and does not call it, so nothing ever
   * moves the position towards the target.
   */
  datatype Npc = Npc(name: string, npcType: string, quests: seq<NpcQuest>, shopItems: seq<Item>,
                     isStationary: bool, x: int, y: int, isMoving: bool, targetPosition: Option<(int, int)>)

  /**
   * The constructor. The character part gives the name, "Unknown" when absent
   * or empty, and the position, 0 when absent. The type defaults to "vendor"
   * when absent or empty, the lists to empty; `config.isStationary || true` is
   * true whatever the configuration says.
   */
  function NewNpc(config: NpcConfig): (n: Npc)
    ensures n.name == Characters.OrString(config.name, "Unknown")
    ensures n.isStationary
    ensures n.npcType == (if config.npcType.Some? && config.npcType.value != "" then config.npcType.value else "vendor")
    ensures n.quests == (if config.quests.Some? then config.quests.value else [])
    ensures n.shopItems == (if config.shopItems.Some? then config.shopItems.value else [])
    ensures n.x == Characters.OrInt(config.x, 0) && n.y == Characters.OrInt(config.y, 0)
    ensures !n.isMoving && n.targetPosition.None?
  {
    Npc(Characters.OrString(config.name, "Unknown"),
        if config.npcType.Some? && config.npcType.value != "" then config.npcType.value else "vendor",
        if config.quests.Some? then config.quests.value else [],
        if config.shopItems.Some? then config.shopItems.value else [],
        true, Characters.OrInt(config.x, 0), Characters.OrInt(config.y, 0), false, None)
  }

  // ---------------------------------------------------------------------------
  // Quest offers
  // ---------------------------------------------------------------------------

  /**
   * The quest's level requirement is met; `undefined <= level` is false, so an
   * absent level never is. A quest without `requirements` is never met here;
   * `OfferThrows` covers what the source does with it.
   */
  predicate LevelMet(q: NpcQuest, level: int)
  {
    q.requirements.Some? && q.requirements.value.level.Some? && q.requirements.value.level.value <= level
  }

  /**
   * The filter reads `quest.requirements.level` only for a quest the player
   * does not hold (`&&` stops early); on a quest without `requirements` that
   * read throws a TypeError.
   */
  predicate OfferThrows(quests: seq<NpcQuest>, playerQuestIds: seq<string>)
  {
    exists k :: 0 <= k < |quests| && quests[k].id !in playerQuestIds && quests[k].requirements.None?
  }

  /** The first quest whose filter test throws, or none. */
  function FirstThrowing(quests: seq<NpcQuest>, playerQuestIds: seq<string>): (r: Option<nat>)
    ensures r.Some? ==> r.value < |quests| && quests[r.value].id !in playerQuestIds && quests[r.value].requirements.None?
    ensures r.Some? ==> forall k :: 0 <= k < r.value ==> quests[k].id in playerQuestIds || quests[k].requirements.Some?
    ensures r.None? <==> !OfferThrows(quests, playerQuestIds)
  {
    if quests == [] then None
    else if quests[0].id !in playerQuestIds && quests[0].requirements.None? then Some(0)
    else match FirstThrowing(quests[1..], playerQuestIds)
      case None =>
        assert forall k :: 1 <= k < |quests| ==> quests[k] == quests[1..][k - 1];
        None
      case Some(k) => Some(k + 1)
  }

  /** `offerQuests`: the NPC's quests, in order, that the player does not hold and whose level is met. */
  function OfferQuests(quests: seq<NpcQuest>, playerQuestIds: seq<string>, level: int): (r: seq<NpcQuest>)
    ensures |r| <= |quests|
  {
    if quests == [] then []
    else
      var rest := OfferQuests(quests[..|quests| - 1], playerQuestIds, level);
      var q := quests[|quests| - 1];
      if q.id !in playerQuestIds && LevelMet(q, level) then rest + [q] else rest
  }

  /** A quest is offered exactly when the NPC has it, the player does not hold its id, and the level is met. */
  lemma {:induction false} OfferedIff(quests: seq<NpcQuest>, playerQuestIds: seq<string>, level: int, q: NpcQuest)
    ensures q in OfferQuests(quests, playerQuestIds, level) <==>
      q in quests && q.id !in playerQuestIds && LevelMet(q, level)
  {
    if quests != [] {
      var init := quests[..|quests| - 1];
      OfferedIff(init, playerQuestIds, level, q);
      assert quests == init + [quests[|quests| - 1]];
    }
  }

  /** Offering keeps the NPC's order: the offer for two lists is the two offers one after the other. */
  lemma {:induction false} OfferAppend(a: seq<NpcQuest>, b: seq<NpcQuest>, playerQuestIds: seq<string>, level: int)
    ensures OfferQuests(a + b, playerQuestIds, level) ==
      OfferQuests(a, playerQuestIds, level) + OfferQuests(b, playerQuestIds, level)
    decreases |b|
  {
    if b == [] {
      assert a + b == a;
    } else {
      var init := b[..|b| - 1];
      OfferAppend(a, init, playerQuestIds, level);
      assert (a + b)[..|a + b| - 1] == a + init;
      assert (a + b)[|a + b| - 1] == b[|b| - 1];
    }
  }

  /** Once the player takes an offered quest, the NPC no longer offers it. */
  lemma AcceptedNotReoffered(quests: seq<NpcQuest>, playerQuestIds: seq<string>, level: int, q: NpcQuest)
    ensures q !in OfferQuests(quests, playerQuestIds + [q.id], level)
  {
    OfferedIff(quests, playerQuestIds + [q.id], level, q);
  }

  // ---------------------------------------------------------------------------
  // Interaction
  // ---------------------------------------------------------------------------

  datatype Destination = Destination(map_: string, cost: int)

  /**
   * What `interact` returns. A blacksmith's `showCraftingMenu` is not defined
   * on the NPC, so that call fails; `MissingHandler` stands for the failure.
   * A quest NPC whose offer filter reaches a quest without `requirements`
   * fails too; `MissingRequirements` names that quest. An unknown type returns
   * nothing.
   */
  datatype Interaction =
    | Shop(items: seq<Item>, currency: string)
    | QuestOffer(npcName: string, quests: seq<NpcQuest>)
    | Warp(destinations: seq<Destination>, currentGold: real)
    | MissingHandler(handler: string)
    | MissingRequirements(questId: string)
    | Nothing

  /** `showWarpOptions`: Prontera for 100 gold and El Morad for 200, with the player's gold. */
  function WarpOptions(gold: real): (r: Interaction)
    ensures r.Warp? && r.currentGold == gold && |r.destinations| == 2
    ensures r.destinations[0] == Destination("prontera", 100) && r.destinations[1] == Destination("elmorad", 200)
  {
    Warp([Destination("prontera", 100), Destination("elmorad", 200)], gold)
  }

  function Interact(npc: Npc, playerQuestIds: seq<string>, level: int, gold: real): (r: Interaction)
    ensures npc.npcType == "vendor" <==> r.Shop?
    ensures npc.npcType == "quest" <==> r.QuestOffer? || r.MissingRequirements?
    ensures r.MissingRequirements? <==> npc.npcType == "quest" && OfferThrows(npc.quests, playerQuestIds)
    ensures r.MissingRequirements? ==>
      exists k :: 0 <= k < |npc.quests| && npc.quests[k].id == r.questId && npc.quests[k].id !in playerQuestIds &&
        npc.quests[k].requirements.None? && forall j :: 0 <= j < k ==> npc.quests[j].id in playerQuestIds || npc.quests[j].requirements.Some?
    ensures npc.npcType == "warper" <==> r.Warp?
    ensures npc.npcType == "blacksmith" <==> r.MissingHandler?
    ensures r.Shop? ==> r.items == npc.shopItems && r.currency == "gold"
    ensures r.QuestOffer? ==> r.npcName == npc.name
    ensures r.QuestOffer? ==> forall q :: q in r.quests <==> q in npc.quests && q.id !in playerQuestIds && LevelMet(q, level)
  {
    match npc.npcType
    case "vendor" => Shop(npc.shopItems, "gold")
    case "quest" =>
      var failing := FirstThrowing(npc.quests, playerQuestIds);
      if failing.Some? then MissingRequirements(npc.quests[failing.value].id)
      else
        var offered := OfferQuests(npc.quests, playerQuestIds, level);
        assert forall q :: q in offered <==> q in npc.quests && q.id !in playerQuestIds && LevelMet(q, level) by {
          forall q {
            OfferedIff(npc.quests, playerQuestIds, level, q);
          }
        }
        QuestOffer(npc.name, offered)
    case "warper" => WarpOptions(gold)
    case "blacksmith" => MissingHandler("showCraftingMenu")
    case _ => Nothing
  }

  /**
   * A quest NPC with one quest that has no `requirements` fails for a player
   * who does not hold the quest, and offers nothing to one who does, because
   * `&&` never reaches the missing object.
   */
  lemma MissingRequirementsScenario(npc: Npc, id: string, level: int, gold: real)
    requires npc.npcType == "quest" && npc.quests == [NpcQuest(id, None)]
    ensures Interact(npc, [], level, gold) == MissingRequirements(id)
    ensures Interact(npc, [id], level, gold) == QuestOffer(npc.name, [])
  {
    assert !OfferThrows(npc.quests, [id]);
    assert OfferQuests(npc.quests, [id], level) == OfferQuests([], [id], level);
  }

  /** A configuration without a type gives a vendor, whose interaction is its shop in gold. */
  lemma DefaultIsVendor(config: NpcConfig, playerQuestIds: seq<string>, level: int, gold: real)
    requires config.npcType.None?
    ensures Interact(NewNpc(config), playerQuestIds, level, gold) == Shop(NewNpc(config).shopItems, "gold")
  {
  }

  // ---------------------------------------------------------------------------
  // Movement
  // ---------------------------------------------------------------------------

  /**
   * `update`: when the roll is below 0.005 a non-stationary NPC starts
   * moving towards its position shifted by the offsets, which stand for
   * `randomInt(-50, 50)`; otherwise nothing changes.
   */
  function Wander(npc: Npc, roll: real, dx: int, dy: int): (r: Npc)
    ensures r != npc ==> !npc.isStationary && roll < 0.005
    ensures !npc.isStationary && roll < 0.005 ==>
      r.isMoving && r.targetPosition == Some((npc.x + dx, npc.y + dy)) && r.x == npc.x && r.y == npc.y
  {
    if !npc.isStationary && roll < 0.005 then npc.(isMoving := true, targetPosition := Some((npc.x + dx, npc.y + dy)))
    else npc
  }

  /** Every constructed NPC is stationary, so however the rolls fall it never moves. */
  lemma {:induction false} NeverWanders(config: NpcConfig, rolls: seq<(real, int, int)>)
    ensures WanderAll(NewNpc(config), rolls) == NewNpc(config)
    decreases |rolls|
  {
    if rolls != [] {
      NeverWanders(config, rolls[..|rolls| - 1]);
    }
  }

  function WanderAll(npc: Npc, rolls: seq<(real, int, int)>): Npc
  {
    if rolls == [] then npc
    else
      var last := rolls[|rolls| - 1];
      Wander(WanderAll(npc, rolls[..|rolls| - 1]), last.0, last.1, last.2)
  }
}
