/**
 * Clans: creation with the leader as sole member, joining, clan wars with a
 * score per clan, clan skills and the clan bonus.
 *
 * The clan id is built from the clock, passed in as `now` (milliseconds).
 */
module Clans {
  import opened Common
  import opened Characters
  import GameUtils

  datatype Clan = Clan(id: string, name: string, leader: string, members: seq<string>,
                       level: int, reputation: int, treasury: int, skills: map<string, int>)

  datatype War = War(attacker: string, defender: string, startTime: int, duration: int,
                     score: map<string, int>)

  /** A war lasts one hour. */
  const WarDuration: int := 3600000
  /** The score at which a clan wins. */
  const VictoryScore: int := 1000

  /** `clan_${now}` */
  function ClanId(now: int): string
  {
    "clan_" + GameUtils.IntToString(now)
  }

  function NewClan(id: string, name: string, leaderId: string): (c: Clan)
    ensures c.members == [leaderId] && c.leader == leaderId
    ensures c.level == 1 && c.reputation == 0 && c.treasury == 0 && c.skills == map[]
  {
    Clan(id, name, leaderId, [leaderId], 1, 0, 0, map[])
  }

  // ---------------------------------------------------------------------------
  // Membership
  // ---------------------------------------------------------------------------

  /**
   * `joinClan` on values: the clan's member list and the player's clan. It
   * fails when the clan does not exist or the player already has a clan.
   */
  function JoinSpec(clans: map<string, Clan>, playerClan: Option<string>, playerId: string,
                    clanId: string): (bool, map<string, Clan>, Option<string>)
  {
    if clanId !in clans || playerClan.Some? then (false, clans, playerClan)
    else (true, clans[clanId := clans[clanId].(members := clans[clanId].members + [playerId])], Some(clanId))
  }

  /**
   * A successful join appends the player once to that clan only and records the
   * clan on the player; after it, any further join is refused, so a player
   * joins at most one clan.
   */
  lemma JoinOnce(clans: map<string, Clan>, playerId: string, clanId: string, otherClan: string)
    requires clanId in clans
    ensures var (ok, clans', pc) := JoinSpec(clans, None, playerId, clanId);
      && ok && pc == Some(clanId)
      && clans'.Keys == clans.Keys
      && clans'[clanId].members == clans[clanId].members + [playerId]
      && (forall c :: c in clans && c != clanId ==> clans'[c] == clans[c])
      && !JoinSpec(clans', pc, playerId, otherClan).0
  {
  }

  // ---------------------------------------------------------------------------
  // Wars
  // ---------------------------------------------------------------------------

  /** `declareWar`: refused while a war exists; otherwise both sides start at 0. */
  function DeclareSpec(war: Option<War>, clanId: string, targetClanId: string, now: int): (bool, Option<War>)
  {
    if war.Some? then (false, war)
    else (true, Some(War(clanId, targetClanId, now, WarDuration, map[clanId := 0, targetClanId := 0])))
  }

  /**
   * `updateWarScore` as written: nothing happens without a war or when the
   * clan's score is absent or 0 (falsy); otherwise the points are added and
   * the result says whether the clan reached the victory score.
   */
  function UpdateScoreSpec(war: Option<War>, clanId: string, points: int): (bool, Option<War>)
  {
    if war.None? || clanId !in war.value.score || war.value.score[clanId] == 0 then (false, war)
    else
      var s := war.value.score[clanId] + points;
      (s >= VictoryScore, Some(war.value.(score := war.value.score[clanId := s])))
  }

  function ApplyUpdates(war: Option<War>, updates: seq<(string, int)>): Option<War>
  {
    if updates == [] then war
    else UpdateScoreSpec(ApplyUpdates(war, updates[..|updates| - 1]), updates[|updates| - 1].0,
                         updates[|updates| - 1].1).1
  }

  /**
   * A freshly declared war's scores never move: every score starts at 0, and
   * an update of a clan whose score is 0 is ignored, so no sequence of updates
   * changes the war or reports a victory.
   */
  lemma {:induction false} ScoresFrozen(a: string, d: string, now: int, updates: seq<(string, int)>,
                                        clanId: string, points: int)
    ensures var w := DeclareSpec(None, a, d, now).1;
      && ApplyUpdates(w, updates) == w
      && !UpdateScoreSpec(ApplyUpdates(w, updates), clanId, points).0
    decreases |updates|
  {
    var w := DeclareSpec(None, a, d, now).1;
    if updates != [] {
      ScoresFrozen(a, d, now, updates[..|updates| - 1], clanId, points);
    }
  }

  /**
   * The update the score rule evidently intends: any clan that takes part in
   * the war (has a score entry) gains the points.
   */
  function UpdateScoreIntended(war: Option<War>, clanId: string, points: int): (r: (bool, Option<War>))
    ensures war.Some? && clanId in war.value.score ==>
      r.1.Some? && r.1.value.score.Keys == war.value.score.Keys &&
      r.1.value.score[clanId] == war.value.score[clanId] + points &&
      (r.0 <==> r.1.value.score[clanId] >= VictoryScore)
    ensures war.None? || clanId !in war.value.score ==> r == (false, war)
  {
    if war.None? || clanId !in war.value.score then (false, war)
    else
      var s := war.value.score[clanId] + points;
      (s >= VictoryScore, Some(war.value.(score := war.value.score[clanId := s])))
  }

  /** With the intended rule a declared war can be won: 600 and then 400 points reach the victory score. */
  lemma IntendedWarCanBeWon(a: string, d: string, now: int)
    ensures var w := DeclareSpec(None, a, d, now).1;
            var w1 := UpdateScoreIntended(w, a, 600).1;
      UpdateScoreIntended(w1, a, 400).0
  {
  }

  // ---------------------------------------------------------------------------
  // Bonus
  // ---------------------------------------------------------------------------

  /** `getClanBonus`: 1% per clan level plus 5% per level of the exp_bonus skill; 0 without a clan. */
  function ClanBonus(clans: map<string, Clan>, playerClan: Option<string>): (b: real)
    ensures playerClan.None? || playerClan.value !in clans ==> b == 0.0
    ensures playerClan.Some? && playerClan.value in clans ==>
      var skills := clans[playerClan.value].skills;
      b == clans[playerClan.value].level as real * 0.01 +
           0.05 * (if "exp_bonus" in skills then skills["exp_bonus"] else 0) as real
  {
    if playerClan.None? || playerClan.value !in clans then 0.0
    else
      var clan := clans[playerClan.value];
      var skillBonus := if "exp_bonus" in clan.skills && clan.skills["exp_bonus"] != 0
                        then 0.05 * clan.skills["exp_bonus"] as real else 0.0;
      clan.level as real * 0.01 + skillBonus
  }

  /** A new clan with its exp_bonus skill unlocked gives 1% + 5% = 6%. */
  lemma BonusScenario(c: Clan, id: string)
    requires c.level == 1 && c.skills == map["exp_bonus" := 1]
    ensures ClanBonus(map[id := c], Some(id)) == 0.06
  {
  }

  // ---------------------------------------------------------------------------
  // The clan system
  // ---------------------------------------------------------------------------

  class ClanSystem {
    var clans: map<string, Clan>
    var clanWar: Option<War>

    constructor ()
      ensures clans == map[] && clanWar == None
    {
      clans := map[];
      clanWar := None;
    }

    /**
     * `createClan`: a clan keyed by the clock, led by and holding only the
     * leader, at level 1 with nothing in reputation or treasury; the leader's
     * clan becomes the new id. The leader's earlier clan, if any, is not left.
     */
    method CreateClan(name: string, leader: Character, now: int) returns (clanId: string)
      modifies this`clans, leader`clan
      ensures clanId == ClanId(now)
      ensures clans == old(clans)[clanId := NewClan(clanId, name, leader.id)]
      ensures leader.clan == Some(clanId)
    {
      clanId := ClanId(now);
      clans := clans[clanId := NewClan(clanId, name, leader.id)];
      leader.clan := Some(clanId);
    }

    method JoinClan(player: Character, clanId: string) returns (ok: bool)
      modifies this`clans, player`clan
      ensures (ok, clans, player.clan) == JoinSpec(old(clans), old(player.clan), player.id, clanId)
    {
      if clanId !in clans || player.clan.Some? {
        return false;
      }
      clans := clans[clanId := clans[clanId].(members := clans[clanId].members + [player.id])];
      player.clan := Some(clanId);
      return true;
    }

    method DeclareWar(clanId: string, targetClanId: string, now: int) returns (ok: bool)
      modifies this`clanWar
      ensures (ok, clanWar) == DeclareSpec(old(clanWar), clanId, targetClanId, now)
    {
      if clanWar.Some? {
        return false;
      }
      clanWar := Some(War(clanId, targetClanId, now, WarDuration, map[clanId := 0, targetClanId := 0]));
      return true;
    }

    /** Returns whether the update reached the victory score, where the source would end the war. */
    method UpdateWarScore(clanId: string, points: int) returns (victory: bool)
      modifies this`clanWar
      ensures (victory, clanWar) == UpdateScoreSpec(old(clanWar), clanId, points)
    {
      if clanWar.None? || clanId !in clanWar.value.score || clanWar.value.score[clanId] == 0 {
        return false;
      }
      var s := clanWar.value.score[clanId] + points;
      clanWar := Some(clanWar.value.(score := clanWar.value.score[clanId := s]));
      victory := s >= VictoryScore;
    }

    /** Refused for an unknown clan or a skill already held (a level of 0 counts as not held); otherwise level 1. */
    method UnlockClanSkill(clanId: string, skillId: string) returns (ok: bool)
      modifies this`clans
      ensures ok == (clanId in old(clans) && !(skillId in old(clans)[clanId].skills && old(clans)[clanId].skills[skillId] != 0))
      ensures ok ==> clans == old(clans)[clanId := old(clans)[clanId].(skills := old(clans)[clanId].skills[skillId := 1])]
      ensures !ok ==> clans == old(clans)
    {
      if clanId !in clans {
        return false;
      }
      var clan := clans[clanId];
      if skillId in clan.skills && clan.skills[skillId] != 0 {
        return false;
      }
      clans := clans[clanId := clan.(skills := clan.skills[skillId := 1])];
      return true;
    }

    /** The bonus type is not consulted: every type gets the same bonus. */
    function GetClanBonus(player: Character, bonusType: string): (b: real)
      reads this`clans, player`clan
      ensures b == ClanBonus(clans, player.clan)
    {
      ClanBonus(clans, player.clan)
    }
  }
}
