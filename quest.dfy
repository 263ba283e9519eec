/**
 * Quests: the start gates, per-objective counters, the completion check and
 * the move of a finished quest from the active list to the completed list,
 * with its rewards paid through the character and the inventory system.
 *
 * Quests are records that the source mutates in place and shares between the
 * active and the completed list. Here a quest is a value held in one of the
 * two lists, and the progress loop tracks where the quest it is crediting
 * currently sits (`Loc`), which is what the shared object reference does in
 * the source.
 */
module Quests {
  import opened Common
  import opened Characters
  import Inventory

  // ---------------------------------------------------------------------------
  // Data
  // ---------------------------------------------------------------------------

  datatype Objective = Objective(kind: string, target: string, amount: int)

  /** `exp` and `gold` of 0 stand for an absent reward as well (both are falsy). */
  datatype Rewards = Rewards(exp: real, gold: real, items: seq<Item>, unlocks: seq<string>)

  /** A quest definition; an absent prerequisite list is the empty list. */
  datatype QuestDef = QuestDef(id: string, minLevel: Option<int>, prerequisites: seq<string>,
                               objectives: seq<Objective>, rewards: Rewards)

  datatype Progress = Progress(kind: string, target: string, current: int, required: int)

  /** An active or completed quest: its definition and one progress entry per objective. */
  datatype Quest = Quest(def: QuestDef, progress: seq<Progress>)

  predicate UniqueIds(qs: seq<Quest>)
  {
    forall i, j :: 0 <= i < j < |qs| ==> qs[i].def.id != qs[j].def.id
  }

  // ---------------------------------------------------------------------------
  // Lookups
  // ---------------------------------------------------------------------------

  /** `data.quests.find(q => q.id === id)` */
  function FindDef(catalogue: seq<QuestDef>, id: string): (r: Option<QuestDef>)
    ensures r.Some? ==> r.value in catalogue && r.value.id == id
    ensures r.Some? ==>
      exists k :: 0 <= k < |catalogue| && catalogue[k] == r.value && forall j :: 0 <= j < k ==> catalogue[j].id != id
    ensures r.None? ==> forall k :: 0 <= k < |catalogue| ==> catalogue[k].id != id
  {
    if catalogue == [] then None
    else if catalogue[0].id == id then Some(catalogue[0])
    else
      var r := FindDef(catalogue[1..], id);
      if r.Some? then
        var k :| 0 <= k < |catalogue[1..]| && catalogue[1..][k] == r.value && forall j :: 0 <= j < k ==> catalogue[1..][j].id != id;
        assert catalogue[k + 1] == r.value && forall j :: 0 <= j < k + 1 ==> catalogue[j].id != id;
        r
      else r
  }

  /** `activeQuests.findIndex(q => q.id === id)`, with `None` for -1. */
  function FindActive(qs: seq<Quest>, id: string): (r: Option<nat>)
    ensures r.Some? ==> r.value < |qs| && qs[r.value].def.id == id
    ensures r.Some? ==> forall k :: 0 <= k < r.value ==> qs[k].def.id != id
    ensures r.None? ==> forall k :: 0 <= k < |qs| ==> qs[k].def.id != id
  {
    if qs == [] then None
    else if qs[0].def.id == id then Some(0)
    else match FindActive(qs[1..], id)
      case None => None
      case Some(k) => Some(k + 1)
  }

  predicate HasQuest(qs: seq<Quest>, id: string)
  {
    exists k :: 0 <= k < |qs| && qs[k].def.id == id
  }

  // ---------------------------------------------------------------------------
  // Starting a quest
  // ---------------------------------------------------------------------------

  function ProgressOf(o: Objective): Progress
  {
    Progress(o.kind, o.target, 0, o.amount)
  }

  /** `createProgress`: one entry per objective, in order, with nothing counted yet. */
  function CreateProgress(objectives: seq<Objective>): (p: seq<Progress>)
    ensures |p| == |objectives|
    ensures forall k :: 0 <= k < |p| ==>
      p[k].kind == objectives[k].kind && p[k].target == objectives[k].target &&
      p[k].current == 0 && p[k].required == objectives[k].amount
  {
    if objectives == [] then []
    else CreateProgress(objectives[..|objectives| - 1]) + [ProgressOf(objectives[|objectives| - 1])]
  }

  predicate PrerequisitesMet(d: QuestDef, completed: seq<Quest>)
  {
    forall r :: r in d.prerequisites ==> HasQuest(completed, r)
  }

  /** `startQuest` on the active list: the gates in their order, then one quest appended. */
  function StartSpec(catalogue: seq<QuestDef>, active: seq<Quest>, completed: seq<Quest>,
                     level: int, id: string): (bool, seq<Quest>)
  {
    var d := FindDef(catalogue, id);
    if d.None? || HasQuest(active, id) then (false, active)
    else if d.value.minLevel.Some? && d.value.minLevel.value > level then (false, active)
    else if !PrerequisitesMet(d.value, completed) then (false, active)
    else (true, active + [Quest(d.value, CreateProgress(d.value.objectives))])
  }

  /**
   * `startQuest` succeeds exactly when the quest is known, not already active,
   * within the player's level and with every prerequisite completed; it then
   * appends one quest with fresh progress, and a refusal changes nothing. No
   * id is ever active twice.
   */
  lemma StartQuestEffect(catalogue: seq<QuestDef>, active: seq<Quest>, completed: seq<Quest>,
                         level: int, id: string)
    ensures var (ok, active') := StartSpec(catalogue, active, completed, level, id);
      && (ok <==> (exists k :: 0 <= k < |catalogue| && catalogue[k].id == id)
                  && !HasQuest(active, id)
                  && !(FindDef(catalogue, id).value.minLevel.Some? &&
                       FindDef(catalogue, id).value.minLevel.value > level)
                  && PrerequisitesMet(FindDef(catalogue, id).value, completed))
      && (!ok ==> active' == active)
      && (ok ==> |active'| == |active| + 1 && active'[..|active|] == active &&
                 active'[|active|].def.id == id &&
                 active'[|active|].progress == CreateProgress(active'[|active|].def.objectives))
      && (UniqueIds(active) ==> UniqueIds(active'))
  {
    var (ok, active') := StartSpec(catalogue, active, completed, level, id);
    if ok {
      assert active'[..|active|] == active;
    }
  }

  // ---------------------------------------------------------------------------
  // Completing a quest
  // ---------------------------------------------------------------------------

  /** What a quest call can change: the two lists and the player's progression, gold and items. */
  datatype QState = QState(active: seq<Quest>, completed: seq<Quest>, sheet: Sheet,
                           gold: real, inventory: seq<Item>)

  /** `rewards.items?.forEach(item => inventory.addItem(item))`, refusals included. */
  function AddAll(inv: seq<Item>, items: seq<Item>): seq<Item>
  {
    if items == [] then inv
    else Inventory.AddItemSpec(AddAll(inv, items[..|items| - 1]), items[|items| - 1]).1
  }

  /** Experience (when non-zero) through `gainExp`, gold (when non-zero), then each item. */
  function GrantRewards(w: QState, r: Rewards): QState
  {
    w.(sheet := if r.exp != 0.0 then GainExpSpec(w.sheet, r.exp).1 else w.sheet,
       gold := if r.gold != 0.0 then w.gold + r.gold else w.gold,
       inventory := AddAll(w.inventory, r.items))
  }

  function RemoveAt(qs: seq<Quest>, i: nat): seq<Quest>
    requires i < |qs|
  {
    qs[..i] + qs[i + 1..]
  }

  /**
   * `completeQuest`: an id that is not active changes nothing; otherwise the
   * rewards are paid and the quest moves from the active list (one shorter) to
   * the end of the completed list (one longer).
   */
  function CompleteSpec(w: QState, id: string): (r: (bool, QState))
    ensures !r.0 ==> r.1 == w
    ensures r.0 ==> |r.1.active| == |w.active| - 1 && |r.1.completed| == |w.completed| + 1
    ensures r.0 <==> HasQuest(w.active, id)
  {
    match FindActive(w.active, id)
    case None => (false, w)
    case Some(i) =>
      var q := w.active[i];
      var w1 := GrantRewards(w, q.def.rewards);
      (true, w1.(completed := w.completed + [q], active := RemoveAt(w.active, i)))
  }

  /**
   * The quest that completes is the active one with that id: it is appended
   * unchanged to the completed list, the others keep their order, gold rises
   * by exactly the gold reward, and ids stay unique.
   */
  lemma CompleteEffect(w: QState, id: string)
    requires HasQuest(w.active, id)
    ensures var i := FindActive(w.active, id).value; var w' := CompleteSpec(w, id).1;
      && w'.completed == w.completed + [w.active[i]]
      && w'.active == w.active[..i] + w.active[i + 1..]
      && w'.gold == w.gold + w.active[i].def.rewards.gold
      && (UniqueIds(w.active) ==> UniqueIds(w'.active))
  {
    var i := FindActive(w.active, id).value;
    RemoveAtUnique(w.active, i);
  }

  lemma RemoveAtUnique(qs: seq<Quest>, i: nat)
    requires i < |qs|
    ensures UniqueIds(qs) ==> UniqueIds(RemoveAt(qs, i))
  {
    var r := RemoveAt(qs, i);
    if UniqueIds(qs) {
      forall a, b | 0 <= a < b < |r|
        ensures r[a].def.id != r[b].def.id
      {
        var a' := if a < i then a else a + 1;
        var b' := if b < i then b else b + 1;
        assert r[a] == qs[a'] && r[b] == qs[b'];
      }
    }
  }

  /** No quest is lost or duplicated by completion: whatever was in either list still is. */
  lemma CompleteKeepsQuests(w: QState, id: string, x: Quest)
    requires x in w.active + w.completed
    ensures x in CompleteSpec(w, id).1.active + CompleteSpec(w, id).1.completed
  {
    if HasQuest(w.active, id) {
      var i := FindActive(w.active, id).value;
      var w' := CompleteSpec(w, id).1;
      if x in w.active {
        var k :| 0 <= k < |w.active| && w.active[k] == x;
        if k < i {
          assert w'.active[k] == x;
        } else if k > i {
          assert w'.active[k - 1] == x;
        } else {
          assert w'.completed[|w.completed|] == x;
        }
      } else {
        var k :| 0 <= k < |w.completed| && w.completed[k] == x;
        assert w'.completed[k] == x;
      }
    }
  }

  // ---------------------------------------------------------------------------
  // Progress tracking, as written
  // ---------------------------------------------------------------------------

  predicate Matches(p: Progress, kind: string, target: string)
  {
    p.kind == kind && p.target == target
  }

  /** `progress.every(prog => prog.current >= prog.required)` */
  predicate AllDone(p: seq<Progress>)
  {
    forall k :: 0 <= k < |p| ==> p[k].current >= p[k].required
  }

  function Bumped(p: seq<Progress>, j: nat): seq<Progress>
    requires j < |p|
  {
    p[j := p[j].(current := p[j].current + 1)]
  }

  /** Where the quest being credited sits: an index of the active or of the completed list. */
  datatype Loc = InActive(i: nat) | InCompleted(i: nat)

  predicate ValidLoc(w: QState, loc: Loc)
  {
    match loc
    case InActive(i) => i < |w.active|
    case InCompleted(i) => i < |w.completed|
  }

  function QuestAt(w: QState, loc: Loc): Quest
    requires ValidLoc(w, loc)
  {
    match loc
    case InActive(i) => w.active[i]
    case InCompleted(i) => w.completed[i]
  }

  function SetQuestAt(w: QState, loc: Loc, q: Quest): (r: QState)
    requires ValidLoc(w, loc)
    ensures ValidLoc(r, loc) && QuestAt(r, loc) == q
    ensures |r.active| == |w.active| && |r.completed| == |w.completed|
  {
    match loc
    case InActive(i) => w.(active := w.active[i := q])
    case InCompleted(i) => w.(completed := w.completed[i := q])
  }

  /** The place of the tracked quest after `completeQuest` removed active entry `removed`. */
  function Relocate(loc: Loc, removed: nat, completedIndex: nat): Loc
  {
    match loc
    case InActive(k) =>
      if removed == k then InCompleted(completedIndex)
      else if removed < k then InActive(k - 1)
      else loc
    case InCompleted(_) => loc
  }

  /** Completing a quest leaves the tracked quest findable at its new place, unchanged. */
  lemma CompleteTracks(w: QState, loc: Loc, id: string)
    requires ValidLoc(w, loc) && HasQuest(w.active, id)
    ensures var w' := CompleteSpec(w, id).1;
            var loc' := Relocate(loc, FindActive(w.active, id).value, |w.completed|);
      ValidLoc(w', loc') && QuestAt(w', loc') == QuestAt(w, loc)
  {
    var i := FindActive(w.active, id).value;
    var w' := CompleteSpec(w, id).1;
    match loc
    case InActive(k) =>
      if i < k {
        assert w'.active[k - 1] == w.active[k];
      } else if i > k {
        assert w'.active[k] == w.active[k];
      }
    case InCompleted(c) =>
      assert w'.completed[c] == w.completed[c];
  }

  /**
   * One entry of the inner `quest.progress.forEach`: when entry `j` of the
   * quest at `loc` matches, it counts one more and the completion check runs;
   * the result is the new state and the new place of the quest. Once the
   * quest has moved to the completed list, its later entries are still
   * counted there.
   */
  function CreditStep(w: QState, loc: Loc, j: nat, kind: string, target: string): (r: (QState, Loc))
    requires ValidLoc(w, loc) && j < |QuestAt(w, loc).progress|
    ensures ValidLoc(r.0, r.1) && |QuestAt(r.0, r.1).progress| == |QuestAt(w, loc).progress|
    ensures |r.0.active| <= |w.active|
    ensures |r.0.active| + |r.0.completed| == |w.active| + |w.completed|
  {
    var q := QuestAt(w, loc);
    if !Matches(q.progress[j], kind, target) then (w, loc)
    else
      var q' := q.(progress := Bumped(q.progress, j));
      var w1 := SetQuestAt(w, loc, q');
      if !AllDone(q'.progress) || !HasQuest(w1.active, q'.def.id) then (w1, loc)
      else
        CompleteTracks(w1, loc, q'.def.id);
        (CompleteSpec(w1, q'.def.id).1, Relocate(loc, FindActive(w1.active, q'.def.id).value, |w1.completed|))
  }

  /** The inner `quest.progress.forEach` from entry `j` on. */
  function InnerCredit(w: QState, loc: Loc, j: nat, kind: string, target: string): (r: QState)
    requires ValidLoc(w, loc) && j <= |QuestAt(w, loc).progress|
    ensures |r.active| <= |w.active|
    ensures |r.active| + |r.completed| == |w.active| + |w.completed|
    decreases |QuestAt(w, loc).progress| - j
  {
    if j == |QuestAt(w, loc).progress| then w
    else
      var (w', loc') := CreditStep(w, loc, j, kind, target);
      InnerCredit(w', loc', j + 1, kind, target)
  }

  /**
   * The outer `activeQuests.forEach` from index `k` on. The array shrinks when
   * a quest completes, and `forEach` visits an index only while it is still
   * below the current length.
   */
  function OuterCredit(w: QState, k: nat, kind: string, target: string): (r: QState)
    ensures |r.active| + |r.completed| == |w.active| + |w.completed|
    ensures |r.completed| >= |w.completed|
    decreases |w.active| - k
  {
    if k >= |w.active| then w
    else OuterCredit(InnerCredit(w, InActive(k), 0, kind, target), k + 1, kind, target)
  }

  /** `onEnemyDefeated` (kind "kill") and `onItemCollected` (kind "collect"). */
  function CreditSpec(w: QState, kind: string, target: string): QState
  {
    OuterCredit(w, 0, kind, target)
  }

  /** Every matching entry counts one more; the others are unchanged. */
  function BumpAll(p: seq<Progress>, kind: string, target: string): (r: seq<Progress>)
    ensures |r| == |p|
  {
    BumpPrefix(p, |p|, kind, target)
  }

  function BumpPrefix(p: seq<Progress>, n: nat, kind: string, target: string): (r: seq<Progress>)
    ensures |r| == |p|
  {
    seq(|p|, k requires 0 <= k < |p| =>
      if k < n && Matches(p[k], kind, target) then p[k].(current := p[k].current + 1) else p[k])
  }

  function BumpQuests(qs: seq<Quest>, kind: string, target: string): (r: seq<Quest>)
    ensures |r| == |qs|
  {
    seq(|qs|, k requires 0 <= k < |qs| => qs[k].(progress := BumpAll(qs[k].progress, kind, target)))
  }

  predicate HasMatch(p: seq<Progress>, kind: string, target: string)
  {
    exists k :: 0 <= k < |p| && Matches(p[k], kind, target)
  }

  /** The quest would complete on this event: it has a matching entry and is done once all are counted. */
  predicate Fires(q: Quest, kind: string, target: string)
  {
    HasMatch(q.progress, kind, target) && AllDone(BumpAll(q.progress, kind, target))
  }

  /** Counting only raises counters, so a quest done part-way through is done at the end. */
  lemma BumpMonotone(p: seq<Progress>, n: nat, kind: string, target: string)
    requires AllDone(BumpPrefix(p, n, kind, target))
    ensures AllDone(BumpAll(p, kind, target))
  {
    var a := BumpPrefix(p, n, kind, target);
    var b := BumpAll(p, kind, target);
    forall k | 0 <= k < |b|
      ensures b[k].current >= b[k].required
    {
      assert a[k].current >= a[k].required;
    }
  }

  lemma {:induction false} InnerWithoutCompletion(w: QState, i: nat, j: nat, p0: seq<Progress>,
                                                  kind: string, target: string)
    requires i < |w.active| && |w.active[i].progress| == |p0| && j <= |p0|
    requires w.active[i].progress == BumpPrefix(p0, j, kind, target)
    requires !Fires(w.active[i].(progress := p0), kind, target)
    ensures InnerCredit(w, InActive(i), j, kind, target) ==
      w.(active := w.active[i := w.active[i].(progress := BumpAll(p0, kind, target))])
    decreases |p0| - j
  {
    var q := w.active[i];
    if j == |p0| {
      assert w.active[i := q] == w.active;
    } else if !Matches(q.progress[j], kind, target) {
      assert BumpPrefix(p0, j + 1, kind, target) == q.progress;
      InnerWithoutCompletion(w, i, j + 1, p0, kind, target);
    } else {
      var q' := q.(progress := Bumped(q.progress, j));
      assert q'.progress == BumpPrefix(p0, j + 1, kind, target);
      assert HasMatch(p0, kind, target) by { assert Matches(p0[j], kind, target); }
      if AllDone(q'.progress) {
        BumpMonotone(p0, j + 1, kind, target);
        assert false;
      }
      var w1 := w.(active := w.active[i := q']);
      InnerWithoutCompletion(w1, i, j + 1, p0, kind, target);
      assert w1.active[i := w1.active[i].(progress := BumpAll(p0, kind, target))] ==
             w.active[i := w.active[i].(progress := BumpAll(p0, kind, target))];
    }
  }

  lemma {:induction false} OuterWithoutCompletion(w: QState, k: nat, kind: string, target: string)
    requires k <= |w.active|
    requires forall i :: k <= i < |w.active| ==> !Fires(w.active[i], kind, target)
    ensures OuterCredit(w, k, kind, target) ==
      w.(active := w.active[..k] + BumpQuests(w.active[k..], kind, target))
    decreases |w.active| - k
  {
    if k == |w.active| {
      assert w.active[..k] + BumpQuests(w.active[k..], kind, target) == w.active;
    } else {
      var p0 := w.active[k].progress;
      assert BumpPrefix(p0, 0, kind, target) == p0;
      assert w.active[k].(progress := p0) == w.active[k];
      InnerWithoutCompletion(w, k, 0, p0, kind, target);
      var w1 := w.(active := w.active[k := w.active[k].(progress := BumpAll(p0, kind, target))]);
      OuterWithoutCompletion(w1, k + 1, kind, target);
      assert w1.active[..k + 1] + BumpQuests(w1.active[k + 1..], kind, target) ==
             w.active[..k] + BumpQuests(w.active[k..], kind, target);
    }
  }

  /**
   * When no active quest would complete, an event does exactly this: every
   * entry of the right kind and target counts one more, nothing else changes,
   * and no quest, reward or item moves.
   */
  lemma CreditWithoutCompletion(w: QState, kind: string, target: string)
    requires forall i :: 0 <= i < |w.active| ==> !Fires(w.active[i], kind, target)
    ensures CreditSpec(w, kind, target) == w.(active := BumpQuests(w.active, kind, target))
  {
    OuterWithoutCompletion(w, 0, kind, target);
    assert w.active[0..] == w.active;
  }

  // ---------------------------------------------------------------------------
  // A quest that follows a completed one is skipped
  // ---------------------------------------------------------------------------

  const SlimeHunt := Progress("kill", "slime", 0, 1)
  const NoRewards := Rewards(0.0, 0.0, [], [])

  /**
   * Two active quests that each need one slime. The first completes on the
   * kill and is spliced out of the list, so the second moves to index 0 while
   * `forEach` goes on to index 1: the second quest's kill is never counted.
   */
  lemma SkippedAfterCompletion(sheet: Sheet, gold: real, inv: seq<Item>)
    ensures var a := Quest(QuestDef("a", None, [], [], NoRewards), [SlimeHunt]);
            var b := Quest(QuestDef("b", None, [], [], NoRewards), [SlimeHunt]);
            var r := CreditSpec(QState([a, b], [], sheet, gold, inv), "kill", "slime");
      && r.active == [b]
      && r.completed == [a.(progress := [SlimeHunt.(current := 1)])]
      && BumpQuests([b], "kill", "slime")[0] !in r.active + r.completed
  {
    var a := Quest(QuestDef("a", None, [], [], NoRewards), [SlimeHunt]);
    var b := Quest(QuestDef("b", None, [], [], NoRewards), [SlimeHunt]);
    var w := QState([a, b], [], sheet, gold, inv);
    var a' := a.(progress := [SlimeHunt.(current := 1)]);
    var w1 := w.(active := [a', b]);
    assert AddAll(inv, []) == inv;
    assert FindActive(w1.active, "a") == Some(0);
    var w2 := QState([b], [a'], sheet, gold, inv);
    assert CompleteSpec(w1, "a").1 == w2 by {
      assert RemoveAt([a', b], 0) == [b];
    }
    assert Bumped(a.progress, 0) == a'.progress;
    assert SetQuestAt(w, InActive(0), a') == w1;
    assert AllDone(a'.progress) && HasQuest(w1.active, "a");
    assert CreditStep(w, InActive(0), 0, "kill", "slime") == (w2, InCompleted(0));
    assert InnerCredit(w2, InCompleted(0), 1, "kill", "slime") == w2;
    assert InnerCredit(w, InActive(0), 0, "kill", "slime") == w2;
    assert OuterCredit(w2, 1, "kill", "slime") == w2;
    assert BumpQuests([b], "kill", "slime")[0].progress[0].current == 1;
  }

  // ---------------------------------------------------------------------------
  // Progress tracking, as intended
  // ---------------------------------------------------------------------------

  /** The ids of the quests that the event completes, in list order. */
  function FiredIds(qs: seq<Quest>, kind: string, target: string): seq<string>
  {
    if qs == [] then []
    else (if Fires(qs[0], kind, target) then [qs[0].def.id] else []) + FiredIds(qs[1..], kind, target)
  }

  function CompleteAll(w: QState, ids: seq<string>): QState
    decreases |ids|
  {
    if ids == [] then w else CompleteAll(CompleteSpec(w, ids[0]).1, ids[1..])
  }

  /**
   * Iterating over a snapshot of the active list (`[...activeQuests].forEach`):
   * every active quest is credited, and those that are then done complete in
   * list order.
   */
  function SnapshotCreditSpec(w: QState, kind: string, target: string): QState
  {
    CompleteAll(w.(active := BumpQuests(w.active, kind, target)), FiredIds(w.active, kind, target))
  }

  lemma {:induction false} CompleteAllKeepsQuests(w: QState, ids: seq<string>, x: Quest)
    requires x in w.active + w.completed
    ensures x in CompleteAll(w, ids).active + CompleteAll(w, ids).completed
    decreases |ids|
  {
    if ids != [] {
      CompleteKeepsQuests(w, ids[0], x);
      CompleteAllKeepsQuests(CompleteSpec(w, ids[0]).1, ids[1..], x);
    }
  }

  /** With snapshot iteration no quest is skipped: each active quest, fully credited, ends up in one of the lists. */
  lemma SnapshotCreditsEveryQuest(w: QState, kind: string, target: string)
    ensures var r := SnapshotCreditSpec(w, kind, target);
      forall i :: 0 <= i < |w.active| ==> BumpQuests(w.active, kind, target)[i] in r.active + r.completed
  {
    var b := w.(active := BumpQuests(w.active, kind, target));
    forall i | 0 <= i < |w.active|
      ensures BumpQuests(w.active, kind, target)[i] in SnapshotCreditSpec(w, kind, target).active +
                                                       SnapshotCreditSpec(w, kind, target).completed
    {
      var x := BumpQuests(w.active, kind, target)[i];
      assert x in b.active + b.completed by { assert (b.active + b.completed)[i] == x; }
      CompleteAllKeepsQuests(b, FiredIds(w.active, kind, target), x);
    }
  }

  // ---------------------------------------------------------------------------
  // The quest system
  // ---------------------------------------------------------------------------

  class QuestSystem {
    const catalogue: seq<QuestDef>
    const player: Character
    const inventory: Inventory.InventorySystem
    var activeQuests: seq<Quest>
    var completedQuests: seq<Quest>

    /** Rewards go to the same player the quests belong to, and no id is active twice. */
    predicate Valid()
      reads this
    {
      inventory.player == player && UniqueIds(activeQuests)
    }

    function State(): QState
      reads this, player
    {
      QState(activeQuests, completedQuests, player.CurrentSheet(), player.gold, player.inventory)
    }

    constructor (catalogue: seq<QuestDef>, player: Character, inventory: Inventory.InventorySystem)
      requires inventory.player == player
      ensures Valid() && this.catalogue == catalogue && this.player == player && this.inventory == inventory
      ensures activeQuests == [] && completedQuests == []
    {
      this.catalogue := catalogue;
      this.player := player;
      this.inventory := inventory;
      activeQuests := [];
      completedQuests := [];
    }

    method StartQuest(id: string) returns (ok: bool)
      requires Valid()
      modifies this`activeQuests
      ensures Valid()
      ensures (ok, activeQuests) == StartSpec(catalogue, old(activeQuests), completedQuests, player.level, id)
    {
      StartQuestEffect(catalogue, activeQuests, completedQuests, player.level, id);
      var d := FindDef(catalogue, id);
      if d.None? || FindActive(activeQuests, id).Some? {
        return false;
      }
      var quest := d.value;
      if quest.minLevel.Some? && quest.minLevel.value > player.level {
        return false;
      }
      if !PrerequisitesMet(quest, completedQuests) {
        return false;
      }
      activeQuests := activeQuests + [Quest(quest, CreateProgress(quest.objectives))];
      return true;
    }

    /** `rewards.items?.forEach(item => inventory.addItem(item))` */
    method AddRewardItems(items: seq<Item>)
      requires Valid()
      modifies player`inventory
      ensures player.inventory == AddAll(old(player.inventory), items)
    {
      var t := 0;
      while t < |items|
        invariant 0 <= t <= |items|
        invariant player.inventory == AddAll(old(player.inventory), items[..t])
      {
        assert items[..t + 1][..t] == items[..t];
        var _ := inventory.AddItem(items[t]);
        t := t + 1;
      }
      assert items[..t] == items;
    }

    /** The rewards of a completed quest: experience, gold, then the items. */
    method PayRewards(rewards: Rewards)
      requires Valid()
      modifies player`level, player`exp, player`stats, player`maxHp, player`currentHp, player`maxSp, player`currentSp, player`gold, player`inventory
      ensures State() == GrantRewards(old(State()), rewards)
    {
      if rewards.exp != 0.0 {
        var _ := player.GainExp(rewards.exp);
      }
      if rewards.gold != 0.0 {
        player.gold := player.gold + rewards.gold;
      }
      AddRewardItems(rewards.items);
    }

    method CompleteQuest(id: string) returns (ok: bool)
      requires Valid()
      modifies this`activeQuests, this`completedQuests
      modifies player`level, player`exp, player`stats, player`maxHp, player`currentHp, player`maxSp, player`currentSp, player`gold, player`inventory
      ensures Valid()
      ensures (ok, State()) == CompleteSpec(old(State()), id)
    {
      var index := FindActive(activeQuests, id);
      if index.None? {
        return false;
      }
      CompleteEffect(State(), id);
      var i := index.value;
      var quest := activeQuests[i];
      PayRewards(quest.def.rewards);
      completedQuests := completedQuests + [quest];
      activeQuests := activeQuests[..i] + activeQuests[i + 1..];
      return true;
    }

    /** `checkCompletion`: completes the quest exactly when every entry has reached its requirement. */
    method CheckCompletion(quest: Quest)
      requires Valid()
      modifies this`activeQuests, this`completedQuests
      modifies player`level, player`exp, player`stats, player`maxHp, player`currentHp, player`maxSp, player`currentSp, player`gold, player`inventory
      ensures Valid()
      ensures State() == (if AllDone(quest.progress) then CompleteSpec(old(State()), quest.def.id).1 else old(State()))
    {
      if AllDone(quest.progress) {
        var _ := CompleteQuest(quest.def.id);
      }
    }

    /** One entry of the inner loop of `onEnemyDefeated` and `onItemCollected`. */
    method CreditEntry(loc: Loc, j: nat, kind: string, target: string) returns (loc': Loc)
      requires Valid() && ValidLoc(State(), loc) && j < |QuestAt(State(), loc).progress|
      modifies this`activeQuests, this`completedQuests
      modifies player`level, player`exp, player`stats, player`maxHp, player`currentHp, player`maxSp, player`currentSp, player`gold, player`inventory
      ensures Valid()
      ensures (State(), loc') == CreditStep(old(State()), loc, j, kind, target)
    {
      loc' := loc;
      var q := if loc.InActive? then activeQuests[loc.i] else completedQuests[loc.i];
      if Matches(q.progress[j], kind, target) {
        var q' := q.(progress := Bumped(q.progress, j));
        if loc.InActive? {
          activeQuests := activeQuests[loc.i := q'];
        } else {
          completedQuests := completedQuests[loc.i := q'];
        }
        var index := FindActive(activeQuests, q'.def.id);
        var c := |completedQuests|;
        CheckCompletion(q');
        if AllDone(q'.progress) && index.Some? {
          loc' := Relocate(loc, index.value, c);
        }
      }
    }

    /** The loop shared by `onEnemyDefeated` and `onItemCollected`. */
    method Credit(kind: string, target: string)
      requires Valid()
      modifies this`activeQuests, this`completedQuests
      modifies player`level, player`exp, player`stats, player`maxHp, player`currentHp, player`maxSp, player`currentSp, player`gold, player`inventory
      ensures Valid()
      ensures State() == CreditSpec(old(State()), kind, target)
    {
      ghost var goal := CreditSpec(State(), kind, target);
      var k := 0;
      while k < |activeQuests|
        invariant Valid()
        invariant OuterCredit(State(), k, kind, target) == goal
        decreases |activeQuests| - k
      {
        ghost var before := |activeQuests|;
        var loc := InActive(k);
        var n := |activeQuests[k].progress|;
        var j := 0;
        while j < n
          invariant Valid()
          invariant 0 <= j <= n
          invariant ValidLoc(State(), loc) && |QuestAt(State(), loc).progress| == n
          invariant |activeQuests| <= before
          invariant OuterCredit(InnerCredit(State(), loc, j, kind, target), k + 1, kind, target) == goal
        {
          loc := CreditEntry(loc, j, kind, target);
          j := j + 1;
        }
        k := k + 1;
      }
    }

    method OnEnemyDefeated(enemyType: string)
      requires Valid()
      modifies this`activeQuests, this`completedQuests
      modifies player`level, player`exp, player`stats, player`maxHp, player`currentHp, player`maxSp, player`currentSp, player`gold, player`inventory
      ensures Valid()
      ensures State() == CreditSpec(old(State()), "kill", enemyType)
    {
      Credit("kill", enemyType);
    }

    method OnItemCollected(itemId: string)
      requires Valid()
      modifies this`activeQuests, this`completedQuests
      modifies player`level, player`exp, player`stats, player`maxHp, player`currentHp, player`maxSp, player`currentSp, player`gold, player`inventory
      ensures Valid()
      ensures State() == CreditSpec(old(State()), "collect", itemId)
    {
      Credit("collect", itemId);
    }
  }
}
