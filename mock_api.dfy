/** The browser-side mock API: the record types the client stores, the loadout list kept in local
    storage with its create/update/delete operations, and the heuristic path score of the mock
    advisor. Local storage is a field of `LoadoutStorage`; delays and fresh identifiers are not
    modelled (a new identifier is a parameter). */
module MockApi {
  import opened Wrappers
  import opened Lists

  datatype Loadout = Loadout(
    id: string,
    name: string,
    weaponPrimary: string,
    weaponSecondary: string,
    charm: string,
    superMove: string)

  /** A loadout before it has been given an identifier */
  datatype LoadoutDraft = LoadoutDraft(
    name: string,
    weaponPrimary: string,
    weaponSecondary: string,
    charm: string,
    superMove: string)

  function LoadoutId(l: Loadout): string {
    l.id
  }

  /** `{ ...loadout, id }` */
  function WithId(d: LoadoutDraft, id: string): (l: Loadout)
    ensures l.id == id
    ensures l.name == d.name && l.weaponPrimary == d.weaponPrimary && l.weaponSecondary == d.weaponSecondary
    ensures l.charm == d.charm && l.superMove == d.superMove
  {
    Loadout(id, d.name, d.weaponPrimary, d.weaponSecondary, d.charm, d.superMove)
  }

  datatype PathResult = PathResult(
    id: string,
    goalName: string,
    estimatedTimeMinutes: int,
    attemptsEstimation: int,
    recommendedLoadoutId: Option<string>,
    steps: seq<string>,
    efficiencyScore: real,
    strategyLabel: string,
    aiAdvice: string)

  // The profile records
  datatype Weapon = Weapon(id: string, name: string, kind: string, damage: int, owned: bool)
  datatype Skill = Skill(id: string, name: string, level: int, maxLevel: int)
  datatype Difficulty = Easy | Medium | Hard | Extreme
  datatype Boss = Boss(id: string, name: string, defeated: bool, difficulty: Difficulty)
  /** A level; its status is kept as text because the reducers handle unrecognised values, and
      the collected coins may be missing */
  datatype Level = Level(id: string, name: string, status: string, coinsCollected: Option<int>, totalCoins: int)
  datatype ProfileData = ProfileData(weapons: seq<Weapon>, skills: seq<Skill>, bosses: seq<Boss>, levels: seq<Level>)

  const InitialLoadouts: seq<Loadout> := [
    Loadout("1", "Standard Peashooter", "Peashooter", "Spread", "Smoke Bomb", "Energy Beam")
  ]

  /** What getLoadoutsFromStorage returns: the stored list, or the initial list when nothing is stored */
  function Loaded(stored: Option<seq<Loadout>>): (r: seq<Loadout>)
    ensures stored.Some? ==> r == stored.value
    ensures stored.None? ==> r == InitialLoadouts
  {
    stored.GetOr(InitialLoadouts)
  }

  /** The advisor's knowledge of a boss */
  datatype AdvisorInfo = AdvisorInfo(weaknesses: seq<string>, tips: seq<string>)

  const AdvisorData: map<string, AdvisorInfo> := map[
    "The Root Pack" := AdvisorInfo(["Peashooter", "Spread"],
      ["Stay in the center for the potato", "Use Spread for the onion", "Parry the tears"]),
    "Goopy Le Grande" := AdvisorInfo(["Spread", "Chaser"],
      ["Duck when he punches", "Keep moving in phase 2", "Stay under the tombstone"])
  ]

  const UnknownBossAdvice: AdvisorInfo := AdvisorInfo([], ["Stay focused!", "Watch attack patterns."])

  /** `BOSS_DATA[bossName] || { weaknesses: [], tips: [...] }` */
  function LookupAdvice(bossName: string): (r: AdvisorInfo)
    ensures bossName in AdvisorData ==> r == AdvisorData[bossName]
    ensures bossName !in AdvisorData ==> r.weaknesses == [] && r.tips == ["Stay focused!", "Watch attack patterns."]
  {
    if bossName in AdvisorData then AdvisorData[bossName] else UnknownBossAdvice
  }

  datatype StrategyTier = StrategyTier(threshold: real, text: string)

  /** From best to worst; the last threshold is 0 */
  const StrategyTiers: seq<StrategyTier> := [
    StrategyTier(0.9, "S-Rank Strategy"),
    StrategyTier(0.7, "Solid Plan"),
    StrategyTier(0.4, "Risky Setup"),
    StrategyTier(0.0, "Underprepared")
  ]

  /** `find(t => score >= t.threshold)` */
  function FirstTierAtMost(tiers: seq<StrategyTier>, score: real): (r: int)
    ensures -1 <= r < |tiers|
    ensures r >= 0 ==> tiers[r].threshold <= score
    ensures forall j :: 0 <= j < |tiers| && (r == -1 || j < r) ==> tiers[j].threshold > score
    decreases |tiers|
  {
    if |tiers| == 0 then -1
    else if score >= tiers[0].threshold then 0
    else
      var k := FirstTierAtMost(tiers[1..], score);
      if k == -1 then -1 else k + 1
  }

  /** The first tier whose threshold the score reaches, or the last tier */
  function TierFor(score: real): (t: StrategyTier)
    ensures t in StrategyTiers
    ensures score >= 0.0 ==> t.threshold <= score
    ensures forall j :: 0 <= j < |StrategyTiers| && StrategyTiers[j].threshold > t.threshold ==>
      StrategyTiers[j].threshold > score
  {
    var i := FirstTierAtMost(StrategyTiers, score);
    if i == -1 then StrategyTiers[3] else StrategyTiers[i]
  }

  /** The tiers the scores a loadout can earn fall into */
  lemma TiersOfScores()
    ensures TierFor(0.9).text == "S-Rank Strategy"
    ensures TierFor(0.8).text == "Solid Plan"
    ensures TierFor(0.6).text == "Risky Setup" && TierFor(0.5).text == "Risky Setup"
  {
    assert FirstTierAtMost(StrategyTiers, 0.9) == 0;
    assert FirstTierAtMost(StrategyTiers, 0.8) == 1;
    assert FirstTierAtMost(StrategyTiers, 0.6) == 2;
    assert FirstTierAtMost(StrategyTiers, 0.5) == 2;
  }

  /** `Math.round`: halves round up */
  function Round(x: real): (r: int)
    ensures x - 0.5 < r as real <= x + 0.5
  {
    (x + 0.5).Floor
  }

  /** The score of a loadout against a boss: 0.5, plus 0.3 when either weapon is a weakness, plus
      0.1 with the Smoke Bomb charm */
  function Score(used: Option<Loadout>, info: AdvisorInfo): (e: real)
    ensures 0.5 <= e <= 0.9
    ensures used.None? ==> e == 0.5
    ensures used.Some? ==>
      e == 0.5 + (if used.value.weaponPrimary in info.weaknesses || used.value.weaponSecondary in info.weaknesses then 0.3 else 0.0)
               + (if used.value.charm == "Smoke Bomb" then 0.1 else 0.0)
  {
    if used.None? then 0.5
    else
      var l := used.value;
      0.5 + (if l.weaponPrimary in info.weaknesses || l.weaponSecondary in info.weaknesses then 0.3 else 0.0)
          + (if l.charm == "Smoke Bomb" then 0.1 else 0.0)
  }

  /** `Math.max(1, Math.round(10 * (1.1 - score)))` */
  function AttemptsFor(score: real): (r: int)
    ensures r >= 1
    ensures 0.5 <= score <= 0.9 ==> 2 <= r <= 6
  {
    var k := Round(10.0 * (1.1 - score));
    if k > 1 then k else 1
  }

  /** A better score never needs more attempts */
  lemma AttemptsMonotone(a: real, b: real)
    requires a <= b
    ensures AttemptsFor(b) <= AttemptsFor(a)
  {
  }

  /** The two advice texts of the mock planner, each written as two literals so that the verifier
      sees the first character that tells them apart */
  const SuitedAdvice: string := "Your " + "loadout is perfectly suited for this encounter. Aggressive play is recommended."
  const SwitchAdvice: string := "Consider " + "switching to weapons with higher spread or homing for this boss."

  /** The loadout with that id, if any: `loadouts.find(l => l.id === loadoutId)` */
  function FindLoadout(loadouts: seq<Loadout>, id: string): (r: Option<Loadout>)
    ensures r.None? <==> forall j :: 0 <= j < |loadouts| ==> loadouts[j].id != id
    ensures r.Some? ==> r.value in loadouts && r.value.id == id
    ensures forall j :: 0 <= j < |loadouts| && loadouts[j].id == id ==>
      (forall k :: 0 <= k < j ==> loadouts[k].id != id) ==> r == Some(loadouts[j])
  {
    var i := FindIndex(loadouts, LoadoutId, id);
    assert forall j :: 0 <= j < |loadouts| ==> LoadoutId(loadouts[j]) == loadouts[j].id;
    if i == -1 then None else Some(loadouts[i])
  }

  /** The result calculatePath builds from the loadouts it read from storage */
  function PathFor(bossName: string, loadoutId: string, loadouts: seq<Loadout>, pathId: string): (r: PathResult)
    ensures r.id == pathId && r.goalName == "Defeat " + bossName
    ensures r.recommendedLoadoutId == Some(loadoutId)
    ensures r.steps == LookupAdvice(bossName).tips
    ensures r.efficiencyScore == Score(FindLoadout(loadouts, loadoutId), LookupAdvice(bossName))
    ensures 0.5 <= r.efficiencyScore <= 0.9
    ensures r.strategyLabel == TierFor(r.efficiencyScore).text
    ensures r.attemptsEstimation == AttemptsFor(r.efficiencyScore) && r.attemptsEstimation >= 1
    ensures var used := FindLoadout(loadouts, loadoutId);
      r.estimatedTimeMinutes == if used.Some? && used.value.weaponPrimary == "Charge" then 20 else 25
    ensures r.aiAdvice == SuitedAdvice <==> r.efficiencyScore > 0.8
    ensures r.aiAdvice == SwitchAdvice <==> r.efficiencyScore <= 0.8
  {
    var used := FindLoadout(loadouts, loadoutId);
    var info := LookupAdvice(bossName);
    var e := Score(used, info);
    var timeModifier := if used.Some? && used.value.weaponPrimary == "Charge" then 0.8 else 1.0;
    assert SuitedAdvice[0] == 'Y' && SwitchAdvice[0] == 'C';
    PathResult(pathId, "Defeat " + bossName, Round(25.0 * timeModifier), AttemptsFor(e), Some(loadoutId),
      info.tips, e, TierFor(e).text, if e > 0.8 then SuitedAdvice else SwitchAdvice)
  }

  /** The synergy part of calculatePath: the score and the time modifier built up step by step */
  method Synergy(usedLoadout: Option<Loadout>, bossInfo: AdvisorInfo) returns (score: real, timeModifier: real)
    ensures score == Score(usedLoadout, bossInfo)
    ensures timeModifier == if usedLoadout.Some? && usedLoadout.value.weaponPrimary == "Charge" then 0.8 else 1.0
  {
    score := 0.5;
    timeModifier := 1.0;
    if usedLoadout.Some? {
      var l := usedLoadout.value;
      var hasWeakness := l.weaponPrimary in bossInfo.weaknesses || l.weaponSecondary in bossInfo.weaknesses;
      if hasWeakness {
        score := score + 0.3;
      }
      if l.charm == "Smoke Bomb" {
        score := score + 0.1;
      }
      if l.weaponPrimary == "Charge" {
        timeModifier := timeModifier - 0.2;
      }
    }
  }

  /** The loadout list in local storage, `None` while nothing has been stored */
  class LoadoutStorage {
    var stored: Option<seq<Loadout>>

    constructor(stored: Option<seq<Loadout>>)
      ensures this.stored == stored
    {
      this.stored := stored;
    }

    /** getLoadoutsFromStorage: on first use the initial list is written back */
    method Load() returns (loadouts: seq<Loadout>)
      modifies this
      ensures loadouts == Loaded(old(stored))
      ensures stored == Some(loadouts)
    {
      if stored.None? {
        stored := Some(InitialLoadouts);
        return InitialLoadouts;
      }
      loadouts := stored.value;
    }

    /** getLoadouts */
    method GetLoadouts() returns (loadouts: seq<Loadout>)
      modifies this
      ensures loadouts == Loaded(old(stored))
      ensures stored == Some(loadouts)
    {
      loadouts := Load();
    }

    /** createLoadout: the draft gets the fresh id and is appended */
    method CreateLoadout(draft: LoadoutDraft, newId: string) returns (created: Loadout)
      modifies this
      ensures created == WithId(draft, newId)
      ensures stored == Some(Loaded(old(stored)) + [created])
    {
      created := WithId(draft, newId);
      var loadouts := Load();
      loadouts := loadouts + [created];
      stored := Some(loadouts);
    }

    /** updateLoadout: the first loadout with the same id is replaced, or 'Loadout not found' is
        raised with the list unchanged (though now written to storage) */
    method UpdateLoadout(loadout: Loadout) returns (r: Result<Loadout, string>)
      modifies this
      ensures FindIndex(Loaded(old(stored)), LoadoutId, loadout.id) != -1 ==>
        r == Ok(loadout) && stored == Some(ReplaceFirst(Loaded(old(stored)), LoadoutId, loadout))
      ensures FindIndex(Loaded(old(stored)), LoadoutId, loadout.id) == -1 ==>
        r == Err("Loadout not found") && stored == Some(Loaded(old(stored)))
    {
      var loadouts := Load();
      var index := FindIndex(loadouts, LoadoutId, loadout.id);
      if index != -1 {
        loadouts := loadouts[index := loadout];
        stored := Some(loadouts);
        return Ok(loadout);
      }
      r := Err("Loadout not found");
    }

    /** deleteLoadout: every loadout with the id is removed and the id is returned */
    method DeleteLoadout(id: string) returns (deleted: string)
      modifies this
      ensures deleted == id
      ensures stored == Some(RemoveAll(Loaded(old(stored)), LoadoutId, id))
    {
      var loadouts := Load();
      var filtered := RemoveAll(loadouts, LoadoutId, id);
      stored := Some(filtered);
      deleted := id;
    }

    /** calculatePath: the score and the time modifier are built up step by step */
    method CalculatePath(bossName: string, loadoutId: string, pathId: string) returns (r: PathResult)
      modifies this
      ensures stored == Some(Loaded(old(stored)))
      ensures r == PathFor(bossName, loadoutId, Loaded(old(stored)), pathId)
    {
      var loadouts := Load();
      var usedLoadout := FindLoadout(loadouts, loadoutId);
      var bossInfo := LookupAdvice(bossName);
      var score, timeModifier := Synergy(usedLoadout, bossInfo);
      var efficiencyScore := if score < 1.0 then score else 1.0;
      var tier := TierFor(efficiencyScore);
      var attempts := AttemptsFor(efficiencyScore);
      r := PathResult(pathId, "Defeat " + bossName, Round(25.0 * timeModifier), attempts, Some(loadoutId),
        bossInfo.tips, efficiencyScore, tier.text, if efficiencyScore > 0.8 then SuitedAdvice else SwitchAdvice);
    }
  }

  /** Updating a loadout that is present keeps the list's length and puts the new version in it;
      a delete of that id afterwards leaves exactly the list that deleting it alone would leave */
  lemma UpdateThenDelete(loadouts: seq<Loadout>, l: Loadout)
    requires FindIndex(loadouts, LoadoutId, l.id) != -1
    ensures |ReplaceFirst(loadouts, LoadoutId, l)| == |loadouts| && l in ReplaceFirst(loadouts, LoadoutId, l)
    ensures RemoveAll(ReplaceFirst(loadouts, LoadoutId, l), LoadoutId, l.id) == RemoveAll(loadouts, LoadoutId, l.id)
    ensures forall x :: x in RemoveAll(ReplaceFirst(loadouts, LoadoutId, l), LoadoutId, l.id) ==> x.id != l.id
  {
    var i := FindIndex(loadouts, LoadoutId, l.id);
    assert ReplaceFirst(loadouts, LoadoutId, l) == loadouts[i := l];
    RemoveAllOverwrite(loadouts, LoadoutId, l.id, i, l);
    var r := RemoveAll(ReplaceFirst(loadouts, LoadoutId, l), LoadoutId, l.id);
    assert forall j :: 0 <= j < |r| ==> LoadoutId(r[j]) == r[j].id;
  }
}
