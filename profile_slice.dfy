/** The profile slice: the player's weapons, skills, bosses and levels with a request status.

    The local reducers find the first record with the given id and change it in place; they are
    the methods of `ProfileStore`. The thunks instead build a new profile by mapping over a list
    (every record with the id is rewritten) and send it to the server, whose answer the matcher
    stores; their list computations are the pure functions below. */
module ProfileSlice {
  import opened Wrappers
  import opened Lists
  import opened MockApi
  import opened RequestStatus

  function WeaponId(w: Weapon): string { w.id }
  function SkillId(s: Skill): string { s.id }
  function BossId(b: Boss): string { b.id }
  function LevelId(l: Level): string { l.id }

  /** `Math.max(0, Math.min(hi, x))` */
  function Clamp(x: int, hi: int): (r: int)
    ensures 0 <= r
    ensures hi >= 0 ==> r <= hi
    ensures 0 <= x <= hi ==> r == x
    ensures x < 0 ==> r == 0
    ensures 0 <= hi < x ==> r == hi
    ensures hi < 0 ==> r == 0
  {
    var m := if hi < x then hi else x;
    if m < 0 then 0 else m
  }

  /** A clamped value is left alone by a second clamp */
  lemma ClampIdempotent(x: int, hi: int)
    ensures Clamp(Clamp(x, hi), hi) == Clamp(x, hi)
  {
  }

  /** `{ ...w, owned: !w.owned }` */
  function ToggleOwned(w: Weapon): (r: Weapon)
    ensures r.id == w.id && r.owned == !w.owned
    ensures r.(owned := w.owned) == w
  {
    w.(owned := !w.owned)
  }

  /** `{ ...b, defeated: !b.defeated }` */
  function ToggleDefeated(b: Boss): (r: Boss)
    ensures r.id == b.id && r.defeated == !b.defeated
    ensures r.(defeated := b.defeated) == b
  {
    b.(defeated := !b.defeated)
  }

  /** The skill with its level moved by `delta` and clamped to [0, maxLevel] */
  function AdjustLevel(s: Skill, delta: int): (r: Skill)
    ensures r.id == s.id && r.name == s.name && r.maxLevel == s.maxLevel
    ensures r.level == Clamp(s.level + delta, s.maxLevel)
  {
    s.(level := Clamp(s.level + delta, s.maxLevel))
  }

  function AdjustBy(delta: int): Skill -> Skill {
    s => AdjustLevel(s, delta)
  }

  const LevelStatuses: seq<string> := ["locked", "available", "completed"]

  function Self(s: string): string { s }

  /** `statuses[(statuses.indexOf(status) + 1) % statuses.length]`: locked, available, completed,
      locked again; an unrecognised status has index -1 and so becomes 'locked' */
  function NextStatus(status: string): (r: string)
    ensures r in LevelStatuses
    ensures status == "locked" ==> r == "available"
    ensures status == "available" ==> r == "completed"
    ensures status == "completed" ==> r == "locked"
    ensures status !in LevelStatuses ==> r == "locked"
  {
    var idx := FindIndex(LevelStatuses, Self, status);
    assert status == "locked" ==> idx == 0;
    assert status == "available" ==> idx == 1;
    assert status == "completed" ==> idx == 2;
    LevelStatuses[(idx + 1) % |LevelStatuses|]
  }

  /** Three steps bring a recognised status back */
  lemma NextStatusThrice(status: string)
    requires status in LevelStatuses
    ensures NextStatus(NextStatus(NextStatus(status))) == status
  {
  }

  function CycleLevel(l: Level): (r: Level)
    ensures r.id == l.id && r.status == NextStatus(l.status)
    ensures r.(status := l.status) == l
  {
    l.(status := NextStatus(l.status))
  }

  /** localUpdateLevelCoins: `coinsCollected + delta`, clamped to [0, totalCoins]; with the coins
      missing the sum is not a number and stays so, which the model keeps as missing */
  function AddCoinsLocal(l: Level, delta: int): (r: Level)
    ensures r.id == l.id && r.totalCoins == l.totalCoins && r.status == l.status && r.name == l.name
    ensures l.coinsCollected.None? ==> r == l
    ensures l.coinsCollected.Some? ==> r.coinsCollected == Some(Clamp(l.coinsCollected.value + delta, l.totalCoins))
  {
    match l.coinsCollected
    case None => l
    case Some(c) => l.(coinsCollected := Some(Clamp(c + delta, l.totalCoins)))
  }

  function AddCoinsLocalBy(delta: int): Level -> Level {
    l => AddCoinsLocal(l, delta)
  }

  /** updateLevelCoins: `(coinsCollected || 0) + delta`, clamped to [0, totalCoins] */
  function AddCoins(l: Level, delta: int): (r: Level)
    ensures r.id == l.id && r.totalCoins == l.totalCoins && r.status == l.status && r.name == l.name
    ensures r.coinsCollected == Some(Clamp(l.coinsCollected.GetOr(0) + delta, l.totalCoins))
    ensures l.totalCoins >= 0 ==> 0 <= r.coinsCollected.value <= l.totalCoins
  {
    l.(coinsCollected := Some(Clamp(l.coinsCollected.GetOr(0) + delta, l.totalCoins)))
  }

  function AddCoinsBy(delta: int): Level -> Level {
    l => AddCoins(l, delta)
  }

  // The thunks' new profiles

  /** toggleWeapon: every weapon with the id has its `owned` flag flipped; nothing else changes */
  function ToggleWeaponIn(p: ProfileData, id: string): (r: ProfileData)
    ensures r.skills == p.skills && r.bosses == p.bosses && r.levels == p.levels
    ensures |r.weapons| == |p.weapons|
    ensures forall j :: 0 <= j < |p.weapons| ==>
      r.weapons[j] == if p.weapons[j].id == id then p.weapons[j].(owned := !p.weapons[j].owned) else p.weapons[j]
  {
    p.(weapons := UpdateAll(p.weapons, WeaponId, id, ToggleOwned))
  }

  /** updateSkillLevel: every skill with the id has its level moved and clamped; nothing else changes */
  function UpdateSkillLevelIn(p: ProfileData, id: string, delta: int): (r: ProfileData)
    ensures r.weapons == p.weapons && r.bosses == p.bosses && r.levels == p.levels
    ensures |r.skills| == |p.skills|
    ensures forall j :: 0 <= j < |p.skills| ==>
      r.skills[j] == if p.skills[j].id == id
        then p.skills[j].(level := Clamp(p.skills[j].level + delta, p.skills[j].maxLevel))
        else p.skills[j]
  {
    p.(skills := UpdateAll(p.skills, SkillId, id, AdjustBy(delta)))
  }

  /** toggleBoss: every boss with the id has its `defeated` flag flipped; nothing else changes */
  function ToggleBossIn(p: ProfileData, id: string): (r: ProfileData)
    ensures r.weapons == p.weapons && r.skills == p.skills && r.levels == p.levels
    ensures |r.bosses| == |p.bosses|
    ensures forall j :: 0 <= j < |p.bosses| ==>
      r.bosses[j] == if p.bosses[j].id == id then p.bosses[j].(defeated := !p.bosses[j].defeated) else p.bosses[j]
  {
    p.(bosses := UpdateAll(p.bosses, BossId, id, ToggleDefeated))
  }

  /** cycleLevelStatus: every level with the id moves to its next status; nothing else changes */
  function CycleLevelIn(p: ProfileData, id: string): (r: ProfileData)
    ensures r.weapons == p.weapons && r.skills == p.skills && r.bosses == p.bosses
    ensures |r.levels| == |p.levels|
    ensures forall j :: 0 <= j < |p.levels| ==>
      r.levels[j] == if p.levels[j].id == id then p.levels[j].(status := NextStatus(p.levels[j].status)) else p.levels[j]
  {
    p.(levels := UpdateAll(p.levels, LevelId, id, CycleLevel))
  }

  /** updateLevelCoins: every level with the id gets its coins moved and clamped; nothing else changes */
  function UpdateLevelCoinsIn(p: ProfileData, id: string, delta: int): (r: ProfileData)
    ensures r.weapons == p.weapons && r.skills == p.skills && r.bosses == p.bosses
    ensures |r.levels| == |p.levels|
    ensures forall j :: 0 <= j < |p.levels| ==>
      r.levels[j] == if p.levels[j].id == id then AddCoins(p.levels[j], delta) else p.levels[j]
  {
    p.(levels := UpdateAll(p.levels, LevelId, id, AddCoinsBy(delta)))
  }

  /** Toggling a weapon twice restores the profile */
  lemma ToggleWeaponTwice(p: ProfileData, id: string)
    ensures ToggleWeaponIn(ToggleWeaponIn(p, id), id) == p
  {
    UpdateAllTwice(p.weapons, WeaponId, id, ToggleOwned);
  }

  /** Toggling a boss twice restores the profile */
  lemma ToggleBossTwice(p: ProfileData, id: string)
    ensures ToggleBossIn(ToggleBossIn(p, id), id) == p
  {
    UpdateAllTwice(p.bosses, BossId, id, ToggleDefeated);
  }

  /** Cycling a level three times restores the profile when its status is recognised */
  lemma CycleLevelThrice(p: ProfileData, id: string)
    requires forall j :: 0 <= j < |p.levels| && p.levels[j].id == id ==> p.levels[j].status in LevelStatuses
    ensures CycleLevelIn(CycleLevelIn(CycleLevelIn(p, id), id), id) == p
  {
    var r := CycleLevelIn(CycleLevelIn(CycleLevelIn(p, id), id), id);
    forall j | 0 <= j < |p.levels|
      ensures r.levels[j] == p.levels[j]
    {
      if p.levels[j].id == id {
        NextStatusThrice(p.levels[j].status);
      }
    }
  }

  /** A coin update by zero on an already clamped profile changes nothing more when repeated */
  lemma UpdateLevelCoinsSettles(p: ProfileData, id: string, delta: int)
    ensures UpdateLevelCoinsIn(UpdateLevelCoinsIn(p, id, delta), id, 0) == UpdateLevelCoinsIn(p, id, delta)
  {
    var q := UpdateLevelCoinsIn(p, id, delta);
    var r := UpdateLevelCoinsIn(q, id, 0);
    forall j | 0 <= j < |p.levels|
      ensures r.levels[j] == q.levels[j]
    {
      if p.levels[j].id == id {
        var c := p.levels[j].coinsCollected.GetOr(0) + delta;
        ClampIdempotent(c, p.levels[j].totalCoins);
      }
    }
  }

  /** With unique weapon ids the local toggle and the thunk's toggle agree */
  lemma LocalToggleMatchesThunk(p: ProfileData, id: string)
    requires UniqueKeys(p.weapons, WeaponId)
    ensures UpdateFirst(p.weapons, WeaponId, id, ToggleOwned) == ToggleWeaponIn(p, id).weapons
  {
    UpdateFirstIsUpdateAll(p.weapons, WeaponId, id, ToggleOwned);
  }

  /** A local toggle applied twice restores the weapon list */
  lemma LocalToggleWeaponTwice(weapons: seq<Weapon>, id: string)
    ensures UpdateFirst(UpdateFirst(weapons, WeaponId, id, ToggleOwned), WeaponId, id, ToggleOwned) == weapons
  {
    UpdateFirstTwice(weapons, WeaponId, id, ToggleOwned);
  }

  const FetchProfileError: string := "Failed to fetch profile"

  /** The state of the slice */
  class ProfileStore {
    var weapons: seq<Weapon>
    var skills: seq<Skill>
    var bosses: seq<Boss>
    var levels: seq<Level>
    var status: Status
    var error: Option<string>

    function Data(): ProfileData
      reads this
    {
      ProfileData(weapons, skills, bosses, levels)
    }

    /** initialState */
    constructor()
      ensures weapons == [] && skills == [] && bosses == [] && levels == []
      ensures status == Idle && error == None
    {
      weapons, skills, bosses, levels := [], [], [], [];
      status, error := Idle, None;
    }

    /** localToggleWeapon */
    method LocalToggleWeapon(id: string)
      modifies this
      ensures weapons == UpdateFirst(old(weapons), WeaponId, id, ToggleOwned)
      ensures skills == old(skills) && bosses == old(bosses) && levels == old(levels)
      ensures status == old(status) && error == old(error)
    {
      var i := FindIndex(weapons, WeaponId, id);
      if i != -1 {
        weapons := weapons[i := ToggleOwned(weapons[i])];
      }
    }

    /** localUpdateSkill */
    method LocalUpdateSkill(id: string, delta: int)
      modifies this
      ensures skills == UpdateFirst(old(skills), SkillId, id, AdjustBy(delta))
      ensures weapons == old(weapons) && bosses == old(bosses) && levels == old(levels)
      ensures status == old(status) && error == old(error)
    {
      var i := FindIndex(skills, SkillId, id);
      if i != -1 {
        var skill := skills[i];
        var newLevel := skill.level + delta;
        skills := skills[i := skill.(level := Clamp(newLevel, skill.maxLevel))];
      }
    }

    /** localToggleBoss */
    method LocalToggleBoss(id: string)
      modifies this
      ensures bosses == UpdateFirst(old(bosses), BossId, id, ToggleDefeated)
      ensures weapons == old(weapons) && skills == old(skills) && levels == old(levels)
      ensures status == old(status) && error == old(error)
    {
      var i := FindIndex(bosses, BossId, id);
      if i != -1 {
        bosses := bosses[i := ToggleDefeated(bosses[i])];
      }
    }

    /** localCycleLevel */
    method LocalCycleLevel(id: string)
      modifies this
      ensures levels == UpdateFirst(old(levels), LevelId, id, CycleLevel)
      ensures weapons == old(weapons) && skills == old(skills) && bosses == old(bosses)
      ensures status == old(status) && error == old(error)
    {
      var i := FindIndex(levels, LevelId, id);
      if i != -1 {
        levels := levels[i := levels[i].(status := NextStatus(levels[i].status))];
      }
    }

    /** localUpdateLevelCoins */
    method LocalUpdateLevelCoins(id: string, delta: int)
      modifies this
      ensures levels == UpdateFirst(old(levels), LevelId, id, AddCoinsLocalBy(delta))
      ensures weapons == old(weapons) && skills == old(skills) && bosses == old(bosses)
      ensures status == old(status) && error == old(error)
    {
      var i := FindIndex(levels, LevelId, id);
      if i != -1 {
        levels := levels[i := AddCoinsLocal(levels[i], delta)];
      }
    }

    /** fetchProfile.pending and updateProfileData.pending */
    method Pending()
      modifies this
      ensures status == Loading
      ensures Data() == old(Data()) && error == old(error)
    {
      status := Loading;
    }

    /** fetchProfile.fulfilled, updateProfileData.fulfilled and the matcher of the five thunks:
        the four lists are replaced by the server's answer */
    method Fulfilled(payload: ProfileData)
      modifies this
      ensures status == Succeeded && Data() == payload
      ensures error == old(error)
    {
      status := Succeeded;
      weapons := payload.weapons;
      skills := payload.skills;
      bosses := payload.bosses;
      levels := payload.levels;
    }

    /** fetchProfile.rejected: the error's message, or a fixed text when it has none */
    method Rejected(message: string)
      modifies this
      ensures status == Failed && error == Some(OrElse(message, FetchProfileError))
      ensures Data() == old(Data())
    {
      status := Failed;
      error := Some(OrElse(message, FetchProfileError));
    }
  }
}
