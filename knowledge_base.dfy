/** The static knowledge base of the combat simulator: weapon statistics and boss encounter
    definitions, looked up by name with a fixed default on a miss. */
module KnowledgeBase {
  import opened Wrappers

  /** A weapon's combat statistics. `alphaStrike` is the lump hit of a charge weapon. */
  datatype Weapon = Weapon(
    id: string,
    dps: real,
    exDamage: real,
    risk: real,
    isCharge: bool,
    isHoming: bool,
    isParabolic: bool,
    isReturn: bool,
    alphaStrike: Option<real>)

  /** One boss phase: it begins once boss HP falls to `hpPercentThreshold` of the total, it has a
      difficulty rating, and entering it makes the boss invulnerable for a number of seconds.
      (The phases' kinematic constants are read by no formula and are not part of the model.) */
  datatype BossPhase = BossPhase(hpPercentThreshold: real, complexity: real, transitionTimeSeconds: nat)

  datatype BossInfo = BossInfo(
    hp: real,
    criticalSkill: string,
    counterWeapon: string,
    tips: seq<string>,
    phases: seq<BossPhase>)

  const DefaultWeaponName: string := "Peashooter"
  const DefaultBossName: string := "The Root Pack"

  function Plain(id: string, dps: real, exDamage: real, risk: real): Weapon {
    Weapon(id, dps, exDamage, risk, false, false, false, false, None)
  }

  const WeaponStats: map<string, Weapon> := map[
    "Peashooter" := Plain("Peashooter", 30.0, 25.0, 1.0),
    "Spread" := Plain("Spread", 41.3, 34.0, 1.8),
    "Chaser" := Plain("Chaser", 15.6, 13.5, 0.5).(isHoming := true),
    "Lobber" := Plain("Lobber", 33.1, 26.0, 1.3).(isParabolic := true),
    "Charge" := Plain("Charge", 38.5, 26.0, 1.2).(isCharge := true, alphaStrike := Some(46.0)),
    "Roundabout" := Plain("Roundabout", 31.5, 35.0, 0.8).(isReturn := true),
    "Crackshot" := Plain("Crackshot", 28.5, 24.0, 0.7).(isHoming := true),
    "Converge" := Plain("Converge", 32.0, 26.0, 1.2),
    "Twist-Up" := Plain("Twist-Up", 34.0, 27.5, 1.5).(isParabolic := true)
  ]

  const BossData: map<string, BossInfo> := map[
    "The Root Pack" := BossInfo(1450.0, "Accuracy", "Spread", ["Use Spread for the onion"],
      [BossPhase(1.0, 2.0, 0), BossPhase(0.7, 3.0, 3)]),
    "Goopy Le Grande" := BossInfo(1400.0, "Movement", "Spread", ["Phases transition at 25% and 60% loss"],
      [BossPhase(1.0, 3.0, 0), BossPhase(0.75, 5.0, 3), BossPhase(0.40, 7.0, 5)]),
    "Grim Matchstick" := BossInfo(1400.0, "Pattern Recognition", "Lobber", ["Lobber EX ground damage glitch is effective"],
      [BossPhase(1.0, 6.0, 0), BossPhase(0.6, 8.0, 4), BossPhase(0.3, 10.0, 4)])
  ]

  /** Statistics the damage and risk formulas rely on: nothing negative */
  ghost predicate ValidWeapon(w: Weapon) {
    && w.dps >= 0.0 && w.exDamage >= 0.0 && w.risk >= 0.0
    && (w.alphaStrike.Some? ==> w.alphaStrike.value >= 0.0)
  }

  /** A runnable encounter: positive HP, at least one phase, the first phase starting at full
      health, thresholds strictly descending, non-negative complexities */
  ghost predicate ValidBoss(b: BossInfo) {
    && b.hp > 0.0
    && |b.phases| >= 1
    && b.phases[0].hpPercentThreshold == 1.0
    && (forall i :: 0 <= i < |b.phases| ==> b.phases[i].complexity >= 0.0)
    && (forall i, j :: 0 <= i < j < |b.phases| ==> b.phases[i].hpPercentThreshold > b.phases[j].hpPercentThreshold)
  }

  /** `WEAPON_STATS[name] || WEAPON_STATS['Peashooter']` */
  function LookupWeapon(name: string): (w: Weapon)
    ensures name in WeaponStats ==> w == WeaponStats[name]
    ensures name !in WeaponStats ==> w == WeaponStats[DefaultWeaponName]
    ensures w.id == if name in WeaponStats then name else DefaultWeaponName
    ensures ValidWeapon(w)
  {
    WeaponTableValid();
    if name in WeaponStats then WeaponStats[name] else WeaponStats[DefaultWeaponName]
  }

  /** `BOSS_DATA[name] || BOSS_DATA['The Root Pack']` */
  function LookupBoss(name: string): (b: BossInfo)
    ensures name in BossData ==> b == BossData[name]
    ensures name !in BossData ==> b == BossData[DefaultBossName]
    ensures ValidBoss(b)
  {
    BossTableValid();
    if name in BossData then BossData[name] else BossData[DefaultBossName]
  }

  /** Every table entry is filed under its own id, the default is present, and all are valid */
  lemma WeaponTableValid()
    ensures DefaultWeaponName in WeaponStats
    ensures forall k :: k in WeaponStats ==> WeaponStats[k].id == k && ValidWeapon(WeaponStats[k])
  {
  }

  /** Every boss of the table, the default included, is a runnable encounter */
  lemma BossTableValid()
    ensures DefaultBossName in BossData
    ensures forall k :: k in BossData ==> ValidBoss(BossData[k])
  {
  }
}
