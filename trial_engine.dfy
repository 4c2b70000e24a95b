/** The trial engine of the combat simulator: one simulated attempt at a boss encounter, advanced
    one 60 Hz frame at a time until the player is out of stocks, the boss is out of HP, or 450
    simulated seconds have passed.

    Randomness is an explicit oracle: `draws(f)` holds the uniform draws in [0, 1) that frame `f`
    may consult, one per draw site (Lobber glitch, parry success, parry error, delayed hit). The
    logistic curve 1 / (1 + e^-x) of the parry check is an uninterpreted parameter with values in
    (0, 1). With both fixed a trial is a deterministic function, `Run`, and the imperative loop
    `RunTrial` is proved to compute it. */
module TrialEngine {
  import opened Wrappers
  import opened KnowledgeBase

  const TickRate: nat := 60
  /** TICK_RATE * 450: the time ceiling of a trial, in frames */
  const MaxFrames: nat := 27000
  /** TICK_RATE * 1.5: frames a charge weapon accumulates before it fires */
  const ChargeTicks: nat := 90
  /** TICK_RATE * 8: the parry-check cadence, in frames */
  const ParryPeriod: nat := 480
  /** the weapon-swap cadence, in frames */
  const SwapPeriod: nat := 10

  /** A uniform draw, `Math.random()` */
  type Prob = r: real | 0.0 <= r < 1.0
  /** The range of the logistic curve */
  type OpenUnit = r: real | 0.0 < r < 1.0 witness 0.5

  datatype FrameDraws = FrameDraws(glitch: Prob, parry: Prob, error: Prob, hit: Prob)
  type Oracle = nat -> FrameDraws
  type Logistic = real -> OpenUnit

  /** The simulator's input; skill levels are non-negative integers */
  datatype SimInput = SimInput(
    accuracy: nat,
    survival: nat,
    patterns: nat,
    parry: nat,
    movement: nat,
    primaryWeapon: string,
    secondaryWeapon: string,
    hasSmokeBomb: bool,
    bossName: string,
    isVeteran: bool)

  /** Everything a trial needs that is fixed for the whole campaign */
  datatype Params = Params(
    input: SimInput,
    boss: BossInfo,
    w1: Weapon,
    w2: Weapon,
    lagFrames: nat,
    errorProb: real,
    aggression: real)

  /** Reaction lag, in frames, of the skill tier given by patterns + movement */
  function LagFrames(skillSum: nat): (r: nat)
    ensures r == 0 <==> skillSum >= 17
    ensures r == 10 <==> 11 <= skillSum < 17
    ensures r == 15 <==> skillSum < 11
  {
    if skillSum >= 17 then 0 else if skillSum >= 11 then 10 else 15
  }

  /** Probability that a failed parry costs a stock, by the same skill tier */
  function ErrorProb(skillSum: nat): (r: real)
    ensures r == 0.001 <==> skillSum >= 17
    ensures r == 0.06 <==> 11 <= skillSum < 17
    ensures r == 0.15 <==> skillSum < 11
  {
    if skillSum >= 17 then 0.001 else if skillSum >= 11 then 0.06 else 0.15
  }

  /** A higher skill tier never lags more nor errs more often */
  lemma SkillTierMonotone(a: nat, b: nat)
    requires a <= b
    ensures LagFrames(b) <= LagFrames(a) && ErrorProb(b) <= ErrorProb(a)
    ensures LagFrames(a) <= 15 && 0.0 < ErrorProb(a) <= 0.15
    ensures LagFrames(a) == 0 <==> a >= 17
  {
  }

  ghost predicate ValidParams(p: Params) {
    ValidBoss(p.boss) && ValidWeapon(p.w1) && ValidWeapon(p.w2)
  }

  /** The campaign parameters derived from the input: fallback lookups and the skill tier */
  function Derive(input: SimInput): (p: Params)
    ensures ValidParams(p)
    ensures p.input == input
    ensures p.boss == LookupBoss(input.bossName)
    ensures p.w1 == LookupWeapon(input.primaryWeapon) && p.w2 == LookupWeapon(input.secondaryWeapon)
    ensures p.lagFrames == LagFrames(input.patterns + input.movement)
    ensures p.errorProb == ErrorProb(input.patterns + input.movement)
    ensures p.aggression == (input.accuracy + input.parry) as real / 20.0
    ensures 0.0 <= p.aggression
  {
    var skillSum := input.patterns + input.movement;
    Params(input, LookupBoss(input.bossName), LookupWeapon(input.primaryWeapon), LookupWeapon(input.secondaryWeapon),
      LagFrames(skillSum), ErrorProb(skillSum), (input.accuracy + input.parry) as real / 20.0)
  }

  /** Stocks at the start of a trial: 5 at survival 10, 4 from survival 6, otherwise 3 */
  function InitialStocks(survival: nat): (r: int)
    ensures 3 <= r <= 5
    ensures r == 5 <==> survival == 10
    ensures r == 3 <==> survival < 6
  {
    if survival == 10 then 5 else if survival >= 6 then 4 else 3
  }

  /** The per-trial mutable state */
  datatype TrialState = TrialState(
    playerHP: int,
    bossHP: real,
    frame: nat,
    pIndex: nat,
    invulnFrames: nat,
    parries: nat,
    chargeFrames: nat,
    currentW: Weapon,
    frameBuffer: seq<real>)

  /** What holds of every state a trial reaches */
  ghost predicate Inv(p: Params, s: TrialState) {
    && ValidParams(p)
    && s.pIndex < |p.boss.phases|
    && |s.frameBuffer| <= p.lagFrames
    && s.chargeFrames < ChargeTicks
    && (s.currentW == p.w1 || s.currentW == p.w2)
  }

  /** The state a trial starts from */
  function Init(p: Params): (s: TrialState)
    requires ValidParams(p)
    ensures Inv(p, s)
    ensures s.playerHP == InitialStocks(p.input.survival) && s.bossHP == p.boss.hp
    ensures s.frame == 0 && s.pIndex == 0 && s.invulnFrames == 0 && s.parries == 0
    ensures s.currentW == p.w1 && s.frameBuffer == []
  {
    TrialState(InitialStocks(p.input.survival), p.boss.hp, 0, 0, 0, 0, 0, p.w1, [])
  }

  /** The loop condition: a trial goes on while both sides stand and time remains */
  predicate Continues(s: TrialState): (b: bool)
    ensures b ==> s.playerHP >= 1 && s.frame < MaxFrames
    ensures s.bossHP <= 0.0 ==> !b
  {
    s.playerHP > 0 && s.bossHP > 0.0 && s.frame < MaxFrames
  }

  /** Step 2: the weapon-swap exploit of an experienced player with an arcing or returning weapon */
  function SwapWeapon(p: Params, frame: nat, w: Weapon): (r: Weapon)
    ensures (w == p.w1 || w == p.w2) ==> (r == p.w1 || r == p.w2)
    ensures r != w ==> p.input.isVeteran && frame % SwapPeriod == 0 && (w.isParabolic || w.isReturn)
    ensures p.input.isVeteran && frame % SwapPeriod == 0 && (w.isParabolic || w.isReturn) && w == p.w1 ==> r == p.w2
    ensures p.input.isVeteran && frame % SwapPeriod == 0 && (w.isParabolic || w.isReturn) && w == p.w2 && w != p.w1 ==> r == p.w1
  {
    if p.input.isVeteran && frame % SwapPeriod == 0 && (w.isParabolic || w.isReturn) then
      (if w == p.w1 then p.w2 else p.w1)
    else w
  }

  /** `alphaStrike || 40` */
  function AlphaStrike(w: Weapon): (r: real)
    ensures r != 0.0
    ensures ValidWeapon(w) ==> r > 0.0
  {
    if w.alphaStrike.Some? && w.alphaStrike.value != 0.0 then w.alphaStrike.value else 40.0
  }

  datatype Damage = Damage(amount: real, chargeFrames: nat)

  /** The shot of a charge weapon, `(alphaStrike || 40) * (0.5 + 0.05 * accuracy)`; it grows with accuracy */
  function ChargeShot(w: Weapon, accuracy: nat): (r: real)
    requires ValidWeapon(w)
    ensures r == AlphaStrike(w) * 0.5 + AlphaStrike(w) * 0.05 * accuracy as real
    ensures r > 0.0
  {
    AlphaStrike(w) * (0.5 + 0.05 * accuracy as real)
  }

  /** The per-frame damage of a continuous weapon, `(dps / 60) * (0.3 + 0.07 * accuracy)` */
  function Continuous(w: Weapon, accuracy: nat): (r: real)
    requires ValidWeapon(w)
    ensures r == w.dps / TickRate as real * 0.3 + w.dps / TickRate as real * 0.07 * accuracy as real
    ensures r >= 0.0
  {
    (w.dps / TickRate as real) * (0.3 + 0.07 * accuracy as real)
  }

  /** The proximity bonus of the Spread at close range: 1.2 when aggression exceeds 0.7 */
  function SpreadBonus(p: Params, w: Weapon): (r: real)
    ensures r == 1.2 <==> w.id == "Spread" && p.aggression > 0.7
    ensures r == 1.0 || r == 1.2
  {
    if w.id == "Spread" && p.aggression > 0.7 then 1.2 else 1.0
  }

  /** The Spread's proximity bonus fires exactly when accuracy and parry add up to more than 14 */
  lemma SpreadBonusFires(input: SimInput, w: Weapon)
    ensures SpreadBonus(Derive(input), w) == 1.2 <==> w.id == "Spread" && input.accuracy + input.parry > 14
  {
    var n := input.accuracy + input.parry;
    if n > 14 {
      assert n as real >= 15.0;
    } else {
      assert n as real <= 14.0;
    }
  }

  /** The Lobber's ground-AoE glitch for a veteran: 1.5 on a draw below 0.1 */
  function LobberGlitch(p: Params, w: Weapon, glitchDraw: Prob): (r: real)
    ensures r == 1.5 <==> w.id == "Lobber" && p.input.isVeteran && glitchDraw < 0.1
    ensures r == 1.0 || r == 1.5
  {
    if w.id == "Lobber" && p.input.isVeteran && glitchDraw < 0.1 then 1.5 else 1.0
  }

  /** Step 3: the damage dealt this frame and the new charge counter. A charge weapon deals
      nothing until its counter reaches 90 frames, then fires and restarts at 0. */
  function FrameDamage(p: Params, w: Weapon, chargeFrames: nat, glitchDraw: Prob): (r: Damage)
    requires ValidWeapon(w)
    ensures r.amount >= 0.0
    ensures w.isCharge ==> r.chargeFrames == if chargeFrames + 1 >= ChargeTicks then 0 else chargeFrames + 1
    ensures w.isCharge ==> (r.amount != 0.0 <==> chargeFrames + 1 >= ChargeTicks)
    ensures !w.isCharge ==> r.chargeFrames == chargeFrames
    ensures w.isCharge && chargeFrames + 1 >= ChargeTicks ==>
      r.amount == ChargeShot(w, p.input.accuracy) * LobberGlitch(p, w, glitchDraw)
    ensures !w.isCharge ==>
      r.amount == Continuous(w, p.input.accuracy) * SpreadBonus(p, w) * LobberGlitch(p, w, glitchDraw)
  {
    var base :=
      if w.isCharge then
        if chargeFrames + 1 >= ChargeTicks then Damage(ChargeShot(w, p.input.accuracy), 0)
        else Damage(0.0, chargeFrames + 1)
      else
        var continuous := Continuous(w, p.input.accuracy);
        Damage(if w.id == "Spread" && p.aggression > 0.7 then continuous * 1.2 else continuous, chargeFrames);
    if w.id == "Lobber" && p.input.isVeteran && glitchDraw < 0.1 then base.(amount := base.amount * 1.5) else base
  }

  /** More accuracy never deals less damage in a frame: both damage formulas and the Spread's
      aggression bonus grow with the accuracy stat */
  lemma DamageGrowsWithAccuracy(input: SimInput, accuracy: nat, w: Weapon, chargeFrames: nat, glitchDraw: Prob)
    requires ValidWeapon(w) && input.accuracy <= accuracy
    ensures FrameDamage(Derive(input), w, chargeFrames, glitchDraw).amount
         <= FrameDamage(Derive(input.(accuracy := accuracy)), w, chargeFrames, glitchDraw).amount
  {
    var p, q := Derive(input), Derive(input.(accuracy := accuracy));
    if w.isCharge {
      ChargeFrameMonotone(p, q, w, chargeFrames, glitchDraw);
    } else {
      ContinuousFrameMonotone(p, q, w, chargeFrames, glitchDraw);
    }
  }

  lemma ChargeFrameMonotone(p: Params, q: Params, w: Weapon, chargeFrames: nat, glitchDraw: Prob)
    requires ValidWeapon(w) && w.isCharge
    requires p.input.accuracy <= q.input.accuracy && p.input.isVeteran == q.input.isVeteran
    ensures FrameDamage(p, w, chargeFrames, glitchDraw).amount <= FrameDamage(q, w, chargeFrames, glitchDraw).amount
  {
    if chargeFrames + 1 >= ChargeTicks {
      var g := LobberGlitch(p, w, glitchDraw);
      assert g == LobberGlitch(q, w, glitchDraw);
      ChargeShotMonotone(w, p.input.accuracy, q.input.accuracy);
      var cp, cq := ChargeShot(w, p.input.accuracy), ChargeShot(w, q.input.accuracy);
      assert 0.0 <= cp <= cq && 0.0 <= g;
      ProductMonotone(cp, cq, g, g);
    }
  }

  lemma ChargeShotMonotone(w: Weapon, a: nat, b: nat)
    requires ValidWeapon(w) && a <= b
    ensures 0.0 < ChargeShot(w, a) <= ChargeShot(w, b)
  {
    var k := AlphaStrike(w) * 0.05;
    assert k >= 0.0;
    ScaleMonotone(k, a as real, b as real);
  }

  lemma ContinuousFrameMonotone(p: Params, q: Params, w: Weapon, chargeFrames: nat, glitchDraw: Prob)
    requires ValidWeapon(w) && !w.isCharge
    requires p.input.accuracy <= q.input.accuracy && p.input.isVeteran == q.input.isVeteran
    requires p.aggression <= q.aggression
    ensures FrameDamage(p, w, chargeFrames, glitchDraw).amount <= FrameDamage(q, w, chargeFrames, glitchDraw).amount
  {
    var g := LobberGlitch(p, w, glitchDraw);
    assert g == LobberGlitch(q, w, glitchDraw);
    assert SpreadBonus(p, w) <= SpreadBonus(q, w);
    ContinuousMonotone(w, p.input.accuracy, q.input.accuracy);
    var cp, cq := Continuous(w, p.input.accuracy), Continuous(w, q.input.accuracy);
    var sp, sq := SpreadBonus(p, w), SpreadBonus(q, w);
    assert 0.0 <= cp <= cq && 0.0 <= sp <= sq;
    ProductMonotone(cp, cq, sp, sq);
    ProductMonotone(cp * sp, cq * sq, g, g);
  }

  lemma ContinuousMonotone(w: Weapon, a: nat, b: nat)
    requires ValidWeapon(w) && a <= b
    ensures Continuous(w, a) <= Continuous(w, b)
  {
    var k := w.dps / TickRate as real * 0.07;
    assert k >= 0.0;
    ScaleMonotone(k, a as real, b as real);
  }

  lemma ScaleMonotone(k: real, x: real, y: real)
    requires 0.0 <= k && x <= y
    ensures k * x <= k * y
  {
  }

  lemma ProductMonotone(x1: real, x2: real, y1: real, y2: real)
    requires 0.0 <= x1 <= x2 && 0.0 <= y1 <= y2
    ensures x1 * y1 <= x2 * y2
  {
    ScaleMonotone(x1, y1, y2);
    ScaleMonotone(y2, x1, x2);
  }

  datatype PhaseStep = PhaseStep(pIndex: nat, invulnFrames: nat)

  /** Step 4: advance to the next phase once boss HP is at or below its threshold */
  function PhaseTransition(boss: BossInfo, pIndex: nat, invulnFrames: nat, bossHP: real): (r: PhaseStep)
    requires pIndex < |boss.phases|
    ensures r.pIndex < |boss.phases|
    ensures r.pIndex == pIndex || r.pIndex == pIndex + 1
    ensures r.pIndex == pIndex + 1 <==>
      pIndex + 1 < |boss.phases| && bossHP <= boss.hp * boss.phases[pIndex + 1].hpPercentThreshold
    ensures r.pIndex == pIndex + 1 ==> r.invulnFrames == boss.phases[r.pIndex].transitionTimeSeconds * TickRate
    ensures r.pIndex == pIndex ==> r.invulnFrames == invulnFrames
  {
    if pIndex < |boss.phases| - 1 && bossHP <= boss.hp * boss.phases[pIndex + 1].hpPercentThreshold then
      PhaseStep(pIndex + 1, boss.phases[pIndex + 1].transitionTimeSeconds * TickRate)
    else PhaseStep(pIndex, invulnFrames)
  }

  /** The logistic parry-success probability, steepness 0.8, against phase difficulty complexity - 2 */
  function ParrySuccessChance(p: Params, logistic: Logistic, phase: BossPhase): OpenUnit {
    logistic(0.8 * (p.input.parry as real - (phase.complexity - 2.0)))
  }

  /** The EX damage of a successful parry, scaled up by 15% per point of the parry stat */
  function ExDamage(w: Weapon, parry: nat): (r: real)
    requires ValidWeapon(w)
    ensures r == w.exDamage + 0.15 * parry as real * w.exDamage
    ensures w.exDamage <= r
  {
    w.exDamage * (1.0 + parry as real * 0.15)
  }

  /** A higher parry stat never yields less EX damage */
  lemma ExDamageGrowsWithParry(w: Weapon, a: nat, b: nat)
    requires ValidWeapon(w) && a <= b
    ensures ExDamage(w, a) <= ExDamage(w, b)
  {
    ScaleMonotone(w.exDamage, 0.15 * a as real, 0.15 * b as real);
  }

  /** With an increasing logistic curve, the parry chance rises with the parry stat and falls
      with the phase's complexity */
  lemma ParrySuccessMonotone(p: Params, q: Params, logistic: Logistic, phase: BossPhase, harder: BossPhase)
    requires forall x: real, y: real :: x <= y ==> logistic(x) <= logistic(y)
    requires p.input.parry <= q.input.parry && phase.complexity <= harder.complexity
    ensures ParrySuccessChance(p, logistic, harder) <= ParrySuccessChance(q, logistic, phase)
  {
    var x := 0.8 * (p.input.parry as real - (harder.complexity - 2.0));
    var y := 0.8 * (q.input.parry as real - (phase.complexity - 2.0));
    assert x <= y;
  }

  datatype ParryStep = ParryStep(bossHP: real, playerHP: int, parries: nat)

  /** Step 5: every 8 seconds a parry attempt; success deals EX damage, failure may cost a stock */
  function ParryCheck(p: Params, logistic: Logistic, phase: BossPhase, w: Weapon, frame: nat,
                      bossHP: real, playerHP: int, parries: nat, d: FrameDraws): (r: ParryStep)
    requires ValidWeapon(w)
    ensures frame % ParryPeriod != 0 ==> r == ParryStep(bossHP, playerHP, parries)
    ensures r.parries == parries || r.parries == parries + 1
    ensures r.parries == parries + 1 <==> frame % ParryPeriod == 0 && d.parry < ParrySuccessChance(p, logistic, phase)
    ensures r.playerHP == playerHP || r.playerHP == playerHP - 1
    ensures r.playerHP == playerHP - 1 <==>
      frame % ParryPeriod == 0 && d.parry >= ParrySuccessChance(p, logistic, phase) && d.error < p.errorProb
    ensures r.bossHP <= bossHP
    ensures r.parries == parries ==> r.bossHP == bossHP
    ensures r.parries == parries + 1 ==> r.bossHP == bossHP - ExDamage(w, p.input.parry)
  {
    if frame % ParryPeriod == 0 then
      if d.parry < ParrySuccessChance(p, logistic, phase) then
        ParryStep(bossHP - ExDamage(w, p.input.parry), playerHP, parries + 1)
      else if d.error < p.errorProb then ParryStep(bossHP, playerHP - 1, parries)
      else ParryStep(bossHP, playerHP, parries)
    else ParryStep(bossHP, playerHP, parries)
  }

  /** Step 6: the chance of being hit this frame, from phase complexity over pattern recognition
      and weapon risk over movement, cut to 60% by the smoke bomb */
  function HitChance(p: Params, phase: BossPhase, w: Weapon): (r: real)
    requires ValidWeapon(w) && phase.complexity >= 0.0
    ensures r >= 0.0
  {
    var patterns := if p.input.patterns < 1 then 1 else p.input.patterns;
    var complexityMult := phase.complexity / (patterns as real * 2.1);
    var riskMult := w.risk / (1.0 + p.input.movement as real * 0.12);
    var framePHit := (complexityMult * riskMult) / (TickRate as real * 2.0);
    if p.input.hasSmokeBomb then framePHit * 0.6 else framePHit
  }

  /** More pattern recognition and more movement never raise the chance of being hit */
  lemma HitChanceFallsWithSkill(p: Params, q: Params, phase: BossPhase, w: Weapon)
    requires ValidWeapon(w) && phase.complexity >= 0.0
    requires p.input.patterns <= q.input.patterns && p.input.movement <= q.input.movement
    requires p.input.hasSmokeBomb == q.input.hasSmokeBomb
    ensures HitChance(q, phase, w) <= HitChance(p, phase, w)
  {
    var pp := if p.input.patterns < 1 then 1 else p.input.patterns;
    var qp := if q.input.patterns < 1 then 1 else q.input.patterns;
    DivAntitone(phase.complexity, pp as real * 2.1, qp as real * 2.1);
    DivAntitone(w.risk, 1.0 + p.input.movement as real * 0.12, 1.0 + q.input.movement as real * 0.12);
    var cp, cq := phase.complexity / (pp as real * 2.1), phase.complexity / (qp as real * 2.1);
    var rp, rq := w.risk / (1.0 + p.input.movement as real * 0.12), w.risk / (1.0 + q.input.movement as real * 0.12);
    DivNonNegative(phase.complexity, qp as real * 2.1);
    DivNonNegative(w.risk, 1.0 + q.input.movement as real * 0.12);
    ProductMonotone(cq, cp, rq, rp);
    DivAntitoneNumerator(cq * rq, cp * rp, TickRate as real * 2.0);
  }

  /** The smoke bomb cuts the chance of being hit to exactly 60% */
  lemma SmokeBombCut(p: Params, phase: BossPhase, w: Weapon)
    requires ValidWeapon(w) && phase.complexity >= 0.0
    ensures HitChance(p.(input := p.input.(hasSmokeBomb := true)), phase, w)
         == 0.6 * HitChance(p.(input := p.input.(hasSmokeBomb := false)), phase, w)
  {
  }

  lemma DivNonNegative(x: real, d: real)
    requires 0.0 <= x && 0.0 < d
    ensures 0.0 <= x / d
  {
  }

  lemma DivAntitone(x: real, a: real, b: real)
    requires 0.0 <= x && 0.0 < a <= b
    ensures x / b <= x / a
  {
    var u, v := x / a, x / b;
    assert u * a == x && v * b == x;
    ScaleMonotone(v, a, b);
  }

  lemma DivAntitoneNumerator(x: real, y: real, d: real)
    requires x <= y && 0.0 < d
    ensures x / d <= y / d
  {
  }

  datatype HitStep = HitStep(frameBuffer: seq<real>, playerHP: int)

  /** The reaction-time buffer: the new sample joins at the back; once the buffer holds more than
      `lag` samples the oldest leaves and is rolled against, costing a stock on a hit. */
  function ReactionBuffer(lag: nat, buffer: seq<real>, pHit: real, hitDraw: Prob, playerHP: int): (r: HitStep)
    ensures |buffer| <= lag ==> |r.frameBuffer| <= lag
    ensures |buffer| + 1 <= lag ==> r.frameBuffer == buffer + [pHit] && r.playerHP == playerHP
    ensures |buffer| + 1 > lag ==> [(buffer + [pHit])[0]] + r.frameBuffer == buffer + [pHit]
    ensures r.playerHP == playerHP - (if |buffer| + 1 > lag && hitDraw < (buffer + [pHit])[0] then 1 else 0)
  {
    var pushed := buffer + [pHit];
    if |pushed| > lag then
      HitStep(pushed[1..], if hitDraw < pushed[0] then playerHP - 1 else playerHP)
    else HitStep(pushed, playerHP)
  }

  /** One frame of the trial: steps 1 to 6 in the source's order. The phase that steps 5 and 6
      read is the one in force at the start of the frame. */
  function Tick(p: Params, logistic: Logistic, s: TrialState, d: FrameDraws): (r: TrialState)
    requires Inv(p, s)
    ensures Inv(p, r)
    ensures r.frame == s.frame + 1
    ensures s.invulnFrames > 0 ==> r == s.(frame := s.frame + 1, invulnFrames := s.invulnFrames - 1)
    ensures r.pIndex == s.pIndex || r.pIndex == s.pIndex + 1
    ensures r.pIndex == s.pIndex + 1 ==> r.invulnFrames == p.boss.phases[r.pIndex].transitionTimeSeconds * TickRate
    ensures s.playerHP - 2 <= r.playerHP <= s.playerHP
    ensures r.bossHP <= s.bossHP
    ensures s.parries <= r.parries <= s.parries + 1
    ensures s.invulnFrames == 0 ==>
      var pushed := s.frameBuffer + [HitChance(p, p.boss.phases[s.pIndex], r.currentW)];
      r.frameBuffer == if |pushed| > p.lagFrames then pushed[1..] else pushed
  {
    var frame := s.frame + 1;
    var phase := p.boss.phases[s.pIndex];
    if s.invulnFrames > 0 then s.(frame := frame, invulnFrames := s.invulnFrames - 1)
    else
      var w := SwapWeapon(p, frame, s.currentW);
      var damage := FrameDamage(p, w, s.chargeFrames, d.glitch);
      var hp := s.bossHP - damage.amount;
      var next := PhaseTransition(p.boss, s.pIndex, s.invulnFrames, hp);
      var parry := ParryCheck(p, logistic, phase, w, frame, hp, s.playerHP, s.parries, d);
      var hit := ReactionBuffer(p.lagFrames, s.frameBuffer, HitChance(p, phase, w), d.hit, parry.playerHP);
      TrialState(hit.playerHP, parry.bossHP, frame, next.pIndex, next.invulnFrames, parry.parries,
        damage.chargeFrames, w, hit.frameBuffer)
  }

  /** The rest of a trial from state `s`: frames are ticked until the loop condition fails */
  function Run(p: Params, logistic: Logistic, s: TrialState, draws: Oracle): (r: TrialState)
    requires Inv(p, s)
    ensures Inv(p, r) && !Continues(r)
    ensures !Continues(s) ==> r == s
    ensures s.frame <= r.frame && (s.frame <= MaxFrames ==> r.frame <= MaxFrames)
    ensures s.pIndex <= r.pIndex
    ensures r.playerHP <= s.playerHP
    ensures s.playerHP >= -1 ==> r.playerHP >= -1
    ensures r.bossHP <= s.bossHP
    ensures s.parries <= r.parries
    ensures Continues(s) ==> s.frame < r.frame
    decreases MaxFrames - s.frame
  {
    if Continues(s) then Run(p, logistic, Tick(p, logistic, s, draws(s.frame + 1)), draws) else s
  }

  /** What the campaign keeps of a trial */
  datatype TrialOutcome = TrialOutcome(win: bool, frames: nat, parries: nat, playerHP: int)

  /** A trial is a win iff boss HP is at or below zero when the loop stops; the player's stocks
      are not looked at again */
  function OutcomeOf(s: TrialState): (o: TrialOutcome)
    ensures o.win <==> s.bossHP <= 0.0
    ensures o.frames == s.frame && o.parries == s.parries && o.playerHP == s.playerHP
  {
    TrialOutcome(s.bossHP <= 0.0, s.frame, s.parries, s.playerHP)
  }

  /** Step 4 of the loop body: the phase-transition statements */
  method AdvancePhase(boss: BossInfo, pIndex: nat, invulnFrames: nat, bossHP: real)
    returns (newIndex: nat, newInvuln: nat)
    requires pIndex < |boss.phases|
    ensures PhaseStep(newIndex, newInvuln) == PhaseTransition(boss, pIndex, invulnFrames, bossHP)
  {
    newIndex, newInvuln := pIndex, invulnFrames;
    if pIndex < |boss.phases| - 1 {
      var nextP := boss.phases[pIndex + 1];
      if bossHP <= boss.hp * nextP.hpPercentThreshold {
        newIndex := pIndex + 1;
        newInvuln := nextP.transitionTimeSeconds * TickRate;
      }
    }
  }

  /** Step 5 of the loop body: the parry-check statements */
  method AttemptParry(p: Params, logistic: Logistic, phase: BossPhase, w: Weapon, frame: nat,
                      bossHP: real, playerHP: int, parries: nat, d: FrameDraws)
    returns (newBossHP: real, newPlayerHP: int, newParries: nat)
    requires ValidWeapon(w)
    ensures ParryStep(newBossHP, newPlayerHP, newParries)
         == ParryCheck(p, logistic, phase, w, frame, bossHP, playerHP, parries, d)
  {
    newBossHP, newPlayerHP, newParries := bossHP, playerHP, parries;
    if frame % ParryPeriod == 0 {
      var pSuccess := ParrySuccessChance(p, logistic, phase);
      if d.parry < pSuccess {
        newBossHP := bossHP - ExDamage(w, p.input.parry);
        newParries := parries + 1;
      } else if d.error < p.errorProb {
        newPlayerHP := playerHP - 1;
      }
    }
  }

  /** Step 6 of the loop body: push onto the reaction-time buffer, shift and roll once it is
      longer than the lag */
  method CheckHit(lag: nat, buffer: seq<real>, pHit: real, hitDraw: Prob, playerHP: int)
    returns (newBuffer: seq<real>, newPlayerHP: int)
    ensures HitStep(newBuffer, newPlayerHP) == ReactionBuffer(lag, buffer, pHit, hitDraw, playerHP)
  {
    newBuffer, newPlayerHP := buffer + [pHit], playerHP;
    if |newBuffer| > lag {
      var effectiveFrame := newBuffer[0];
      newBuffer := newBuffer[1..];
      if hitDraw < effectiveFrame {
        newPlayerHP := playerHP - 1;
      }
    }
  }

  /** The body of the trial loop, statement by statement: one frame */
  method Step(p: Params, logistic: Logistic, s: TrialState, d: FrameDraws) returns (r: TrialState)
    requires Inv(p, s)
    ensures r == Tick(p, logistic, s, d)
  {
    var frame := s.frame + 1;
    var phase := p.boss.phases[s.pIndex];

    // 1. invulnerability: nothing else happens this frame
    if s.invulnFrames > 0 {
      return s.(frame := frame, invulnFrames := s.invulnFrames - 1);
    }

    // 2. weapon swap
    var currentW := s.currentW;
    if p.input.isVeteran && frame % SwapPeriod == 0 && (currentW.isParabolic || currentW.isReturn) {
      currentW := if currentW == p.w1 then p.w2 else p.w1;
    }

    // 3. damage
    var damage := FrameDamage(p, currentW, s.chargeFrames, d.glitch);
    var currentBossHP := s.bossHP - damage.amount;

    // 4. phase transition
    var pIndex, invulnFrames := AdvancePhase(p.boss, s.pIndex, s.invulnFrames, currentBossHP);

    // 5. parry check
    var playerHP, parries;
    currentBossHP, playerHP, parries :=
      AttemptParry(p, logistic, phase, currentW, frame, currentBossHP, s.playerHP, s.parries, d);

    // 6. hit check through the reaction-time buffer
    var frameBuffer;
    frameBuffer, playerHP := CheckHit(p.lagFrames, s.frameBuffer, HitChance(p, phase, currentW), d.hit, playerHP);

    r := TrialState(playerHP, currentBossHP, frame, pIndex, invulnFrames, parries, damage.chargeFrames,
      currentW, frameBuffer);
  }

  /** The trial loop of runScientificSim: fresh state, then frames until the loop condition fails */
  method RunTrial(p: Params, logistic: Logistic, draws: Oracle) returns (outcome: TrialOutcome)
    requires ValidParams(p)
    ensures outcome == OutcomeOf(Run(p, logistic, Init(p), draws))
    ensures outcome.frames <= MaxFrames
    ensures outcome.playerHP <= InitialStocks(p.input.survival)
    ensures outcome.win ==> outcome.frames > 0
  {
    var s := TrialState(InitialStocks(p.input.survival), p.boss.hp, 0, 0, 0, 0, 0, p.w1, []);
    while s.playerHP > 0 && s.bossHP > 0.0 && s.frame < MaxFrames
      invariant Inv(p, s) && s.frame <= MaxFrames
      invariant Run(p, logistic, s, draws) == Run(p, logistic, Init(p), draws)
      invariant s.frame == 0 ==> s.bossHP == p.boss.hp
      decreases MaxFrames - s.frame
    {
      s := Step(p, logistic, s, draws(s.frame + 1));
    }
    outcome := TrialOutcome(s.bossHP <= 0.0, s.frame, s.parries, s.playerHP);
  }
}
