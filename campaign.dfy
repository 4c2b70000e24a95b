/** The campaign around the trial engine: 10,000 independent trials folded into a win count, a
    15-bin histogram of victory times and totals of parries and remaining stocks, then summarised
    as a success rate, an average time, a percentage distribution, a letter grade and an attempt
    estimate; and the combat-path request built on top of it.

    Trial `t` draws from its own oracle `rng(t)`, so the whole campaign is a function of the input,
    the logistic curve and `rng`. */
module Campaign {
  import opened Wrappers
  import opened KnowledgeBase
  import opened Lists
  import opened TrialEngine

  const Trials: nat := 10000
  const NumBins: nat := 15
  /** The width of a histogram bin, in seconds */
  const BinSeconds: real := 30.0

  /** The largest victory time a trial can report: MaxFrames / TickRate */
  const MaxSeconds: real := 450.0

  function Sum(xs: seq<nat>): nat
    decreases |xs|
  {
    if |xs| == 0 then 0 else xs[0] + Sum(xs[1..])
  }

  /** `reduce((a, b) => a + b, 0)` over reals */
  function SumR(xs: seq<real>): real
    decreases |xs|
  {
    if |xs| == 0 then 0.0 else xs[0] + SumR(xs[1..])
  }

  lemma {:induction false} SumZeros(n: nat)
    ensures Sum(seq(n, _ => 0)) == 0
  {
    if n > 0 {
      assert seq(n, _ => 0)[1..] == seq(n - 1, _ => 0);
      SumZeros(n - 1);
    }
  }

  /** `freqDist[bin]++` adds one to the total */
  lemma {:induction false} SumIncrement(xs: seq<nat>, i: nat)
    requires i < |xs|
    ensures Sum(xs[i := xs[i] + 1]) == Sum(xs) + 1
    decreases |xs|
  {
    var ys := xs[i := xs[i] + 1];
    if i == 0 {
      assert ys[1..] == xs[1..];
    } else {
      assert ys[1..] == xs[1..][i - 1 := xs[i] + 1];
      SumIncrement(xs[1..], i - 1);
    }
  }

  /** A sum of samples in [lo, hi] lies between |xs|*lo and |xs|*hi */
  lemma {:induction false} SumRBounds(xs: seq<real>, lo: real, hi: real)
    requires forall i :: 0 <= i < |xs| ==> lo <= xs[i] <= hi
    ensures |xs| as real * lo <= SumR(xs) <= |xs| as real * hi
    decreases |xs|
  {
    if |xs| > 0 {
      SumRBounds(xs[1..], lo, hi);
    }
  }

  /** `frame / TICK_RATE` */
  function TimeSeconds(frames: nat): (t: real)
    ensures frames <= MaxFrames ==> 0.0 <= t <= MaxSeconds
    ensures frames > 0 ==> t > 0.0
  {
    frames as real / TickRate as real
  }

  /** `Math.min(NUM_BINS - 1, Math.floor(timeSec / 30))`: bin b holds the times in
      [30b, 30(b+1)), except that the last bin also takes every later time */
  function Bin(timeSec: real): (b: nat)
    requires timeSec >= 0.0
    ensures b < NumBins
    ensures b < NumBins - 1 ==> b as real * BinSeconds <= timeSec < (b + 1) as real * BinSeconds
    ensures b == NumBins - 1 <==> timeSec >= (NumBins - 1) as real * BinSeconds
  {
    var k := (timeSec / BinSeconds).Floor;
    assert k >= 0 by {
      assert timeSec / BinSeconds >= 0.0;
    }
    if k >= NumBins - 1 then NumBins - 1 else k
  }

  /** The campaign accumulators: `wins`, `victoryTimes`, `freqDist`, `totalParries`, `totalHPVal` */
  datatype Tally = Tally(wins: nat, victoryTimes: seq<real>, freqDist: seq<nat>, totalParries: nat, totalHP: int)

  /** What the accumulators keep: one victory time and one histogram entry per win, every time in
      (0, 450], and the stocks left at a win between -1 and 5 */
  ghost predicate TallyInv(t: Tally) {
    && |t.freqDist| == NumBins
    && Sum(t.freqDist) == t.wins
    && |t.victoryTimes| == t.wins
    && (forall i :: 0 <= i < |t.victoryTimes| ==> 0.0 < t.victoryTimes[i] <= MaxSeconds)
    && -(t.wins as int) <= t.totalHP <= 5 * t.wins
  }

  function EmptyTally(): (t: Tally)
    ensures TallyInv(t) && t.wins == 0 && t.totalParries == 0 && t.totalHP == 0
  {
    SumZeros(NumBins);
    Tally(0, [], seq(NumBins, _ => 0), 0, 0)
  }

  /** A trial outcome the engine can produce: within the time ceiling, and a win takes at least
      one frame and leaves between -1 and 5 stocks */
  predicate PlausibleOutcome(o: TrialOutcome) {
    o.frames <= MaxFrames && (o.win ==> o.frames > 0 && -1 <= o.playerHP <= 5)
  }

  /** The accumulation after one trial: a loss changes nothing, a win is counted, timed and binned */
  function Record(t: Tally, o: TrialOutcome): (r: Tally)
    requires TallyInv(t) && PlausibleOutcome(o)
    ensures TallyInv(r)
    ensures !o.win ==> r == t
    ensures o.win ==>
      && r.wins == t.wins + 1
      && r.victoryTimes == t.victoryTimes + [TimeSeconds(o.frames)]
      && r.totalParries == t.totalParries + o.parries
      && r.totalHP == t.totalHP + o.playerHP
      && var bin := Bin(TimeSeconds(o.frames));
         r.freqDist == t.freqDist[bin := t.freqDist[bin] + 1]
  {
    if o.win then
      var timeSec := TimeSeconds(o.frames);
      var bin := Bin(timeSec);
      SumIncrement(t.freqDist, bin);
      Tally(t.wins + 1, t.victoryTimes + [timeSec], t.freqDist[bin := t.freqDist[bin] + 1],
        t.totalParries + o.parries, t.totalHP + o.playerHP)
    else t
  }

  /** Every trial the engine runs yields a plausible outcome */
  lemma OutcomePlausible(p: Params, logistic: Logistic, draws: Oracle)
    requires ValidParams(p)
    ensures PlausibleOutcome(OutcomeOf(Run(p, logistic, Init(p), draws)))
  {
    var s := Init(p);
    assert Continues(s);
  }

  /** The accumulators after the first `n` trials */
  function Totals(p: Params, logistic: Logistic, rng: nat -> Oracle, n: nat): (t: Tally)
    requires ValidParams(p)
    ensures TallyInv(t)
    ensures t.wins <= n
    decreases n
  {
    if n == 0 then EmptyTally()
    else
      OutcomePlausible(p, logistic, rng(n - 1));
      Record(Totals(p, logistic, rng, n - 1), OutcomeOf(Run(p, logistic, Init(p), rng(n - 1))))
  }

  /** The grades; 'B' is the initial value of the source's variable and is always overwritten */
  datatype Grade = S | A | B | C

  const SRate: real := 0.85
  const SMaxSeconds: real := 120.0
  const SMinParries: real := 3.0
  const SMinHP: real := 2.9
  const ARate: real := 0.6

  /** 'S' for a fast, parry-heavy, safe and frequent win, else 'A' above 60% success, else 'C' */
  function GradeOf(rate: real, avgTime: real, avgP: real, avgH: real): (g: Grade)
    ensures g != B
    ensures g == S <==> rate > SRate && avgTime < SMaxSeconds && avgP >= SMinParries && avgH >= SMinHP
    ensures g == A <==> g != S && rate > ARate
    ensures g == C <==> rate <= ARate && g != S
  {
    if rate > SRate && avgTime < SMaxSeconds && avgP >= SMinParries && avgH >= SMinHP then S
    else if rate > ARate then A
    else C
  }

  function Rank(g: Grade): nat {
    match g
    case S => 3
    case A => 2
    case B => 1
    case C => 0
  }

  /** A higher success rate, with everything else equal, never earns a lower grade */
  lemma GradeMonotone(r1: real, r2: real, avgTime: real, avgP: real, avgH: real)
    requires r1 <= r2
    ensures Rank(GradeOf(r1, avgTime, avgP, avgH)) <= Rank(GradeOf(r2, avgTime, avgP, avgH))
  {
  }

  /** `Math.ceil` */
  function Ceil(x: real): (r: int)
    ensures r as real - 1.0 < x <= r as real
  {
    if x.Floor as real == x then x.Floor else x.Floor + 1
  }

  lemma CeilMonotone(x: real, y: real)
    requires x <= y
    ensures Ceil(x) <= Ceil(y)
  {
  }

  /** `wins > 0 ? total / wins : 0` */
  function Average(total: real, count: nat): (r: real)
    ensures count == 0 ==> r == 0.0
    ensures count > 0 ==> r * count as real == total
  {
    if count > 0 then total / count as real else 0.0
  }

  /** An average of samples in [lo, hi] lies in [lo, hi] */
  lemma AverageBounds(total: real, count: nat, lo: real, hi: real)
    requires lo <= 0.0 <= hi
    requires count as real * lo <= total <= count as real * hi
    ensures lo <= Average(total, count) <= hi
  {
  }

  /** `freqDist.map(v => (v / TRIALS) * 100)` */
  function Percentages(freq: seq<nat>): (r: seq<real>)
    ensures |r| == |freq|
    ensures forall i :: 0 <= i < |freq| ==> r[i] == freq[i] as real / Trials as real * 100.0
    decreases |freq|
  {
    if |freq| == 0 then [] else [freq[0] as real / Trials as real * 100.0] + Percentages(freq[1..])
  }

  /** The percentages add up to the share of trials that ended in a win */
  lemma {:induction false} PercentagesSum(freq: seq<nat>)
    ensures SumR(Percentages(freq)) == Sum(freq) as real / Trials as real * 100.0
    decreases |freq|
  {
    if |freq| > 0 {
      var r := Percentages(freq);
      assert r[1..] == Percentages(freq[1..]);
      PercentagesSum(freq[1..]);
    }
  }

  /** The simulator's result, without the constant transcript */
  datatype SimResult = SimResult(
    successRate: real,
    avgTimeMinutes: int,
    distribution: seq<real>,
    grade: Grade,
    avgParries: real,
    avgHP: real)

  /** The summary of the accumulators after all trials */
  function Summarize(t: Tally): (r: SimResult)
    requires TallyInv(t) && t.wins <= Trials
    ensures r.successRate * Trials as real == t.wins as real
    ensures 0.0 <= r.successRate <= 1.0
    ensures 0 <= r.avgTimeMinutes <= 8
    ensures |r.distribution| == NumBins
    ensures SumR(r.distribution) == r.successRate * 100.0
    ensures t.wins == 0 ==> r.avgTimeMinutes == 0 && r.avgParries == 0.0 && r.avgHP == 0.0
    ensures -1.0 <= r.avgHP <= 5.0 && 0.0 <= r.avgParries
    ensures r.grade != B
    ensures r.distribution == Percentages(t.freqDist)
    ensures r.avgParries == Average(t.totalParries as real, t.wins) && r.avgHP == Average(t.totalHP as real, t.wins)
    ensures r.avgTimeMinutes == Ceil(Average(SumR(t.victoryTimes), |t.victoryTimes|) / 60.0)
    ensures r.grade == GradeOf(r.successRate, Average(SumR(t.victoryTimes), |t.victoryTimes|), r.avgParries, r.avgHP)
  {
    var successRate := t.wins as real / Trials as real;
    var avgTime := MeanTime(t);
    var avgP := Average(t.totalParries as real, t.wins);
    var avgH := MeanStocks(t);
    SimResult(successRate, Minutes(avgTime), Distribution(t),
      GradeOf(successRate, avgTime, avgP, avgH), avgP, avgH)
  }

  /** The histogram as percentages of all trials; they add up to the share of wins */
  function Distribution(t: Tally): (r: seq<real>)
    requires TallyInv(t)
    ensures r == Percentages(t.freqDist)
    ensures |r| == NumBins && SumR(r) == t.wins as real / Trials as real * 100.0
  {
    PercentagesSum(t.freqDist);
    Percentages(t.freqDist)
  }

  /** The average victory time, within the time ceiling */
  function MeanTime(t: Tally): (r: real)
    requires TallyInv(t)
    ensures r == Average(SumR(t.victoryTimes), |t.victoryTimes|)
    ensures 0.0 <= r <= MaxSeconds
  {
    SumRBounds(t.victoryTimes, 0.0, MaxSeconds);
    AverageBounds(SumR(t.victoryTimes), |t.victoryTimes|, 0.0, MaxSeconds);
    Average(SumR(t.victoryTimes), |t.victoryTimes|)
  }

  /** The average stocks left at a win, between -1 and 5 */
  function MeanStocks(t: Tally): (r: real)
    requires TallyInv(t)
    ensures r == Average(t.totalHP as real, t.wins)
    ensures -1.0 <= r <= 5.0
  {
    AverageBounds(t.totalHP as real, t.wins, -1.0, 5.0);
    Average(t.totalHP as real, t.wins)
  }

  /** `Math.ceil(avgTime / 60)`: whole minutes, at most 8 within the time ceiling */
  function Minutes(seconds: real): (r: int)
    requires 0.0 <= seconds <= MaxSeconds
    ensures r == Ceil(seconds / 60.0)
    ensures 0 <= r <= 8
  {
    Ceil(seconds / 60.0)
  }

  /** The whole campaign as a function of its input */
  function Simulate(input: SimInput, logistic: Logistic, rng: nat -> Oracle): (r: SimResult)
    ensures 0.0 <= r.successRate <= 1.0 && 0 <= r.avgTimeMinutes <= 8
    ensures |r.distribution| == NumBins && SumR(r.distribution) == r.successRate * 100.0
    ensures -1.0 <= r.avgHP <= 5.0 && 0.0 <= r.avgParries && r.grade != B
  {
    Summarize(Totals(Derive(input), logistic, rng, Trials))
  }

  /** The end of one trial of runScientificSim: a win is counted, timed, binned and totalled */
  method RecordTrial(wins: nat, victoryTimes: seq<real>, freqDist: array<nat>, totalParries: nat,
                     totalHPVal: int, outcome: TrialOutcome)
    returns (wins': nat, victoryTimes': seq<real>, totalParries': nat, totalHPVal': int)
    requires TallyInv(Tally(wins, victoryTimes, freqDist[..], totalParries, totalHPVal))
    requires PlausibleOutcome(outcome)
    modifies freqDist
    ensures Tally(wins', victoryTimes', freqDist[..], totalParries', totalHPVal')
         == Record(Tally(wins, victoryTimes, old(freqDist[..]), totalParries, totalHPVal), outcome)
  {
    wins', victoryTimes', totalParries', totalHPVal' := wins, victoryTimes, totalParries, totalHPVal;
    if outcome.win {
      wins' := wins + 1;
      var timeSec := TimeSeconds(outcome.frames);
      victoryTimes' := victoryTimes + [timeSec];
      var bin := Bin(timeSec);
      freqDist[bin] := freqDist[bin] + 1;
      totalParries' := totalParries + outcome.parries;
      totalHPVal' := totalHPVal + outcome.playerHP;
    }
  }

  /** One iteration of the trial loop of runScientificSim: trial `t` is run and accumulated */
  method AccumulateTrial(p: Params, logistic: Logistic, rng: nat -> Oracle, t: nat, wins: nat, victoryTimes: seq<real>,
                         freqDist: array<nat>, totalParries: nat, totalHPVal: int)
    returns (wins': nat, victoryTimes': seq<real>, totalParries': nat, totalHPVal': int)
    requires ValidParams(p)
    requires Tally(wins, victoryTimes, freqDist[..], totalParries, totalHPVal) == Totals(p, logistic, rng, t)
    modifies freqDist
    ensures Tally(wins', victoryTimes', freqDist[..], totalParries', totalHPVal') == Totals(p, logistic, rng, t + 1)
  {
    var outcome := RunTrial(p, logistic, rng(t));
    OutcomePlausible(p, logistic, rng(t));
    wins', victoryTimes', totalParries', totalHPVal' :=
      RecordTrial(wins, victoryTimes, freqDist, totalParries, totalHPVal, outcome);
  }

  /** The trial loop of runScientificSim with its accumulators */
  method RunTrials(p: Params, logistic: Logistic, rng: nat -> Oracle) returns (tally: Tally)
    requires ValidParams(p)
    ensures tally == Totals(p, logistic, rng, Trials)
  {
    var wins: nat := 0;
    var victoryTimes: seq<real> := [];
    var freqDist := new nat[NumBins](_ => 0);
    var totalParries: nat := 0;
    var totalHPVal: int := 0;
    assert freqDist[..] == seq(NumBins, _ => 0);
    for t := 0 to Trials
      invariant Tally(wins, victoryTimes, freqDist[..], totalParries, totalHPVal) == Totals(p, logistic, rng, t)
    {
      wins, victoryTimes, totalParries, totalHPVal :=
        AccumulateTrial(p, logistic, rng, t, wins, victoryTimes, freqDist, totalParries, totalHPVal);
    }
    tally := Tally(wins, victoryTimes, freqDist[..], totalParries, totalHPVal);
  }

  /** runScientificSim: the derived parameters, the trials, then the summary */
  method RunScientificSim(input: SimInput, logistic: Logistic, rng: nat -> Oracle) returns (r: SimResult)
    ensures r == Simulate(input, logistic, rng)
    ensures 0.0 <= r.successRate <= 1.0 && 0 <= r.avgTimeMinutes <= 8 && r.grade != B
  {
    var p := Derive(input);
    var tally := RunTrials(p, logistic, rng);
    r := Summarize(tally);
  }

  /** `Math.ceil(1 / Math.max(0.01, successRate))`: the expected number of attempts, at most 100 */
  function Attempts(rate: real): (r: int)
    ensures r <= 100
    ensures rate <= 1.0 ==> 1 <= r
    ensures rate <= 0.01 ==> r == 100
    ensures var m := if rate > 0.01 then rate else 0.01; r as real - 1.0 < 1.0 / m <= r as real
  {
    var m := if rate > 0.01 then rate else 0.01;
    assert 1.0 / m <= 100.0;
    Ceil(1.0 / m)
  }

  /** A better success rate never raises the attempt estimate */
  lemma AttemptsMonotone(a: real, b: real)
    requires a <= b
    ensures Attempts(b) <= Attempts(a)
  {
    var ma := if a > 0.01 then a else 0.01;
    var mb := if b > 0.01 then b else 0.01;
    ReciprocalAntitone(ma, mb);
    CeilMonotone(1.0 / mb, 1.0 / ma);
  }

  lemma ReciprocalAntitone(x: real, y: real)
    requires 0.0 < x <= y
    ensures 1.0 / y <= 1.0 / x
  {
    var u, v := 1.0 / x, 1.0 / y;
    assert u * x == 1.0 && v * y == 1.0;
  }

  /** A skill entry of the request */
  datatype SkillEntry = SkillEntry(name: string, level: nat)

  function SkillName(s: SkillEntry): string {
    s.name
  }

  /** `skills.find(s => s.name === n)?.level || 0`: the level of the first entry of that name */
  function SkillLevel(skills: seq<SkillEntry>, name: string): (r: nat)
    ensures (forall j :: 0 <= j < |skills| ==> skills[j].name != name) ==> r == 0
    ensures forall j :: 0 <= j < |skills| && skills[j].name == name ==>
      (forall k :: 0 <= k < j ==> skills[k].name != name) ==> r == skills[j].level
  {
    var i := FindIndex(skills, SkillName, name);
    assert forall j :: 0 <= j < |skills| ==> SkillName(skills[j]) == skills[j].name;
    if i == -1 then 0 else skills[i].level
  }

  /** The loadout of a request; a missing text field is the empty string */
  datatype LoadoutChoice = LoadoutChoice(weaponPrimary: string, weaponSecondary: string, charm: string)

  datatype PathRequest = PathRequest(
    skills: seq<SkillEntry>,
    loadout: Option<LoadoutChoice>,
    bossName: string,
    isBossDefeated: bool)

  /** The simulator input a request describes */
  function SimInputOf(req: PathRequest): (i: SimInput)
    ensures i.accuracy == SkillLevel(req.skills, "Accuracy") && i.survival == SkillLevel(req.skills, "Survival")
    ensures i.patterns == SkillLevel(req.skills, "Pattern Recognition")
    ensures i.parry == SkillLevel(req.skills, "Parry Skill") && i.movement == SkillLevel(req.skills, "Movement")
    ensures i.primaryWeapon != "" && i.secondaryWeapon != ""
    ensures req.loadout.None? ==>
      i.primaryWeapon == DefaultWeaponName && i.secondaryWeapon == DefaultWeaponName && !i.hasSmokeBomb
    ensures req.loadout.Some? ==>
      && i.primaryWeapon == OrElse(req.loadout.value.weaponPrimary, DefaultWeaponName)
      && i.secondaryWeapon == OrElse(req.loadout.value.weaponSecondary, DefaultWeaponName)
    ensures i.hasSmokeBomb <==> req.loadout.Some? && req.loadout.value.charm == "Smoke Bomb"
    ensures i.bossName == req.bossName && i.isVeteran == req.isBossDefeated
  {
    var primary := if req.loadout.Some? then req.loadout.value.weaponPrimary else "";
    var secondary := if req.loadout.Some? then req.loadout.value.weaponSecondary else "";
    SimInput(
      SkillLevel(req.skills, "Accuracy"),
      SkillLevel(req.skills, "Survival"),
      SkillLevel(req.skills, "Pattern Recognition"),
      SkillLevel(req.skills, "Parry Skill"),
      SkillLevel(req.skills, "Movement"),
      OrElse(primary, DefaultWeaponName),
      OrElse(secondary, DefaultWeaponName),
      req.loadout.Some? && req.loadout.value.charm == "Smoke Bomb",
      req.bossName,
      req.isBossDefeated)
  }

  function GradeLetter(g: Grade): string {
    match g
    case S => "S"
    case A => "A"
    case B => "B"
    case C => "C"
  }

  /** The two advice texts of a combat path; the elite text is written as two literals so that the
      verifier sees its first character, which tells it apart from the gap text */
  const EliteAdvice: string := "Elite " + "Tactical Execution. Your build perfectly matches the 60Hz tick window."
  const GapPrefix: string := "Tactical Gap in Phase "
  const SynergySuffix: string := " synergy."

  /** The advice: the elite text for grade 'S', otherwise the tactical gap, in phase 3 when fewer
      than one stock is left on average and in phase 2 otherwise, naming the boss's counter weapon */
  function Advice(grade: Grade, avgHP: real, counterWeapon: string): (r: string)
    ensures grade == S ==> r == EliteAdvice
    ensures grade != S ==>
      && |r| > |GapPrefix| && r[..|GapPrefix|] == GapPrefix
      && r[|GapPrefix|] == (if avgHP < 1.0 then '3' else '2')
    ensures grade != S ==>
      && |r| > |counterWeapon| + |SynergySuffix|
      && r[|r| - |SynergySuffix|..] == SynergySuffix
      && r[|r| - |SynergySuffix| - |counterWeapon|..|r| - |SynergySuffix|] == counterWeapon
    ensures r == EliteAdvice <==> grade == S
  {
    if grade == S then EliteAdvice
    else
      var head := GapPrefix + [if avgHP < 1.0 then '3' else '2'] + ". Arsenal lacks optimal ";
      var r := head + counterWeapon + SynergySuffix;
      assert r[..|head|] == head;
      assert r[|head|..|head| + |counterWeapon|] == counterWeapon;
      assert r[|head| + |counterWeapon|..] == SynergySuffix;
      assert r[0] == 'T' && EliteAdvice[0] == 'E';
      r
  }

  /** The combat path returned to the planner (the constant transcript and factor list are not
      modelled) */
  datatype CombatPath = CombatPath(
    id: string,
    goalName: string,
    estimatedTimeMinutes: int,
    attemptsEstimation: int,
    steps: seq<string>,
    efficiencyScore: real,
    strategyLabel: string,
    aiAdvice: string,
    monteCarloDistribution: seq<real>,
    avgParries: real,
    avgHP: real)

  /** The result construction of calculateCombatPath around a finished simulation */
  function PathOf(req: PathRequest, id: string, sim: SimResult): (r: CombatPath)
    ensures r.id == id
    ensures r.goalName == "Defeat " + req.bossName + " [Scientific Model]"
    ensures r.steps == LookupBoss(req.bossName).tips
    ensures r.estimatedTimeMinutes == sim.avgTimeMinutes
    ensures r.attemptsEstimation == Attempts(sim.successRate)
    ensures r.efficiencyScore == sim.successRate
    ensures r.strategyLabel == "Grade " + GradeLetter(sim.grade)
    ensures r.aiAdvice == Advice(sim.grade, sim.avgHP, LookupBoss(req.bossName).counterWeapon)
    ensures r.monteCarloDistribution == sim.distribution
    ensures r.avgParries == sim.avgParries && r.avgHP == sim.avgHP
    ensures sim.successRate <= 1.0 ==> 1 <= r.attemptsEstimation <= 100
    ensures sim.grade != B ==> r.strategyLabel != "Grade B"
  {
    var boss := LookupBoss(req.bossName);
    assert ("Grade " + GradeLetter(sim.grade))[6..] == GradeLetter(sim.grade);
    CombatPath(id, "Defeat " + req.bossName + " [Scientific Model]", sim.avgTimeMinutes,
      Attempts(sim.successRate), boss.tips, sim.successRate, "Grade " + GradeLetter(sim.grade),
      Advice(sim.grade, sim.avgHP, boss.counterWeapon), sim.distribution, sim.avgParries, sim.avgHP)
  }

  /** calculateCombatPath: the request's skills and loadout, the simulation, then the result; the
      fresh identifier is a parameter */
  method CalculateCombatPath(req: PathRequest, id: string, logistic: Logistic, rng: nat -> Oracle)
    returns (r: CombatPath)
    ensures r == PathOf(req, id, Simulate(SimInputOf(req), logistic, rng))
    ensures r.steps == LookupBoss(req.bossName).tips
    ensures 1 <= r.attemptsEstimation <= 100
    ensures 0 <= r.estimatedTimeMinutes <= 8
    ensures 0.0 <= r.efficiencyScore <= 1.0
    ensures r.strategyLabel != "Grade B"
  {
    var sim := RunScientificSim(SimInputOf(req), logistic, rng);
    r := PathOf(req, id, sim);
  }
}
