# Game path planner: a verified model of the combat simulator and the client state

This project models the core of a boss-fight planner for a run-and-gun game.

The main part is the server's Monte Carlo combat simulator:

- a knowledge base of weapon statistics and boss phases, looked up by name with a fixed default when a name is unknown;
- a trial engine that plays one attempt at 60 frames per second through six steps per frame: the invulnerability skip, the weapon swap, damage, the phase transition, the parry check and the delayed hit check;
- a campaign that folds 10,000 trials into a win count, a 15-bin histogram, averages, a letter grade and an attempt estimate, and then builds the combat-path result.

The smaller part is the browser client:

- the Redux slices for the profile, the loadouts, the progress log and the planner;
- the mock API's loadout storage, with create, update and delete;
- the mock API's heuristic path score.

Modules:

- `Wrappers`: `Option`, `Result` and JavaScript's `||` on strings.
- `Lists`: the `findIndex`, replace-at-index, `map`-by-id and `filter`-by-id idioms, generic over the record type.
- `KnowledgeBase`, `TrialEngine` and `Campaign`: the contents of `server/plannerLogic.ts`.
- `MockApi`: `src/api/mockApi.ts`.
- `RequestStatus`: the status datatype the slices share.
- `ProfileSlice`, `LoadoutSlice`, `ProgressSlice` and `PlannerSlice`: the four slices.

Conventions:

- Randomness is an explicit input. `draws(f)` holds the uniform draws in [0, 1) that frame `f` of a trial may consult, one per draw site: the Lobber glitch, the parry success, the parry error and the delayed hit. Trial `t` of a campaign uses `rng(t)`.
- The logistic curve `1 / (1 + e^-x)` is a parameter `logistic` with values in (0, 1).
- With both fixed, a trial is a function (`TrialEngine.Run`) and a campaign is a function (`Campaign.Simulate`). The imperative loops `RunTrial`, `RunTrials` and `RunScientificSim` are proved to compute them.
- Numbers are `real`, with no floating-point rounding. Skill levels of the simulator input are natural numbers.
- The slices' state objects are classes whose methods change their fields. The thunks' list computations are pure functions.
- A missing text field, such as an absent loadout weapon or an error without a message, is the empty string.

Behaviour of the code worth noting:

- **Default boss.** An unknown boss name falls back to "The Root Pack", which has two phases.
- **End-of-trial check.** The loop condition is tested only at the top of the loop, and a win is decided by boss HP alone. So a frame can take the player to 0 or -1 stocks and still count as a win, and the average stocks left at a win lie in [-1, 5] (`Campaign.Summarize`).
- **Grade 'B'.** The grade variable starts at 'B' but is overwritten on every path, so 'B' is never returned (`Campaign.GradeOf`).
- **Loadout fetch status.** A successful loadout fetch sets the status back to 'idle', not 'succeeded' (`LoadoutSlice.LoadoutStore.FetchFulfilled`).

## Model

| member | source | states |
|---|---|---|
| Wrappers.OrElse | src/features/profile/profileSlice.ts:106 | a non-empty text is kept, an empty one gives way to the fallback; a non-empty fallback never yields empty text |
| Lists.FindIndex | src/features/loadouts/loadoutSlice.ts:63 | -1 or an index whose key is the id, with no earlier position carrying it; -1 only when no position carries it |
| Lists.UpdateFirst | src/features/profile/profileSlice.ts:61-64 | exactly the first record with the id is rewritten, every other position is kept, and the length is unchanged |
| Lists.ReplaceFirst | src/features/loadouts/loadoutSlice.ts:62-67 | the first record with the payload's id becomes the payload, the rest is kept; with no match nothing changes, with a match the payload is in the list |
| Lists.UpdateAll | src/features/profile/profileSlice.ts:145 | every record with the id is rewritten, every other record is kept, the length is unchanged |
| Lists.RemoveAll | src/features/loadouts/loadoutSlice.ts:69-71 | the survivors are records of the input without the id, every record without the id survives, and with no match the list is unchanged |
| Lists.RemoveAllAppend | src/features/loadouts/loadoutSlice.ts:70 | filtering distributes over concatenation, so survivors keep their original order |
| Lists.UpdateFirstTwice | src/features/profile/profileSlice.ts:61-64 | an id-preserving involution applied twice to the first match restores the list |
| Lists.UpdateAllTwice | src/features/profile/profileSlice.ts:140-156 | an id-preserving involution applied twice to every match restores the list |
| Lists.UpdateFirstIsUpdateAll | src/features/profile/profileSlice.ts:140-156 | when ids are unique, rewriting the first match equals rewriting every match |
| KnowledgeBase.LookupWeapon | server/plannerLogic.ts:92-93 | a known name gives its table entry and an unknown name gives Peashooter; the result's id says which, and its statistics are non-negative |
| KnowledgeBase.LookupBoss | server/plannerLogic.ts:91 | a known name gives its entry, an unknown one The Root Pack; the result is runnable: positive HP, a first phase at 100%, strictly descending thresholds |
| KnowledgeBase.WeaponTableValid | server/plannerLogic.ts:20-30 | every weapon is filed under its own id, the default is present and no statistic is negative |
| KnowledgeBase.BossTableValid | server/plannerLogic.ts:47-71 | the default boss is present and every boss is a runnable encounter |
| TrialEngine.LagFrames | server/plannerLogic.ts:97 | 0 frames exactly from skill sum 17, 10 exactly from 11 to 16, 15 exactly below 11 |
| TrialEngine.ErrorProb | server/plannerLogic.ts:98 | 0.001 exactly from skill sum 17, 0.06 exactly from 11 to 16, 0.15 exactly below 11 |
| TrialEngine.Continues | server/plannerLogic.ts:120 | a trial goes on only while the player has a stock and frames remain, and never once the boss is at or below zero |
| TrialEngine.SkillTierMonotone | server/plannerLogic.ts:96-98 | a higher patterns + movement sum never lags more nor errs more often; lag is at most 15 frames and is 0 exactly from sum 17 |
| TrialEngine.Derive | server/plannerLogic.ts:91-99 | the campaign parameters are the fallback lookups and the skill tier of the input; aggression is (accuracy + parry) / 20, never negative |
| TrialEngine.InitialStocks | server/plannerLogic.ts:109 | 3 to 5 stocks: 5 exactly at survival 10, 3 exactly below survival 6 |
| TrialEngine.Init | server/plannerLogic.ts:109-117 | the fresh trial state satisfies the trial invariant, with full boss HP, frame 0, phase 0 and an empty buffer |
| TrialEngine.SwapWeapon | server/plannerLogic.ts:131-133 | the active weapon stays one of the two, changes only for a veteran on every 10th frame with an arcing or returning weapon, and then primary becomes secondary and secondary becomes primary |
| TrialEngine.AlphaStrike | server/plannerLogic.ts:140 | `alphaStrike \|\| 40` is never zero and is positive for a valid weapon |
| TrialEngine.FrameDamage | server/plannerLogic.ts:136-152 | damage is non-negative; a charge weapon deals damage exactly on the frame its counter reaches 90, namely `alphaStrike \|\| 40` times (0.5 + 0.05·accuracy), and then restarts at 0; other weapons deal dps/60 times (0.3 + 0.07·accuracy), times the Spread bonus, and leave the counter alone; either amount is times the Lobber glitch |
| TrialEngine.ChargeShot | server/plannerLogic.ts:140 | the charge shot is half the alpha strike plus 5% of it per accuracy point, always positive |
| TrialEngine.Continuous | server/plannerLogic.ts:144 | the continuous frame damage is 30% of dps/60 plus 7% of it per accuracy point, never negative |
| TrialEngine.ChargeShotMonotone | server/plannerLogic.ts:140 | the charge shot is positive and does not fall as accuracy rises |
| TrialEngine.ContinuousMonotone | server/plannerLogic.ts:144 | continuous frame damage does not fall as accuracy rises |
| TrialEngine.SpreadBonus | server/plannerLogic.ts:146 | 1.2 exactly for the Spread with aggression above 0.7, otherwise 1 |
| TrialEngine.SpreadBonusFires | server/plannerLogic.ts:146 | the Spread's 1.2 bonus fires exactly when accuracy plus parry exceeds 14 |
| TrialEngine.LobberGlitch | server/plannerLogic.ts:150-152 | 1.5 exactly for a veteran's Lobber on a draw below 0.1, otherwise 1 |
| TrialEngine.DamageGrowsWithAccuracy | server/plannerLogic.ts:99-152 | a higher accuracy stat never deals less damage in a frame, through both damage formulas and the Spread's aggression bonus |
| TrialEngine.ChargeFrameMonotone | server/plannerLogic.ts:137-142 | for a charge weapon the frame's damage does not fall as accuracy rises |
| TrialEngine.ContinuousFrameMonotone | server/plannerLogic.ts:143-147 | for a continuous weapon the frame's damage does not fall as accuracy and aggression rise |
| TrialEngine.ExDamage | server/plannerLogic.ts:171 | the EX damage of a parry is the weapon's EX damage plus 15% of it per parry point, never less than the weapon's EX damage |
| TrialEngine.ExDamageGrowsWithParry | server/plannerLogic.ts:171 | a higher parry stat never yields less EX damage |
| TrialEngine.ParrySuccessMonotone | server/plannerLogic.ts:167-169 | the parry chance is the logistic curve at 0.8·(parry − (complexity − 2)); for an increasing curve it rises with the parry stat and falls with phase complexity |
| TrialEngine.PhaseTransition | server/plannerLogic.ts:157-163 | the phase index stays or advances by one and stays in range; it advances exactly when a next phase exists and boss HP is at or below its threshold, and then invulnerability is its transition time times 60 |
| TrialEngine.ParryCheck | server/plannerLogic.ts:166-176 | off the 480-frame cadence nothing changes; a parry is counted exactly when the draw beats the logistic chance, a stock is lost exactly when it fails and the error draw hits; a successful parry takes exactly the EX damage, `exDamage`·(1 + 0.15·parry), and otherwise boss HP is unchanged |
| TrialEngine.HitChance | server/plannerLogic.ts:179-183 | for a valid weapon and a phase of non-negative complexity the per-frame hit chance is non-negative |
| TrialEngine.HitChanceFallsWithSkill | server/plannerLogic.ts:179-181 | more pattern recognition and more movement never raise the chance of being hit |
| TrialEngine.SmokeBombCut | server/plannerLogic.ts:183 | the smoke bomb makes the hit chance exactly 0.6 times what it is without it |
| TrialEngine.ReactionBuffer | server/plannerLogic.ts:186-192 | the new sample joins at the back; while the buffer is within the lag nothing is rolled, otherwise the oldest sample leaves first and a stock is lost exactly when the hit draw is below it |
| TrialEngine.Tick | server/plannerLogic.ts:121-192 | one frame keeps the trial invariant (buffer within the lag, charge below 90, phase in range); an invulnerable frame changes only the frame and the countdown; the phase never falls and advances by at most one; stocks drop by at most 2; boss HP never rises |
| TrialEngine.Run | server/plannerLogic.ts:120-193 | the loop stops within 27000 frames in a state where it may not continue; phase, parries and frame never decrease, stocks and boss HP never increase, and stocks never go below -1 |
| TrialEngine.OutcomeOf | server/plannerLogic.ts:195 | a trial is a win exactly when boss HP is at or below zero at loop exit; stocks are not looked at |
| TrialEngine.AdvancePhase | server/plannerLogic.ts:157-163 | the phase-transition statements compute PhaseTransition |
| TrialEngine.AttemptParry | server/plannerLogic.ts:166-176 | the parry statements compute ParryCheck |
| TrialEngine.CheckHit | server/plannerLogic.ts:186-192 | the push, shift and roll statements compute ReactionBuffer |
| TrialEngine.Step | server/plannerLogic.ts:121-192 | the loop body computes Tick, statement by statement |
| TrialEngine.RunTrial | server/plannerLogic.ts:109-193 | the trial loop computes the outcome of Run from the fresh state, within 27000 frames, with no more stocks than at the start, and a win takes at least one frame |
| Campaign.SumIncrement | server/plannerLogic.ts:200 | incrementing one histogram bin adds one to the histogram's total |
| Campaign.SumRBounds | server/plannerLogic.ts:207-209 | a sum of samples in [lo, hi] lies between count·lo and count·hi |
| Campaign.TimeSeconds | server/plannerLogic.ts:197 | a trial within the frame ceiling reports a time in [0, 450] seconds, and one that took at least one frame a positive time |
| Campaign.Bin | server/plannerLogic.ts:199 | the bin is below 15; bin b < 14 holds exactly the times in [30b, 30b+30); the last bin holds every time from 420 seconds on |
| Campaign.EmptyTally | server/plannerLogic.ts:101-106 | the fresh accumulators satisfy the tally invariant with no wins |
| Campaign.Record | server/plannerLogic.ts:195-203 | a loss changes nothing; a win adds one win, one victory time, one to its bin, its parries and its stocks; the tally invariant is kept (histogram total = wins = number of times) |
| Campaign.OutcomePlausible | server/plannerLogic.ts:109-203 | every trial ends within the frame ceiling, and a win takes at least one frame and leaves -1 to 5 stocks |
| Campaign.Totals | server/plannerLogic.ts:108-204 | after n trials the histogram total equals the win count, equals the number of victory times, and is at most n |
| Campaign.GradeOf | server/plannerLogic.ts:214-217 | 'S' exactly when rate > 0.85, average time < 120 s, average parries ≥ 3 and average stocks ≥ 2.9; otherwise 'A' exactly above rate 0.6; otherwise 'C'; never 'B' |
| Campaign.GradeMonotone | server/plannerLogic.ts:214-217 | a higher success rate with the other averages equal never earns a lower grade |
| Campaign.Ceil | server/plannerLogic.ts:221 | the result is the least integer at or above its argument |
| Campaign.CeilMonotone | server/plannerLogic.ts:252 | rounding up is monotone |
| Campaign.Average | server/plannerLogic.ts:212-213 | 0 when nothing was counted, otherwise the value that times the count gives the total |
| Campaign.AverageBounds | server/plannerLogic.ts:207-213 | an average of samples in [lo, hi] lies in [lo, hi] |
| Campaign.Percentages | server/plannerLogic.ts:222 | one percentage per bin, each its count over 10000 times 100 |
| Campaign.PercentagesSum | server/plannerLogic.ts:222 | the percentages add up to the histogram total over 100 |
| Campaign.Summarize | server/plannerLogic.ts:206-225 | the rate is wins/10000 in [0, 1]; minutes lie in 0..8; the 15 percentages add up to the success rate times 100; with no wins every average is 0; average stocks lie in [-1, 5]; the grade is never 'B'; the distribution is the percentages of the histogram, the averages are those of the totals, the minutes are the ceiling of the average time over 60, and the grade is GradeOf of the rate and those averages |
| Campaign.MeanTime | server/plannerLogic.ts:207-209 | the average victory time is the average of the recorded times and lies in [0, 450] seconds |
| Campaign.MeanStocks | server/plannerLogic.ts:213 | the average stocks left at a win is the average of the totals and lies in [-1, 5] |
| Campaign.Minutes | server/plannerLogic.ts:221 | the rounded-up minutes of a time within the ceiling lie in 0..8 |
| Campaign.Distribution | server/plannerLogic.ts:222 | the histogram as percentages: 15 entries adding up to wins/10000 times 100 |
| Campaign.Simulate | server/plannerLogic.ts:79-226 | the whole simulator as a function of its input: rate in [0, 1], minutes in 0..8, 15 percentages adding up to the rate times 100, average stocks in [-1, 5], no grade 'B' |
| Campaign.RecordTrial | server/plannerLogic.ts:195-203 | the end-of-trial statements, including `freqDist[bin]++` on the array, compute Record |
| Campaign.AccumulateTrial | server/plannerLogic.ts:108-203 | one iteration of the trial loop, the trial run and its accumulation, takes the accumulators from Totals of t trials to Totals of t + 1 |
| Campaign.RunTrials | server/plannerLogic.ts:101-204 | the loop over 10,000 trials with its accumulators and histogram array computes Totals |
| Campaign.RunScientificSim | server/plannerLogic.ts:79-226 | the simulator computes Simulate, with its rate in [0, 1], minutes in 0..8 and a grade other than 'B' |
| Campaign.Attempts | server/plannerLogic.ts:252 | the ceiling of 1 / max(0.01, rate): at most 100, at least 1 for a rate up to 1, and 100 for a rate up to 0.01 |
| Campaign.AttemptsMonotone | server/plannerLogic.ts:252 | a better success rate never raises the attempt estimate |
| Campaign.SkillLevel | server/plannerLogic.ts:230 | the level of the first skill with the name, or 0 when there is none |
| Campaign.SimInputOf | server/plannerLogic.ts:232-243 | skills are read by name; both weapons are the loadout's or, when the loadout or the field is missing or empty, Peashooter, so weapon names are never empty; the smoke bomb flag holds exactly for the Smoke Bomb charm |
| Campaign.Advice | server/plannerLogic.ts:256-258 | grade 'S' gives the elite text and nothing else does; otherwise the advice names phase 3 exactly when average stocks are below 1, and phase 2 otherwise, and ends by naming the boss's counter weapon before " synergy." |
| Campaign.PathOf | server/plannerLogic.ts:246-260 | the steps are the boss's tips unchanged (fallback boss for an unknown name); attempts lie in 1..100 for a rate up to 1; the label is never "Grade B" when the grade is not 'B' |
| Campaign.CalculateCombatPath | server/plannerLogic.ts:228-272 | the request runs the simulation on its input; the steps are the boss's tips, attempts lie in 1..100, minutes in 0..8, efficiency in [0, 1], and the label is never "Grade B" |
| MockApi.WithId | src/api/mockApi.ts:170 | the new loadout is the draft with the fresh id |
| MockApi.Loaded | src/api/mockApi.ts:114-121 | the stored list, or the initial list when nothing is stored |
| MockApi.LookupAdvice | src/api/mockApi.ts:215 | a known boss gives its entry, an unknown one no weaknesses and the two generic tips |
| MockApi.FirstTierAtMost | src/api/mockApi.ts:233 | -1 or the first tier whose threshold the score reaches, with every earlier tier above the score |
| MockApi.TierFor | src/api/mockApi.ts:233 | the tier is one of the four; for a non-negative score its threshold is reached and every better tier's is not |
| MockApi.TiersOfScores | src/api/mockApi.ts:153-158 | scores 0.9, 0.8 and 0.5 or 0.6 earn the S-Rank, Solid Plan and Risky Setup labels |
| MockApi.Round | src/api/mockApi.ts:234 | the nearest integer, halves upwards |
| MockApi.Score | src/api/mockApi.ts:217-232 | the score lies in [0.5, 0.9]; it is 0.5 with no loadout; otherwise 0.3 is added for a weakness weapon and 0.1 for the Smoke Bomb |
| MockApi.AttemptsFor | src/api/mockApi.ts:234 | at least 1, and 2 to 6 for a score a loadout can earn |
| MockApi.AttemptsMonotone | src/api/mockApi.ts:234 | a better score never needs more attempts |
| MockApi.FindLoadout | src/api/mockApi.ts:214 | no result exactly when no loadout has the id; otherwise the first loadout with that id |
| MockApi.PathFor | src/api/mockApi.ts:210-249 | steps are the advisor's tips; the score is in [0.5, 0.9]; the tier label is the score's; attempts are at least 1; the time is 20 exactly with a Charge primary, else 25; the suited advice is given exactly above 0.8 |
| MockApi.Synergy | src/api/mockApi.ts:217-230 | the step-by-step score is Score, and the time modifier is 0.8 exactly with a Charge primary, else 1 |
| MockApi.LoadoutStorage.Load | src/api/mockApi.ts:114-121 | the stored list is returned, or the initial list, which is then written to storage |
| MockApi.LoadoutStorage.GetLoadouts | src/api/mockApi.ts:163-166 | the loaded list is returned and left in storage |
| MockApi.LoadoutStorage.CreateLoadout | src/api/mockApi.ts:168-175 | the draft with the new id is returned and appended to the loaded list |
| MockApi.LoadoutStorage.UpdateLoadout | src/api/mockApi.ts:177-187 | a present id replaces the first match and returns the loadout; otherwise 'Loadout not found' with the list unchanged |
| MockApi.LoadoutStorage.DeleteLoadout | src/api/mockApi.ts:189-195 | every loadout with the id is removed and the id is returned |
| MockApi.LoadoutStorage.CalculatePath | src/api/mockApi.ts:210-249 | the calculation on the loaded list computes PathFor and leaves storage holding that list |
| MockApi.UpdateThenDelete | src/api/mockApi.ts:177-195 | an update of a present id keeps the length and stores the new version; deleting that id afterwards leaves exactly what deleting it alone leaves |
| ProfileSlice.Clamp | src/features/profile/profileSlice.ts:69 | the result lies in [0, hi] (0 when hi < 0), equals x inside that range, and is 0 below and hi above it |
| ProfileSlice.ClampIdempotent | src/features/profile/profileSlice.ts:88 | clamping a clamped value changes nothing |
| ProfileSlice.ToggleOwned | src/features/profile/profileSlice.ts:63 | the id is kept, `owned` is flipped and nothing else changes |
| ProfileSlice.ToggleDefeated | src/features/profile/profileSlice.ts:74 | the id is kept, `defeated` is flipped and nothing else changes |
| ProfileSlice.AdjustLevel | src/features/profile/profileSlice.ts:68-69 | the level becomes the clamp of level + delta to [0, maxLevel]; id, name and maxLevel are kept |
| ProfileSlice.NextStatus | src/features/profile/profileSlice.ts:79-81 | locked → available → completed → locked; an unrecognised status becomes locked |
| ProfileSlice.NextStatusThrice | src/features/profile/profileSlice.ts:79-81 | three steps bring a recognised status back |
| ProfileSlice.CycleLevel | src/features/profile/profileSlice.ts:211 | only the status changes, to the next one |
| ProfileSlice.AddCoinsLocal | src/features/profile/profileSlice.ts:87-88 | present coins become the clamp of coins + delta to [0, totalCoins]; missing coins stay missing |
| ProfileSlice.AddCoins | src/features/profile/profileSlice.ts:40-41 | missing coins count as 0; the result is the clamp of coins + delta and lies in [0, totalCoins] |
| ProfileSlice.ToggleWeaponIn | src/features/profile/profileSlice.ts:140-156 | exactly the weapons with the id have `owned` flipped; the other lists are passed through |
| ProfileSlice.UpdateSkillLevelIn | src/features/profile/profileSlice.ts:158-179 | exactly the skills with the id get the clamped level; the other lists are passed through |
| ProfileSlice.ToggleBossIn | src/features/profile/profileSlice.ts:181-198 | exactly the bosses with the id have `defeated` flipped; the other lists are passed through |
| ProfileSlice.CycleLevelIn | src/features/profile/profileSlice.ts:200-224 | exactly the levels with the id move to the next status; the other lists are passed through |
| ProfileSlice.UpdateLevelCoinsIn | src/features/profile/profileSlice.ts:32-54 | exactly the levels with the id get clamped coins; the other lists are passed through |
| ProfileSlice.ToggleWeaponTwice | src/features/profile/profileSlice.ts:140-156 | toggling a weapon twice restores the profile |
| ProfileSlice.ToggleBossTwice | src/features/profile/profileSlice.ts:181-198 | toggling a boss twice restores the profile |
| ProfileSlice.CycleLevelThrice | src/features/profile/profileSlice.ts:200-224 | cycling a level with a recognised status three times restores the profile |
| ProfileSlice.UpdateLevelCoinsSettles | src/features/profile/profileSlice.ts:38-44 | after a coin update a further update by 0 changes nothing |
| ProfileSlice.LocalToggleMatchesThunk | src/features/profile/profileSlice.ts:61-64 | with unique weapon ids the local toggle and the thunk's toggle give the same list |
| ProfileSlice.LocalToggleWeaponTwice | src/features/profile/profileSlice.ts:61-64 | a local toggle applied twice restores the weapon list |
| ProfileSlice.ProfileStore.constructor | src/features/profile/profileSlice.ts:11-18 | empty lists, status idle, no error |
| ProfileSlice.ProfileStore.LocalToggleWeapon | src/features/profile/profileSlice.ts:61-64 | the first weapon with the id is toggled; nothing else changes |
| ProfileSlice.ProfileStore.LocalUpdateSkill | src/features/profile/profileSlice.ts:65-71 | the first skill with the id gets the clamped level; with an unknown id nothing changes |
| ProfileSlice.ProfileStore.LocalToggleBoss | src/features/profile/profileSlice.ts:72-75 | the first boss with the id is toggled; nothing else changes |
| ProfileSlice.ProfileStore.LocalCycleLevel | src/features/profile/profileSlice.ts:76-83 | the first level with the id moves to its next status; nothing else changes |
| ProfileSlice.ProfileStore.LocalUpdateLevelCoins | src/features/profile/profileSlice.ts:84-90 | the first level with the id gets clamped coins; nothing else changes |
| ProfileSlice.ProfileStore.Pending | src/features/profile/profileSlice.ts:94-96 | only the status changes, to loading (also the updateProfileData case at lines 108-110) |
| ProfileSlice.ProfileStore.Fulfilled | src/features/profile/profileSlice.ts:97-103 | status succeeded and the four lists replaced by the payload (also updateProfileData.fulfilled and the thunk matcher, lines 111-135) |
| ProfileSlice.ProfileStore.Rejected | src/features/profile/profileSlice.ts:104-107 | status failed and the error is the message or 'Failed to fetch profile'; the lists are kept |
| LoadoutSlice.LoadoutStore.constructor | src/features/loadouts/loadoutSlice.ts:10-14 | no items, status idle, no error |
| LoadoutSlice.LoadoutStore.FetchPending | src/features/loadouts/loadoutSlice.ts:46-48 | status loading; items and error kept |
| LoadoutSlice.LoadoutStore.FetchFulfilled | src/features/loadouts/loadoutSlice.ts:49-52 | status back to idle, never succeeded; items replaced by the payload |
| LoadoutSlice.LoadoutStore.FetchRejected | src/features/loadouts/loadoutSlice.ts:53-56 | status failed with the fixed error text; items kept |
| LoadoutSlice.LoadoutStore.AddFulfilled | src/features/loadouts/loadoutSlice.ts:58-60 | the payload is appended: one longer, old items unchanged, payload last |
| LoadoutSlice.LoadoutStore.EditFulfilled | src/features/loadouts/loadoutSlice.ts:62-67 | the first item with the payload's id is replaced |
| LoadoutSlice.LoadoutStore.RemoveFulfilled | src/features/loadouts/loadoutSlice.ts:69-71 | every item with the id is removed |
| LoadoutSlice.RemoveKeepsOthers | src/features/loadouts/loadoutSlice.ts:69-71 | after a removal no item has the id, every other item remains, and the survivors keep their order |
| LoadoutSlice.EditKeepsShape | src/features/loadouts/loadoutSlice.ts:62-67 | an edit keeps the length, changes nothing without a match, and stores the payload with one |
| ProgressSlice.ProgressStore.constructor | src/features/progress/progressSlice.ts:10-14 | no items, status idle, no error |
| ProgressSlice.ProgressStore.FetchPending | src/features/progress/progressSlice.ts:40-42 | status loading; items and error kept |
| ProgressSlice.ProgressStore.FetchFulfilled | src/features/progress/progressSlice.ts:43-46 | status succeeded and the items replaced |
| ProgressSlice.ProgressStore.FetchRejected | src/features/progress/progressSlice.ts:47-50 | status failed and the error is the message or 'Failed to fetch logs'; items kept |
| ProgressSlice.ProgressStore.AddFulfilled | src/features/progress/progressSlice.ts:51-53 | the new entry is at index 0 and old entry i is now at i + 1 |
| ProgressSlice.ProgressStore.ToggleFulfilled | src/features/progress/progressSlice.ts:54-59 | the first entry with the payload's id is replaced and the length is kept |
| ProgressSlice.ToggleUndone | src/features/progress/progressSlice.ts:54-59 | for an id that occurs once, replacing the entry and then putting the old one back restores the log |
| PlannerSlice.PlannerStore.constructor | src/features/planner/plannerSlice.ts:10-14 | no current result, status idle, empty history |
| PlannerSlice.PlannerStore.ClearResult | src/features/planner/plannerSlice.ts:28-30 | the current result is cleared; status and history are kept |
| PlannerSlice.PlannerStore.Pending | src/features/planner/plannerSlice.ts:34-36 | only the status changes, to loading |
| PlannerSlice.PlannerStore.Fulfilled | src/features/planner/plannerSlice.ts:37-41 | status succeeded, the payload is current and appended to the history; a current result is always the latest history entry |
| PlannerSlice.PlannerStore.Rejected | src/features/planner/plannerSlice.ts:42-44 | status failed; the current result and history are kept |

## Left out

- `Math.random` and `Math.exp` are not modelled as such. The draws are the `draws`/`rng` oracles, and the logistic curve is the `logistic` parameter with values in (0, 1). Statistical outcomes, such as the expected grade for a given boss, are properties of the distribution and are not stated.
- Floating-point arithmetic is modelled as exact real arithmetic. `Math.round`, `Math.ceil` and `Math.floor` are modelled exactly on reals.
- A lookup `BOSS_DATA[name]` or `WEAPON_STATS[name]` with a name that is an `Object.prototype` member, such as "constructor", finds that member rather than falling back. The model treats every name outside the table as unknown.
- The phases' `kinematics` constants are read by no formula and are not part of the model.
- `calculateCombatPath`'s constant `simulationTranscript` and `factorImpacts` lists are not modelled. Its fresh `uuidv4()` id is a parameter.
- MockApi.LoadoutStorage.Load, CreateLoadout and UpdateLoadout: with empty storage the source returns the `INITIAL_LOADOUTS` array itself, and `push` or an index assignment then changes that module constant in place. The model keeps the initial list constant, so after storage is cleared externally it returns the original initial list where the source returns the changed one. Clearing storage is not an operation of the model.
- `localStorage`, `JSON` parsing, the `delay` helper, `uuidv4` and `Date` are not modelled. Local storage is the `stored` field of `MockApi.LoadoutStorage`, and fresh ids are parameters.
- The profile half of the mock API is not modelled: `getProfile`/`updateProfile` and `INITIAL_PROFILE`. `updateProfile` returns its argument, so a thunk's fulfilled payload is the profile it built.
- The Redux async-thunk and dispatch machinery is not modelled. Each reducer is a method, and its payload or error message is a parameter.
- `ProfileSlice.AddCoinsLocal`: `coinsCollected + delta` on a missing value is NaN in JavaScript. The model keeps such a level's coins missing instead of storing NaN.
- The profile records follow `src/api/api.ts`, whose `Level` type has `coinsCollected` and `totalCoins`. The profile slice imports the type from `src/api/mockApi.ts`, whose `Level` type lacks those fields. The `cost` fields of `api.ts` are not read by the modelled code and are left out.
- Numbers fed to the reducers, such as skill levels, coins and deltas, are integers. Simulator skill levels are natural numbers, because the simulator's input promises levels 0 to 10.
- The server (`server/index.ts`, `server/db.ts`, `server/scripts/*`), the fetch wrappers in `src/api/api.ts`, and all React and end-to-end code are outside the modelled core.
