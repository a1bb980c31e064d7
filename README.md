# Kathmandu winter air-quality simulator — a verified model

`script.js` runs a browser game about winter air pollution in the Kathmandu valley. It treats
the valley as one well-mixed box. Each "next day" click does the following:

- turns four slider positions (traffic, brick kilns, open burning, road dust) into emissions,
  damped by any policies enacted;
- derives clamped meteorology scalars from the day's weather;
- updates four precursor pools (SO2, NOx, VOC, NH3);
- forms secondary PM (sulfate, nitrate, secondary organics);
- adds the inversion-amplified new mass to four PM components and removes a dry and a rain
  fraction;
- logs the day's total, scaled by a display-only haze multiplier.

A seven-episode timeline supplies each day's weather and nudges some sliders upward. Five
one-shot policies (the action chips) cost fixed tradeoff scores. On the last episode the game
rates the run by the mean logged total.

The Dafny model follows the program's own split:

- `numeric.dfy` (module `Numeric`): `clamp` and the `Math.max(0, …)` floor.
- `policies.dfy` (module `Policies`): the five policy flags, the tradeoff scores, the `ACTIONS`
  table and the "already applied" guard, as pure functions with their lemmas.
- `box.dfy` (module `Box`): the formulas of one simulated day, as pure functions. `Step` is the
  whole day. The lemmas cover ranges, non-negativity, the effect of a kiln ban and the
  display-only nature of haze.
- `episodes.dfy` (module `Timeline`): the `EPISODES` weather and nudges.
- `evaluation.dfy` (module `Evaluation`): history records, their mean and the three outcome
  tiers.
- `engine.dfy` (module `Simulator`): the mutable state `S` as class `Engine`, with these
  methods:
  - `Init`: the restart;
  - `ApplyEpisode`;
  - `StepOneDay`;
  - `NextDay`;
  - `ApplyAction`: the chip handler;
  - `SetSliders`: slider input.

  Every method is proved against the pure functions. Each keeps the class invariant `Valid`:
  - sliders stay in 0..100;
  - the episode index stays in range and the weather is that episode's;
  - pools and PM stay non-negative;
  - the tradeoff scores equal exactly the price of the set flags;
  - every logged total is non-negative.

  Between clicks of "next day" the log also holds exactly one entry per day, in day order.

Quantities are real numbers and slider positions are integers. The program keeps the
precursor pools and PM components as eight scalar fields of `S`. The model groups them into
two records, `pools` and `pm`, and the four slider widgets into one record, `levers`.

## Model

| member | source | states |
|---|---|---|
| Numeric.Clamp | script.js:140 | the result lies in [a, b] when a ≤ b; it is x when a ≤ x ≤ b; it is a at or below a and b at or above b |
| Numeric.ClampInt | script.js:86 | the integer `clamp` used by the nudges has the same four properties as `Clamp` |
| Numeric.Floor0 | script.js:190-193 | the floor is non-negative, never below its argument, and the identity on non-negative values |
| Box.Normalise | script.js:162-165 | a slider position in 0..100 becomes a fraction in [0, 1]; a positive position gives a positive fraction |
| Box.Damp | script.js:167-170 | damped levers stay in [0, 1] and never exceed the undamped fractions; a lever whose policy is off is left as it was |
| Box.RoadSweepStrongerWhenDry | script.js:170 | with road sweeping on and dust above 0, a dry day leaves strictly less dust than a rainy one |
| Box.Emit | script.js:173-180 | from levers in [0, 1] every emission is non-negative and primary PM is at most 90; NH3 keeps its baseline of 6 |
| Box.KilnBanLowersEmissions | script.js:167-180 | with kilns above 0, a kiln ban gives strictly less SO2 and strictly less primary PM emission |
| Box.InversionFactor | script.js:183 | the inversion factor lies in [0.6, 2.2] and equals 220/mh when that is inside the range |
| Box.InversionAntitone | script.js:183 | a lower mixing height never gives a smaller inversion factor |
| Box.HumidityFactor | script.js:184 | the humidity factor lies in [0.6, 1.35] |
| Box.SunFactor | script.js:185 | the sunlight factor lies in [0.2, 0.8] |
| Box.WindFactor | script.js:186 | the wind factor lies in [0.6, 3.0] |
| Box.ColdFactor | script.js:197 | the cold factor lies in [0.2, 1.1], and is 0.2 from a 220 m mixing height upward |
| Box.MetOf | script.js:183-197 | all five derived scalars lie in their clamp ranges, whatever the weather |
| Box.NextPools | script.js:190-193 | the updated precursor pools are all non-negative |
| Box.EulerStepRetains | script.js:190-193 | a pool whose loss rate times scale is at most 6% keeps at least 94% of its old value plus its emission |
| Box.PoolsRetained | script.js:190-193 | from non-negative pools and emissions, each pool keeps at least 94% of its old value plus its emission, so the floor never bites and each loss reads the pool's own old value |
| Box.Form | script.js:196-199 | from non-negative pools and in-range scalars, sulfate, nitrate and secondary organics are non-negative |
| Box.SulfateFormationStrict | script.js:196 | less SO2 in the updated pool forms strictly less sulfate |
| Box.Retained | script.js:202-207 | with the wind factor in its range, the retained fraction 1 - dryLoss - rainLoss lies in [0.5, 0.922], so removal never flips a sign |
| Box.NextPm | script.js:207-210 | the updated PM components are all non-negative |
| Box.DepositRetains | script.js:207-210 | when at least half the mass is retained, at least half of the old component survives the day |
| Box.DepositStrict | script.js:207-210 | strictly more added mass gives strictly more of the component |
| Box.PmRetained | script.js:207-210 | from non-negative inputs, every PM component keeps at least half its old value |
| Box.HazeMult | script.js:214 | the haze multiplier lies in [1, 1.18] |
| Box.HazeMonotone | script.js:214 | more humidity never gives a smaller haze multiplier |
| Box.Reported | script.js:216 | from non-negative components, the reported total lies between the stored mass and 1.18 times it |
| Box.NextAir | script.js:188-210 | the stored state after a day is non-negative |
| Box.Step | script.js:158-222 | after any day, every pool and PM component is non-negative; the haze multiplier is at least 1 and the reported total at least the stored mass |
| Box.MetSeesHumidityOnlyThroughFactor | script.js:183-197 | changing only the humidity, with the same humidity factor, gives the same clamped scalars |
| Box.HazeIsDisplayOnly | script.js:212-216 | days that differ only in humidity, with the same humidity factor, store the same air; each reports that air's mass under its own haze multiplier |
| Box.HazeFollowsHumidityFactor | script.js:184-214 | for humidities in 0..100, two days with the same humidity factor get the same haze multiplier, so crossing a haze threshold always changes the stored secondary PM too |
| Box.KilnBanLowersNextAir | script.js:168-210 | with kilns above 0, a kiln ban leaves strictly less SO2, sulfate and primary PM after one step, from the same stored state and scalars |
| Box.KilnBanLowersSulfate | script.js:158-222 | the same three strict decreases for the whole day `Step` |
| Policies.Apply | script.js:399-407 | a click is refused exactly when the action's flag is already set and then changes nothing; after any click that flag is set |
| Policies.ApplyMonotone | script.js:42-62 | a click never clears a flag and never lowers a score; a click that is not refused raises the summed scores by exactly the action's price |
| Policies.ApplyCharges | script.js:42-62 | a click on a clear flag adds its literal price to the scores: econ + 8 for the kiln ban, mobility + 6 for odd-even, social + 5 for the burning crackdown, cost + 3 for road sweeping, and nothing for the public alert |
| Policies.ApplyKeepsOthers | script.js:42-62 | a click on one chip leaves every other flag as it was |
| Policies.CostOfEnact | script.js:42-62 | setting a clear flag adds exactly that flag's price to the cost of the set flags |
| Policies.ApplyKeepsCost | script.js:42-62 | when the scores are the cost of the set flags before a click, they are the cost of the set flags after it |
| Policies.ApplyIdempotent | script.js:399-405 | a second click on the same chip is refused and changes neither flags nor scores |
| Policies.ApplyAllMonotone | script.js:42-62 | over any sequence of clicks, flags never clear and scores never decrease |
| Policies.ApplyAllFlags | script.js:42-62 | after any sequence of clicks, a flag is set exactly when it was set before or one of the clicks named it |
| Policies.ApplyAllCharged | script.js:42-62 | however many clicks occur, each set flag has been charged exactly once |
| Timeline.Bump | script.js:86 | a nudged slider stays in 0..100 and moves up by at most the nudge; a zero nudge leaves it untouched |
| Timeline.ApplyNudge | script.js:86-102 | the sliders stay in 0..100 after any episode's nudge; dust is never nudged; an episode without a nudge leaves the sliders alone |
| Timeline.EpisodesWellFormed | script.js:68-116 | every episode has a positive mixing height, non-negative wind, humidity in 0..100, sunlight in [0, 1] and non-negative nudges |
| Evaluation.Classify | script.js:383-386 | the outcome is the worst tier exactly when the mean exceeds 180, and the best tier exactly when it is at most 120 |
| Evaluation.ClassifyMonotone | script.js:383-386 | a larger mean never earns a better tier |
| Evaluation.MeanTotal | script.js:382 | the mean of a log of non-negative totals is non-negative |
| Evaluation.MeanWithin | script.js:382 | the mean lies between any lower and upper bound on the totals, so a log whose totals are all equal has that total as its mean |
| Evaluation.SumAppend | script.js:382 | appending a record adds its total to the sum of the log |
| Evaluation.SumAtMost | script.js:382 | when no total exceeds a bound, the sum is at most the bound times the number of records |
| Evaluation.SumAtLeast | script.js:382 | when every total is at least a bound, the sum is at least the bound times the number of records |
| Evaluation.SumAbove | script.js:382 | when every total of a non-empty log exceeds a bound, the sum is strictly above the bound times the number of records |
| Evaluation.CleanRunIsStrong | script.js:382-386 | a log in which every total is at most 120 is rated the best tier |
| Evaluation.SmoggyRunIsBrutal | script.js:382-386 | a log in which every total is above 180 is rated the worst tier |
| Simulator.Engine.constructor | script.js:422-442 | a new engine is the restarted state: day 1, episode 0 and its weather, no flags, zero scores, the seed pools, PM and default sliders, and a log holding only the day-0 entry with total 60 and haze multiplier 1 |
| Simulator.Engine.Init | script.js:422-442 | the restart gives day 1, episode 0 and its weather, all flags clear, all scores 0, seed pools 20/18/14/16, seed PM 35/10/8/7, sliders 60/70/55/50, and a log holding only the day-0 entry with total 60 and haze multiplier 1; the invariant holds |
| Simulator.Engine.ApplyEpisode | script.js:356-359 | the weather becomes the current episode's, the sliders receive its nudge, and they stay in 0..100 |
| Simulator.Engine.StepOneDay | script.js:158-222 | the new pools and PM are exactly `Step` of the old ones under the current sliders, policy and weather; the returned total is their reported total; exactly one record is appended under the current day and earlier records are unchanged; the invariant holds |
| Simulator.Engine.NextDay | script.js:365-389 | one `Step` is taken and one record appended; the day advances by 1; flags and scores are unchanged. Before the last episode, the index advances and the next episode is entered with no verdict. On the last episode, the index, weather and sliders stay put and the verdict is the tier of the mean over the whole log. The invariant and the one-entry-per-day calendar hold |
| Simulator.Engine.ApplyAction | script.js:392-411 | a click is accepted exactly when the action's flag was clear; then exactly that flag is set, and otherwise nothing changes. The scores stay the cost of the set flags |
| Simulator.Engine.SetSliders | script.js:414-416 | dragging the sliders to positions in 0..100 stores them and keeps the invariant |
| Simulator.ClickIsApply | script.js:392-411 | a chip click on the engine leaves exactly the flags and scores that `Policies.Apply` gives for the old ones, and it is accepted exactly when `Apply` does not report "already applied" |
| Simulator.FirstDay | script.js:173-207 | on the first day after a restart the inversion factor is 220/180, the default sliders emit 54 units of primary PM, and primary PM grows above its seed of 35 |

## Left out

- DOM access, event wiring, canvas and text rendering, the toast and its timer, and the narrative,
  title and action-description strings are not modelled. Slider positions are integer fields set
  through `SetSliders`, not widget reads, and a click on an unknown chip (`if (!a) return`) cannot
  be expressed, since `Action` has exactly the five table keys.
- IEEE-754 double arithmetic and display rounding (`fmt`) are not modelled: every quantity is an
  exact real. The one place where the program relies on a special double value is modelled
  explicitly. A zero mixing height makes `220 / mh` infinite, and the clamp takes it to 2.2.
- The end-of-run mean divides by the whole log, the day-0 seed entry included, because the
  code does so (script.js:382).
- Raw inputs are not validated: the program trusts its own sliders and episode table, and so does
  the model. Slider ranges are a precondition of `SetSliders`, and `Timeline.EpisodesWellFormed`
  states what the table guarantees.
- Simulator.Engine.ApplyAction: its `ensures` gives the new flags through `Enact` rather than
  equating the new state with `Policies.Apply`. The new scores follow from the class invariant
  `tradeoff == Cost(policy)` together with `Policies.CostOfEnact`; `Simulator.ClickIsApply`
  proves, from the outside, that flags and scores after a click are those `Policies.Apply` gives.
- Simulator.Engine.StepOneDay: stated on the records `pools` and `pm` rather than on eight
  separate fields; the record layout is the only difference.
