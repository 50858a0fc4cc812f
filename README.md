# Trolley run analyser, modelled in Dafny

The trolley game logs one decision per level. Each decision holds the victim count on each rail and the player's choice tag. `analyseRun` in `analyzer.js` reduces that log to a verdict in four steps:

- It folds the decisions into four counters: lives lost, deliberate choices (agency), the worst possible casualties, and lives spared.
- From the counters it derives two ratios rounded to two decimals: agency (the share of levels with a deliberate choice) and compassion (lives lost rescaled from +1 down to -1).
- `pickVerdict` maps the two ratios to one of seven archetypes, each with a tagline.
- It returns a record with the verdict, the tagline, two of the counters, the two ratios and a one-line summary.

The project has four modules:

- `Wrappers` (`wrappers.dfy`): `Option`, for record keys that may be absent.
- `Rounding` (`rounding.dfy`): `Round2`, which stands for `+x.toFixed(2)` on the exact value. The magnitude goes to the nearest hundredth, a tie goes to the larger magnitude, and the sign is put back. Lemmas show that the contract determines the result uniquely, that rounding is monotone, that it keeps values inside intervals bounded by hundredths, and exactly where it crosses a threshold.
- `Verdicts` (`verdicts.dfy`): the seven-row table as a datatype. Each row carries its label and tagline, so a verdict and its tagline always come from the same row. `PickVerdict` is the first-match cascade. Its contract ties the result to an independent description of the table as seven disjoint regions of the (agency, compassion) plane.
- `Analyzer` (`analyzer.dfy`):
  - the decision record with optional `top`/`up`/`bottom`/`down` counts and an optional string `choice`;
  - `Victims`, the count resolution `top ?? up ?? 0` and `bottom ?? down ?? 0`;
  - `Tally`, a fold that states what the accumulation loop computes;
  - `AnalyseRun`, the loop itself, as a method with a loop invariant;
  - the metrics and the result record;
  - lemmas about all of the above.

A choice is deliberate only when it is exactly `"T"` or exactly `"B"`. A missing tag and any other string both count as a skipped level, as with `===` in the source.

The ratios are exact rationals (`real`). The JavaScript guards test truthiness, so the model tests `levels != 0` and `maxCasualties != 0`, not `> 0`.

Two points worth noting about the code:

- The result record has no `maxCasualties` field (analyzer.js:57-65). The model keeps that counter only inside `Tally`.
- A comment at the end of `analyzer.js` says that a passive run prints a "Hands-Off Saint" verdict. No such row exists in the table. `PassiveRunIsDetached` shows that a run with every level skipped ends as "Detached Bystander — You let fate decide."

## Model

| member | source | states |
|---|---|---|
| `Analyzer.Victims` | analyzer.js:15-16 | a rail's count is its primary key when present (even when 0), otherwise its synonym, otherwise 0; a missing count is never an error |
| `Analyzer.SynonymKeys` | analyzer.js:15-16 | appended to any log, a level with no `top` and no `bottom` key is tallied exactly as if its `up`/`down` counts were given as `top`/`bottom` |
| `Analyzer.PrimaryKeyWins` | analyzer.js:15-16 | appended to any log, a level with a `top` key (even 0) is tallied the same whatever `up` holds, and likewise `bottom` over `down` |
| `Analyzer.Step` | analyzer.js:20-38 | one decision: a "T" or "B" tag, and only those, adds 1 to agency and sends every victim of the level to either lost or spared, with no more lost than the worst-case increase; a skipped level kills nobody and never adds to the spared count; the worst case grows by the larger of the two rails |
| `Analyzer.Tally` | analyzer.js:19-39 | the fold of `Step` over the log in order; the agency counter lies between 0 and the number of decisions |
| `Analyzer.Agency` | analyzer.js:42-44 | agency is a whole number of hundredths; it is 0 for an empty log or when nothing was chosen, in [0, 1] whenever the counter is at most the number of levels, and 1 when every level was chosen |
| `Analyzer.Compassion` | analyzer.js:46-52 | compassion is a whole number of hundredths; it is exactly 0 when the worst case is 0; with 0 <= lost <= worst case it is in [-1, 1]; it is +1 when nobody died, 0 when half the worst case died, and -1 when the whole worst case died |
| `Analyzer.MakeReport` | analyzer.js:55-65 | the record copies lives lost and spared, holds the two rounded ratios, takes verdict and tagline from the one row `PickVerdict` selects, and its summary is verdict, " — ", tagline |
| `Analyzer.Analyse` | analyzer.js:8-66 | the report of a whole log: counters are the fold's, the verdict and tagline come from one row, agency is in [0, 1], with non-negative counts lives lost are non-negative and compassion is in [-1, 1], and an empty log gives agency 0, compassion 0 and "Detached Bystander" |
| `Analyzer.AnalyseCanonical` | analyzer.js:15-21 | moving every resolved count to the primary keys and dropping the synonyms changes neither the accumulators nor the report |
| `Analyzer.AnalyseRun` | analyzer.js:8-66 | the loop's counters equal the fold `Tally` after every prefix; the report is `Analyse` of the log; the verdict and tagline come from the row `PickVerdict` selects; `summary` is verdict, " — ", tagline; agency is in [0, 1]; with non-negative counts lives lost are non-negative and compassion is in [-1, 1]; an empty log gives agency 0, compassion 0 and "Detached Bystander" |
| `Analyzer.TallySnoc` | analyzer.js:19-39 | decisions are folded in log order: appending one decision applies one more step to the previous accumulators |
| `Analyzer.AppendChosenTop` | analyzer.js:25-29 | a "T" decision adds its top count to lives lost, its bottom count to lives spared, 1 to agency and the larger count to the worst case |
| `Analyzer.AppendChosenBottom` | analyzer.js:30-34 | a "B" decision is the mirror image: bottom count lost, top count spared, 1 to agency, the larger count to the worst case |
| `Analyzer.AppendSkipped` | analyzer.js:35-38 | any other or missing tag adds nothing to lives lost or agency, subtracts the absolute difference of the two counts from lives spared, and adds the larger count to the worst case |
| `Analyzer.TallyBounds` | analyzer.js:19-39 | with non-negative counts, 0 <= lives lost <= worst-case casualties |
| `Analyzer.TallyConcat` | analyzer.js:19-39 | the accumulators of two logs played back to back are the sums of their separate accumulators |
| `Analyzer.AnalyseOrderIrrelevant` | analyzer.js:8-66 | swapping two stretches of levels leaves the whole report unchanged |
| `Analyzer.AgencyBelowThreshold` | analyzer.js:42-44 | on a non-empty log, rounded agency is below 0.2 exactly when 200 x choices < 39 x levels |
| `Analyzer.DetachedIff` | analyzer.js:42-75 | the verdict is "Detached Bystander" exactly when the log is empty or fewer than 19.5% of its levels have a deliberate choice |
| `Analyzer.EmptyRun` | analyzer.js:42-75 | the empty log gives agency 0, compassion 0, nothing lost or spared, and the summary "Detached Bystander — You let fate decide." |
| `Analyzer.PassiveRunIsDetached` | analyzer.js:35-75 | a log in which every level was skipped loses no lives, has agency 0 and ends as "Detached Bystander — You let fate decide." |
| `Analyzer.ChoseTheSmallerCrowd` | analyzer.js:8-66 | one level with 1 on top, 5 below and choice "T" gives 1 lost, 5 spared, agency 1, compassion 0.6 and "Heroic Utilitarian" |
| `Analyzer.SkippedUnequalLevel` | analyzer.js:8-66 | one skipped level with 5 on top and 1 below gives 0 lost, -4 spared, agency 0, compassion 1 and still "Detached Bystander" |
| `Rounding.Round2` | analyzer.js:42-44 | the result is a whole number of hundredths within half a hundredth of the input; a tie goes away from zero |
| `Rounding.Round2Unique` | analyzer.js:51-52 | any hundredth that satisfies Round2's contract equals Round2's result, so the contract defines the rounding completely |
| `Rounding.Round2Monotone` | analyzer.js:51-52 | rounding preserves the order of two ratios |
| `Rounding.Round2Within` | analyzer.js:51-52 | a ratio inside an interval whose ends are hundredths stays inside it after rounding |
| `Rounding.Round2Below` | analyzer.js:42-44 | a non-negative ratio rounds below a hundredth h exactly when it is below h - 0.005 |
| `Verdicts.PickVerdict` | analyzer.js:71-109 | the selected row is the single row whose region contains the point: agency < 0.2 gives Detached Bystander; otherwise the row is chosen by compassion >= 0.5, >= 0.2, > -0.2, >= -0.5, >= -0.8, and Pure Evil below that |
| `Verdicts.AgencyThreshold` | analyzer.js:72-75 | Detached Bystander is chosen exactly when agency < 0.2, whatever the compassion; agency exactly 0.2 never gives it |
| `Verdicts.CompassionMonotone` | analyzer.js:77-108 | at agency >= 0.2, lower compassion never yields a kinder row |
| `Verdicts.RowsDistinct` | analyzer.js:71-109 | no two rows share a label or a tagline, so a label identifies its row |

## Left out

- `game.js` is not part of this model. It draws rails and the train on a canvas, loads images, looks up DOM elements and schedules animation frames. Its only state is a viewport scroll counter, which holds no decision logic.
- The lane-choice gate, victim and collision tracking, the level sequencer and the track geometry are not part of this model. None of them appears in the analyser.
- Round2 models `toFixed(2)` on the exact rational value of each ratio. It does not model IEEE-754 doubles. A double that lies just below a decimal tie (1.005 is stored as 1.00499...) can round down in JavaScript, while the model rounds the exact value up. `toFixed`'s switch to exponent notation at 1e21 is not modelled either.
- Compassion: the model rounds the exact ratio, and at a decimal tie this can change the verdict, not only the ratio. With 101 lives lost out of a worst case of 400, JavaScript computes 0.49499999999999999556, prints 0.49 and picks "Calculating Pragmatist"; the model computes exactly 0.495, rounds to 0.5 and picks "Heroic Utilitarian". The agency threshold of `DetachedIff` is not affected: the double nearest 0.195 lies above the tie.
- Tally: the counters are unbounded integers. In JavaScript they are doubles, so sums above 2^53 stop being exact; such sums are not modelled.
- AnalyseRun: the log is a Dafny sequence of well-formed records. A `null` or `undefined` element, or a hole in a sparse array, makes `d.top` throw a TypeError in the source (analyzer.js:15-16, 20), and a `decisions` value that cannot be iterated throws at analyzer.js:19. Neither failure is modelled.
- Victim counts are integers. JavaScript would also accept fractional, `NaN` or non-numeric values; none of these is modelled. Negative counts can appear, because the code does not guard against them. Only the bound properties require non-negative counts.
- Determinism (two calls on the same log give the same report) holds by construction, because every member of the model is a function of its inputs.
- A `choice` that is not a string (a number, say) is not modelled. It would compare unequal to both tags and count as a skipped level, just as any other string does here.
