# Upgrade-cost engine: a verified Dafny model

This project models the upgrade-cost engine of a hero-upgrade planner.

- **Hero snapshot.** A hero has a rarity, two weapons and a relic:
  - each weapon has gear level, enhancement, optional mods and an optional refinement;
  - the relic has three abilities, weapon mastery and relic trait;
  - the hero also has a list of artifacts.
- **Cost table.** A CSV file with rows `path, material, level, amount`. A row says how much of a material takes a track from `level - 1` to `level`.
- **Engine.** The engine:
  1. enumerates every track of the hero still below its `MAX_LEVELS` maximum (`generateMaxUpgradeTargets`);
  2. looks up each target's cost rows in the half-open level range `(currentLevel, targetLevel]`;
  3. concatenates those rows into a plan and folds them into a per-material summary (`calculateUpgradePlan`, `calculateTotalMaterials`);
  4. groups targets by category and scores progress.

`createNewHero` and its helpers fix the starting state of a new hero.

## Modules

| Dafny module | Models | What it contains |
|---|---|---|
| `Types` | `lib/types.ts` | The records. Optional fields are `Option`. The sixteen cost-table path keys. |
| `HeroDefaults` | `lib/hero-defaults.ts` | `MAX_LEVELS`, `STARTING_LEVELS`, the default constructors, and the bounds a hero built by the application keeps. |
| `CsvData` | `lib/csv-data.ts` | See below. |
| `UpgradeCalculator` | `lib/upgrade-calculator.ts` | See below. |
| `JsStrings` | JavaScript built-ins | `trim`, `split`, `Number.parseInt` (decimal) and the decimal rendering of a number in a template literal. |
| `Wrappers`, `CollectionFacts` | Helpers | `Option`, plus small generic facts about sequences and maps. |

`CsvData` contains:
- `parseCSV`, as a loop over data lines, each record filled column by column;
- the two table lookups, as filters over an explicit table;
- `calculateTotalMaterials`, as a loop over rows. It is proved equal to the reference summary `MaterialTotals`: per material, the sum of the amounts.

`UpgradeCalculator` contains:
- **The enumerator.** A method that pushes targets section by section. It is proved equal to the function `MaxTargets`. `MaxTargets` has exactly the members that a case-by-case reference definition, `EmittedFor`, describes. `MaxTargetsInOrder` gives their order.
- **The plan builder.** A loop that skips failed lookups, specified by `PlanCosts`.
- **Grouping.** A loop that creates a key on first use, specified by `TargetsIn` and `Groups`.
- **Progress.** Exact real arithmetic.

## How the model stands in for the program

- **Cost table.** The table is an explicit `seq<UpgradeCost>` parameter. The module-level cache and the network fetch behind it are not modelled.
- **Failed lookups.** A lookup can throw when the table cannot be loaded. `calculateUpgradePlan` catches the error and moves on. `failed: set<nat>` holds the target positions whose lookup threw, and those targets contribute no row.
- **`Date.now()`.** The clock reading in the new hero's id is the parameter `now`.
- **Undefined values.** JavaScript `undefined` and `NaN` are `None`.
  - An ability beyond the third slot has path `abilityPaths[index]`, which is `undefined`. Here that path is `None`, and no table row matches it.
- **Record fields.** A parsed record's fields are `Field = Text | Number`.

## Model

| member | source | states |
|---|---|---|
| JsStrings.Trim | lib/csv-data.ts:17 | The trimmed text is a contiguous slice of the input with only whitespace before and after it, and it neither starts nor ends with whitespace. |
| JsStrings.TrimIsInfix | lib/csv-data.ts:17-21 | Trimming removes whitespace from the two ends only: the result is the input between an all-whitespace prefix and an all-whitespace suffix. |
| JsStrings.TrimIdempotent | lib/csv-data.ts:17-21 | Trimming an already trimmed value changes nothing. |
| JsStrings.Split | lib/csv-data.ts:17-21 | Splitting yields at least one piece, and no piece contains the separator. |
| JsStrings.SplitJoin | lib/csv-data.ts:17-21 | Splitting loses no character: joining the pieces with the separator restores the text. |
| JsStrings.JoinSplit | lib/csv-data.ts:17-21 | Separator-free pieces, joined and split again, come back unchanged: split is the inverse of join. |
| JsStrings.ParseSigned | lib/csv-data.ts:29 | After the leading whitespace, `parseInt` yields a number exactly when a digit follows the optional sign. |
| JsStrings.ParseInt | lib/csv-data.ts:29 | `parseInt` yields a number exactly when a digit follows the leading whitespace and optional sign; otherwise it yields NaN. |
| JsStrings.ParseIntOfCell | lib/csv-data.ts:29 | A cell made of leading whitespace, an optional sign, leading zeros, the digits of n and any text not starting with a digit parses to n, or to -n after a `-`. |
| JsStrings.NatToString | lib/upgrade-calculator.ts:106 | The rendering of n is a non-empty digit string whose value is n, with no leading zero: a rendering that starts with `0` is exactly `"0"`, the rendering of 0. |
| JsStrings.ParseIntNatToString | lib/csv-data.ts:29 | Parsing the rendering of n gives back n, and parsing `-` followed by it gives -n. |
| JsStrings.NatToStringInjective | lib/upgrade-calculator.ts:150 | Distinct positions render differently, so distinct mods or artifacts get distinct path keys. |
| HeroDefaults.MaxLevelsPositive | lib/hero-defaults.ts:62-72 | Every `MAX_LEVELS` entry is positive, so every track has a level to reach and no target level is 0. |
| HeroDefaults.StartingLevels | lib/hero-defaults.ts:77-86 | A legendary hero starts at power 0 and a mythic one at 500, both with abilities at 1. |
| HeroDefaults.CreateDefaultRelic | lib/hero-defaults.ts:6-16 | The default relic has three abilities, `Signature 1`, `Signature 2` and `Super`, with ids `ability-1` to `ability-3`, all at level 1. Weapon mastery and relic trait are 0. |
| HeroDefaults.CreateDefaultWeapon | lib/hero-defaults.ts:21-29 | A default weapon keeps its id and name. It is `normal`, at gear level 0 and enhancement 0, with no mods and no refinement. |
| HeroDefaults.CreateDefaultArtifact | lib/hero-defaults.ts:34-40 | A default artifact keeps its id and name and is at level 0. |
| HeroDefaults.CreateNewHero | lib/hero-defaults.ts:45-57 | A new hero's id is `hero-` followed by the clock reading. Its power is the `STARTING_LEVELS` power of its rarity. It has the two default weapons, the default relic, and no artifacts. |
| HeroDefaults.NewHeroWithinLimits | lib/hero-defaults.ts:45-72 | Every starting level of a new hero lies within its `MAX_LEVELS` bound and strictly below it. |
| HeroDefaults.NewHeroMatchesStartingLevels | lib/hero-defaults.ts:77-86 | A new hero's power and ability levels are the `STARTING_LEVELS` entries of its rarity: 0 or 500 power, abilities at 1. |
| CsvData.StripQuotes | lib/csv-data.ts:21 | Removing quotes drops at most one character at each end and keeps the characters in between: the result starts at offset 1 when the value opens with a quote, else at offset 0, and it ends one before the last character when the value closes with a quote, else at the last character. A value that neither starts nor ends with a quote, or holds no quote at all, is unchanged. A value with a quote at each end loses exactly those two. |
| CsvData.StripQuotesOfQuoted | lib/csv-data.ts:21 | A value wrapped in one pair of quotes comes back unwrapped, whatever it contains. |
| CsvData.LineValues | lib/csv-data.ts:21 | A line gives one cell per comma-separated piece, and cell i is piece i trimmed and stripped of its quotes. |
| CsvData.DataLines | lib/csv-data.ts:17-18 | The data lines are the lines of the trimmed text minus the header line: data line i is line i + 1. |
| CsvData.Cell | lib/csv-data.ts:25 | Cell i of a line is the i-th value when the line has one, and `""` when the line is too short. |
| CsvData.ToInteger | lib/csv-data.ts:29 | A numeric column holds the parsed integer when the cell starts with a number, and 0 when it parses to NaN. |
| CsvData.ToIntegerOfRendering | lib/csv-data.ts:29 | A number written in decimal reads back as itself, and an empty cell reads as 0. |
| CsvData.RecordOf | lib/csv-data.ts:24-33 | A field holds a number exactly when its header is `level` or `amount`; every other field holds text. |
| CsvData.RecordOfKeys | lib/csv-data.ts:22-33 | A parsed record has exactly the header names as keys. |
| CsvData.RecordOfLastWins | lib/csv-data.ts:24-33 | Under each header sits the cell of the last column bearing that name. A missing cell reads as `""`. The `level` and `amount` columns hold the parsed integer, or 0 when the cell is not numeric. |
| CsvData.BuildRecord | lib/csv-data.ts:22-33 | The column-by-column assignment loop builds exactly the record `RecordOf` describes. |
| CsvData.ParseLine | lib/csv-data.ts:20-36 | One line's callback splits and cleans the line, then builds that line's record. |
| CsvData.ParsedRecordsAt | lib/csv-data.ts:20-36 | The i-th record depends on the i-th data line only. |
| CsvData.ParseCSV | lib/csv-data.ts:16-37 | There is one record per line of the trimmed text after the header line, in line order, and each is the record of its own line. The header line is never a record. |
| CsvData.UpgradeRecord | lib/csv-data.ts:78 | With the cost-table headers, a line's columns 0 to 3 become path, material, level and amount. The last two are integers, or 0 when not numeric. |
| CsvData.ParseUpgradeCosts | lib/csv-data.ts:78 | The cost table has one row per data line, read by column position. |
| CsvData.GetUpgradeCostsToLevel | lib/csv-data.ts:99-103 | The range lookup returns exactly the table rows with the given path and a level in `(fromLevel, toLevel]`. The result is empty when `fromLevel >= toLevel`. |
| CsvData.CostsToLevelConcat | lib/csv-data.ts:102 | Selection distributes over concatenation of tables, so the selected rows keep their table order. |
| CsvData.CostsToLevelCount | lib/csv-data.ts:102 | Each selected row is kept as many times as the table holds it, and every other row is dropped. |
| CsvData.RangeSplit | lib/csv-data.ts:102 | For `a <= b <= c`, the rows of `(a, c]` are, as a multiset, the rows of `(a, b]` together with those of `(b, c]`. |
| CsvData.GetUpgradeCost | lib/csv-data.ts:90-94 | The single-level lookup returns exactly the table rows with the given path and level. |
| CsvData.GetUpgradeCostIsUnitRange | lib/csv-data.ts:90-103 | The single-level lookup at `l` equals the range lookup over `(l - 1, l]`, in the same order. |
| CsvData.MaterialTotals | lib/csv-data.ts:124-136 | The summary has a key for exactly the materials that occur in the rows, and each value is the sum of that material's amounts. |
| CsvData.MaterialTotalsEmpty | lib/csv-data.ts:124-136 | No rows give an empty summary. |
| CsvData.MaterialTotalsPermutation | lib/csv-data.ts:124-136 | The summary does not depend on the order of the rows. |
| CsvData.MaterialTotalsConcat | lib/csv-data.ts:124-136 | The summary of two row lists, one after the other, is the per-material sum of their summaries. |
| CsvData.RangeAdditivity | lib/csv-data.ts:99-136 | For `a <= b <= c`, the totals over `(a, c]` are the per-material sum of the totals over `(a, b]` and over `(b, c]`. |
| CsvData.MaterialTotalsStep | lib/csv-data.ts:127-133 | One more row adds its amount to its material's entry, creating the entry if it is absent. |
| CsvData.CalculateTotalMaterials | lib/csv-data.ts:124-136 | The keys are exactly the materials in the input, and each value is the sum of that material's amounts. The branch that treats a 0 entry as missing still gives that sum. |
| UpgradeCalculator.AbilityTargets | lib/upgrade-calculator.ts:29-41 | The ability section has at most one target per ability. |
| UpgradeCalculator.RelicTargets | lib/upgrade-calculator.ts:28-65 | The relic section has at most one target per ability, plus weapon mastery and relic trait. |
| UpgradeCalculator.ModTargets | lib/upgrade-calculator.ts:97-109 | A weapon has at most one mod target per mod. |
| UpgradeCalculator.RefinementTargets | lib/upgrade-calculator.ts:113-137 | A refinement gives at most two targets, catalyst and boost. |
| UpgradeCalculator.WeaponTargets | lib/upgrade-calculator.ts:69-137 | A weapon gives at most gear level, enhancement, one target per mod and the two refinement tracks. |
| UpgradeCalculator.ArtifactTargets | lib/upgrade-calculator.ts:141-153 | The artifact section has at most one target per artifact. |
| UpgradeCalculator.MaxTargets | lib/upgrade-calculator.ts:25-156 | No emitted target is already at its target level: each starts strictly below it. |
| UpgradeCalculator.PushAbilityTargets | lib/upgrade-calculator.ts:29-41 | The ability loop appends the ability section to the list. |
| UpgradeCalculator.PushRelicTargets | lib/upgrade-calculator.ts:28-65 | The relic part appends abilities, then weapon mastery, then relic trait, each only if below its maximum. |
| UpgradeCalculator.PushModTargets | lib/upgrade-calculator.ts:97-109 | The mod loop appends one target per mod below its maximum, in list order. |
| UpgradeCalculator.PushRefinementTargets | lib/upgrade-calculator.ts:114-136 | The refinement block appends catalyst, then boost, each only if below its maximum. |
| UpgradeCalculator.PushWeaponTargets | lib/upgrade-calculator.ts:69-137 | One weapon appends gear level, then enhancement, then its mods, then its refinement. |
| UpgradeCalculator.PushWeaponsTargets | lib/upgrade-calculator.ts:68-138 | The weapon loop appends each weapon's targets in weapon-list order. |
| UpgradeCalculator.PushArtifactTargets | lib/upgrade-calculator.ts:141-153 | The artifact loop appends one target per artifact below its maximum, in list order. |
| UpgradeCalculator.GenerateMaxUpgradeTargets | lib/upgrade-calculator.ts:25-156 | The enumerator returns the relic section, then the weapon section, then the artifact section (`MaxTargets`). |
| UpgradeCalculator.AbilityTargetsExactly | lib/upgrade-calculator.ts:29-41 | A target is in the ability section exactly when it is the target of an ability below its maximum, carrying that ability's slot. |
| UpgradeCalculator.ModTargetsExactly | lib/upgrade-calculator.ts:97-109 | A target is among a weapon's mod targets exactly when it is the target of a mod below its maximum, at that mod's position in the full list. |
| UpgradeCalculator.ArtifactTargetsExactly | lib/upgrade-calculator.ts:141-153 | A target is in the artifact section exactly when it is the target of an artifact below its maximum, at that artifact's position in the full list. |
| UpgradeCalculator.WeaponTargetsExactly | lib/upgrade-calculator.ts:69-137 | A weapon's targets are exactly the tracks the per-weapon rules emit. |
| UpgradeCalculator.WeaponsTargetsExactly | lib/upgrade-calculator.ts:68-138 | A target is in the weapon section exactly when some weapon of the list emits it. |
| UpgradeCalculator.MaxTargetsExactly | lib/upgrade-calculator.ts:25-156 | A target is emitted exactly when the reference definition, one case per track below its maximum, holds. |
| UpgradeCalculator.MaxTargetsBelowMax | lib/upgrade-calculator.ts:30-150 | Every target starts strictly below its target level, so no target is empty. The target level is the `MAX_LEVELS` entry of its track. |
| UpgradeCalculator.ModTargetsGated | lib/upgrade-calculator.ts:96-110 | Mod targets exist exactly for a mythic hero's weapons that have mods, one per mod below its maximum. |
| UpgradeCalculator.CatalystTargetsGated | lib/upgrade-calculator.ts:113-124 | Catalyst targets exist exactly for exotic weapons with a refinement whose catalyst is below its maximum. |
| UpgradeCalculator.BoostTargetsGated | lib/upgrade-calculator.ts:113-136 | Boost targets exist exactly for exotic weapons with a refinement whose boost is below its maximum. |
| UpgradeCalculator.MaxTargetsItemIds | lib/upgrade-calculator.ts:29-153 | Relic targets carry no item id. Weapon and artifact targets carry the id of an item of the hero. |
| UpgradeCalculator.AbilityPathIsKey | lib/upgrade-calculator.ts:31-38 | Each of the first three ability slots maps to a cost-table key. |
| UpgradeCalculator.ModPathIsKey | lib/upgrade-calculator.ts:106 | `mod 1` to `mod 3` are cost-table keys. |
| UpgradeCalculator.ArtifactPathIsKey | lib/upgrade-calculator.ts:150 | `artifact 1` to `artifact 4` are cost-table keys. |
| UpgradeCalculator.MaxTargetsPathsAreKeys | lib/upgrade-calculator.ts:29-153 | For a hero within the application's bounds, every target's path is one of the sixteen cost-table keys. |
| UpgradeCalculator.MaxTargetsInOrder | lib/upgrade-calculator.ts:25-156 | The emission order is abilities, then weapon mastery, then relic trait, then all weapon targets, then all artifact targets. |
| UpgradeCalculator.MaxTargetsEmptyIffAtMax | lib/upgrade-calculator.ts:25-156 | The enumerator returns no target exactly when every track the hero offers is at its maximum. |
| UpgradeCalculator.NewHeroTargets | lib/upgrade-calculator.ts:25-156 | A new hero of either rarity gets exactly nine targets, with these paths in order: `signature 1`, `signature 2`, `super`, `weapon mastery`, `relic trait`, then `gear level` and `enhancement` twice. |
| UpgradeCalculator.TargetCosts | lib/upgrade-calculator.ts:166 | A target's lookup returns only table rows on the target's own path, above its current level and at most at its target level. A target whose path is undefined gets no rows. |
| UpgradeCalculator.PlanCosts | lib/upgrade-calculator.ts:164-171 | The plan's rows are all rows of the cost table. |
| UpgradeCalculator.CalculateUpgradePlan | lib/upgrade-calculator.ts:161-180 | The plan returns the targets unchanged. Its rows are the lookups of the targets that did not fail, in target order. Its summary is the totals of those rows. No targets give no rows and an empty summary. |
| UpgradeCalculator.CalculateMaxUpgradePlan | lib/upgrade-calculator.ts:185-188 | The maximum plan is the plan of the hero's maximum targets. |
| UpgradeCalculator.PlanCostsExactly | lib/upgrade-calculator.ts:164-171 | A row is in the plan exactly when it is a table row selected by the range lookup of some target whose lookup did not fail. |
| UpgradeCalculator.PlanSummaryStep | lib/upgrade-calculator.ts:164-173 | A failing target leaves the summary unchanged and the loop continues. Any other target adds its own totals to the summary. |
| UpgradeCalculator.PlanAllFailed | lib/upgrade-calculator.ts:164-173 | When every lookup fails, the plan has no rows and an empty summary. |
| UpgradeCalculator.MaxPlanRowsInRange | lib/upgrade-calculator.ts:185-188 | Every row of a maximum plan belongs to a track of the hero and lies above the track's current level and at most at its maximum. |
| UpgradeCalculator.MaxPlanOfMaxedHero | lib/upgrade-calculator.ts:185-188 | A hero at every maximum gets a plan with no rows and an empty summary. |
| UpgradeCalculator.GroupTargetsByCategory | lib/upgrade-calculator.ts:193-204 | Only categories that occur become keys. Each group is the input filtered by its category, in input order. |
| UpgradeCalculator.TargetsInExactly | lib/upgrade-calculator.ts:193-204 | A group holds exactly the input's targets of its category. |
| UpgradeCalculator.TargetsInConcat | lib/upgrade-calculator.ts:193-204 | Grouping distributes over concatenation, so groups are stable. |
| UpgradeCalculator.GroupsPartition | lib/upgrade-calculator.ts:193-204 | The group sizes add up to the input length, and the groups together hold the input's multiset of targets. |
| UpgradeCalculator.GroupsOfMaxTargets | lib/upgrade-calculator.ts:193-204 | Grouping a hero's maximum targets gives back the relic, weapon and artifact sections. |
| UpgradeCalculator.CalculateUpgradeProgress | lib/upgrade-calculator.ts:209-218 | No targets score 100. The result is non-finite (`None`) exactly when some target level is 0. |
| UpgradeCalculator.ProgressBounds | lib/upgrade-calculator.ts:209-218 | With every level between 0 and its positive target, progress lies in [0, 100], and it is 100 exactly when every target is reached. |
| UpgradeCalculator.MaxTargetsProgress | lib/upgrade-calculator.ts:209-218 | For a hero within bounds, the maximum targets score 100 exactly when the hero has nothing left to upgrade. |

## Left out

- Fetching and caching are I/O over `fetch` and module-level state. This covers `CSV_URLS`, `fetchMaterials`, `fetchUpgradeCosts`, the two caches and `clearCache` (lib/csv-data.ts:4-11, 42-85, 138-144). The cost table is a parameter instead, and a failed load is the `failed` set of `CalculateUpgradePlan`.
- `validateMaterial` and `getAllMaterials` (lib/csv-data.ts:105-119) read the materials CSV, which exists only behind the fetch.
- Levels, amounts and the sums of `calculateTotalMaterials` (lib/csv-data.ts:129) are unbounded integers in the model. JavaScript numbers are IEEE doubles and stay exact only up to 2^53.
- `ParseInt` covers decimal digits only. `Number.parseInt` also reads a `0x` prefix as hexadecimal and loses precision beyond 2^53; neither is modelled.
- `failed` is any set of target positions. In the program, a lookup can fail only until one fetch succeeds (lib/csv-data.ts:67-83). After that the cache serves every lookup, so the failed positions form a prefix of the targets. The model allows any set, which is more general, not less.
- Async/await is not modelled. `calculateUpgradePlan` awaits each lookup in turn, and the model keeps that order.
- `console.error` logging in the catch blocks is not modelled.
- `CalculateUpgradeProgress` computes in exact reals. The program divides in IEEE doubles, so its results can differ in the last bits. A target level of 0 yields `None`; the program gives `Infinity` or `NaN` there.
- A JavaScript `Record` keeps its keys in insertion order; the model's `map` has no key order. The dictionaries of `groupTargetsByCategory` and `calculateTotalMaterials` carry the same entries either way.
- Keys such as `__proto__` or `constructor` are ordinary map keys in the model. In JavaScript they would collide with `Object.prototype` in the `{}` built by `parseCSV`, `calculateTotalMaterials` and `groupTargetsByCategory`.
- The optional `estimatedTime` field of an upgrade plan is never set in the code, so it is not modelled.
- `lib/hero-storage.ts`, the hooks and the UI components are not part of this model. The bounds the UI enforces appear only as the precondition `WithinLimits`: at most three mods, at most four artifacts, abilities from level 1.
- Each entry of `STARTING_LEVELS` also has an `abilities` field. `createNewHero` never reads it; `NewHeroMatchesStartingLevels` relates it to the default relic.
