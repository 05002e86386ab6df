# 7th CPC salary calculator — verified model

This project models the salary logic of a browser calculator for the 7th
Central Pay Commission. The calculator derives a monthly pay breakdown from a
basic pay and a few options:

- Dearness Allowance (DA) at a fixed 42 percent of basic pay.
- House Rent Allowance (HRA) at 24, 16 or 8 percent of basic pay for X, Y or Z
  class cities.
- A flat Transport Allowance (TA) of 3600.
- An optional Non-Practicing Allowance (NPA) of 20 percent of basic pay.
- Other allowances and deductions, giving gross and net salary.

Choosing one of the 14 pay levels fills basic pay with that level's minimum.

Modules:

- `Wrappers` (wrappers.dfy): `Option`.
- `PayLevels` (pay_levels.dfy): the pay-level table, lookup by name, and the
  basic pay that choosing a level produces.
- `Salary` (salary.dfy): the derivation `CalculateSalary` and the
  replace-or-keep rule `Refresh` for the breakdown on display.
- `Calculator` (calculator.dfy): the class `SalaryCalculator`. Its fields are
  the component's state. Its methods are the form's updates, each followed by
  the recomputation.

Numbers are exact rationals (`real`). The outcome of parsing a numeric text
field is an `Option<real>`, where `None` stands for a text that is not a
number (NaN). An empty text parses to 0, so the initial empty basic pay is
`Some(0.0)`.

Other allowances and deductions are not checked for sign. `Number(x) || 0`
replaces only a NaN or a 0 (src/App.tsx:63-64), so negative amounts pass
through unchanged. Gross pay, like net pay, can therefore be negative.
`AmountsPassThrough` states the pass-through, and `GrossMayBeNegative` gives an
input with a negative gross.

Recomputation runs after every update instead of only when an input changed.
`SalaryCalculator.Recalculate` proves that recomputing when no input changed
leaves the state as it was, so the two schedules show the same breakdown.

## Model

| member | source | states |
|---|---|---|
| `PayLevels.Find` | src/App.tsx:127 | indexing the table by a key: nothing is found exactly when no row has that name; otherwise the row found is the first row with that name |
| `PayLevels.Lookup` | src/App.tsx:27-42 | the level table answers a name with nothing exactly when no level has it, and with that very level when one does |
| `PayLevels.LevelNamesDistinct` | src/App.tsx:27-42 | no two of the 14 levels share a name |
| `PayLevels.BandsWellFormed` | src/App.tsx:27-42 | there are 14 levels and each has 0 < min < max |
| `PayLevels.MinimumsIncreasing` | src/App.tsx:27-42 | level minimums strictly increase in table order |
| `PayLevels.MaximumsIncreasing` | src/App.tsx:27-42 | level maximums strictly increase in table order |
| `PayLevels.LookupEveryLevel` | src/App.tsx:27-42 | looking up the name of any row returns that row |
| `PayLevels.SelectedBasicPay` | src/App.tsx:125-130 | choosing a listed level gives that level's minimum as basic pay; any other name keeps the current basic pay |
| `PayLevels.EmptySelectionKeepsBasicPay` | src/App.tsx:128-133 | the empty "Select Pay Level" choice keeps basic pay |
| `Salary.HraRate` | src/App.tsx:53-54 | the HRA rate is positive and at most 24 percent, and is 24 percent for X cities |
| `Salary.Breakdown` | src/App.tsx:47-80 | the breakdown is consistent (gross is the sum of basic, DA, HRA, TA, NPA and other allowances; net is gross less deductions), and gross equals basic × (1.42 + HRA rate + 0.20 if NPA) + 3600 + other allowances |
| `Salary.CalculateSalary` | src/App.tsx:44-81 | a breakdown exists exactly when basic pay parses to a positive number; it is consistent, carries that basic pay, and carries other allowances and deductions coerced to 0 when not a number |
| `Salary.Refresh` | src/App.tsx:46-69 | after a recomputation the shown breakdown is exactly `CalculateSalary` of the inputs when basic pay is accepted, otherwise exactly the previous one |
| `Salary.RejectedBasicPayKeepsBreakdown` | src/App.tsx:45-46 | zero, negative or non-numeric basic pay yields no breakdown and keeps the previous one |
| `Salary.DearnessAllowance` | src/App.tsx:49-50 | DA percentage is 42 and DA is basic × 42/100 |
| `Salary.HouseRentAllowance` | src/App.tsx:53-54 | HRA is basic × 0.24, 0.16 or 0.08 by city, so HRA(X) > HRA(Y) > HRA(Z) > 0 for the same basic pay |
| `Salary.TransportAllowanceIsFlat` | src/App.tsx:57 | TA is 3600 for every basic pay, city and NPA flag |
| `Salary.NonPracticingAllowance` | src/App.tsx:60-67 | NPA is basic × 0.20 when enabled, else 0; enabling it raises gross and net by exactly 0.20 × basic and leaves every other field equal |
| `Salary.AmountsPassThrough` | src/App.tsx:63-64 | other allowances and deductions that are not numbers become 0; numbers are copied unchanged, negatives included |
| `Salary.NetMayBeNegative` | src/App.tsx:67 | net pay is not clamped: deductions above gross give a negative net |
| `Salary.GrossMayBeNegative` | src/App.tsx:63-66 | other allowances are not checked for sign: a large negative amount gives a negative gross |
| `Salary.RefreshIdempotent` | src/App.tsx:83-85 | recomputing twice with the same inputs shows the same breakdown as recomputing once |
| `Salary.Level10MetroScenario` | src/App.tsx:44-80 | basic 56100, X city, no NPA, 0 and 0: DA 23562, HRA 13464, TA 3600, gross = net = 96726 |
| `Salary.Level10LargeCityWithNpaScenario` | src/App.tsx:44-80 | basic 56100, Y city, NPA, 500 other, 1000 deductions: HRA 8976, NPA 11220, gross 103958, net 102958 |
| `Calculator.SalaryCalculator.constructor` | src/App.tsx:19-25 | initial state: no level, basic pay 0 (empty text), city X, no NPA, other allowances and deductions 0, no breakdown |
| `Calculator.SalaryCalculator.Recalculate` | src/App.tsx:83-85 | stores the new breakdown when basic pay is accepted, keeps the old one otherwise, re-establishes the class invariant, and changes nothing when no input changed |
| `Calculator.SalaryCalculator.SetBasicPay` | src/App.tsx:148 | basic pay is replaced, other inputs and the level are kept, and the breakdown is refreshed |
| `Calculator.SalaryCalculator.SetCity` | src/App.tsx:166-170 | the city class is replaced, other inputs are kept, and the breakdown is refreshed |
| `Calculator.SalaryCalculator.SetNPA` | src/App.tsx:179 | the NPA flag is replaced, other inputs are kept, and the breakdown is refreshed |
| `Calculator.SalaryCalculator.SetOtherAllowances` | src/App.tsx:194 | other allowances are replaced, other inputs are kept, and the breakdown is refreshed |
| `Calculator.SalaryCalculator.SetDeductions` | src/App.tsx:207 | deductions are replaced, other inputs are kept, and the breakdown is refreshed |
| `Calculator.SalaryCalculator.SelectLevel` | src/App.tsx:125-130 | the level is always recorded; a listed level sets basic pay to exactly its minimum; any name that is not a table key (such as the empty option) leaves basic pay and the breakdown unchanged |
| `Calculator.Level10Selection` | src/App.tsx:125-130 | choosing Level 10 in a fresh calculator shows gross = net = 96726 |

## Left out

- Rendering, `toFixed(2)` formatting and the conditional display rows: these are presentation only.
- The informational range display for the chosen level: it is not enforced as a bound on basic pay.
- React's hook machinery. The effect is modelled as a recomputation after each update. `Recalculate` shows that recomputing without an input change is a no-op.
- The batching of `setLevel` and `setBasicPay` into one render: each update is atomic in the model.
- IEEE-754 rounding, infinities and `-0` of JavaScript numbers: amounts are exact rationals.
- The text-to-number conversion done by `Number(...)`: the parse outcome is an input (`Option<real>`), and each text field is represented by its parsed value, not its text.
- Level names other than the select's options: `Find` models lookup of the table's own keys. An inherited object property such as "constructor" would make src/App.tsx:129 throw, but the select only sends "" and the 14 level names (src/App.tsx:133-136), so such names cannot arise.
- City values other than X, Y and Z: `City` is a closed enumeration because the form offers only those three, so the undefined HRA rate for another value cannot arise.
- The advertisement widget (src/AdUnit.tsx is not part of this model): it is third-party ad glue that shares no state with the salary logic.
- `Salary.HraRate`: its own contract gives only the bounds and the X rate. The exact rate for each class is stated by `Salary.HouseRentAllowance`.
