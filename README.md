# Investment projection engine, in Dafny

This project models the engine of a personal-finance projection written in
Python (`helper.py` and the first copy of `invest.py`). The engine takes a
portfolio of accounts: cash ISA, savings, current account, pension, premium
bonds, and a list of dividend-paying stock lots. It runs the following years,
and each year it:

- pays dividends on the stock lots against a shared 500 allowance;
- draws a fixed 45,000 from the accounts in the fixed order of invest.py:131;
- grows every account by its yield, with the premium bonds capped at 50,000
  and the excess returned as overflow;
- charges 8,000 every fifth year;
- records the year's net worth.

The same files also hold a capital-gains calculator with a 3,000 allowance
and a UK income-tax and National Insurance calculator.

Modules, one file each:

- `Basics` (`basics.dfy`): option values, the tax bracket, and min, max and sum over exact reals.
- `Holdings` (`holdings.dfy`): holdings, assets and the portfolio. The portfolio
  is an insertion-ordered sequence of key/asset entries, as a Python dict is
  ordered. A lookup finds the first entry with the key, or fails as a KeyError does.
- `Withdrawal` (`withdrawal.dfy`): `PortfolioManager.withdraw`, the withdrawal waterfall.
- `CapitalGains` (`capital_gains.dfy`): the `CapitalGainsTax` class.
- `Dividends` (`dividends.dfy`): the `CalculateDiv` class and its pass over the lots.
- `IncomeTax` (`income_tax.dfy`): `tax_with_ni`.
- `Growth` (`growth.dfy`): `convert_yield`, `calc_prem_bonds` and the growth loop of `loop`.
- `Simulation` (`simulation.dfy`): the `InvestmentAppreciation` class, with its
  set-up and its 19-year `loop`.

Each class whose fields the Python updates in place is a Dafny `class`.
Each loop is a `while` loop, proved equal to a recursive specification
function, and the properties are lemmas about those functions. A withdrawal is
proved equal to an independent reference: a plain waterfall over the amounts
of the listed accounts. Income tax is proved equal to a band-by-band sum.

Money is exact `real`. Python's `round(…, 2)` is not modelled. A yield given as
the text "p%" is the value `Percent(p)`; any other yield is `Flat(amount)`,
which `convert_yield` hands back unchanged. Yield text without a '%' is not modelled (see below).

Behaviour of the code worth knowing:

- Two capital-gains calls of 2,000 in the 'higher' bracket return 2,000 and then 3,760.
- The yearly withdrawal is a fixed 45,000, not the `money_needed` given to the constructor.
- `loop` never uses the capital-gains calculator.
- The net pay that `tax_with_ni` computes each year is discarded: invest.py:160 resets it to 0.
- An accumulating lot with a 0% yield, alone in a pass and so seeing the full 500 allowance, is still credited 168.75 in the 'higher' bracket.
- The year's income adds rental income and the state pension to the salary.

`invest.py` imports these helpers from a `tax` module, which is not part of
this model. The definitions in `helper.py` are used instead.

## Model

| member | source | states |
|---|---|---|
| Holdings.Find | helper.py:16 | a lookup finds the first entry with the key, or reports that no entry has it (the KeyError) |
| Withdrawal.DrainValue | helper.py:23-37 | a holding meets what it can of the need: what the holding loses is what the need falls by, and either the holding is emptied or the need is met |
| Withdrawal.PortfolioManager.constructor | helper.py:6-7 | the manager holds the given portfolio |
| Withdrawal.PortfolioManager.Withdraw | helper.py:9-41 | the portfolio kept and returned is the specification `WithdrawFrom` of the old one; a missing key stops the loop with the KeyError and the holdings drawn so far |
| Withdrawal.PortfolioManager.DrawLots | helper.py:20-28 | the inner loop drains the lots in list order until the need is met, as `DrainLotsFrom` specifies |
| Withdrawal.DrainLotsFrom | helper.py:20-28 | draining lots from index k keeps their number, and a need of at most 0 draws nothing |
| Withdrawal.DrainLotsEmpties | helper.py:20-28 | the lots before k are untouched, and a need still unmet at the end has emptied every lot from k on |
| Withdrawal.DrainAsset | helper.py:19-37 | a single holding becomes max(0, value - need) and the need max(0, need - value); a list keeps its length, and a need left unmet means every lot is empty |
| Withdrawal.WithdrawFrom | helper.py:13-39 | the loop keeps the number of entries, an amount of at most 0 changes nothing, and a KeyError names a key of the remaining order |
| Withdrawal.DrainLotsKeepShape | helper.py:20-28 | draining lots changes only their values |
| Withdrawal.DrainAssetKeepsShape | helper.py:19-37 | draining an asset keeps its shape: a single holding stays single, a list keeps its length, and only values change |
| Withdrawal.DrainKeepsOutline | helper.py:16-37 | draining one entry changes values only, so no later lookup changes |
| Withdrawal.WithdrawStep | helper.py:13-39 | one pass of the while loop on a present key drains that entry and continues from the next key, with every lookup unchanged |
| Withdrawal.WithdrawKeepsOutline | helper.py:13-39 | a withdrawal changes values only: the keys, their order and every asset's shape stay |
| Withdrawal.WaterfallConcat | helper.py:13-39 | draining two runs of amounts one after the other is draining their concatenation |
| Withdrawal.DrainLotsIsWaterfall | helper.py:20-28 | draining the lots does to their values exactly what the reference waterfall does |
| Withdrawal.DrainAssetIsWaterfall | helper.py:19-37 | draining any asset does to its values exactly what the reference waterfall does |
| Withdrawal.ListedFrame | helper.py:16 | the listed amounts depend only on the entries the order names |
| Withdrawal.WithdrawLeavesUnlisted | helper.py:13-39 | entries whose key is not named in the rest of the order are untouched |
| Withdrawal.WithdrawFindsEveryKey | helper.py:16 | when every key of the order is present, no KeyError is raised |
| Withdrawal.WithdrawIsWaterfall | helper.py:13-39 | with distinct, present keys, the loop does to the listed amounts exactly what the reference waterfall does, including the unmet need |
| Withdrawal.WaterfallTakesMin | helper.py:13-39 | the waterfall takes exactly min(need, total) and leaves max(0, need - total) unmet |
| Withdrawal.WaterfallInOrder | helper.py:13-39 | no amount grows or turns negative; an amount is drawn on only once every earlier one is empty, and at most one is partly drawn |
| Withdrawal.WaterfallExhausts | helper.py:13-39 | a need of at least the total empties every amount |
| Withdrawal.WithdrawTransfers | helper.py:9-41 | the whole withdrawal, seen through the listed amounts, is the reference waterfall and raises nothing |
| Withdrawal.WithdrawTakesMin | helper.py:9-41 | the listed holdings fall in total by exactly min(amount, their total); an amount beyond it empties all of them without error |
| Withdrawal.WithdrawDrainsInOrder | helper.py:13-39 | holdings and lots are drained strictly in order: none grows or goes negative, one is reduced only after all earlier ones are empty, and at most one is partly drained |
| Withdrawal.WithdrawFrame | helper.py:13-37 | assets not in the order are untouched, keys and shapes stay, and an amount of at most 0 changes nothing |
| CapitalGains.KeptShare | helper.py:60-63 | 0.76 of the excess is kept in the 'higher' bracket, 0.82 in any other |
| CapitalGains.ChargeGain | helper.py:52-63 | below the allowance the gain comes back unchanged and is added to the total; at or above it the total is reset to exactly 3,000 and the return is (total - 3,000) * 0.76 + 3,000 in the 'higher' bracket, * 0.82 in any other, so between 3,000 and the untaxed total |
| CapitalGains.CapitalGainsTax.constructor | helper.py:45-50 | a new calculator starts at a 0 total with a 3,000 allowance |
| CapitalGains.CapitalGainsTax.ApplyGain | helper.py:52-63 | a call returns what `ChargeGain` specifies and leaves its running total, which never exceeds the allowance |
| CapitalGains.TwoGainsExample | helper.py:66-70 | two gains of 2,000 in the 'higher' bracket return 2,000 and then 3,760, leaving the total at 3,000 |
| CapitalGains.BelowAllowanceUntaxed | helper.py:54-56 | while the running total stays below 3,000, every gain comes back unchanged and the total is the sum of the gains so far |
| CapitalGains.RunningNeverAboveAllowance | helper.py:57-63 | over any run of calls the total never exceeds 3,000, and it is exactly 3,000 after a taxed call |
| Dividends.AfterTaxShare | helper.py:98-103 | 0.6625 of a dividend is kept in the 'higher' bracket and 0.9125 in the others; 'additional' is excluded |
| Dividends.GrossSign | helper.py:84-93 | a non-negative lot at a non-negative yield earns a non-negative dividend, and a 0% yield or an empty lot earns nothing |
| Dividends.StepCreditsOnce | helper.py:93-111 | one lot's step appends exactly one value; its credit goes either into the lot's value (accumulating) or into the payout (otherwise), never both; the allowance stays at least 0, and never grows while the gross dividend and the allowance are non-negative |
| Dividends.PassFrom | helper.py:91-111 | the pass records exactly one new value per lot |
| Dividends.Commit | helper.py:113-114 | each lot takes its new value and nothing else about it changes |
| Dividends.CalculateDiv.constructor | helper.py:75-81 | a calculator starts with a 500 allowance and nothing paid out |
| Dividends.CalculateDiv.CalcDividend | helper.py:88-115 | the lots take the values of one full pass, written back only afterwards, and the allowance and payout are those the pass leaves; 'additional' raises at the first lot and changes nothing |
| Dividends.CalculateDiv.RunPass | helper.py:90-111 | the first loop computes the pass `PassFrom` specifies |
| Dividends.CalculateDiv.CommitValues | helper.py:113-114 | the second loop writes every new value into its lot |
| Dividends.StepIsLot | helper.py:93-111 | one lot's step appends that lot's new value, hands the next lot its allowance, and adds the lot's payout |
| Dividends.PassFromLotByLot | helper.py:91-111 | from lot k on, each lot's value, the final allowance and the payout are the lot-by-lot closed forms |
| Dividends.PassEffect | helper.py:104-114 | the number of lots is unchanged; a non-accumulating lot keeps its value and pays out its credit; an accumulating lot grows by exactly its credit and pays nothing |
| Dividends.AllowanceShrinks | helper.py:80-111 | the allowance starts at 500 and, while gross dividends are non-negative, never rises from one lot to the next and never drops below 0 |
| Dividends.CreditsConserved | helper.py:104-111 | every credit lands in exactly one place: lot values plus payout grow by the sum of all credits |
| Dividends.ZeroYieldLotCredited | helper.py:96-105 | a 0% accumulating lot alone in a 'higher' pass, seeing the full 500 allowance, still grows by 168.75 |
| IncomeTax.PersonalAllowance | helper.py:131-133 | the allowance is 12,570 up to 100,000, tapers by half the excess above, and is 0 from 125,140 |
| IncomeTax.IncomeTaxDue | helper.py:136-145 | tax is non-negative, and 0 on an income within the allowance |
| IncomeTax.NationalInsurance | helper.py:149-155 | National Insurance is non-negative, and 0 up to 12,570 |
| IncomeTax.TaxWithNi | helper.py:125-165 | net pay is income less tax and National Insurance, both non-negative; an income of at most 12,570 pays neither |
| IncomeTax.TaxIsBandSum | helper.py:136-155 | the top-down computation charges each band exactly its rate on the slice of income within it |
| IncomeTax.TaxMonotone | helper.py:131-155 | a higher income never pays less tax or National Insurance |
| IncomeTax.TaperKeepsFortyEight | helper.py:131-158 | in the taper, 10,000 more income takes home exactly 4,800 more |
| IncomeTax.NetPayMonotone | helper.py:125-165 | a higher income never takes home less, even in the allowance taper |
| IncomeTax.NetPayNonNegative | helper.py:158 | a non-negative income never has a negative net pay |
| IncomeTax.ExampleAboveTaper | helper.py:125-165 | an income of 150,000 pays 51,189 tax and 5,010.60 National Insurance |
| Growth.ConvertYield | invest.py:66-75 | a flat yield is returned as it is; a non-negative "p%" yield on a non-negative value gives a non-negative growth |
| Growth.ConvertYieldIsGross | invest.py:69-72 | growth reads a "p%" yield exactly as the dividend pass reads it |
| Growth.CalcPremBonds | invest.py:78-101 | accumulating, the new value is min(old + gain, ceiling), the overflow is max(0, old + gain - ceiling), and together they are old + gain; otherwise the value stays and the whole gain is returned; only the value ever changes |
| Growth.BondOverflowExample | invest.py:86-93 | 49,000 at 3.5% fills to 50,000 with 715 overflow |
| Growth.GrowEntry | invest.py:166-179 | growing an entry keeps its key and its shape |
| Growth.GrowFrom | invest.py:163-179 | the growth loop from entry k keeps the number of entries |
| Growth.GrowKeepsOutline | invest.py:163-179 | the growth loop changes values only |
| Growth.Grow | invest.py:163-179 | a year's growth keeps the keys and shapes |
| Growth.GrowFromEntryWise | invest.py:163-179 | the growth loop grows every entry on its own and sums the overflow in the portfolio's order |
| Growth.GrowthEffect | invest.py:163-179 | the premium bonds become min(value + gain, 50,000), the dividend lots are untouched, and every other account gains its yield, tax-free or not |
| Growth.BondsCapped | invest.py:166-169 | after growth the premium bonds never exceed 50,000 |
| Simulation.SalarySchedule | invest.py:37-42 | a single salary becomes 20 copies of itself, and a list is kept as it is |
| Simulation.DividendYear | invest.py:144-145 | the year's dividend pass gives one new value per lot |
| Simulation.AfterDividends | invest.py:144-145 | the dividend pass changes lot values only, so the portfolio stays ready for the year |
| Simulation.YearStep | invest.py:136-196 | a year changes values only and leaves a portfolio ready for the next year |
| Simulation.RunFromStep | invest.py:134-196 | a KeyError ends the run; otherwise the year's entry is appended and the next year starts from the year's portfolio |
| Simulation.RunAdvance | invest.py:134-196 | after `Year`, the run from year i is either over or is the run from year i + 1 |
| Simulation.InvestmentAppreciation.constructor | invest.py:12-63 | owned properties give rent and value; the salary schedule is built; the seed net worth is owned property value plus all other assets plus the portfolio total |
| Simulation.InvestmentAppreciation.PortfolioValue | invest.py:53-58 | the portfolio's worth, with the dividend lots summed |
| Simulation.InvestmentAppreciation.GrowPortfolio | invest.py:163-179 | the growth loop leaves the portfolio and overflow that `Grow` specifies |
| Simulation.InvestmentAppreciation.GrowOne | invest.py:166-179 | one entry grows as `GrowEntry` specifies, on both the tax-free and the taxed branch |
| Simulation.InvestmentAppreciation.Year | invest.py:136-196 | one year leaves the portfolio that `YearStep` specifies and appends its entry, or stops on the KeyError with the series unchanged |
| Simulation.InvestmentAppreciation.NetWorthThisYear | invest.py:181-194 | the entry is the gathered amount, less the periodic cost, plus the portfolio, the other assets, the year's income and the property value |
| Simulation.InvestmentAppreciation.PayDividends | invest.py:144-145 | the object's own lots take the pass's new values, and the payout is returned |
| Simulation.InvestmentAppreciation.Draw | invest.py:155-156 | a fixed 45,000 is drawn in the fixed order from the object's own portfolio |
| Simulation.InvestmentAppreciation.Loop | invest.py:119-198 | the series returned and kept, the final portfolio and any KeyError are those of the specified run from year 1 |
| Simulation.RunKeepsSeries | invest.py:134-198 | a run keeps the entries it started with, and adds one per year up to 19 exactly when no year raised |
| Simulation.RunLength | invest.py:134-198 | a run starts with the seed and has exactly 20 entries exactly when it completes |
| Simulation.RunsAgree | invest.py:134-196 | two year functions that agree from year i on give the same run |
| Simulation.SalaryHeadUnused | invest.py:139-142 | the salary schedule's first entry never affects the run |
| Simulation.RunWithCompletes | invest.py:134-196 | a run whose every year completes and keeps a property never raises |
| Simulation.YearCompletes | invest.py:155-156 | with every account of the order present, a year raises nothing and keeps them all present |
| Simulation.RunCompletes | invest.py:134-198 | with every account of the order present, no year raises and the run has its full length |
| Holdings.TotalNonNegative | invest.py:53-58 | a portfolio of non-negative holdings, the dividend lots summed, is worth at least 0 |
| Simulation.SalaryPaid | invest.py:139-142 | a single salary is paid in every year of the run; a list pays nothing once it runs out |
| Simulation.CostEveryFifthYear | invest.py:182-183 | the cost recurs every five years and is either 8,000 or nothing |
| Simulation.SetUpNonNegative | invest.py:26-50 | non-negative rents and values give non-negative rental income, property value and other assets |
| Simulation.YearNetWorthTracksPortfolio | invest.py:181-194 | two outcomes of the same year differ in their entry by exactly their difference in portfolio worth plus overflow |
| Simulation.CostYears | invest.py:182-183 | among years 1 to 19 the 8,000 cost falls in exactly years 5, 10 and 15 |
| Simulation.UnownedPropertyIgnored | invest.py:26-31 | a property not owned adds neither rent nor value |
| Simulation.OtherOwnedIgnored | invest.py:50 | the `Owned` flag of an other asset never affects the total |

## Left out

- Python's `round(…, 2)`: all amounts are exact reals.
- Parsing "p%" yield text with `float` (invest.py:69-71, helper.py:84-86): yields are already parsed into `Percent`/`Flat`.
- Growth.ConvertYield: the result is not rounded to two places.
- IncomeTax.TaxWithNi: tax, National Insurance and net pay are not rounded to two places.
- `main()`, its sample data, the sample portfolio at helper.py:118-124, and the commented-out example: these are demonstration and output only.
- Plotting and the matplotlib, pandas, numpy and time imports: these are visualisation and I/O.
- The inflation discount applied after the run (invest.py:234-235): it is floating-point exponentiation outside the engine.
- `property(i)` (invest.py:112-117) and `convert_str_float` (invest.py:103-110): neither is called anywhere.
- The `inflation` and `rental_income_end` fields: the engine never reads them.
- The second concatenated copy of `invest.py` (from line 250): it repeats the first copy.
- The `tax` module that `invest.py` imports is not part of this model; `helper.py`'s definitions stand in for it.
- Dividends.AfterTaxShare: the 'additional' bracket has no rate. `CalcDividend` returns the UnboundLocalError the source raises at the first lot as an error value.
- Growth.CalcPremBonds: this is a function that returns the updated holding, not a mutation of the dict in place; the caller writes the holding back, as invest.py:169 does.
- Holdings are values, so aliasing is not modelled. The manager and the dividend calculator work on the object's own portfolio, and the object takes their result back.
- Dividends.CalculateDiv.CalcDividend: requires the dividend key to hold a list of "p%" lots. Otherwise the source raises KeyError, TypeError or AttributeError; those crash paths are not modelled.
- Simulation.InvestmentAppreciation.Loop: requires every portfolio key to have the shape the loop indexes, plus a ready dividend list. Other shapes raise TypeError or KeyError in the source; those crash paths are not modelled.
- Simulation.InvestmentAppreciation.constructor: requires the portfolio shape that the Python summation reads without a TypeError.
- Python dict keys are unique, but a sequence of entries could repeat a key. Lookups take the first entry with the key, which is what a dict would give.
- Yield text without a '%' (invest.py:66-75): `convert_yield` returns the text itself, and the `+=` at invest.py:176 and 179 then raises TypeError; the dividend pass at helper.py:85 would read such text as p / 100. The model has no such yield: every yield is `Percent` or `Flat`.
- CapitalGains.CapitalGainsTax.constructor and Dividends.CalculateDiv.constructor: the bracket must be given; the source defaults it to 'higher' (helper.py:45, 75), CalculateDiv's one caller passes 'higher' (invest.py:144), and nothing in the engine constructs CapitalGainsTax.
- The string comparison `tax_bracket.lower() == 'higher'` is the enumeration `Bracket`: Higher, Additional, and Basic for any other text.
