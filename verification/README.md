# Valuation calculator: a verified model of its ratio chain

The repository is a small Streamlit page. The user types fifteen raw financial figures for a
company (price, shares outstanding, net income, total equity, sales, cash, debt, EBITDA, FCF,
assets, dividend per share, and four figures that no indicator uses). The page then
shows eleven derived indicators. This project models the page's only computation: the input
normaliser `safe_float`, the parsed-input map `v`, and the hard-coded `results` chain. All of
them are in `valuation_web.py`.

- `wrappers.dfy` (`Wrappers`): `Option`. `None` models Python's `None`, which the parser and
  every guarded indicator return instead of raising.
- `input_parser.dfy` (`InputParser`): `safe_float`. The source makes two `str.replace`
  passes, which `RemoveAll` models, removing every `,` and then every space. Only `,` and
  U+0020 are deleted, anywhere in the text; tabs, newlines and other whitespace are left to
  `float`. The result goes to a number parser. Python's `float` grammar is not modelled: the
  parser is a parameter `parse: string -> Option<real>`, and a rejected text is `None`.
- `input_form.dfy` (`InputForm`): the fifteen `(label, key)` fields, a generic record
  `Form<T>` with one entry per key, and `ParseForm`, which is the map `v`.
- `valuation.dfy` (`Valuation`): the eleven indicators. Market cap is computed first. PE, PB
  and PS are built on market cap, EV is built on market cap, and the three EV ratios are built
  on EV. ROE, ROA and the yield use the raw inputs directly. Every quotient goes through
  `Quotient`, the source's guard `d not in (None, 0)`. `Evaluate` assembles the `results`
  dictionary, and `Entries` gives it in insertion order.
- `scenarios.dfy` (`Scenarios`): the worked example (price 100, one million shares, and so
  on), the zero-equity variant, and the same example typed with thousands separators.

Numbers are exact `real`s. Because every division is checked by Dafny, the fact that
`Valuation.Quotient` and the other members verify is itself the proof that no indicator ever
divides by zero.

## Model

| member | source | states |
|---|---|---|
| InputParser.RemoveAll | valuation_web.py:40 | `str.replace(c, '')`: the result contains no `c` and is no longer than the input |
| InputParser.RemoveAllKeepsOthers | valuation_web.py:40 | every character other than `c` keeps its count, and the length drops by exactly the number of `c`s |
| InputParser.RemoveAllAppend | valuation_web.py:40 | deleting a character distributes over concatenation, so the kept characters keep their order |
| InputParser.RemoveAllAbsent | valuation_web.py:40 | deleting a character that does not occur leaves the text unchanged |
| InputParser.StripSeparators | valuation_web.py:40 | after both replace passes no comma or space remains anywhere in the text, not just at its ends |
| InputParser.StripSeparatorsKeepsOthers | valuation_web.py:40 | non-separator characters keep their counts; the length drops by the number of commas plus spaces |
| InputParser.StripSeparatorsAppend | valuation_web.py:40 | stripping distributes over concatenation, so the other characters keep their relative order |
| InputParser.StripSeparatorsUnit | valuation_web.py:40 | one character is deleted exactly when it is a comma or space |
| InputParser.StripSeparatorsIsFilter | valuation_web.py:40 | the two replace passes together equal the reference filter `Keep`, which keeps every non-separator character in its original order |
| InputParser.StripSeparatorsIdempotent | valuation_web.py:40 | stripping twice gives the same text as stripping once |
| InputParser.StripSeparatorsOfPlain | valuation_web.py:40 | a text without separators reaches the parser unchanged |
| InputParser.StripSeparatorsOfBlank | valuation_web.py:40 | a text made only of separators, or empty, strips to the empty text |
| InputParser.SafeFloat | valuation_web.py:38-42 | `safe_float` is the abstract parser applied to the stripped text, with the bare `except` folded into the parser's `Option` result; deleting any one separator from the raw entry leaves the result unchanged |
| InputParser.StripSeparatorsDropSeparator | valuation_web.py:40 | deleting any one comma or space from a text does not change what stripping leaves |
| InputParser.SafeFloatIgnoresSeparator | valuation_web.py:38-42 | inserting a comma or space anywhere in a raw entry never changes the value `safe_float` returns |
| InputParser.SafeFloatOfStripped | valuation_web.py:38-42 | stripping the raw text beforehand does not change the value `safe_float` returns |
| InputParser.SafeFloatOfBlank | valuation_web.py:38-42 | when the parser rejects the empty text, a blank entry or one of separators only gives `None` instead of raising |
| InputForm.ParseForm | valuation_web.py:44 | every key's parsed value is the `safe_float` reading of that key's own raw text |
| InputForm.FieldsListEveryKeyOnce | valuation_web.py:14-30 | the field list has 15 entries, and each key appears exactly once, so the map `v` is total |
| Valuation.Quotient | valuation_web.py:51-81 | a guarded division is defined exactly when the numerator is present and the divisor is present and non-zero; it is then the unique `q` with `q * d == n` |
| Valuation.MarketCap | valuation_web.py:48-50 | market cap is defined exactly when price and shares are both present (there is no zero check), and then equals their product |
| Valuation.Pe | valuation_web.py:51-53 | PE is defined exactly when price and shares are present and net income is present and non-zero; PE times net income is price times shares |
| Valuation.Pb | valuation_web.py:54-56 | PB is defined exactly when price and shares are present and total equity is non-zero; PB times equity is price times shares |
| Valuation.Ps | valuation_web.py:57-59 | PS is defined exactly when price and shares are present and total sales are non-zero; PS times sales is price times shares |
| Valuation.Ev | valuation_web.py:60-63 | EV is defined exactly when price, shares, debt and cash are all present, whatever their signs; it is price times shares plus debt minus cash |
| Valuation.EvToEbitda | valuation_web.py:64-66 | EV/EBITDA is defined exactly when EV's four operands are present and EBITDA is non-zero; times EBITDA it gives EV |
| Valuation.EvToFcf | valuation_web.py:67-69 | EV/FCF is defined exactly when EV's four operands are present and FCF is non-zero; times FCF it gives EV |
| Valuation.EvToSales | valuation_web.py:70-72 | EV/Sales is defined exactly when EV's four operands are present and sales are non-zero; times sales it gives EV |
| Valuation.Roe | valuation_web.py:73-75 | ROE is defined exactly when net income is present and equity is non-zero; ROE times equity is net income |
| Valuation.Roa | valuation_web.py:76-78 | ROA is defined exactly when net income is present and assets are non-zero; ROA times assets is net income |
| Valuation.DividendYield | valuation_web.py:79-81 | the yield is defined exactly when the dividend per share is present and the price is non-zero; the yield times the price is the dividend |
| Valuation.Evaluate | valuation_web.py:47-81 | the chain's definedness: market cap exists exactly when price and shares do, and then is their product; PE/PB/PS/EV exist only with market cap and the EV ratios only with EV, each also needing its own divisor; ROE, ROA and the yield exist exactly when their raw operands are present and their divisor is non-zero |
| Valuation.EvaluateFields | valuation_web.py:47-81 | each entry of the assembled results is the corresponding indicator function, so the value contracts of `Pe` … `DividendYield` hold of the chain's entries |
| Valuation.RatiosBuiltOnMarketCap | valuation_web.py:51-59 | PE, PB and PS each times its divisor gives the market cap computed first: they are built on that result |
| Valuation.RatiosBuiltOnEv | valuation_web.py:60-72 | EV is the computed market cap plus debt minus cash, and each EV ratio times its divisor gives the computed EV |
| Valuation.Entries | valuation_web.py:47-88 | the results have exactly 11 entries in the fixed order of `IndicatorNames`, market cap first, and each name is paired with the indicator stored under that key (`results.items()`) |
| Valuation.IndicatorNamesDistinct | valuation_web.py:47-81 | the 11 indicator names are pairwise distinct, so no dictionary entry overwrites another |
| Valuation.UnusedInputsIgnored | valuation_web.py:44-81 | book value per share, sales per share, EPS and total dividends have no effect on any result |
| Valuation.ReturnsIgnoreShares | valuation_web.py:73-81 | changing the share count leaves ROE, ROA and the yield unchanged |
| Valuation.NoNetDebtEvIsMarketCap | valuation_web.py:60-72 | when debt equals cash, EV equals market cap and EV/Sales equals PS |
| Valuation.PeTimesRoeIsPb | valuation_web.py:51-75 | when PE and ROE are both defined, PB is defined and equals PE times ROE |
| Scenarios.ExampleReport | valuation_web.py:47-81 | for price 100, 1,000,000 shares, net income 5,000,000, equity 20,000,000, sales 50,000,000 and no debt or cash: market cap 100,000,000, PE 20, PB 5, PS 2, EV 100,000,000, EV/Sales 2, ROE 0.25, and the rest `None` |
| Scenarios.ZeroEquityWithholdsOnlyEquityRatios | valuation_web.py:54-75 | with zero equity, PB and ROE are withheld and every other indicator is unchanged |
| Scenarios.TypedExample | valuation_web.py:38-44 | the example typed as "1,000,000", "20 000 000" and so on parses to the same figures as the plain digits |
| Scenarios.GroupedMillions | valuation_web.py:40 | a number grouped as "d,000,000" or "d 000 000" reaches the parser as "d000000" |

## Left out

- The Streamlit page: page setup, the sidebar text boxes, the results table, the buttons and
  the rerun (`valuation_web.py:7-12, 33-36, 84-89, 104-105`). This is presentation and I/O. The
  raw texts of the boxes are the `Form<string>` argument of `ParseForm`.
- The Excel export through pandas and openpyxl, the file write and read, and the download
  button (`valuation_web.py:92-102`). These are foreign libraries and file I/O.
- The grammar of Python's `float` (signs, exponents, `inf`, `nan`, underscores, trimming of
  other whitespace). It is the parameter `parse`. The lemmas assume of it only what each one
  states, for example that it rejects the empty text.
- IEEE-754 behaviour (rounding, overflow to infinity, NaN passing the `not in (None, 0)`
  guard) and the `f"{val:,.4f}"` display formatting (`valuation_web.py:86, 96`). Values are
  exact reals.
- Valuation.MarketCap: exact real product, without the rounding or overflow of a
  floating-point product.
- Valuation.Quotient: exact real quotient, without floating-point rounding. A NaN or infinite
  operand cannot arise in the model.
- Valuation.Evaluate: apart from market cap, its own contract states when each entry exists but
  not its value. The values are stated on the per-indicator functions (`Pe` … `DividendYield`),
  and `Valuation.EvaluateFields` proves those functions are the entries. Value lemmas that unfold
  the whole chain at once are too costly for the solver.
