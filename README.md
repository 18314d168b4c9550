# Token and cost comparison arithmetic

This project models the arithmetic that the prompt-baking demonstration uses to
compare two ways of giving a model its instructions:

- "traditional": the system prompt is sent with every request;
- "baked": the prompt's behaviour is built into the model, so only the user query is sent.

The arithmetic lives in `utils/helpers.py`. It has three parts:

- a token estimate of one token per four characters;
- a per-token price table for two models;
- a comparison record with per-scenario totals and the savings.

Everything is in the single module `Helpers` (`helpers.dfy`). The source is pure, so the model is pure
functions over datatypes, with lemmas:

- `Scenario`, `Savings` and `Comparison` mirror the keys of the nested dictionary that
  `format_comparison` returns.
- Two of the exceptions the code can raise are kept as values of `Result`:
  - `KeyError` when the token type is neither `"input"` nor `"output"`;
  - `ZeroDivisionError` when the traditional token figure is zero.
- Prices and costs are exact `real`s written as in the source (`0.03 / 1000.0`).
  Python's `int` is unbounded like Dafny's.
- The demonstration run at the bottom of the file compares the prompt's token count plus 50 user-query tokens against 50 tokens,
  over one million requests. It is modelled as `DemoComparison`.

The only pricing is the fixed per-token table. The percentage saving is not
guarded: a zero traditional figure is an error.

## Model

| member | source | states |
|---|---|---|
| Helpers.CountTokens | utils/helpers.py:22-29 | the estimate n is the floor of a quarter of the length: 4n <= length < 4n + 4, never negative |
| Helpers.CountTokensIgnoresModel | utils/helpers.py:22-29 | the model argument has no effect on the estimate |
| Helpers.CountTokensEmpty | utils/helpers.py:29 | the empty text is estimated at 0 tokens |
| Helpers.CountTokensAppend | utils/helpers.py:29 | the estimate of a concatenation is between the sum of the estimates and that sum plus one |
| Helpers.CountTokensFourMore | utils/helpers.py:29 | appending exactly four characters adds exactly one token |
| Helpers.CountTokensMonotone | utils/helpers.py:29 | a text no shorter than another never gets a smaller estimate |
| Helpers.ModelRates | utils/helpers.py:37-42 | every row prices exactly "input" and "output" at a positive rate, and any model other than "gpt-3.5-turbo" gets the "gpt-4" row |
| Helpers.CalculateCost | utils/helpers.py:32-43 | KeyError exactly when the token type is neither "input" nor "output"; otherwise the cost is zero exactly for zero tokens and positive exactly for positive tokens; gpt-4 input costs 3 dollars per 100000 tokens |
| Helpers.CostPerThousandTokens | utils/helpers.py:37-43 | for every token count and model, the cost is the tokens times the table rate: 0.0015 (input) and 0.002 (output) dollars per 1000 tokens for "gpt-3.5-turbo", 0.03 and 0.06 for every other model |
| Helpers.UnknownModelPricedAsGpt4 | utils/helpers.py:42 | a model name outside the table costs the same as "gpt-4" for any tokens and token type |
| Helpers.Gpt35CheaperThanGpt4 | utils/helpers.py:38-39 | for positive tokens, "gpt-3.5-turbo" is strictly cheaper than "gpt-4" for both token types |
| Helpers.CostAdditive | utils/helpers.py:43 | the cost of a + b tokens is the cost of a plus the cost of b |
| Helpers.CostSubtractive | utils/helpers.py:43 | the cost of a - b tokens is the cost of a minus the cost of b |
| Helpers.CostMonotone | utils/helpers.py:43 | a <= b exactly when the cost of a is at most the cost of b |
| Helpers.InputCost | utils/helpers.py:51-52 | the cost the record uses is the successful result of the default gpt-4 input pricing |
| Helpers.BuildScenario | utils/helpers.py:59-68 | a scenario keeps its tokens per request, its total is tokens times requests, and its cost is the gpt-4 input cost of that total |
| Helpers.ScenarioCostIsSumOfRequests | utils/helpers.py:51-52 | charging a scenario's total tokens at once costs the same as charging each of its requests separately and adding the costs |
| Helpers.SavingsPercent | utils/helpers.py:55 | the percentage times the traditional figure is 100 times the token saving |
| Helpers.FormatComparison | utils/helpers.py:46-75 | ZeroDivisionError exactly when the traditional figure is 0; otherwise both scenarios are built from their figures, the token saving is traditional minus baked, the cost saving is the difference of the scenario costs, the annual figure is 12 times it, and the percentage is the token saving as a percentage of the traditional figure |
| Helpers.SavedCostIsCostOfSavedTokens | utils/helpers.py:51-56 | the cost saving equals the cost of the saved tokens over all requests |
| Helpers.SavingNonNegativeIff | utils/helpers.py:51-56 | over a positive number of requests, the cost saving is non-negative exactly when baked <= traditional |
| Helpers.FullSavingIffBakedIsZero | utils/helpers.py:54-55 | the percentage saving is exactly 100 exactly when the baked figure is 0 |
| Helpers.PercentWithinBounds | utils/helpers.py:54-55 | with 0 <= baked <= traditional the percentage saving is between 0 and 100 |
| Helpers.PercentMonotoneInTraditional | utils/helpers.py:54-55 | with a fixed non-negative baked figure, a larger traditional figure never lowers the percentage saving |
| Helpers.DemoComparison | utils/helpers.py:174-183 | the demonstration's comparison always succeeds and its token saving per request is the prompt's token estimate |
| Helpers.DemoSavings | utils/helpers.py:174-183 | in the demonstration each prompt token saves 30 dollars per million requests and 360 dollars a year, and the percentage saving is in [0, 100) |

## Left out

- `load_system_prompt` and `save_metrics`: file reading, directory creation and JSON writing are I/O. The demonstration's prompt is a parameter of `DemoComparison`.
- `print_comparison_table` and `display_response`: console output only.
- `Timer`: it reads the wall clock, so it has no deterministic contract.
- `get_sample_queries`: a constant list of strings with no logic.
- `load_dotenv()` at import time: environment side effects.
- Floating-point rounding: rates such as `0.03 / 1000` and every cost are exact reals. Python floats would round them, so the equalities proved here hold for the exact values, not bit for bit.
- The tokens passed to `calculate_cost` are any Python `int`. The model does the same and has no non-negativity requirement. Cost properties that need signs state them as preconditions of the lemmas.
- Helpers.CalculateCost: does not model the float-range `OverflowError` of `tokens * rate` (utils/helpers.py:43). Python converts the int to a float there, so token totals above about 1.8e308 raise. The model returns `Ok` for them, and `FormatComparison` does too.
