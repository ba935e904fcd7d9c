# Credit-card reward engine, modelled in Dafny

This project models the reward engine of a Streamlit credit-card optimiser. The
engine takes a catalog of cards and a user's monthly spending by category. From
those it computes:

- each card's monthly reward at the best tier the spending reaches;
- the special reward rules of a handful of cards;
- the reward of splitting the spending between two cards;
- a ranking of the best cards and of the best pairs.

The repository holds several generations of this engine side by side. Each
generation is one Dafny module, so that each is modelled as it is written.

| module | file | models |
|---|---|---|
| `Common` | common.dfy | optional values; Python's ordered dicts as sequences of entries with `get`/assignment; sums; `strip`, `lower`, `title`, substring search and Python's string order |
| `CardModel` | card_model.dfy | `models/credit_card_model.py`: the records, `UserSpending.total`/`to_dict`, the `__post_init__` checks and `validate_credit_card_data` over loaded tables |
| `CardValidator` | card_validator.dfy | `services/data/card_validator.py` |
| `CardCategories` | categories.dfy | `get_card_categories` of `data_loader.py` (comma split with a `['General']` default) |
| `Helpers`, `RateText` | helpers.dfy, rate_text.dfy | `utils/helpers.py`: rate parsing, percentage difference, spending validation, name sanitising, annual benefit |
| `CardLoader` | card_loader.dfy | `services/data/card_loader.py`: the lookup tables (grouping, NaN normalised to None) and tier selection |
| `DataLoaderService` | data_loader_service.dfy | `services/data_loader.py`: tier filter and the `idxmax` tier selection |
| `PolicyTypes`, `BonusSplit` | policy_types.dfy, bonus_split.dfy | shared pieces of the policies: breakdown lines, and spending down a bonus allowance over a list of categories |
| `UobLadys`, `UobVisaSignature`, `MilesBonusCap`, `TrustCashback`, `DbsYuu` | one file each | the five files under `components/calculations/`; `components/card_calculation_utils.py` holds the same Lady's map (lines 2-8) and the same four reward functions (Lady's 10-53, Trust 55-102, bonus-cap miles 104-175, Visa Signature 177-236), differing only in layout, signatures and docstrings, and is modelled by the same members |
| `Ranking`, `Pairs` | ranking.dfy, pairs.dfy | Python's stable `sorted(..., reverse=True)`, slicing, and the unordered-pair enumeration `i < j` |
| `RewardsCalculator` | rewards_calculator.dfy | `services/rewards/calculator.py`: per-category rewards, caps, cap groups, best cards |
| `UobLadysOptimizer` | uob_ladys_optimizer.dfy | `services/rewards/uob_ladys_optimizer.py` |
| `CombinationOptimizer` | combination_optimizer.dfy | `services/rewards/combination_optimizer.py`: winner-takes-all allocation and the pair search |
| `LegacyCalculations` | legacy_calculations.dfy | `calculations.py`: the Lady's rule, capped card details, the greedy two-card split with cap spill-over, the top-5 pair search |
| `ServiceCalculations` | service_calculations.dfy | `services/calculations.py` |

The model follows these conventions:

- Money, rates and spending are `real`, with exact arithmetic.
- NaN and `None` cells are `Option` values.
- An exception the source raises is an `Err` result.
- The catalog is a record of row sequences, and every pandas lookup is a filter over those rows.
- Code that loops and accumulates is a `method` with a `while` loop. Each such method is proved equal to a function, and the lemmas state what the source promises about that function.
- The policies keep their breakdowns as records, not formatted strings.

## Model

| member | source | states |
|---|---|---|
| Common.Get | components/calculations/dbs_yuu_allocation.py:7 | `d.get(k, 0)`: a key absent from the dict reads as 0 (GetAt: a present key reads its own amount) |
| Common.Put | components/calculations/dbs_yuu_allocation.py:22 | `d[k] = v` on an ordered dict: an existing key keeps its place, a new key is appended at the end, nothing else moves |
| Common.PutGet | components/calculations/dbs_yuu_allocation.py:22 | after `d[k] = v`, reading `k` gives `v` and every other key reads as before |
| Common.PutDistinct | components/calculations/dbs_yuu_allocation.py:22 | assignment keeps dict keys distinct |
| Common.Strip | utils/helpers.py:44 | `str.strip()`: the result neither starts nor ends with whitespace and is no longer than the text |
| Common.StripSlice | utils/helpers.py:44 | the stripped text is a slice of the original and everything cut off around it is whitespace |
| Common.StripUnchanged | utils/helpers.py:155 | a text without surrounding whitespace is left as it is by `strip()` |
| Common.StrBeforeIrreflexive | calculations.py:343-344 | Python's string `<`, by which pandas sorts group keys, is irreflexive |
| Common.StrBeforeTransitive | calculations.py:343-344 | Python's string `<` is transitive |
| Common.StrBeforeTotal | calculations.py:343-344 | of two different strings one comes first under Python's `<` |
| Common.Lower | services/rewards/calculator.py:92 | `str.lower()`: same length, each character lower-cased |
| CardModel.NewCreditCard | models/credit_card_model.py:12-21 | constructing a card succeeds exactly when the card type is 'Miles' or 'Cashback', and then holds the given fields |
| CardModel.NewCategoryRate | models/credit_card_model.py:30-44 | constructing a rate succeeds exactly when the rate type is known and a truthy cap type is known; an unknown rate type is the error raised first |
| CardModel.TotalNonNegative | models/credit_card_model.py:67-74 | the `total` property of non-negative spends is non-negative |
| CardModel.ToDict | models/credit_card_model.py:76-92 | `to_dict()` lists the thirteen categories with their amounts in field order, then 'total' with the sum |
| CardModel.ToDictDistinct | models/credit_card_model.py:76-92 | the dict `to_dict()` builds has no repeated key |
| CardModel.ToDictGet | models/credit_card_model.py:76-92 | reading a category of `to_dict()` gives that field, reading 'total' gives the `total` property |
| CardModel.ToDictRoundTrip | models/credit_card_model.py:76-92 | rebuilding a spending object from `to_dict()` gives the same object back |
| CardModel.Attr | services/rewards/calculator.py:92 | `getattr(spending, name, 0.0)`: 'total' is the property, an unknown name is 0 |
| CardModel.AttrField | services/rewards/calculator.py:92 | `getattr` on a category name returns that field |
| CardModel.NewRewardCalculation | models/credit_card_model.py:94-107 | missing details become an empty list; every other field is stored as given |
| CardModel.ValidateCreditCardData | models/credit_card_model.py:120-151 | a passing verdict guarantees the required columns of all four tables, only known card types and rate types, and that every card id of the tiers and category tables is a card id of the cards table; a failing verdict names one of the eight failed checks |
| CardModel.RateTierIdsUnchecked | models/credit_card_model.py:145 | the rate tier ids are collected but never compared: changing them never changes the verdict |
| CardValidator.ValidateCardData | services/data/card_validator.py:15-74 | a missing cards column, an unknown card type or an unknown rate type each make the verdict false |
| CardValidator.ValidatorsAgree | services/data/card_validator.py:15-74 | the data layer's validator and the model module's `validate_credit_card_data` agree on every input |
| CardValidator.FirstMissing | services/data/card_validator.py:93-96 | the first required category, in list order, that the dict lacks; none exactly when all are present |
| CardValidator.FirstBadValue | services/data/card_validator.py:99-106 | the first entry other than 'total', in dict order, that is not a non-negative number, with its reason; none exactly when there is no such entry |
| CardValidator.ValidateSpendingData | services/data/card_validator.py:77-108 | the verdict holds exactly when every category is present and every non-'total' value is a non-negative number; the message is "Data is valid" exactly then, and a missing category is reported before a bad value |
| CardCategories.SplitCount | data_loader.py:16 | `split(',')` yields one more piece than there are commas |
| CardCategories.SplitPieces | data_loader.py:16 | no piece of `split(',')` contains a comma |
| CardCategories.SplitJoin | data_loader.py:16 | joining the pieces with the separator gives the text back |
| CardCategories.StripAll | data_loader.py:16 | each piece is stripped, count and order kept |
| CardCategories.GetCardCategories | data_loader.py:12-17 | a missing, NaN or empty cell gives ['General']; otherwise one stripped entry per comma-separated piece, in order |
| CardCategories.CategoryCount | data_loader.py:12-17 | a non-empty cell lists one category per comma plus one |
| CardCategories.EmptyPieceKept | data_loader.py:16 | two commas in a row leave an empty category in the list |
| Helpers.PercentageDifference | utils/helpers.py:54-68 | 0 against a zero base; otherwise the percentage `r` with `value2 * (1 + r/100) == value1`; equal values differ by 0 |
| Helpers.AnnualBenefit | utils/helpers.py:160-170 | the annual benefit is twelve times the monthly reward |
| Helpers.ValidateSpendingData | utils/helpers.py:71-102 | the helper's check holds exactly when all thirteen categories are present and every value other than 'total' is a non-negative number |
| Helpers.SpendingValidatorsAgree | utils/helpers.py:71-102 | the helper's verdict is the verdict of the data layer's `validate_spending_data` |
| Helpers.RemoveSpecial | utils/helpers.py:154 | `re.sub(r'[^\w\s-]', '', s)` keeps only word characters, whitespace and hyphens, and leaves a text made only of them unchanged |
| Helpers.CollapseSpaces | utils/helpers.py:155 | `re.sub(r'\s+', ' ', s)` is empty exactly when the text is, and starts with whitespace exactly when the text does |
| Helpers.CollapseSpacesSingle | utils/helpers.py:155 | after collapsing, whitespace appears only as single plain spaces |
| Helpers.SanitizeCardName | utils/helpers.py:143-157 | the sanitised name is never longer than the original |
| Helpers.SanitizeShape | utils/helpers.py:143-157 | a sanitised name holds only word characters, hyphens and single spaces, and neither starts nor ends with a space |
| Helpers.SanitizeFixed | utils/helpers.py:143-157 | a name already of that shape is returned unchanged |
| Helpers.SanitizeIdempotent | utils/helpers.py:143-157 | sanitising twice gives the same as sanitising once |
| RateText.FirstMatch | utils/helpers.py:47 | `re.search(r'(\d+(?:\.\d+)?)', s)` finds a match exactly when the text has a digit |
| RateText.ParseRate | utils/helpers.py:30-51 | None exactly for NaN, the empty string or a text without a digit; otherwise the first unsigned decimal number of the text |
| RateText.FirstNumberOfStrip | utils/helpers.py:44-47 | stripping before the search does not change the number found |
| RateText.FirstMatchWhole | utils/helpers.py:47 | digits after text without digits, and not followed by a point and a digit, are matched as a whole number |
| RateText.FirstMatchFraction | utils/helpers.py:47 | digits, a point and digits after text without digits are matched with both parts |
| RateText.MatchAtBounds | utils/helpers.py:47-49 | the fraction digits of a match add less than one to its whole part |
| RateText.ParseRateWhole | utils/helpers.py:30-51 | a whole number after text without digits is parsed back exactly ("5%" gives 5.0) |
| RateText.ParseRateFraction | utils/helpers.py:30-51 | a decimal such as "2.5 mpd" is parsed as its whole part plus its fraction digits over 10^n |
| DataLoaderService.IdxMax | services/data_loader.py:148-150 | `idxmax()` picks the first row with the largest minimum spend |
| DataLoaderService.BestTier | services/data_loader.py:124-152 | no tier exactly when every minimum spend exceeds the total; otherwise a tier of the card whose minimum is met and is the largest met minimum, the first such row on ties |
| DataLoaderService.GetBestTierForSpending | services/data_loader.py:124-152 | the chosen tier is one of the card's rows and its minimum spend is met; none exactly when none of the card's tiers qualifies; no qualifying tier of the card has a higher minimum |
| DataLoaderService.IdxMaxFirst | services/data_loader.py:148-150 | `idxmax` and the card loader's first-row-with-maximum choose the same row |
| DataLoaderService.ServicesAgree | services/data_loader.py:124-152 | the legacy data loader and the card loader choose the same tier for every table and total |
| Common.OrElse | calculations.py:63-64 | a cell's value when it is a number, the default when it is NaN/None |
| Common.Truthy | components/calculations/uob_visa_signature.py:19-22 | `x or default`: the default exactly when the value is None or 0, the value itself otherwise |
| Common.Title | services/rewards/combination_optimizer.py:181 | `str.title()`: same length; each character that follows a letter is lower-cased, every other character upper-cased |
| CardLoader.TiersOf | services/data/card_loader.py:248-262 | `get_card_tiers`: every tier row of the card is in the result and nothing else is, and the result is no longer than the table |
| CardLoader.TiersOfAppend | services/data/card_loader.py:248-262 | selecting from two tables one after the other gives the selection from the first followed by the selection from the second, so the card's rows come in table order, each as often as in the table |
| CardLoader.RatesOf | services/data/card_loader.py:264-278 | `get_reward_rates`: every rate row of the tier is in the result and nothing else is |
| CardLoader.RatesOfAppend | services/data/card_loader.py:264-278 | the selection distributes over concatenated tables, so the tier's rate rows come in table order, each as often as in the table |
| CardLoader.CategoriesOf | services/data/card_loader.py:280-295 | `get_card_categories`: every category listed for the card and only those |
| CardLoader.CardsOfType | services/data/card_loader.py:231-246 | `get_cards_by_type`: every card of that type is in the result and nothing else is |
| CardLoader.CardsOfTypeAppend | services/data/card_loader.py:231-246 | the selection distributes over concatenated tables, so the cards of the type come in table order, each as often as in the table |
| CardLoader.FirstRow | services/data/card_loader.py:341-346 | `query(...).iloc[0]`: the first row with the id; none exactly when no row has it |
| CardLoader.GetCardInfo | services/data/card_loader.py:328-352 | None exactly when no row has the id; otherwise the card built from the first such row, failing exactly when its card type is unknown |
| CardLoader.GetAllCards | services/data/card_loader.py:354-373 | one card per row in order, and the call fails exactly when some row has an unknown card type |
| CardLoader.Qualifying | services/data/card_loader.py:311 | the tiers whose minimum spend the total meets, all of them and only them; empty exactly when none qualifies |
| CardLoader.MaxMinSpend | services/data/card_loader.py:317 | `max()` of the minimum spends: an upper bound that some tier attains |
| CardLoader.FirstWithMinSpend | services/data/card_loader.py:318-319 | the first tier whose minimum spend equals the given value; none exactly when no tier has it |
| CardLoader.FirstQualifying | services/data/card_loader.py:311-319 | looking for a met minimum among the qualifying tiers finds the same row as among all tiers |
| CardLoader.BestTier | services/data/card_loader.py:297-326 | none exactly when every minimum spend exceeds the total; otherwise a qualifying tier whose minimum is the largest met minimum, and the first such row |
| CardLoader.GetBestTierForSpending | services/data/card_loader.py:297-326 | the chosen tier belongs to the card and its minimum is met; none exactly when none of the card's tiers qualifies; no qualifying tier of the card has a higher minimum |
| CardLoader.BestTierFirstOnTie | services/data/card_loader.py:297-326 | on a tie, the chosen tier is the first of the card's tiers (in table order) with that minimum spend |
| CardLoader.BestTierMonotone | services/data/card_loader.py:297-326 | spending more never selects a tier with a lower minimum spend |
| CardLoader.RateInfoOf | services/data/card_loader.py:164-170 | a stored rate keeps category, value and type, and a cap type reading 'nan' becomes missing |
| CardLoader.GroupMapKeys | services/data/card_loader.py:130-135 | the grouped dict has a key exactly for each key occurring in the rows |
| CardLoader.GroupMapValues | services/data/card_loader.py:130-135 | each key of the grouped dict holds the values of its rows, in row order |
| CardLoader.GroupBy | services/data/card_loader.py:130-135 | the append-to-list loop builds exactly the grouped dict |
| CardLoader.LastMapValue | services/data/card_loader.py:118-127 | in a dict filled row by row, the last row with a key decides its value |
| CardLoader.LastWins | services/data/card_loader.py:118-127 | the fill-a-dict loop builds exactly the last-row-wins dict |
| CardLoader.BuildLookupTables | services/data/card_loader.py:103-182 | the five lookup tables: name to id and id to info (last row wins), id to categories, id to tiers and tier to rates (every row, in order) |
| CardLoader.NameTableLastId | services/data/card_loader.py:118 | a card name that appears twice maps to the id of its last row |
| CardLoader.GroupedTiers | services/data/card_loader.py:141-150 | a card's tier list in the lookup table is its tier rows, in table order |
| CardLoader.NormaliseCapType | services/data/card_loader.py:169 | a cap type that reads 'nan' or is missing becomes None, any other is kept |
| PolicyTypes.OtherCatsFacts | components/calculations/miles_with_bonus_cap.py:61-73 | the base-rate loop over the dict: its reward is the sum of its lines, each line skips 'total' and the bonus categories and a zero amount and is at the base rate, and the lines account for all the spend not skipped |
| PolicyTypes.OtherCatsAtBase | components/calculations/uob_visa_signature.py:61-69 | every line of the base-rate loop is at the base rate |
| PolicyTypes.OtherLoop | components/calculations/miles_with_bonus_cap.py:61-73 | the loop computes the reward and lines of the base-rate specification |
| BonusSplit.BonusStepSound | components/calculations/uob_ladys.py:43-55 | one category's bonus and base lines keep the running reward equal to the sum of the lines, each about a category of the group at the bonus or base rate |
| BonusSplit.BonusCatsSound | components/calculations/uob_ladys.py:37-60 | a chosen group's lines add up to its reward, are about its categories with spend, and are at the bonus rate or the base rate |
| BonusSplit.BonusCatsLeft | components/calculations/uob_ladys.py:43-50 | the unused allowance only goes down, never below zero from a non-negative start, and the amount at 4 miles per dollar is exactly what was used up |
| BonusSplit.BonusCatsAmounts | components/calculations/uob_ladys.py:43-44 | with no negative spend, a chosen group's bonus and base lines add up to the spend of its categories |
| BonusSplit.BonusStepLines | components/calculations/uob_ladys.py:43-55 | one category's step adds lines only about that category, whose amounts add up to its spend |
| BonusSplit.BonusCatsPerCategory | components/calculations/uob_ladys.py:43-55 | with no negative spend and distinct categories, the lines about any one category of the group add up to that category's spend |
| BonusSplit.SpendDown | components/calculations/uob_visa_signature.py:44-60 | the spend-down loop computes the reward, lines and allowance left of the specification |
| UobLadys.GroupMapDistinct | components/calculations/uob_ladys.py:3-10 | the five groups of the Lady's map have distinct names |
| UobLadys.GroupSpends | components/calculations/uob_ladys.py:28-29 | `group_spend`: one entry per group in map order, holding the sum of its categories' spend |
| UobLadys.SortedSpends | components/calculations/uob_ladys.py:31-32 | the list sorted by spend is in descending order and holds the same entries |
| UobLadys.TopOfNames | components/calculations/uob_ladys.py:31-32 | exactly `n` groups are chosen, each a group of the map |
| UobLadys.TopOfMost | components/calculations/uob_ladys.py:31-32 | no chosen group has less spend than a group left out |
| UobLadys.TopGroupsChosen | components/calculations/uob_ladys.py:30-32 | exactly one group is chosen, or two for the Solitaire card, all from the map, and none has less spend than a group left out |
| UobLadys.BaseGroup | components/calculations/uob_ladys.py:56-60 | the loop over a group not chosen computes its base-rate specification |
| UobLadys.OneGroup | components/calculations/uob_ladys.py:38-60 | one group of the loop computes its specification and leaves every other group's allowance untouched |
| UobLadys.RunGroups | components/calculations/uob_ladys.py:37-60 | the loop over the groups computes the reward and lines of the specification |
| UobLadys.CalculateUobLadysRewards | components/calculations/uob_ladys.py:12-61 | `calculate_uob_ladys_rewards` computes the reward and breakdown of the specification `LadysRewards` |
| UobLadys.BaseCatsSound | components/calculations/uob_ladys.py:56-60 | a group that was not chosen lists every category with spend at the base rate, and its lines add up to its reward |
| UobLadys.BaseCatsAmounts | components/calculations/uob_ladys.py:56-60 | a group that was not chosen lists all of its spend |
| UobLadys.GroupPartLines | components/calculations/uob_ladys.py:33-60 | a group's lines are about its own categories; only the base rate when not chosen; when chosen, at most `max(0, min(group spend, cap))` at 4 miles per dollar |
| UobLadys.GroupPartAmounts | components/calculations/uob_ladys.py:37-60 | with no negative spend and no negative cap, a group's lines account for its spend |
| UobLadys.GroupsFacts | components/calculations/uob_ladys.py:37-61 | all groups together: reward is the sum of the lines, every line is about a map category with spend, and the lines account for all the map's spend |
| UobLadys.LadysRewardsFacts | components/calculations/uob_ladys.py:12-61 | the reward is the sum of the breakdown; every line is about a category of the group map with non-zero spend, at 4 mpd or the base rate; with no negative spend or cap the lines cover every dollar of the map's categories |
| UobLadys.GroupMapSeparate | components/calculations/uob_ladys.py:3-10 | no category belongs to two groups of the map, and no group lists a category twice |
| UobLadys.GroupsAbout | components/calculations/uob_ladys.py:37-60 | the whole breakdown filtered by one group's categories is what that group listed |
| UobLadys.BaseCatsPerCategory | components/calculations/uob_ladys.py:56-60 | a group that was not chosen lists each of its categories once, for its whole spend |
| UobLadys.LadysRewardsPerGroup | components/calculations/uob_ladys.py:33-60 | per group of the map: a group not chosen earns only the base rate, and a chosen one earns 4 mpd on at most `max(0, min(group spend, cap))` |
| UobLadys.LadysRewardsPerCategory | components/calculations/uob_ladys.py:39-60 | per category of the map, with no negative spend or cap: its bonus part plus its base part is its spend |
| UobVisaSignature.BucketBonus | components/calculations/uob_visa_signature.py:23-25 | a bucket's bonus spend is nothing below the minimum spend, otherwise the spend up to the cap |
| UobVisaSignature.CalculateUobVisaSignatureRewards | components/calculations/uob_visa_signature.py:4-70 | `calculate_uob_visa_signature_rewards` computes the reward and breakdown of the specification `VisaRewards` |
| UobVisaSignature.FcyRunFacts | components/calculations/uob_visa_signature.py:26-38 | the FCY bucket: reward is the sum of its lines, exactly its bonus is at 4 mpd, and its lines cover its spend |
| UobVisaSignature.VisaRewardsSums | components/calculations/uob_visa_signature.py:4-70 | the reward is the sum of the breakdown; with no negative spend or cap the lines cover both buckets and every other category not named 'total' |
| UobVisaSignature.VisaRewardsBonus | components/calculations/uob_visa_signature.py:23-60 | the two buckets are paid independently: the 4 mpd amount is the FCY bonus plus what the non-FCY categories drew, which is between 0 and that bucket's bonus |
| TrustCashback.FirstAbove | components/calculations/trust_cashback.py:6-10 | the first rate above 1% in the tier's table, none exactly when there is none |
| TrustCashback.MinSpendMet | components/calculations/trust_cashback.py:15-17 | the minimum is met exactly when the tier sets none or the spend outside 'total' reaches it |
| TrustCashback.FindHighRate | components/calculations/trust_cashback.py:6-12 | the search loop returns the first rate above 1%, or 5% when there is none |
| TrustCashback.CalculateTrustCashbackRewards | components/calculations/trust_cashback.py:4-55 | `calculate_trust_cashback_rewards` computes the reward and breakdown of the specification `TrustRewards` |
| TrustCashback.TrustLinesShape | components/calculations/trust_cashback.py:21-54 | one line per key other than 'total', zero amounts included, in dict order, for the key's whole amount; the reward is their sum and their amounts add up to the spend outside 'total' |
| TrustCashback.TrustRewardsRates | components/calculations/trust_cashback.py:21-54 | once the minimum is met a category the tier lists earns the high rate and any other 1%; below it every category earns 1% |
| TrustCashback.NonTotalKeys | components/calculations/trust_cashback.py:23 | no line is about the key 'total' |
| MilesBonusCap.FirstListedRate | components/calculations/miles_with_bonus_cap.py:20-24 | the rate of the first bonus category, in list order, that the tier lists; none exactly when it lists none of them |
| MilesBonusCap.Window | components/calculations/miles_with_bonus_cap.py:30 | `bonus_within_cap` is at most the total bonus spend, and is all of it when there is no cap or the cap is not reached |
| MilesBonusCap.FindBonusRate | components/calculations/miles_with_bonus_cap.py:20-26 | the search loop returns the first listed bonus category's rate, or the base rate when none is listed |
| MilesBonusCap.CapCatsStep | components/calculations/miles_with_bonus_cap.py:35-37 | one more bonus category is one more step, and a zero-spend category is skipped |
| MilesBonusCap.CapLoop | components/calculations/miles_with_bonus_cap.py:35-60 | the bonus categories' loop computes the reward and lines of its specification |
| MilesBonusCap.CalculateMilesCardWithBonusCap | components/calculations/miles_with_bonus_cap.py:4-74 | `calculate_miles_card_with_bonus_cap` computes the reward and breakdown of the specification `CapRewards` |
| MilesBonusCap.ScaleBelow | components/calculations/miles_with_bonus_cap.py:39-40 | scaling by `window / total` with `0 < window <= total` keeps a non-negative amount between nothing and itself |
| MilesBonusCap.ScaleReaches | components/calculations/miles_with_bonus_cap.py:39-40 | a scaled amount reaches the window exactly when the amount reaches the total |
| MilesBonusCap.WithinBounds | components/calculations/miles_with_bonus_cap.py:38-43 | with no negative spend a category's bonus part is between nothing and its spend, so its base part is never negative |
| MilesBonusCap.WithinAll | components/calculations/miles_with_bonus_cap.py:38-43 | when the window is the whole bonus spend, every category earns the bonus on all of its spend |
| MilesBonusCap.SumMinBound | components/calculations/miles_with_bonus_cap.py:39 | counting each category only up to the window loses spend exactly when some category is above the window |
| MilesBonusCap.CapWithinTotal | components/calculations/miles_with_bonus_cap.py:30-43 | as written, the bonus amounts never exceed `min(total, cap)`, reach it exactly when no category is above the window, and are the whole spend when the cap is not reached |
| MilesBonusCap.CapFallsShort | components/calculations/miles_with_bonus_cap.py:38-40 | 700, 200 and 100 dollars of bonus spend with a 600 cap earn the bonus on 540 dollars, not 600 |
| MilesBonusCap.CapStepFacts | components/calculations/miles_with_bonus_cap.py:38-60 | one bonus category: its reward is that of its lines, which list all of its spend, with its share of the window at the bonus rate |
| MilesBonusCap.CapCatsFacts | components/calculations/miles_with_bonus_cap.py:34-60 | the bonus categories' lines add up to the reward, list every dollar of the bonus spend, and those at the bonus rate add up to the shares |
| MilesBonusCap.CapRewardsFacts | components/calculations/miles_with_bonus_cap.py:4-74 | the reward is the sum of the breakdown; the breakdown lists every dollar of the bonus categories and of every other category not named 'total'; the amount at the bonus rate is the sum of the shares |
| MilesBonusCap.ShareFillsWindow | components/calculations/miles_with_bonus_cap.py:5-9 | the proportional split of each category's whole spend fills the window exactly: the bonus rate is paid on `min(total, cap)` |
| MilesBonusCap.ShareWithinSpend | components/calculations/miles_with_bonus_cap.py:5-9 | with no negative spend each category's proportional share is between nothing and its spend |
| DbsYuu.AllocateToYuu | components/calculations/dbs_yuu_allocation.py:1-32 | `allocate_to_yuu` computes the two dicts of the specification `Allocate` |
| DbsYuu.AllocateBonus | components/calculations/dbs_yuu_allocation.py:3-12 | the bonus loop computes the bonus allocation of the specification |
| DbsYuu.TopUpYuu | components/calculations/dbs_yuu_allocation.py:14-23 | the top-up loop computes the top-up of the specification |
| DbsYuu.SplitRemainder | components/calculations/dbs_yuu_allocation.py:25-31 | the remainder loop computes the other card's dict of the specification |
| DbsYuu.BonusFromTotals | components/calculations/dbs_yuu_allocation.py:5-12 | the running bonus total stays between zero and the cap, only positive amounts are recorded, and they add up to no more than the running total |
| DbsYuu.BonusFromGet | components/calculations/dbs_yuu_allocation.py:6-10 | no more than a category's own spend is taken from it, and nothing from a category outside the bonus list |
| DbsYuu.BonusFromExact | components/calculations/dbs_yuu_allocation.py:5-12 | with no bonus category listed twice, the recorded amounts add up to exactly the running total |
| DbsYuu.BonusWithinCap | components/calculations/dbs_yuu_allocation.py:3-12 | the bonus phase gives the yuu card no more than the cap in all, in positive amounts |
| DbsYuu.TopUpFromTotal | components/calculations/dbs_yuu_allocation.py:18-23 | the top-up adds exactly the smaller of what is needed and what can be drawn on, greedily in dict order |
| DbsYuu.TopUpSkips | components/calculations/dbs_yuu_allocation.py:19 | the top-up leaves the bonus categories alone |
| DbsYuu.TopUpFromPositive | components/calculations/dbs_yuu_allocation.py:21-22 | the top-up keeps every amount positive |
| DbsYuu.TopUpFromGet | components/calculations/dbs_yuu_allocation.py:19-23 | the top-up adds to a key no more than that key's own spend |
| DbsYuu.RemainderFromGet | components/calculations/dbs_yuu_allocation.py:27-31 | a key gets from the remainder phase what the yuu card does not hold of its spend, when that is positive |
| DbsYuu.TopUpTotal | components/calculations/dbs_yuu_allocation.py:15-23 | the top-up brings the yuu total to the smaller of the minimum spend and what can be drawn on |
| DbsYuu.YuuTotal | components/calculations/dbs_yuu_allocation.py:1-23 | the yuu card holds the bonus allocation, topped up, when it falls short of the minimum spend, by the smaller of the shortfall and the positive spend outside the bonus list |
| DbsYuu.BonusGet | components/calculations/dbs_yuu_allocation.py:6-10 | the bonus phase takes no more than a category's spend and nothing outside the bonus list |
| DbsYuu.YuuConservation | components/calculations/dbs_yuu_allocation.py:1-32 | each non-negative category's spend is split without loss between the two cards, the yuu part between nothing and the whole |
| DbsYuu.YuuPositive | components/calculations/dbs_yuu_allocation.py:8-9 | only positive amounts appear in either card's dict |
| DbsYuu.TopUpDrawsOnTotal | components/calculations/dbs_yuu_allocation.py:18-19 | as written, with 100 of dining and 'total' at 100, the yuu card is credited 100 of 'total' and 200 in all |
| DbsYuu.TopUpRealSpend | components/calculations/dbs_yuu_allocation.py:14-23 | with 'total' passed over too, the top-up never credits 'total' and brings the yuu total to the smaller of the minimum and the real spend it can draw on |
| Ranking.InsertPos | services/rewards/calculator.py:288 | where an element goes in a descending list: after every strictly greater key, before the first key not greater, so ties keep their order |
| Ranking.SortDescSorted | services/rewards/calculator.py:288 | `sorted(..., reverse=True)` gives a list descending by key |
| Ranking.SortDescPermutation | services/rewards/calculator.py:288 | sorting is a permutation of its input |
| Ranking.SortDescStable | services/rewards/calculator.py:288 | sorting is stable: the elements with any one key keep their input order |
| Ranking.Take | services/rewards/calculator.py:298 | `xs[:n]` for `n >= 0`: the first `min(n, len)` elements |
| Ranking.Head | services/calculations.py:159 | `xs[:n]` for any integer `n`: a prefix, and a negative `n` drops that many elements from the end |
| Ranking.HeadOfSorted | services/calculations.py:156-159 | the head of a descending sort is descending, drawn from the input, and no element left out has a greater key than any element kept |
| Ranking.HeadOfSortedHas | services/calculations.py:156-159 | an element is in the head of the sort, or the head is full of elements no smaller than it |
| Pairs.RowUpToFacts | services/rewards/combination_optimizer.py:47-50 | the inner loop meets `(i, k)` for each `k` from `i + 1`, in order |
| Pairs.PairsUpToBounded | services/rewards/combination_optimizer.py:47-50 | every pair met has its first card before its second, both among the cards |
| Pairs.PairsUpToComplete | services/rewards/combination_optimizer.py:47-50 | the loops meet every pair `(a, b)` with `a < b` below the outer index |
| Pairs.PairsUpToIncreasing | services/rewards/combination_optimizer.py:47-50 | the loops meet the pairs in strictly increasing order, so none twice |
| Pairs.AllPairsFacts | services/rewards/combination_optimizer.py:47-50 | every unordered pair of distinct cards is met exactly once, and no card is paired with itself |
| Pairs.AllPairsLength | calculations.py:361-363 | `n` cards make `n * (n - 1) / 2` pairs, so five cards make at most ten |
| RewardsCalculator.CategoryRewardPerDollar | services/rewards/calculator.py:191-197 | a percentage rate earns `spend * rate / 100`, any other rate type `spend * rate * milesRate` |
| RewardsCalculator.CategoryRewardMonotone | services/rewards/calculator.py:191-197 | with a non-negative rate and conversion, more spend never earns less |
| RewardsCalculator.CategoryRewardNonNegative | services/rewards/calculator.py:191-197 | non-negative spend, rate and conversion never earn a negative reward |
| RewardsCalculator.ApplyCap | services/rewards/calculator.py:199-208 | an earned cap gives `min(reward, cap)`; a cap type other than earned or spent leaves the reward unchanged |
| RewardsCalculator.ApplyCapSpent | services/rewards/calculator.py:204-207 | a spent cap earns what `min(spend, cap)` would earn |
| RewardsCalculator.ApplyCapNeverIncreases | services/rewards/calculator.py:199-208 | with a non-negative rate, applying a cap never increases a category's reward |
| RewardsCalculator.PositiveRates | services/rewards/calculator.py:57 | every rate row with a positive rate is in the result and nothing else is, and the result is no longer than the table |
| RewardsCalculator.PositiveRatesAppend | services/rewards/calculator.py:57 | the filter distributes over concatenated tables, so the positive rows keep their table order and multiplicity |
| RewardsCalculator.GroupIndex | services/rewards/calculator.py:77 | the position of the group with the name; none exactly when no group has it |
| RewardsCalculator.PartitionRows | services/rewards/calculator.py:70-81 | the row loop builds the partition of the specification `PartitionOf` |
| RewardsCalculator.PartitionWell | services/rewards/calculator.py:70-81 | rows without a non-blank cap group are uncapped, a group's rows carry its stripped name, and no two groups share a name |
| RewardsCalculator.PartitionKeepsPositive | services/rewards/calculator.py:57-81 | partitioning rows with positive rates leaves only rows with positive rates |
| RewardsCalculator.ProcessUncapped | services/rewards/calculator.py:84-108 | the loop over the uncapped rows computes the specification `UncappedSums` |
| RewardsCalculator.UncappedNoShortfall | services/rewards/calculator.py:99-105 | a per-category cap lowers the reward and the original reward alike, so it never opens a gap between them |
| RewardsCalculator.UncappedLines | services/rewards/calculator.py:94-108 | an uncapped row adds a line only for a category with spend, at a positive rate |
| RewardsCalculator.CapRowLast | services/rewards/calculator.py:121-125 | a group has a cap row exactly when one of its rows has a cap amount, and it is the last such row |
| RewardsCalculator.CategoryRowsUncapped | services/rewards/calculator.py:121-125 | the category rows are the rows without a cap amount, so the cap row's own category earns nothing |
| RewardsCalculator.SplitGroup | services/rewards/calculator.py:118-125 | the loop computes the cap row and the category rows of the specification |
| RewardsCalculator.SumGroup | services/rewards/calculator.py:128-144 | the loop computes the group's rewards dict, sum and lines of the specification `RawGroup` |
| RewardsCalculator.AddGroupRow | services/rewards/calculator.py:129-144 | the loop body for one row is one step of the specification |
| RewardsCalculator.ScaleRewards | services/rewards/calculator.py:160-161 | `group_rewards[category] *= cap_ratio` scales every amount and keeps the keys in order |
| RewardsCalculator.RebuildLines | services/rewards/calculator.py:164-172 | the loop rebuilds the lines from the scaled rewards, as the specification says |
| RewardsCalculator.CapGroupRewards | services/rewards/calculator.py:147-172 | the shared-cap step computes the specification `ApplySharedCap` |
| RewardsCalculator.ProcessGroup | services/rewards/calculator.py:111-178 | one cap group's processing computes the specification `GroupOutcome` |
| RewardsCalculator.GroupOutcomeCap | services/rewards/calculator.py:146-157 | a group never earns more than its sum before the cap; it overflows exactly when it has a cap row and a positive sum above the cap, then earns the cap; without a cap row it earns its sum |
| RewardsCalculator.RawGroupSum | services/rewards/calculator.py:139-141 | with distinct categories, the group's rewards dict adds up to the group's sum |
| RewardsCalculator.ScaleSum | services/rewards/calculator.py:153-161 | scaling amounts that add up to `total` by `cap / total` makes them add up to `cap` |
| RewardsCalculator.CapGroupScaling | services/rewards/calculator.py:151-161 | in an overflowing group every reward is scaled by the same factor: they add up to exactly the cap, and each keeps its share |
| RewardsCalculator.OutcomesBy | services/rewards/calculator.py:111 | the outcome at each position is that group's own outcome |
| RewardsCalculator.AccumulateGroups | services/rewards/calculator.py:111-178 | the loop over the groups adds each outcome as the specification `GroupsTally` says |
| RewardsCalculator.ProcessTier | services/rewards/calculator.py:54-189 | the calculation under a chosen tier computes the specification `TierRewards` |
| RewardsCalculator.CalculateCardRewards | services/rewards/calculator.py:24-189 | `calculate_card_rewards` computes the specification `CardRewards` |
| RewardsCalculator.GroupLinesPositive | services/rewards/calculator.py:135-172 | a group's lines are all for categories with spend and a positive rate |
| RewardsCalculator.AccumulateBound | services/rewards/calculator.py:174-177 | groups under their caps earn what they would have earned; each overflowing group makes the card earn strictly less |
| RewardsCalculator.AccumulateReached | services/rewards/calculator.py:155 | the cap status is reached exactly when some group overflows |
| RewardsCalculator.AccumulateDifference | services/rewards/calculator.py:157 | the reported difference is the last overflowing group's overflow |
| RewardsCalculator.CardRewardsError | services/rewards/calculator.py:37-39 | the calculation fails exactly when no card row has the id or the first such row has an unknown card type |
| RewardsCalculator.CardRewardsMinSpend | services/rewards/calculator.py:42-51 | the minimum spend is met exactly when some tier of the card asks for no more than the total; otherwise the reward is 0 and no cap is reached |
| RewardsCalculator.TierRewardsBound | services/rewards/calculator.py:174-188 | under a chosen tier the reward never exceeds the original reward; a cap is reached exactly when it is strictly less, and then the difference is positive |
| RewardsCalculator.CardRewardsBound | services/rewards/calculator.py:24-189 | `monthly_reward <= original_reward`; a cap is reached exactly when it is strictly less, and exactly then a positive difference is reported |
| RewardsCalculator.TierRewardsCapGroups | services/rewards/calculator.py:155-157 | a cap is reached exactly when a cap group overflows, and the difference is the last such group's overflow, never a per-category cap |
| RewardsCalculator.TierRewardsLines | services/rewards/calculator.py:57-144 | every breakdown line is for a category with spend, at a positive rate |
| RewardsCalculator.CardRewardsLines | services/rewards/calculator.py:24-189 | when the minimum spend is met, every breakdown line is for a category with spend, at a positive rate |
| RewardsCalculator.HasName | services/rewards/calculator.py:293 | `name in unique_cards` holds exactly when a kept result has that name |
| RewardsCalculator.GetBestCards | services/rewards/calculator.py:276-298 | `get_best_cards` computes the specification `BestCards` |
| RewardsCalculator.FirstPerNameNames | services/rewards/calculator.py:291-294 | one result is kept per card name, and every name is kept |
| RewardsCalculator.FirstPerNameBest | services/rewards/calculator.py:291-294 | from a descending input, each kept result is the best of its name |
| RewardsCalculator.BestCardsFacts | services/rewards/calculator.py:276-298 | at most `limit` results, distinct card names, descending reward, each a result and the highest-reward result of its name |
| RewardsCalculator.BestCardsAll | services/rewards/calculator.py:291-298 | with a limit no smaller than the number of results, every card name appears |
| RewardsCalculator.SortedResults | services/rewards/calculator.py:288 | sorting the results keeps exactly the same results |
| UobLadysOptimizer.FindLargestEligibleCategory | services/rewards/uob_ladys_optimizer.py:21-43 | the scan over the five eligible categories keeps the first category with the strictly largest positive spend, or 'Other' with 0 |
| UobLadysOptimizer.LargestOfFacts | services/rewards/uob_ladys_optimizer.py:37-41 | the kept amount is non-negative and no scanned category spends more; a positive amount belongs to the first category that spends exactly that much |
| UobLadysOptimizer.LargestFacts | services/rewards/uob_ladys_optimizer.py:21-43 | the answer is one of the five eligible categories exactly when its spend is positive, and 'Other' exactly when the amount is zero |
| UobLadysOptimizer.FindOptimalCategoryForSingleCard | services/rewards/uob_ladys_optimizer.py:45-80 | the loop, including the fallback over all categories, returns the single-card choice |
| UobLadysOptimizer.FallbackNone | services/rewards/uob_ladys_optimizer.py:65-80 | with no positive spend the fallback keeps 'Other' |
| UobLadysOptimizer.SingleCardIsLargest | services/rewards/uob_ladys_optimizer.py:45-80 | the fallback never changes the answer: the single-card choice is the largest eligible category, or 'Other' |
| UobLadysOptimizer.FindOptimalCategoryWithOtherCard | services/rewards/uob_ladys_optimizer.py:82-137 | the loop over eligible categories returns the with-other-card choice |
| UobLadysOptimizer.BetterOfKeeps | services/rewards/uob_ladys_optimizer.py:121-135 | no category whose 4 mpd value is not strictly greater replaces the kept one |
| UobLadysOptimizer.WithOtherCardIsLargest | services/rewards/uob_ladys_optimizer.py:104-135 | with a non-negative miles rate the other card's rewards never change the choice: it is always the largest eligible category |
| UobLadysOptimizer.WithOtherCardDelegates | services/rewards/uob_ladys_optimizer.py:100-101 | with no eligible spend the other card is not consulted and the answer is the single-card one, 'Other' |
| UobLadysOptimizer.LadyRate | services/rewards/uob_ladys_optimizer.py:188-191 | a category earns 4 mpd exactly when it is the selected one, otherwise 0.4 mpd |
| UobLadysOptimizer.LadysRewards | services/rewards/uob_ladys_optimizer.py:139-225 | an unknown card is an error; with no tier for the total the reward is 0 with minimum spend not met; with a tier the minimum spend is met and the details are the per-category lines |
| UobLadysOptimizer.LadyLoop | services/rewards/uob_ladys_optimizer.py:184-214 | the loop over the card's categories computes the lines, the totals and the cap status |
| UobLadysOptimizer.CalculateUobLadysRewards | services/rewards/uob_ladys_optimizer.py:139-225 | the method returns the functional result for every catalog, card and spending |
| UobLadysOptimizer.LadyLinesShape | services/rewards/uob_ladys_optimizer.py:184-214 | one line per category with positive spend, in the card's order, each at the category's rate and paying on at most $1000; the reward is the sum of the lines |
| UobLadysOptimizer.LadyLinesCap | services/rewards/uob_ladys_optimizer.py:199-207 | the cap is reached exactly when some category spends more than $1000, and the reported difference is the excess of the last such category |
| UobLadysOptimizer.LadyLinesOriginal | services/rewards/uob_ladys_optimizer.py:196-212 | with a non-negative miles rate the capped reward lies between 0 and the uncapped reward |
| UobLadysOptimizer.SelectedResultFacts | services/rewards/uob_ladys_optimizer.py:172-225 | with a tier: minimum spend met, reward equal to the sum of its lines and at most the uncapped reward, a cap difference exactly when the cap is reached, and each line at 4 mpd exactly when it is the selected category |
| UobLadysOptimizer.LadysRewardsSelection | services/rewards/uob_ladys_optimizer.py:172-173 | with no category given the result is computed for the largest eligible category |
| CombinationOptimizer.CategoryRow | services/rewards/combination_optimizer.py:199-203 | the row found matches the category regardless of case, and no earlier row does; none exactly when no row matches |
| CombinationOptimizer.CategoryValue | services/rewards/combination_optimizer.py:158-224 | nothing for spend at or below zero; never negative with a non-negative conversion rate; for the Lady's card with a chosen category, the spend times the Lady's optimiser's rate (4 mpd exactly for the title-cased chosen category, 0.4 otherwise) times the conversion; nothing when the card has no qualifying tier |
| CombinationOptimizer.FirstPositiveRow | services/rewards/combination_optimizer.py:197-206 | the row found after dropping the zero rates is the first row of the whole tier that has a positive rate and the category |
| CombinationOptimizer.CategoryValueOfTier | services/rewards/combination_optimizer.py:188-218 | outside the Lady's case, the value is the reward of the first row of the card's best tier with a positive rate and the category, and nothing when the tier has no such row |
| CombinationOptimizer.CategoryValueMonotone | services/rewards/combination_optimizer.py:176-224 | with a non-negative conversion rate, more spend in a category is never worth less |
| CombinationOptimizer.FromAmounts | services/rewards/combination_optimizer.py:264-278 | a spending object built from thirteen amounts gives those amounts back |
| CombinationOptimizer.AllocateCategories | services/rewards/combination_optimizer.py:124-149 | the loop over the thirteen categories computes the allocation function for any two valuations |
| CombinationOptimizer.CalculateOptimalSpendingAllocation | services/rewards/combination_optimizer.py:85-156 | the method returns the functional allocation, with the Lady's category chosen beside the other card |
| CombinationOptimizer.AllocationShape | services/rewards/combination_optimizer.py:129-149 | one entry per category; a positive amount goes whole to the first card when it values it at least as much as the second, otherwise to the second; nothing else is allocated |
| CombinationOptimizer.AllocationConserves | services/rewards/combination_optimizer.py:129-149 | spend is neither lost nor counted twice: for each category the two shares add up to the positive part of the spend and one of them is zero |
| CombinationOptimizer.LadysChoiceIsLargest | services/rewards/combination_optimizer.py:114-122 | with a non-negative miles rate a Lady's card beside another card takes the largest of its eligible categories |
| CombinationOptimizer.LastByName | services/rewards/combination_optimizer.py:286-290 | the position of the last card with the name, none exactly when no card has it |
| CombinationOptimizer.Distinct | services/rewards/combination_optimizer.py:327 | `set(...)` of the categories holds exactly the same categories |
| CombinationOptimizer.CombineTwo | services/rewards/combination_optimizer.py:249-348 | a catalog error propagates; an unknown name gives the empty combination with reward 0 |
| CombinationOptimizer.FindCardIds | services/rewards/combination_optimizer.py:283-290 | the scan over all cards finds the last id for each of the two names |
| CombinationOptimizer.CombineTwoCardsRewards | services/rewards/combination_optimizer.py:249-348 | the method returns the functional combination |
| CombinationOptimizer.CombineIdsTotal | services/rewards/combination_optimizer.py:300-322 | the total of a pair is the sum of the two cards' rewards on their shares of the spending, the breakdown is theirs in order, and the Lady's policy applies to a card exactly when its id is 15 |
| CombinationOptimizer.CollectErrStays | services/rewards/combination_optimizer.py:47-74 | once a pair fails, scoring more pairs does not change the failure |
| CombinationOptimizer.CollectFailure | services/rewards/combination_optimizer.py:47-58 | a pair that fails to score makes the whole search fail with its error |
| CombinationOptimizer.ScanIsCollect | services/rewards/combination_optimizer.py:47-74 | the state of the two loops is the fold over the pairs `i < j` met so far |
| CombinationOptimizer.ScanFailure | services/rewards/combination_optimizer.py:56-58 | a pair that fails to score ends the search with its error |
| CombinationOptimizer.ScanDone | services/rewards/combination_optimizer.py:47-74 | once the outer loop finishes, the loops have met every pair `i < j` |
| CombinationOptimizer.FindBestCombinations | services/rewards/combination_optimizer.py:24-83 | the method returns the functional ranked list |
| CombinationOptimizer.SearchPairs | services/rewards/combination_optimizer.py:47-81 | the two loops, each pair scored, return the ranking of the fold over all pairs |
| CombinationOptimizer.VisitSound | services/rewards/combination_optimizer.py:60-74 | after one more pair the two lists hold only pairs that earn something, and the Lady's list holds exactly the names containing "UOB Lady" |
| CombinationOptimizer.CollectSound | services/rewards/combination_optimizer.py:47-74 | the same holds after every pair |
| CombinationOptimizer.CombinationsOrder | services/rewards/combination_optimizer.py:60-81 | the pairs holding "UOB Lady" come first, each block sorted by descending reward and stable on ties; every entry earns something and comes from a pair `i < j`; nothing is added or lost |
| CombinationOptimizer.RankedShape | services/rewards/combination_optimizer.py:76-81 | each block of the ranked list is its own list sorted by descending reward, a permutation of it, stable on ties |
| CombinationOptimizer.RankedSound | services/rewards/combination_optimizer.py:76-81 | every ranked entry keeps the lists' promises and the Lady's block is exactly the names with the marker |
| CombinationOptimizer.WithoutTotal | services/rewards/combination_optimizer.py:384-385 | the spending dict without 'total' has one entry per category |
| CombinationOptimizer.WithoutTotalRoundTrip | services/rewards/combination_optimizer.py:384-387 | rebuilding the spending from that dict gives it back unchanged |
| CombinationOptimizer.CombinationReward | services/rewards/combination_optimizer.py:350-387 | anything but two ids is an error, and so is an unknown card |
| CombinationOptimizer.CardDataOf | services/rewards/combination_optimizer.py:407-414 | one row per card holding its name and issuer |
| CombinationOptimizer.OptimalCombination | services/rewards/combination_optimizer.py:389-434 | anything but two cards is an error; the best pair is the head of the ranked list, absent exactly when the list is empty, and the kept pairs are a prefix of the ranked list: all of it up to ten pairs, exactly the first ten when more are ranked |
| LegacyCalculations.CategoryReward | calculations.py:161-187 | nothing without a rate column, without a rate or without positive spend; otherwise the spend times the row's reward per dollar (rate times miles value for a miles card, rate / 100 otherwise) |
| LegacyCalculations.Positive | calculations.py:11-12 | exactly the entries outside 'total' with positive spend, in dict order; empty exactly when there is none |
| LegacyCalculations.FirstMax | calculations.py:17 | `max(..., key=...)` picks the first entry holding the largest amount |
| LegacyCalculations.CalculateUobLadyReward | calculations.py:5-53 | the method returns the functional Lady's outcome |
| LegacyCalculations.LadyLoop | calculations.py:24-46 | the loop over the spending dict computes the lines and the reward |
| LegacyCalculations.LadyEntryLines | calculations.py:25-46 | one entry's lines and reward |
| LegacyCalculations.LadyEntryFacts | calculations.py:25-46 | one entry's lines add up to its reward, cover its amount outside 'total', and put at most $1000 of the chosen category at 4 mpd and the rest at 0.4 mpd |
| LegacyCalculations.LadyAppend | calculations.py:24-46 | appending lines appends their sums |
| LegacyCalculations.LadyLinesFacts | calculations.py:24-46 | the loop's lines add up to the reward and cover all spend outside 'total', the chosen category's spend up to $1000 at 4 mpd and every other dollar at 0.4 mpd |
| LegacyCalculations.BonusSpendAbsent | calculations.py:28-30 | a key absent from the dict earns no bonus |
| LegacyCalculations.BonusSpendOfKey | calculations.py:28-30 | with distinct keys the bonus goes to the chosen category's spend up to $1000 |
| LegacyCalculations.LadyChoice | calculations.py:11-18 | the chosen category has positive spend outside 'total' and no category outside 'total' spends more |
| LegacyCalculations.LadyNoSpending | calculations.py:14-15 | with no positive spend outside 'total' the reward is 0, the minimum spend counts as met and the cap is not reached |
| LegacyCalculations.LadyRewardWhole | calculations.py:5-53 | the reward is the sum of its lines: 4 mpd on the chosen category's spend up to $1000 plus 0.4 mpd on every other dollar outside 'total' |
| LegacyCalculations.LadyOutcomeReward | calculations.py:20-53 | the outcome for a chosen category splits its reward by rate in the same way |
| LegacyCalculations.LadyOutcomeOfLines | calculations.py:20-53 | the same for any lines of that shape |
| LegacyCalculations.LadyOutcomeSum | calculations.py:20-21 | the auto-selected note in front of the lines earns nothing |
| LegacyCalculations.LadyBonusOfPick | calculations.py:17-30 | the chosen category's whole spend up to $1000 earns the bonus rate |
| LegacyCalculations.LadyCapAnalysis | calculations.py:48-53 | the original reward equals the reward and the minimum spend is met; the cap counts as reached exactly when some category outside 'total' passes $1000; the difference is the chosen spend's distance from $1000 |
| LegacyCalculations.PickOverCap | calculations.py:49-50 | the chosen category passes $1000 exactly when some category outside 'total' does |
| LegacyCalculations.LadyOutcomeCap | calculations.py:48-53 | the outcome's cap status follows the chosen category's own spend |
| LegacyCalculations.LinesAtTwoRates | calculations.py:24-46 | lines at the two Lady's rates are worth the miles on the amounts at each rate |
| LegacyCalculations.PositiveSpendIn | calculations.py:149-150 | the positive spend over the ten cap-check categories is never negative, and is 0 when none of them spends |
| LegacyCalculations.CalculateCardRewardDetails | calculations.py:56-158 | the method returns the functional outcome |
| LegacyCalculations.CapLoop | calculations.py:104-141 | the category loop, which stops once the cap is used up, computes the capped lines and reward |
| LegacyCalculations.CapLinesStopped | calculations.py:140-141 | once the loop has stopped, the rest of the dict changes nothing |
| LegacyCalculations.CapStepKeeps | calculations.py:113-141 | one step keeps the loop's invariant: the eligible spend stays within the cap and the reward is the sum of the lines |
| LegacyCalculations.CapLinesFacts | calculations.py:104-141 | the invariant holds after the whole loop |
| LegacyCalculations.UncappedIsCategoryTotal | calculations.py:104-141 | without a cap and without negative amounts the loop never stops and earns exactly what `calculate_category_reward` gives each category |
| LegacyCalculations.CardRewardErrors | calculations.py:56-69 | a card named with "Lady" gets the Lady's outcome; the only error is a minimum spend with no 'total' entry to compare with |
| LegacyCalculations.CardRewardOutcome | calculations.py:61-158 | the minimum spend is met exactly when there is none or 'total' reaches it; below it the reward is the base rate on 'total' (0 without one), above it the sum of the capped lines, whose eligible spend stays within the cap; cap reached and cap difference follow the positive spend over the ten cap-check categories |
| LegacyCalculations.CappedOutcomeFacts | calculations.py:143-158 | the cap analysis keeps the reward and the lines, and reports reached exactly when the cap-check spend passes the cap, with its distance from the cap as difference |
| LegacyCalculations.SpillPoint | calculations.py:240-242 | the spend that still fits under a card's reward cap is clamped to `[0, spend]` |
| LegacyCalculations.GreedyUpTo | calculations.py:223-266 | the split over the first `n` categories has one share per category |
| LegacyCalculations.CombineTwoCardsRewards | calculations.py:190-331 | the method returns the functional combination |
| LegacyCalculations.SplitSpending | calculations.py:223-266 | the first loop computes the split, category by category |
| LegacyCalculations.SplitCategory | calculations.py:224-266 | one turn of the first loop places one category's spend |
| LegacyCalculations.FinalRewards | calculations.py:274-320 | the second loop computes each card's reward and lines on its shares |
| LegacyCalculations.RewardPerDollar | calculations.py:232-233 | the reward per dollar compared is the row's rate per dollar |
| LegacyCalculations.GreedyStepFacts | calculations.py:224-266 | one turn appends one fitting share, and each card's running reward grows by what its new share earns |
| LegacyCalculations.GreedyShares | calculations.py:223-266 | every category's share fits: the two parts add up to the positive spend |
| LegacyCalculations.GreedyTallies | calculations.py:219-302 | the running rewards that the cap checks use are the two cards' final rewards, and together they are what the split earns |
| LegacyCalculations.GreedyBestWithoutCaps | calculations.py:236-266 | without caps every category goes whole to the better card |
| LegacyCalculations.PerDollarOrder | calculations.py:236 | on positive spend the card with the better rate per dollar earns more |
| LegacyCalculations.ShareBound | calculations.py:243-248 | however a category's spend is divided, the two parts earn no more than the better card earns on all of it |
| LegacyCalculations.SplitBound | calculations.py:274-322 | no division of the categories between the two cards earns more than the better card on each whole category |
| LegacyCalculations.CombineTwoFacts | calculations.py:190-331 | one share per category, each fitting its spend; the total is the two cards' rewards, which are what their shares earn; without caps the total is the better card on each category |
| LegacyCalculations.CombineOptimalWithoutCaps | calculations.py:236-266 | without caps no division of the spending between the two cards earns more than the split |
| LegacyCalculations.SpillFillsCap | calculations.py:238-246 | when the winner's cap bites within the category, the winner's running reward lands exactly on its cap |
| LegacyCalculations.GroupIndex | calculations.py:343 | where a name's group is, or past the end when there is none |
| LegacyCalculations.InsertAt | calculations.py:343 | a new group goes after the groups whose names sort before it |
| LegacyCalculations.FirstNamed | calculations.py:350-357 | the first card row with the name, none exactly when there is none |
| LegacyCalculations.GatherSnoc | calculations.py:346-387 | gathering one pair more visits that pair last |
| LegacyCalculations.RowStep | calculations.py:347 | one step of the inner loop of row `i` meets the pair `(i, j)` |
| LegacyCalculations.RowEnd | calculations.py:346-347 | the whole row `i` ends where the next row starts |
| LegacyCalculations.VisitPair | calculations.py:350-387 | one pair of the loops gives the functional visit |
| LegacyCalculations.VisitRow | calculations.py:347-387 | the inner loop visits card `i` against every later top card |
| LegacyCalculations.FindBestCardCombinations | calculations.py:334-389 | the method returns the functional list of combinations |
| LegacyCalculations.InsertAscending | calculations.py:343 | a group put between the names before it and the names after it keeps the names ascending |
| LegacyCalculations.AbsorbFacts | calculations.py:343 | after one more row: a new group at its place for a new name, else that name's best raised to the row's reward when larger; names stay ascending and distinct |
| LegacyCalculations.GroupBestFacts | calculations.py:343 | `groupby(...).max()`: one group per card name, in name order, each group's best the largest monthly reward among the rows with that name |
| LegacyCalculations.LeftOutRow | calculations.py:343-344 | a row whose card is not among the top names earned no more than any top group's best |
| LegacyCalculations.TopCardsFacts | calculations.py:343-344 | at most five names, those of the groups ranked first by best reward in a descending permutation of the groups; a card left out never earned more than a kept one |
| LegacyCalculations.RankedTiesByName | calculations.py:343-344 | cards whose best rewards tie are ranked in name order |
| LegacyCalculations.TiedCardsExample | calculations.py:343-344 | two cards with the same best reward: the one first by name is ranked first |
| LegacyCalculations.PairEntryFacts | calculations.py:350-387 | a pair makes an entry exactly when both names have a card row; the entry is named after both cards, joins their issuers and categories, is never capped, meets its minimum spend and is worth the pair's combined reward |
| LegacyCalculations.GatherEntries | calculations.py:346-387 | each entry comes from one of the pairs, at most one per pair, and exactly one per pair when every top name has a card row |
| LegacyCalculations.FindBestCount | calculations.py:334-389 | at most ten entries, and one per pair of top cards when every top name has a card row |
| LegacyCalculations.FindBestFromPairs | calculations.py:346-387 | each entry is the entry of one pair of two different top cards |
| ServiceCalculations.CapRowFacts | services/calculations.py:73-100 | per category: no cap leaves the rate's reward; an earned cap gives the smaller of the reward and the cap and marks it reached when the reward was over; a spent cap pays the rate on at most the cap amount and records the excess spend |
| ServiceCalculations.EarnedCapDifferenceZero | services/calculations.py:82-88 | as written, an earned cap that bites records a difference of 0, although a positive reward was cut |
| ServiceCalculations.CapRowIntendedFacts | services/calculations.py:82-88 | with the difference taken before the cut, the kept and the lost reward make up the uncapped reward and the loss is positive; every other case is unchanged |
| ServiceCalculations.RateStepSummed | services/calculations.py:63-106 | one pass keeps the total equal to the sum of the lines and adds at most one line |
| ServiceCalculations.RateStepStatus | services/calculations.py:81-100 | after a pass the cap is reported reached exactly when it was before or the row's cap bites; otherwise the status is unchanged |
| ServiceCalculations.RatesTallySummed | services/calculations.py:63-106 | the loop's total is the sum of its lines, with at most one line per rate row |
| ServiceCalculations.BitingRow | services/calculations.py:81-100 | when the cap is reported reached, some row with positive spend has a cap that bites |
| ServiceCalculations.NoBitingRow | services/calculations.py:81-100 | when no row's cap bites, the status stays the initial one |
| ServiceCalculations.BitingStays | services/calculations.py:81-100 | a cap that bites anywhere leaves the cap reported reached |
| ServiceCalculations.CalculateSingleCardReward | services/calculations.py:25-116 | the method returns the functional result, with the card found by the card loader's lookup |
| ServiceCalculations.TallyRows | services/calculations.py:63-106 | the loop over a tier's rate rows computes the tally |
| ServiceCalculations.TallyRow | services/calculations.py:64-106 | one pass of that loop |
| ServiceCalculations.SingleCardCases | services/calculations.py:36-52 | the lookup's error passes through and an unknown card is a `ValueError`; a card whose tiers the total does not reach earns 0, does not meet the minimum spend and has no cap status |
| ServiceCalculations.SingleCardAtTier | services/calculations.py:54-116 | at a tier the minimum spend is met and the reward is the sum of one line per rate row with positive spend |
| ServiceCalculations.TierFacts | services/calculations.py:54-116 | the same for any rows and any spend lookup |
| ServiceCalculations.SingleCardAsWrittenFails | services/calculations.py:36-39 | as written, the single-card reward fails for every id because the service's card lookup cannot build the card; the card loader's lookup succeeds on every row of a known type |
| ServiceCalculations.Ids | services/calculations.py:216 | the card ids, in card order |
| ServiceCalculations.CalculateAllCardsRewards | services/calculations.py:118-140 | the method returns the functional list, over the card loader's card list |
| ServiceCalculations.CollectRewards | services/calculations.py:131-138 | the loop keeps the results of the cards whose calculation succeeds, in order |
| ServiceCalculations.SuccessesBound | services/calculations.py:131-138 | skipping failures never adds results |
| ServiceCalculations.SuccessFrom | services/calculations.py:131-138 | every kept result is the result of one of the ids |
| ServiceCalculations.AllSucceed | services/calculations.py:131-138 | when no calculation fails there is one result per id, in order |
| ServiceCalculations.AllCardsFacts | services/calculations.py:118-140 | the result fails exactly when the card list does, and holds at most one result per card |
| ServiceCalculations.GetTopCards | services/calculations.py:142-159 | the method returns the functional top list |
| ServiceCalculations.TopOfFacts | services/calculations.py:153-159 | at most `limit` results (all when fewer), by descending monthly reward, drawn from the results, and no result left out earns more than one kept |
| ServiceCalculations.CalculateCardCombinationReward | services/calculations.py:161-199 | the method returns the functional combination |
| ServiceCalculations.CollectCombination | services/calculations.py:179-193 | the loop over the ids computes the combination |
| ServiceCalculations.ComboFacts | services/calculations.py:172-199 | a combination holds exactly the results of its cards that do not fail, in order; its total is the sum of their rewards and its breakdown is theirs in order |
| ServiceCalculations.FirstByName | services/calculations.py:226-229 | the position of the first card with the name, none exactly when no card has it |
| ServiceCalculations.GetOptimalCombination | services/calculations.py:201-231 | the method returns the functional optimal combination, over the card loader's card list |
| ServiceCalculations.FindIdsByName | services/calculations.py:224-229 | the nested loop maps each top result to a card id by name |
| ServiceCalculations.FindFirstId | services/calculations.py:226-229 | the inner loop returns the first card with the name, then stops |
| ServiceCalculations.IdsByNameFacts | services/calculations.py:222-229 | at most one id per top result, each the id of a card with that name; one per result when every name belongs to a card |
| ServiceCalculations.IdByNameFrom | services/calculations.py:224-229 | each id comes from a card whose name is that of one of the top results |
| ServiceCalculations.OptimalFacts | services/calculations.py:201-231 | fails exactly when the card list does; at most one result per card and at most `maxCards` of them; all cards' results when there are at most `maxCards` cards |
| ServiceCalculations.CombineTwoCardsRewards | services/calculations.py:370-440 | the method returns the functional pair result, over the card loader's card list |
| ServiceCalculations.CombineFound | services/calculations.py:390-440 | the part after the card list is loaded |
| ServiceCalculations.CombineTwoFacts | services/calculations.py:370-440 | the card list's error passes through and an unknown name gives the empty result; otherwise the total is the sum of the two cards' rewards on the whole spending, the breakdown is theirs in order, and the categories are those either card lists |
| ServiceCalculations.AllCardsAsWrittenFails | services/calculations.py:128 | as written, the card list fails on any non-empty table, and so do the all-cards results and every pair; the card loader's list succeeds when every card type is known |
| ServiceCalculations.FindBestCardCombinations | services/calculations.py:323-367 | the method returns the functional list of pairs |
| ServiceCalculations.ScanRow | services/calculations.py:342-362 | the inner loop over row `a` |
| ServiceCalculations.Combine | services/calculations.py:350-352 | one call of the pair combination |
| ServiceCalculations.ScanFailedStays | services/calculations.py:341-362 | a failure is final: no later cell changes it |
| ServiceCalculations.ScanEntryFrom | services/calculations.py:341-362 | every listed pair earns something and comes from two rows in increasing label order whose combination succeeded |
| ServiceCalculations.ScanComplete | services/calculations.py:341-362 | every pair of rows in increasing label order whose combination earns something is listed |
| ServiceCalculations.FindBestBound | services/calculations.py:364-367 | at most ten pairs, by descending monthly reward, each earning something |
| ServiceCalculations.FindBestIsHead | services/calculations.py:339-367 | the result is the first ten of the sorted pairs of the first ten rows |
| ServiceCalculations.FindBestEntry | services/calculations.py:339-362 | each listed pair is the entry of two of the first ten rows in increasing label order whose combination earns something |
| ServiceCalculations.FindBestComplete | services/calculations.py:339-367 | every such pair that earns something is listed, unless ten pairs earning at least as much are |

## Left out

- CSV loading, pandas plumbing, Streamlit caching, session state and all UI are not modelled. The catalog and the spending are parameters.
- The catalog loaders `_load_card_data_cached` (services/data/card_loader.py) and `DataLoader.load_credit_card_data` (services/data_loader.py) are not part of this model. The tables they produce are inputs.
- Floating point is not modelled: amounts are exact reals, so IEEE rounding and the tests' tolerances do not arise.
- `float('inf')` caps, NaN and `None` are modelled as `Option.None`. A NaN cap and a missing cap are treated alike where the source tests them with `pd.notna` (`ServiceCalculations.CapApplies`). Truthiness does not treat them alike: `float('nan')` is truthy in Python.
- Common.Truthy: at the `x or default` sites (components/calculations/uob_visa_signature.py:19-22, components/calculations/uob_ladys.py:25, components/calculations/miles_with_bonus_cap.py:18) `None` stands for Python `None` only. A NaN tier field is not modelled there: Python would keep the NaN, and every later comparison with it would be false.
- CardLoader.TiersOf, CardLoader.RatesOf and CardLoader.CardsOfType: their own contracts state membership and length only. The order and multiplicity of the rows are stated by `CardLoader.TiersOfAppend`, `CardLoader.RatesOfAppend` and `CardLoader.CardsOfTypeAppend`.
- RewardsCalculator.PositiveRates: its own contract states membership and length only. The order and multiplicity of the rows are stated by `RewardsCalculator.PositiveRatesAppend`.
- `Common.IsSpace`, `Common.Lower`, `Common.Title` and `Common.IsDigit`, and the `\w` and `\s` classes of `Helpers` and `RateText`, are ASCII only. Unicode letters, digits and spaces are not modelled.
- `CardModel.Cell`: an integer cell and a real cell are different values, so `IntCell(1)` is not `NumCell(1.0)`, although Python compares `1 == 1.0` as equal. Ids are compared as integers throughout.
- `RateText.ParseRate` takes text or NaN only. A number passed directly, which `str(...)` would turn into text, is not modelled.
- The `details` strings of every calculation are modelled as records (category, amount, rate, reward) or as notes. Their f-string formatting is left out.
- `print` and `st.warning` calls are left out. The loops that catch an exception and `continue` are modelled by skipping the failed result.
- `get_detailed_breakdown` (services/rewards/calculator.py, services/calculations.py) is not part of this model. The Lady's optimizer and the combination optimizer take the other card's per-category rewards as a parameter (`other`, `breakdown`) instead of calling it.
- `calculate_all_cards_rewards` and `calculate_filtered_cards_rewards` of services/rewards/calculator.py are not part of this model.
- `CombinationOptimizer.CategoryValue`: the `except Exception` fallback of `calculate_category_value_for_card` is not modelled, because the lookups in its `try` block are total in the model.
- `CombinationOptimizer.Distinct` and `LegacyCalculations.PairEntryFacts`: `', '.join(list(set(...)))` depends on set iteration order. The joined categories are modelled as the set of categories, not as a string.
- `ServiceCalculations.CombineTwoCardsRewards`: the module-level `combine_two_cards_rewards` passes the spending dict where a `UserSpending` is expected. The model scores each card on a `UserSpending`, so the attribute error this would raise is not modelled. Every call of it already fails earlier on the card list, as the Findings table shows.
- `ServiceCalculations.FindBestCardCombinations` and `LegacyCalculations.FindBestCardCombinations` ignore the miles rate and the detailed results they are passed, as the source does.
- `LegacyCalculations.TopCardsFacts`: the pandas sort of `sort_values(ascending=False)` (calculations.py:344) is modelled as a stable sort. pandas' default quicksort does not promise stability, so tied cards could come out in another order than the name order the model proves (`LegacyCalculations.RankedTiesByName`).
- `LegacyCalculations.CategoryReward`: a rate column that is absent from the row and a NaN rate are both modelled as a missing rate.
- `MilesBonusCap.CalculateMilesCardWithBonusCap` models the proportional split as written, which falls short of the cap. The corrected split is stated beside it; see Findings.
- Where the tests expect something else than the code, the model follows the code:
  - tests/test_single_card.py:113-136 expects the Trust bonus on the highest category only, but `TrustCashback.CalculateTrustCashbackRewards` gives the high rate to every bonus category, as trust_cashback.py does.
  - tests/test_single_card.py:149-163 expects groceries at the base rate, but `UobLadys.CalculateUobLadysRewards` pays nothing for categories outside its group map, as uob_ladys.py does.
  - tests/test_single_card.py:100-110 expects $600 at the bonus rate, but the split as written gives $540 (`MilesBonusCap.CapFallsShort`).
- The functions the tests import but the repository does not define (`calculate_card_tier_reward`, `allocate_spending_two_cards`, `load_cards_and_models`) are not part of this model.

## Findings

| source | as written | input that shows it | evidently intended | confidence | as-written member | corrected member |
|---|---|---|---|---|---|---|
| components/calculations/miles_with_bonus_cap.py:38-40 | each bonus category's share within the cap is `min(amt, window) / total` times the window, so the shares add up to less than `min(total, cap)` whenever one category spends more than the window | dining 700, retail 200, travel 100, cap 600: 540 dollars earn the bonus rate | each category earns the bonus on `amt * window / total`, so exactly `min(total, cap)` dollars earn it, as the docstring at lines 7-8 says and tests/test_single_card.py:100-110 expects | not executed; high | MilesBonusCap.CapFallsShort | MilesBonusCap.ShareFillsWindow |
| components/calculations/dbs_yuu_allocation.py:18-23 | the top-up loop passes over the bonus categories only, so it draws on the 'total' key like a category | dining 100 and 'total' 100: the yuu card is credited 200 of spend, 100 of it the 'total' key | the top-up draws only on real categories, as every other loop of the engine skips 'total' | not executed; medium | DbsYuu.TopUpDrawsOnTotal | DbsYuu.TopUpRealSpend |
| services/calculations.py:84-88 | the cap difference is taken after the reward has been cut to the cap, so it is always 0 | a 10% rate with an earned cap of 5 on spend 100: reward 10 is cut to 5 and the difference recorded is 0 | the difference is the reward lost to the cap, 5 here | not executed; high | ServiceCalculations.EarnedCapDifferenceZero | ServiceCalculations.CapRowIntendedFacts |
| services/data_loader.py:173-180 | `get_card_info` builds `CreditCard` with `annual_fee` and `source_url`, which the record (models/credit_card_model.py:12-17) does not declare, so every card it finds raises a `TypeError` | any card id present in the cards table | build the card from its four declared fields, as services/data/card_loader.py:328-352 does; the single-card reward then succeeds on every card of a known type | not executed; high | ServiceCalculations.SingleCardAsWrittenFails | CardLoader.GetCardInfo |
| services/data_loader.py:194-201 | `get_all_cards` builds every card the same way, so it raises on any non-empty cards table, and with it the all-cards results and every pair of services/calculations.py | any non-empty cards table | the card list of services/data/card_loader.py:354-373, which succeeds when every card type is known | not executed; high | ServiceCalculations.AllCardsAsWrittenFails | CardLoader.GetAllCards |
