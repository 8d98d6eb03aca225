# daily-stock-bot in Dafny

A model of the core of daily-stock-bot. The bot fetches a set of market
sentiment indicators once a day, judges each one, and then does three things:

- it judges each indicator as bullish (🟢), bearish (🔴), neutral (⚪), unreadable (⚠️) or malformed (❓);
- it counts the greens and the reds into a one-line verdict;
- it posts a Discord card and appends a row to a CSV history.

The model covers the indicator registry (config.py) and the current
evaluator (utils.py), which is driven by that registry. It also covers the
three older entry points, each with its own hard-coded rules:

- main.py: strict per-key thresholds, a three-attempt fetch loop and a card coloured by the CNN reading;
- dev_main.py: the same rules with longer labels, and a card with one field per indicator in a fixed order;
- main_v2.py: one fetch attempt, a five-band CNN colour and a seven-indicator card.

It also covers the five-day backward search of the put/call ratio
(put_call_ratio.py).

Python is modelled explicitly:

- a `dict` is an association list `Dict<V>` in insertion order;
- a fetched value is a string, a float (its value together with its `repr`), `None`, or a tuple of those;
- `str()`, `float()`, `strip()`, `split()[0]`, `in` on strings and the regular expression of `extract_numeric_value` are written out as functions (text.dfy, decimal.dfy, pyvalue.dfy, utils.dfy);
- an exception that a `try` catches becomes an `Option` or a `Verdict` value.

Fetchers are oracles: `Fetcher = nat -> Outcome` gives the value returned by, or the exception raised from, the n-th call. A put/call request is a `Server = nat -> Reply` that gives the page for each day offset.

Modules follow the program:

- Common, Text, Decimal and PyValue hold the Python primitives;
- Registry models config.py;
- Sentiment holds the status, count and verdict that every revision shares;
- Utils, Report and Ledger model utils.py;
- Fetch holds the fetch coordinator of the older revisions;
- Legacy holds what main.py and dev_main.py share;
- MainRevision, DevRevision and V2Revision model the three entry points;
- PutCall models put_call_ratio.py.

config.py registers fifteen indicators.

The model follows the code wherever a description of the system promises
more than the code does:

- **The ledger does not deduplicate.** `save_csv` appends a row on every run and never reads the file to look for a row with the same date, so two runs on one day leave two rows (`Ledger.SaveTwice`). The date it writes is the wall-clock date, not a trading date.
- **The registry is not validated at startup.** Nothing checks it when the program starts. Its well-formedness (distinct keys, ordered ranges, the right source fields for each kind) is instead proved about the constant itself, by the `Registry` lemmas.

## Model

| member | source | states |
|---|---|---|
| Registry.Registered | config.py:12-80 | A key has a registry entry exactly when it is one of the fifteen keys of `INDICATORS`. |
| Registry.KeysAreDistinct | config.py:12-80 | There are fifteen indicator keys, and they are pairwise distinct. |
| Registry.TrendTagsAreExact | config.py:22-39 | `'ma_trend'` belongs to exactly HYG, IWM and SOXX; `'arrow_trend'` belongs to RISK_RATIO alone. |
| Registry.InverseRangesAreOrdered | config.py:14-75 | Every inverse threshold pair has its green limit strictly below its red limit, so the two inverse tests never both hold. |
| Registry.DirectRangesAreTheSpecialKeys | config.py:26-79 | The numeric entries without `inverse` are exactly BTC, VIX and PUT_CALL, and each has its green limit above its red limit. |
| Registry.SourcesAreWellFormed | config.py:12-80 | `price` and `trend` entries name a ticker and no function; `custom` and `external` entries name a function and no ticker; only BOND_10Y carries a correction, and it is 0.1. |
| Registry.Lookup | config.py:12-80 | Defines the registry entry of each key. Its properties are stated by Registry.Registered (exactly the fifteen keys have an entry), Registry.TrendTagsAreExact, Registry.InverseRangesAreOrdered, Registry.DirectRangesAreTheSpecialKeys and Registry.SourcesAreWellFormed. |
| Utils.Clean | utils.py:13 | The cleaned text has no `%`, `+` or `,`, and keeps every other character of the input. |
| Utils.FindFrom | utils.py:14 | `re.search` finds the leftmost position where the pattern matches, and no earlier position matches. |
| Utils.MatchAt | utils.py:14 | A match is non-empty and ends in a digit; a digit always starts a match. |
| Utils.ExtractNumeric | utils.py:11-16 | Defines `extract_numeric_value`. Utils.ExtractEmptyIff states that a string gives "" exactly when it holds no digit. Utils.ExtractedParses states that a non-empty result is a numeral that `float()` reads. Utils.NegativeIntegerLosesSign shows that a negative integer loses its sign. |
| Utils.ExtractEmptyIff | utils.py:11-16 | `extract_numeric_value` of a string returns "" exactly when the string holds no digit. |
| Utils.ExtractedParses | utils.py:11-16 | A non-empty extracted value is a numeral that `float()` accepts. It holds no `%`, `+` or `,`, and it keeps a leading minus only when it also has a decimal point. |
| Utils.NegativeIntegerLosesSign | utils.py:14 | On "-5" the pattern returns "5": the integer alternative drops the sign. |
| Utils.IndicatorStatus | utils.py:18-70 | No input gets the "❓" mark. |
| Utils.Judge | utils.py:35-69 | Once a number is read, the threshold rules give only green, red or neutral. |
| Utils.UnreadableIff | utils.py:20-25 | "⚠️ 無法判讀" is given exactly when the judged value (the third item of an AAII tuple) is falsy or its text contains "Error" or "N/A". |
| Utils.UnjudgedIsNeutral | utils.py:27-32 | A readable value under an unregistered key, or one whose first token is not a number, is "⚪ 中性". |
| Utils.NumeralStatus | utils.py:18-69 | A registered key given a plain numeral string is judged on the number that string denotes. |
| Utils.NumeralIsReadable | utils.py:24-32 | A plain numeral passes the guard, and `float()` reads it back as its number. |
| Utils.JudgedStatus | utils.py:27-69 | Past the guard, a registered key whose text reads as x gets the threshold rule's answer for x. |
| Utils.JudgeIsPlain | utils.py:35-69 | No caption of the threshold rules contains 🟢 or 🔴. |
| Utils.IndicatorStatusIsPlain | utils.py:18-70 | No caption that `get_indicator_status` can return contains 🟢 or 🔴, on any key and any value. |
| Utils.StatusTextCounts | utils.py:77-78 | The status text contains 🟢 exactly when its mark is green, and 🔴 exactly when its mark is red. So the substring test of `calculate_summary` counts marks. |
| Utils.InverseRule | utils.py:62-64 | For an inverse key: green iff x ≤ green limit, red iff x ≥ red limit, neutral iff x lies strictly between them. |
| Utils.ContraryRule | utils.py:47-60 | For BTC, PUT_CALL and VIX: green iff x is above the green limit, red iff x is below the red limit, neutral otherwise. |
| Utils.GenericDirectBranchUnused | utils.py:65-67 | No registered key reaches the non-inverse generic branch. |
| Utils.TrendRule | utils.py:35-43 | Trend keys: green iff the text contains the up tag; red iff it contains the down tag and not the up tag. |
| Utils.MaTrendMark | utils.py:35-38 | The mark of an `ma_trend` key depends only on its text. |
| Utils.HygMarksLikeIwm | utils.py:36-37 | HYG and IWM give every value the same mark; only their labels differ. |
| Utils.AaiiJudge | config.py:72-75 | The AAII rule: green iff difference ≤ -15, red iff difference ≥ 15. |
| Utils.BondJudge | config.py:14-17 | The BOND_10Y rule: green iff x ≤ 3.5, red iff x ≥ 4.5. |
| Utils.AaiiDifferenceRule | utils.py:21-25 | An AAII triple is judged on its difference. A difference of exactly 0.0 is falsy and gives "⚠️". Any other difference follows the ±15 inverse rule. |
| Utils.FloatStatus | utils.py:20-32 | A value judged through a float is unreadable exactly at zero; otherwise it is judged on that float. |
| Utils.AaiiDespairExample | utils.py:18-64 | Illustration only, one input: the AAII tuple (40.0, 60.0, -20.0) is judged by its difference and is green. The general rule is Utils.AaiiDifferenceRule. |
| Utils.CalculateSummary | utils.py:72-83 | The text gives the count of green statuses, the count of red statuses, and the conclusion those counts select. |
| Sentiment.Tally | utils.py:75-78 | bulls and bears are the numbers of results whose status is green and red, and together they never exceed the number of results. |
| Sentiment.GreenAndRedBound | utils.py:77-78 | Greens plus reds are at most the number of results. |
| Sentiment.RenderedMark | utils.py:77-78 | For a label without 🟢 or 🔴, `"🟢" in status` holds iff the mark is green, and likewise for red. |
| Sentiment.UncountedResult | utils.py:75-78 | A result that is neither green nor red changes neither count. |
| Sentiment.LeanOf | utils.py:80-82 | Risk On iff more bulls, Risk Off iff more bears, split iff the counts are equal (0-0 included). |
| Sentiment.Summarize | utils.py:72-83 | The summary is built from the two counts and the conclusion their comparison selects. |
| Report.RenderSection | utils.py:125-135 | The content of a category field is the concatenation of its lines in registry order. |
| Report.Block | utils.py:137-139 | Each category gives one non-inline field under its title, followed by a spacer unless it is the last category. |
| Report.Blocks | utils.py:124-139 | n categories give 2n-1 fields when they are all of them, and 2n fields otherwise. |
| Report.BuildFields | utils.py:115-139 | The fields are the summary, the market text and a spacer, then the category blocks in order. |
| Report.FieldsLayout | utils.py:115-139 | With four categories the card has ten fields: spacers at positions 2, 4, 6 and 8, and the category titles at 3, 5, 7 and 9. |
| Report.CategoryEntriesAreRegistered | utils.py:126 | Each item of a category is the registry entry under its own key. |
| Report.FiledUnder | utils.py:126 | Every key listed under a category is registered under that category. |
| Report.CategoriesCoverRegistry | utils.py:108-126 | The four category lists, read in card order, are exactly the registry keys. So every indicator appears once on the card. |
| Report.CategoryMembership | utils.py:126 | A key is listed under a category iff the registry files it there. |
| Report.MissingIndicatorLine | utils.py:128-135 | A missing indicator is shown as "**N/A**" with "⚠️ 無法判讀". |
| Report.Line | utils.py:128-135 | Defines one line of a category. Report.MissingIndicatorLine states that a missing result is shown as "**N/A**" with "⚠️ 無法判讀". Report.RenderSection states how the lines of a category are assembled. |
| Report.Display | utils.py:129-133 | Defines the shown value: bull and bear percentages for an AAII tuple of at least three items, and the printed value otherwise. Report.MissingIndicatorLine covers the missing case. |
| Report.CardFollowsVerdict | utils.py:98-106 | The colour and the picture are green/bull iff Risk On and red/bear iff Risk Off; the colour is gray iff the verdict is split. |
| Report.SendDiscord | utils.py:85-150 | Nothing is sent without a webhook URL. Otherwise the card has the dated title, the colour and picture of the counts, the field layout above, and the footer. |
| Ledger.BuildRow | utils.py:164-174 | The row is the date, the price and every registry key's cell in registry order, or nothing when one cell raises. |
| Ledger.RowShape | utils.py:162-174 | A built row has one cell per column, in column order. |
| Ledger.ColumnCount | utils.py:161-162 | The header has 17 columns. |
| Ledger.ColumnsAreDistinct | utils.py:161-162 | The header names are distinct. |
| Ledger.RowFailsIff | utils.py:168-174 | Building the row raises exactly when AAII holds a tuple whose third item is missing or is not a float. |
| Ledger.OtherCellsArePresent | utils.py:172-173 | Only the AAII tuple can make a cell raise. |
| Ledger.MissingCellIsEmpty | utils.py:169-173 | A missing indicator leaves its cell empty. |
| Ledger.NumericCell | utils.py:172-173 | Every cell other than the AAII difference is empty or a numeral that `float()` reads. |
| Ledger.Cell | utils.py:164-173 | Defines one CSV cell. Ledger.OtherCellsArePresent states that every key other than AAII gives a cell. Ledger.MissingCellIsEmpty states that a missing key gives "". Ledger.NumericCell states that each cell other than the AAII difference is empty or a numeral. |
| Ledger.RowOf | utils.py:164-174 | Defines the CSV row. Ledger.RowFailsIff states that no row is written exactly when an AAII tuple lacks a float difference. Ledger.RowShape states its width, the date and S&P 500 columns, and that every other column holds its cell. |
| Ledger.CsvFile.SaveCsv | utils.py:157-182 | The header is written only when the file was absent, and then the row is written. Nothing is written when the row raises. The file stays headed by the columns. |
| Ledger.SaveTwice | utils.py:176-180 | Saving twice appends the same row twice, after the header when the file did not exist: the ledger does not deduplicate, on the first run of a day as on later ones. |
| Fetch.Classify | main.py:163-177 | An exception is a failure "錯誤: e". A non-tuple is a failure exactly when it is a string containing "錯誤". An empty tuple is the failure "錯誤: tuple index out of range", because `result[0]` raises. A tuple with None first is a failure carrying its third item, or the short message when it has at most two items. Any other tuple is a success carrying the tuple itself. |
| Fetch.RetryStopsAtFirstSuccess | main.py:155-178 | With n ≥ 1 attempts, 1 to n calls are made. The first success is returned. Only after n failures is the last failure returned. |
| Fetch.RetryFromStopsAtFirstSuccess | main.py:157-177 | The same property from any attempt i onward. |
| Fetch.RetryFrom | main.py:157-177 | Defines the retry loop from attempt `i` on. Fetch.RetryFromStopsAtFirstSuccess states that it stops at the first success and gives the last failure only after `n` calls. |
| Fetch.Retry | main.py:155-178 | Defines `run_fetcher`. Fetch.RetryStopsAtFirstSuccess states its result and call count, and Fetch.AlwaysRaising covers a fetcher that always raises. |
| Fetch.SilentFailureIsAccepted | main.py:165-172 | A failure text without "錯誤" is accepted as a value after one call. |
| Fetch.AlwaysRaising | main.py:175-177 | A fetcher that always raises is called n times, and its last exception is returned. |
| Fetch.RunFetcher | main.py:155-178 | The retry loop computes `Retry`, and it sleeps between attempts but never after the last one. |
| Fetch.RunOnce | main_v2.py:63-68 | One call: its value is kept as returned, and an exception becomes "錯誤: e". |
| Fetch.FetchedKeys | main.py:181-194 | The results hold exactly the enabled keys, in the fixed order. |
| Fetch.FetchedValues | main.py:181-194 | Each stored value is the runner's value for that key's fetcher. |
| Fetch.FetchedGet | main.py:181-194 | Looking up a key gives its fetched value when it is enabled and in the order, and None otherwise. |
| Fetch.FailedKeysSpec | main.py:196-198 | A key is listed as failed iff its value is None or a text containing "錯誤". The failed keys keep the result order. |
| Fetch.StoredValueNotFailed | main.py:196-198 | A key whose value is not a failure is never listed as failed. |
| Fetch.CollectFailed | main.py:196-198 | The loop collects exactly the failed keys. |
| Fetch.IsFailed | main.py:196-198 | Defines a failed value: a string carrying "錯誤", or None. Fetch.StoredValueNotFailed states that a key whose fetched value is not failed is never listed as failed. |
| Fetch.FailedKeys | main.py:196-198 | Defines the failed-key list. Fetch.FailedKeysSpec states that a key is listed exactly when its value failed, in result order, and Fetch.CollectFailed computes it with a loop. |
| Fetch.FetchAll | main.py:150-199 | The results are the enabled fetchers run in order, and `failed` lists their failed keys. |
| Legacy.NumeralReading | main.py:203-271 | Under every numeric key, a plain numeral is shown as written and reads as its number. |
| Legacy.BondReading | main.py:224-225 | BOND_10Y reads the number of its text with every "%" deleted. |
| Legacy.Cleaned | main.py:207-271 | Defines the token each key hands to `float()`. Legacy.NumeralReading states that a plain numeral is handed over unchanged, under every key. |
| Legacy.Reading | main.py:207-271 | Defines the number each key reads. Legacy.NumeralReading states that a plain numeral reads as its number, Legacy.CnnColorReading relates it to the card colour, and MainRevision.PercentReading covers the "%" suffix of BOND_10Y. |
| Legacy.ReadAaii | main.py:250-256 | A non-tuple is "❓". A triple ending in a float is compared. Any other tuple raises. |
| Legacy.CnnColorReading | main.py:299-305 | The colour reads the same number as the CNN status, although it does not strip. |
| Legacy.MissingCnnIsGray | main.py:302 | Without a CNN result, the default "50" makes the card gray. |
| MainRevision.MainRule | main.py:207-271 | Once a number is read, the rules give only green, red or neutral. |
| MainRevision.NumericMainStatus | main.py:201-276 | A numeric key shows its stripped text and the rule for its number. Where no number can be read, it shows the raw value and "⚠️". |
| MainRevision.NumeralMainStatus | main.py:201-271 | A plain numeral is shown as written and judged by its number. |
| MainRevision.MainStatus | main.py:201-276 | Defines main.py's `get_indicator_status`. Its properties are stated by MainRevision.NumericMainStatus, MainRevision.QuestionAndWarning, MainRevision.UnreadableNumber, MainRevision.MainStatusIsPlain and the per-key rule lemmas below. |
| MainRevision.MainRuleIsPlain | main.py:207-271 | No caption of main.py's number rules contains 🟢 or 🔴. |
| MainRevision.MainStatusIsPlain | main.py:201-276 | No caption main.py's `get_indicator_status` can return contains 🟢 or 🔴. |
| MainRevision.MainStatusTextCounts | main.py:284-285 | main.py's status text contains 🟢 exactly when its mark is green, and 🔴 exactly when its mark is red. So the substring test of its summary counts marks. |
| MainRevision.CnnRule | main.py:207-212 | CNN is green iff x ≤ 45 and red iff x ≥ 55. |
| MainRevision.RsiRule | main.py:243-248 | RSI is green iff x < 30 and red iff x > 70. Above 60 it is labelled "強勢", below 40 "弱勢", and both of those are neutral. |
| MainRevision.AaiiRule | main.py:250-256 | An AAII triple is red iff its difference is > 15 and green iff it is < -15. |
| MainRevision.QuestionAndWarning | main.py:201-276 | "❓" is given iff the key is AAII and the value is not a tuple. Every "⚠️" shows the raw value. |
| MainRevision.UnreadableNumber | main.py:275-276 | A value that cannot be read is shown as it is, with "⚠️ 無法判讀". |
| MainRevision.BondAgreesWithRegistryExceptAtBounds | main.py:224-227 | For BOND_10Y, main.py and utils.py mark a numeral differently iff it is exactly 3.5 or 4.5. At 4.5, main.py says neutral and utils.py says red. |
| MainRevision.BondReadingsDiffer | main.py:224-227 | For any BOND_10Y value that passes utils.py's guard, where both evaluators read the same number, the two marks differ exactly at 3.5 and 4.5. At 4.5, main.py says neutral and utils.py says red. |
| MainRevision.PercentReading | main.py:50-53 | A yield in the form the BOND_10Y fetcher returns it, a numeral followed by "%", passes utils.py's guard, and both evaluators read its number. |
| MainRevision.BondPercentAgreesWithRegistryExceptAtBounds | main.py:224-227 | For a fetched yield such as "4.50%", main.py and utils.py mark it differently exactly at 3.5 and 4.5. At 4.5, main.py says neutral and utils.py says red. |
| MainRevision.MainSummary | main.py:278-291 | The summary counts main.py's greens and reds and states the conclusion they select. |
| MainRevision.ColorFollowsCnnStatus | main.py:299-305 | With a CNN result, the card is green iff the CNN status is green, and red iff it is red. |
| MainRevision.CnnColorMatchesRule | main.py:207-212 | The colour of a reading agrees with the CNN rule on the same reading. |
| MainRevision.MainFetchAll | main.py:150-199 | The results are the enabled keys in main.py's order. Each value comes from three attempts. The failed keys are listed. |
| DevRevision.DevRule | dev_main.py:144-191 | Once a number is read, the rules give only green, red or neutral. |
| DevRevision.NumericDevStatus | dev_main.py:139-196 | A numeric key shows its stripped text and its rule. Where no number can be read, it shows the raw value and "⚠️". |
| DevRevision.NumeralDevStatus | dev_main.py:139-191 | A plain numeral is shown as written and judged by its number. |
| DevRevision.DevStatus | dev_main.py:139-196 | Defines dev_main.py's `get_indicator_status`. Its properties are stated by DevRevision.NumericDevStatus, DevRevision.UnlistedKeysAreNeutral, DevRevision.DevAgreesWithMain, DevRevision.DevStatusIsPlain and the band lemmas below. |
| DevRevision.DevRuleIsPlain | dev_main.py:144-191 | No caption of dev_main.py's number rules contains 🟢 or 🔴. |
| DevRevision.DevStatusIsPlain | dev_main.py:139-196 | No caption dev_main.py's `get_indicator_status` can return contains 🟢 or 🔴. |
| DevRevision.DevStatusTextCounts | dev_main.py:205-206 | dev_main.py's status text contains 🟢 exactly when its mark is green, and 🔴 exactly when its mark is red. So the substring test of its summary counts marks. |
| DevRevision.BondNeutralBand | dev_main.py:161-166 | BOND_10Y is red iff x > 4.5 and green iff x < 3.5. Between 3.5 and 4.5 inclusive it is "⚪ 利率中性". |
| DevRevision.SkewNeutralBand | dev_main.py:182-186 | SKEW is red iff x > 140 and green iff x < 120. Between 120 and 140 inclusive it is "⚪ 避險情緒略增 (中性)". |
| DevRevision.UnlistedKeysAreNeutral | dev_main.py:139-193 | DXY, RISK_RATIO, BTC and RSI have no branch and are always neutral, never unreadable. |
| DevRevision.DevRuleAgreesWithMain | dev_main.py:144-191 | Every number gets the same mark from dev_main.py's rule as from main.py's. |
| DevRevision.DevAgreesWithMain | dev_main.py:139-196 | On the eight keys dev_main.py fetches, it marks every value exactly as main.py does. |
| DevRevision.DevSummary | dev_main.py:199-214 | The summary counts dev_main.py's greens and reds and states the conclusion they select. |
| DevRevision.DevFetchAll | dev_main.py:82-136 | The results are the enabled keys in dev_main.py's order. Each value comes from three attempts. The failed keys are listed. |
| DevRevision.SelectFields | dev_main.py:251-259 | One field for each key in order whose value is present and truthy, in that order. |
| DevRevision.DevFields | dev_main.py:235-259 | The summary and market fields come first, then the indicator fields in card order. |
| DevRevision.ShownKeysSpec | dev_main.py:239-259 | A key gets a field iff it is in the card order with a truthy value. The fields follow the card order, with no key twice. |
| DevRevision.FalsyHasNoField | dev_main.py:252-253 | A missing or falsy value gets no field. |
| DevRevision.DevSendEmbed | dev_main.py:217-266 | Nothing is sent without a webhook URL. Otherwise the card has the dated title, the CNN colour, the fields above and the footer. |
| V2Revision.V2FetchAll | main_v2.py:57-82 | The results are the enabled keys in main_v2.py's order. Each value comes from a single call. The failed keys are listed. |
| V2Revision.FailureTupleIsStored | main_v2.py:63-80 | A fetcher's failure tuple is stored unchanged and is not listed as failed. |
| V2Revision.FailureTupleUnderRetry | main.py:165-172 | The retrying revisions turn the same tuple, returned every time, into its message after three calls. |
| V2Revision.BandsPartition | main_v2.py:92-103 | Each of the five colours is given exactly on its own interval of the CNN reading. |
| V2Revision.BandsRefineMainColor | main_v2.py:92-103 | main_v2.py's two green bands are main.py's green and its two red bands are main.py's red. The one exception is 55, which main.py colours red and main_v2.py gray. |
| V2Revision.ColorsAgreeBesides55 | main_v2.py:92-103 | On the same results, the two card colours disagree only where the CNN reading is exactly 55. |
| V2Revision.MissingCnnIsGrayToo | main_v2.py:94 | Without a CNN result, the card is gray. |
| V2Revision.V2Band | main_v2.py:95-103 | Defines the five colour bands. V2Revision.BandsPartition states that every number falls in exactly one band, and V2Revision.BandsRefineMainColor relates them to main.py's three colours. |
| V2Revision.V2Color | main_v2.py:92-103 | Defines the card colour. V2Revision.ColorsAgreeBesides55 relates it to main.py's colour, and V2Revision.MissingCnnIsGrayToo covers a missing CNN result. |
| V2Revision.MissingDisplays | main_v2.py:117-168 | A missing indicator shows "N/A", and a missing AAII shows "None". |
| V2Revision.AaiiDisplayRaisesIff | main_v2.py:138-149 | The AAII field raises iff the value is a tuple that is not three items ending in a float. |
| V2Revision.V2Display | main_v2.py:117-149 | Defines the shown value of each field. V2Revision.MissingDisplays states that a missing result shows "N/A" ("None" for AAII), and V2Revision.AaiiDisplayRaisesIff states exactly when the AAII display raises. |
| V2Revision.FailedAaiiFetchLosesCard | main_v2.py:63-68 | A failed AAII fetch reaches the card as its failure tuple, and no card can be built from it. |
| V2Revision.V2SendEmbed | main_v2.py:85-177 | Nothing is sent without a webhook URL. The send crashes iff the AAII field raises. Otherwise the card has the fixed title, description and footer, the CNN band colour, the market field, then the seven indicators in their fixed positions. |
| PutCall.FirstTotalFinds | put_call_ratio.py:38-44 | There is a total iff some row's first cell contains "total" in any case. The total is the last cell of the first such row. |
| PutCall.FetchPutCallRatio | put_call_ratio.py:6-49 | The loop computes the backward search and the number of requests it makes. |
| PutCall.SearchFromFindsFirst | put_call_ratio.py:23-49 | From day i on, the search stops at the first day with a result and returns that result. Only when every day fails does it return "抓取失敗", after all five days. |
| PutCall.SearchFrom | put_call_ratio.py:23-49 | Defines the day-by-day search. PutCall.SearchFromFindsFirst states that it stops at the first day that has a value and answers with it, or answers "抓取失敗" after five days. |
| PutCall.DayResult | put_call_ratio.py:25-44 | Defines one day's answer. PutCall.NotAvailableIsSkipped, PutCall.OnlyFirstTableCounts and PutCall.FirstTotalFinds state that a page saying "not available" is skipped, that only the first table is read, and that the last cell of the first total row gives the value. |
| PutCall.FirstDayWins | put_call_ratio.py:23-49 | Days 0, 1, … are requested in order, and the first day with a result wins. "抓取失敗" comes back iff all five days fail. |
| PutCall.NotAvailableIsSkipped | put_call_ratio.py:33-34 | A page saying "not available" in any case is skipped, whatever its tables hold. |
| PutCall.OnlyFirstTableCounts | put_call_ratio.py:38-44 | A "Total" row in a later table does not count. |
| PutCall.TodayAnswers | put_call_ratio.py:23-44 | When today's page answers, one request is made. |
| Decimal.NatTextRoundTrip | utils.py:83 | Rendering a count in decimal and parsing it back gives the count. |
| Text.StripKeepsFirstToken | main.py:302 | `split()[0]` gives the same token whether or not the text is stripped first. |

## Left out

- Network I/O is not modelled. Every fetcher (yfinance, requests, scraping) is an oracle parameter, and so is each day's put/call page. `pd.read_html` is represented by the tables it yields, with cells already converted by `str()`.
- The clock is not modelled: the date in titles and CSV rows is a parameter, the put/call search sees a day only as an offset from today, and `time.sleep` shows up only as the sleep count in `Fetch.RunFetcher`.
- Environment lookups and the webhook POST are not modelled. The webhook URL is a parameter, the card is returned instead of posted, and the `timestamp` field is dropped.
- The RUN_ flags are the `enabled` parameter.
- `print` and logging are not modelled.
- `market_text` and the S&P 500 price come from fetchers outside the core, so they are parameters.
- `f"{x:.1f}"` is the parameter `fmt1`: fixed-point float formatting is not written out.
- Only Python floats, strings, `None` and tuples of those are modelled. A fetcher returning a Python `int` is not modelled.
- `float()` is modelled for plain decimal notation with an optional sign and surrounding whitespace. Exponents, `inf`, `nan` and underscores are rejected by the parser. Where Python would judge such a number, utils.py's evaluator then answers "⚪ 中性" in the model. For example, VIX "1e3" is 🟢 in the source and ⚪ in the model. main.py's and dev_main.py's evaluators answer "⚠️ 無法判讀" instead.
- Digits are the ASCII digits '0' to '9'. Python's `\d` in `extract_numeric_value` and Python's `float()` also accept other Unicode decimal digits, such as Arabic-Indic "٣٥". The model treats those as non-digits, so it extracts nothing and reads no number from such text.
- `str()` of a float is its stored `repr` text, not a rendering of the number.
- Whitespace is the ten ASCII characters Python's `str.split()` and `strip()` cut at: space, tab, line feed, vertical tab, form feed, carriage return and the separators 0x1C to 0x1F. Non-ASCII whitespace, such as the no-break space U+00A0, which Python also cuts at, is treated as an ordinary character.
- Numbers are exact reals: a numeral is read as the decimal it denotes, and `float()`'s rounding to the nearest binary double is not modelled. A numeral with more than about 16 significant digits can therefore compare differently from Python. For example, BOND_10Y "4.49999999999999999999" is 4.5 to Python and red under utils.py's inverse rule, but the model reads it as less than 4.5 and gives neutral. Numerals of ordinary precision still compare as in Python: two distinct decimals of at most 15 significant digits round to distinct doubles in the same order, so a reading such as the fetchers' two-decimal outputs falls on the same side of each threshold, the inexact PUT_CALL threshold 0.8 included. The divergence at 0.8 is of the same kind: to Python, PUT_CALL "0.79999999999999999" is 0.8 and not below it, so main.py does not mark it red, while the model reads a number below 0.8 and marks it red.
- `lower()` folds ASCII letters only.
- `repr()` of strings inside a tuple does not escape quotes.
- CSV quoting is not modelled: a row is the sequence of its cell texts.
- The file system is the `Ledger.CsvFile` object: the existence test and the append.
- Dictionary assignment is modelled as an append. This is exact here, because every key is assigned once.
- In `fetch_all_indices`, the RUN_ flags and the fetch functions are imported from modules that are not part of this model. In particular, main.py and dev_main.py call `fetch_total_put_call_ratio` while put_call_ratio.py defines `fetch_put_call_ratio`. The model takes the fetchers as parameters, so this mismatch is not represented.
- utils.py imports `IMAGES` from config.py, but config.py does not define it. The model names the three pictures abstractly.
- main.py's `send_discord_embed` is modelled only for its card colour. Its field text is not modelled.
- `pause_for_exit` and the `__main__` blocks are not modelled.
- The data fetchers other than put_call_ratio.py are not part of this model.
- Report.SendDiscord: the pictures are named, not given as URLs.
