# Trading dashboard: indicators, order sort and sign-up, in Dafny

This project models three parts of a React trading dashboard:

- **The NASDAQ chart page.** It loads a candle series from a chart API and lets the
  user switch on overlays computed from the close of each candle:
  - a simple moving average;
  - Bollinger bands;
  - a "standard normal deviation" fan of seven levels per candle;
  - z-score levels, with two heuristic percentages.

  It also keeps the sort column and direction of the trade-orders table.
- **The sign-up page.** It validates a seven-field form, clears a field's error
  when the field is edited, and limits image uploads to 5 MB. On submit it calls
  the sign-up service and shows either a general error or the server's field
  errors.
- **The sign-up service.** It builds the request body from the form, posts it, and
  turns the reply, or the lack of one, into a parsed body or an error carrying a
  `details` map.

The project has five modules:

| module | contents |
|---|---|
| `Wrappers` | `Option` |
| `Indicators` | the four pure calculations, each specified by a function |
| `ChartPage` | the chart page's state as classes (`IndicatorPanel`, `OrderSort`) |
| `SignupService` | the request body and the reply classification |
| `SignUpPage` | validation, the error bookkeeping, the submit flow and the form component `SignUpForm` |

Each `for` statement and the `forEach` of the source is a method with invariants,
proved equal to a specification function:

- the loops of `calculateSMA` and `calculateBollingerBands`;
- the `forEach` that merges the server's field errors.

The `reduce` and `map` folds are recursive functions and sequence comprehensions.

Each React state update is a method of a class. Its `ensures` ties the new state
to a pure transition function (`WithIndicator`, `Received`, `Clicked`, `Submit`).
The lemmas state what those functions promise.

## Model

| member | source | states |
|---|---|---|
| Indicators.CalculateSMA | src/components/NASDAQStockChart.js:343-350 | The loop's result is the moving-average series `Sma`: one point per full trailing window, each with the window's mean close. |
| Indicators.SumCloses | src/components/NASDAQStockChart.js:346 | Definition of the `reduce` sum of the closes, folded from the left from 0. `SumScale` and `SumConstant` state its properties. |
| Indicators.Sma | src/components/NASDAQStockChart.js:343-350 | Definition of the moving average: for each full window, the window's mean close at the time of its last point. `SmaShape`, `SmaUsesOnlyPast`, `SmaScale` and `SmaKeepsTimeOrder` state its properties. |
| Indicators.SmaShape | src/components/NASDAQStockChart.js:345-347 | There are `n - w + 1` points, or none when the series is shorter than a window. Point `k` has the time of `data[k + w - 1]`, and `w` times its value is the sum of the closes `data[k..k + w]`. |
| Indicators.SmaUsesOnlyPast | src/components/NASDAQStockChart.js:346 | The window trails: point `k` depends only on `data[..k + w]`, so later points never change it. |
| Indicators.SumScale | src/components/NASDAQStockChart.js:346 | The `reduce` sum is linear: closes scaled by `c` give a sum scaled by `c`. |
| Indicators.WindowSumScale | src/components/NASDAQStockChart.js:346 | The sum over any window of the scaled series is `c` times the window's sum. |
| Indicators.WindowMeanScale | src/components/NASDAQStockChart.js:346-347 | The mean of any window of the scaled series is `c` times the window's mean. |
| Indicators.SmaScale | src/components/NASDAQStockChart.js:343-350 | The moving average of the scaled series has the same length, the same timestamps, and every value multiplied by `c`. |
| Indicators.SmaKeepsTimeOrder | src/components/NASDAQStockChart.js:347 | Strictly increasing input times give strictly increasing average times. |
| Indicators.BandPointsAt | src/components/NASDAQStockChart.js:361-366 | The points the loop pushes for the window ending at `i` are the specification's band points for that window. They use the moving average as the mean and divide by `w`. |
| Indicators.CalculateBollingerBands | src/components/NASDAQStockChart.js:353-370 | The result is `Bollinger`: the moving average, plus upper and lower bands at `mean +- numStdDev * deviation` for each window. |
| Indicators.Bollinger | src/components/NASDAQStockChart.js:353-370 | Definition of the three band series. `BollingerShape`, `BollingerSymmetric`, `BollingerOrdered` and `BollingerDeviationIsPopulation` state its properties. |
| Indicators.WindowDeviation | src/components/NASDAQStockChart.js:362-363 | Definition of a window's population standard deviation. `BollingerDeviationIsPopulation` and `BollingerOrdered` state its properties. |
| Indicators.BollingerShape | src/components/NASDAQStockChart.js:360-369 | The three series have equal length (one point per window) and the same timestamps. Each band point sits `numStdDev` window deviations from the average. |
| Indicators.BollingerSymmetric | src/components/NASDAQStockChart.js:365-366 | Upper plus lower is twice the average at every point. |
| Indicators.BollingerOrdered | src/components/NASDAQStockChart.js:363-366 | With `numStdDev >= 0` and a non-negative square root, lower <= average <= upper. |
| Indicators.BollingerDeviationIsPopulation | src/components/NASDAQStockChart.js:362-363 | With a true square root, the deviation is non-negative and its square times `w` is the sum of squared deviations. It is the population deviation (denominator `w`). |
| Indicators.SquaredDeviationsNonNegative | src/components/NASDAQStockChart.js:362-363 | The sum of `Math.pow(close - mean, 2)` is never negative. |
| Indicators.SquaredDeviationsPositive | src/components/NASDAQStockChart.js:626 | One close that differs from the mean makes the sum of squares positive. |
| Indicators.SquaredDeviationsOfMean | src/components/NASDAQStockChart.js:626 | Closes that all equal the mean give a sum of squares of zero. |
| Indicators.SumConstant | src/components/NASDAQStockChart.js:625 | `n` equal closes `c` sum to `n * c`. |
| Indicators.SquaredDeviations | src/components/NASDAQStockChart.js:362-363 | Definition of the sum of `Math.pow(close - mean, 2)`. `SquaredDeviationsNonNegative`, `SquaredDeviationsPositive` and `SquaredDeviationsOfMean` state its properties. |
| Indicators.StandardNormalDeviation | src/components/NASDAQStockChart.js:602-618 | One fan point per candle, at the candle's time, each holding seven levels. |
| Indicators.FanSymmetric | src/components/NASDAQStockChart.js:604-615 | Levels 1-3 and 4-6 pair up symmetrically about the close. Level 0 is half a sigma above the close, and levels 1-3 are 1, 2 and 3 sigma above it, where `sigma = close * volatility / 100 * expiration`. |
| Indicators.FanOrdered | src/components/NASDAQStockChart.js:604-615 | With a non-negative close, volatility and expiration, the levels are ordered from -3 sigma up to +3 sigma around the close. |
| Indicators.CalculateZScore | src/components/NASDAQStockChart.js:621-635 | The result is `null` exactly on an empty series. It is the undefined quotient exactly when the standard deviation is zero. |
| Indicators.Mean | src/components/NASDAQStockChart.js:625 | Definition of the mean close of the whole series. `ZScoreCollapses` and `ZScoreZeroDeviationIffConstant` state its properties. |
| Indicators.StdDev | src/components/NASDAQStockChart.js:626 | Definition of the population standard deviation of the whole series. `ZScoreZeroDeviationIffConstant` states when it is zero. |
| Indicators.ZScoreCollapses | src/components/NASDAQStockChart.js:624-634 | The positive level equals the last close, and the two levels are symmetric about the mean. The score times the deviation is the last close minus the mean. |
| Indicators.ZScoreZeroDeviationIffConstant | src/components/NASDAQStockChart.js:625-628 | With a square root that is zero only at zero, the deviation is zero exactly when all closes are equal. |
| Indicators.ZScoreProbability | src/components/NASDAQStockChart.js:667-670 | Definition of the two heuristic percentages. `ProbabilityMirror` states its properties. |
| Indicators.ProbabilityMirror | src/components/NASDAQStockChart.js:667-670 | The positive percentage at `z` is the negative one at `-z`, and the reverse. Both are 0 at `z = 0`, and for `0 < z <= 2` the positive one lies in `[0, 100)`. |
| Indicators.ConstantOverlay | src/components/NASDAQStockChart.js:659-660 | One point per candle, at the candle's time, all at the given value. |
| Indicators.ExampleAverages | src/components/NASDAQStockChart.js:343-370 | For closes 10, 12, 14, 16, 18 with window 3, the averages are 12, 14, 16 at the last three times. The first bands are `12 +- 2 * sqrt(8/3)`. |
| ChartPage.ValidRange | src/components/NASDAQStockChart.js:575 | The range is `1d` exactly for the intervals 1m, 2m, 5m and 15m, and `1mo` exactly for every other interval. |
| ChartPage.ZipQuotes | src/components/NASDAQStockChart.js:585-588 | One candle per timestamp. |
| ChartPage.ZipQuotesRoundTrip | src/components/NASDAQStockChart.js:585-588 | Candle `i` carries the four prices at index `i`. Its millisecond time divides back to the second it came from. |
| ChartPage.ZipQuotesKeepsTimeOrder | src/components/NASDAQStockChart.js:585-588 | Increasing timestamps give candles in increasing time. |
| ChartPage.Received | src/components/NASDAQStockChart.js:572-597 | A failed fetch changes nothing. A reply becomes the zipped main series, or the zipped comparison series when `isCompare` holds; the other series and every indicator are kept. |
| ChartPage.WithIndicator | src/components/NASDAQStockChart.js:637-677 | An indicator already listed changes nothing. Otherwise it is appended to the list. The price series are never changed. |
| ChartPage.AddIndicatorIdempotent | src/components/NASDAQStockChart.js:638 | Adding an indicator twice is the same as adding it once. |
| ChartPage.AddIndicatorKeepsDistinct | src/components/NASDAQStockChart.js:638-640 | The list never gets a duplicate, it only grows, and afterwards it holds the indicator. |
| ChartPage.AddIndicatorWritesOnlyItsSlots | src/components/NASDAQStockChart.js:642-676 | Each indicator writes only its own state: SMA and Bollinger write the average, only Bollinger writes the bands, and the fan and the z-score write only their own series. |
| ChartPage.AddIndicatorAverageMatches | src/components/NASDAQStockChart.js:643-650 | After SMA or Bollinger is added, the average shown is `Sma` of the main series. With Bollinger, the bands have the same length as it. |
| ChartPage.AddZScoreDrawsLastClose | src/components/NASDAQStockChart.js:655-671 | When the deviation is non-zero, the z-score draws two flat lines over every candle. The upper line is at the last close, the two are symmetric about the mean, and the percentages are those of the score. |
| ChartPage.AddZScoreOnEmptySeries | src/components/NASDAQStockChart.js:656-658 | On an empty series the z-score is listed but nothing is drawn. |
| ChartPage.ReceivedKeepsIndicators | src/components/NASDAQStockChart.js:590-594 | A series that arrives after SMA was added leaves the average computed from the old series. |
| ChartPage.IndicatorPanel.constructor | src/components/NASDAQStockChart.js:373-379 | The initial state: empty series and indicators, no probability. |
| ChartPage.IndicatorPanel.ReceiveHistoricalData | src/components/NASDAQStockChart.js:572-597 | The new state is `Received` of the old one, and the indicator list stays free of duplicates. |
| ChartPage.IndicatorPanel.AddIndicator | src/components/NASDAQStockChart.js:637-677 | The new state is `WithIndicator` of the old one, with the series computed by `CalculateSMA` and `CalculateBollingerBands`. The list stays free of duplicates. |
| ChartPage.Clicked | src/components/NASDAQStockChart.js:471-480 | The clicked column becomes the sort column. |
| ChartPage.SortIcon | src/components/NASDAQStockChart.js:482-485 | The neutral icon shows exactly on the columns that are not sorted. |
| ChartPage.ClickedTwiceRestores | src/components/NASDAQStockChart.js:472-473 | Clicking the sorted column twice restores the sort state. |
| ChartPage.ClickedIcons | src/components/NASDAQStockChart.js:471-485 | A first click on a column shows up, a second shows down, and every other column shows the neutral icon. |
| ChartPage.OrderSort.constructor | src/components/NASDAQStockChart.js:399-400 | Sorted by `type`, ascending. |
| ChartPage.OrderSort.HandleSort | src/components/NASDAQStockChart.js:471-480 | The new state is `Clicked` of the old one. |
| ChartPage.OrderSort.GetSortIcon | src/components/NASDAQStockChart.js:482-485 | The neutral icon shows exactly on the columns other than the sort column. |
| SignupService.TransformedData | src/services/signupService.js:13-21 | The body cannot be built (the date-formatting exception) exactly when the birthday is present and does not parse. |
| SignupService.TransformedDataCopiesFields | src/services/signupService.js:13-21 | Six fields are copied as typed. The birthday is `null` exactly when it is empty, and otherwise is the day of the parsed date. |
| SignupService.Classify | src/services/signupService.js:37-85 | Definition of how a reply, or its absence, becomes the settled outcome. `ClassifyResolvedIff`, `ClassifyStatusIff`, `ClassifyGeneralMessage` and `ClassifyValidationDetails` state its properties. |
| SignupService.HasFieldsIsFieldNames | src/pages/SignUpPage.js:180-188 | A form holds every field exactly when all seven field names are among its keys. |
| SignupService.Signup | src/services/signupService.js:4-86 | It resolves with the JSON body of a 2xx reply to the request built from the form, and only then. A 400 reply with `details` is rejected with those details unchanged and status 400. Every other rejection has a non-empty `general` message, and a rejection without a status is exactly the connection error. |
| SignupService.ClassifyResolvedIff | src/services/signupService.js:37-62 | The call resolves exactly on a 2xx reply with a JSON body, and resolves with that body. |
| SignupService.ClassifyStatusIff | src/services/signupService.js:40-85 | A rejection has no status exactly when no reply could be read: no response, a non-JSON body, or a failing `null` body. Otherwise it carries the reply's status. |
| SignupService.ClassifyGeneralMessage | src/services/signupService.js:40-85 | Every rejection other than a 400 with `details` has exactly one non-empty `general` entry: the server's message, `Validation failed`, `Server error occurred`, or the connection message. |
| SignupService.ClassifyValidationDetails | src/services/signupService.js:41-49 | A 400 with `details` hands those details on unchanged, with status 400. |
| SignupService.UnparseableBirthdayReportsNetwork | src/services/signupService.js:19 | An unparseable birthday never reaches the server. The call fails with the connection message, whatever the server would answer. |
| SignUpPage.TrimStartKeepsTail | src/pages/SignUpPage.js:198 | Cutting leading whitespace keeps a tail of the string that does not start with whitespace, and cuts only whitespace. |
| SignUpPage.TrimEndKeepsHead | src/pages/SignUpPage.js:198 | Cutting trailing whitespace keeps a head of the string that does not end with whitespace, and cuts only whitespace. |
| SignUpPage.TrimEmptyIffBlank | src/pages/SignUpPage.js:198 | `!s.trim()` holds exactly when every character of `s` is whitespace. |
| SignUpPage.TrimIsMiddle | src/pages/SignUpPage.js:198 | `trim` returns a contiguous middle of `s`, with only whitespace before and after it. |
| SignUpPage.Trim | src/pages/SignUpPage.js:198 | Definition of `String.prototype.trim`. `TrimStartKeepsTail`, `TrimEndKeepsHead`, `TrimEmptyIffBlank` and `TrimIsMiddle` state its properties. |
| SignUpPage.EmailPatternIsSearch | src/pages/SignUpPage.js:204 | The email test holds exactly when some substring is a whole match of `\S+@\S+\.\S+`. |
| SignUpPage.EmailPatternNotBlank | src/pages/SignUpPage.js:204 | A string the email test accepts is not blank. |
| SignUpPage.EmailPattern | src/pages/SignUpPage.js:204 | Definition of `/\S+@\S+\.\S+/.test`. `EmailPatternIsSearch` ties it to the regular expression's search semantics. |
| SignUpPage.PhonePatternAlternatives | src/pages/SignUpPage.js:216 | The phone test holds exactly for a national number (a nonzero digit followed by 1-14 digits), with or without a leading `+`. A match has 2 to 16 characters and is not blank. |
| SignUpPage.PhonePattern | src/pages/SignUpPage.js:216 | Definition of `/^\+?[1-9]\d{1,14}$/.test`. `PhonePatternAlternatives` states both readings of the optional `+`. |
| SignUpPage.UsernameError | src/pages/SignUpPage.js:198-200 | Definition of the user-name check. `UsernameErrorIff` states it in terms of the name's content. |
| SignUpPage.EmailError | src/pages/SignUpPage.js:202-206 | Definition of the email checks. `EmailErrorIff` states them in terms of the email's content. |
| SignUpPage.PasswordError | src/pages/SignUpPage.js:208-212 | Definition of the password checks. `PasswordErrorIff` states them in terms of the password's content. |
| SignUpPage.PhoneError | src/pages/SignUpPage.js:214-218 | Definition of the phone checks. `PhoneErrorIff` states them in terms of the number's content. |
| SignUpPage.GenderError | src/pages/SignUpPage.js:220-222 | Definition of the gender check, which does not trim. `FormErrorsChoiceFields` states its entry. |
| SignUpPage.BirthdayNotPast | src/pages/SignUpPage.js:227-229 | Definition of `new Date(birthday) >= today`, false for a birthday the parser rejects. `FormErrorsChoiceFields` and `FormErrorsEmptyIff` state the errors it decides. |
| SignUpPage.BirthdayError | src/pages/SignUpPage.js:224-232 | Definition of the birthday checks. `FormErrorsChoiceFields` states its entries. |
| SignUpPage.ImageError | src/pages/SignUpPage.js:234-236 | Definition of the image check. `FormErrorsChoiceFields` states its entry. |
| SignUpPage.UsernameErrorIff | src/pages/SignUpPage.js:198-200 | A blank user name gets `Username is required`; any other passes. |
| SignUpPage.EmailErrorIff | src/pages/SignUpPage.js:202-206 | A blank email gets `Email is required`, a non-blank one that does not match gets `Invalid email format`, and it passes exactly when the pattern matches. |
| SignUpPage.PasswordErrorIff | src/pages/SignUpPage.js:208-212 | A blank password gets `Password is required`, a non-blank one under 6 characters gets `Password must be at least 6 characters`, and it passes exactly otherwise. |
| SignUpPage.PhoneErrorIff | src/pages/SignUpPage.js:214-218 | A blank number gets `Phone number is required`, a non-blank one that does not match gets `Invalid phone number format`, and it passes exactly when the pattern matches. |
| SignUpPage.Collect | src/pages/SignUpPage.js:196-236 | The error object has keys only among the seven field names. |
| SignUpPage.CollectKeys | src/pages/SignUpPage.js:196-239 | The object is empty exactly when no check failed, and each of the seven fields has an entry exactly when its own check failed. |
| SignUpPage.CollectValues | src/pages/SignUpPage.js:196-236 | Each failed check's entry is its own message; no later check overwrites it. |
| SignUpPage.FormErrors | src/pages/SignUpPage.js:195-237 | The errors name only form fields. |
| SignUpPage.FormErrorsEmptyIff | src/pages/SignUpPage.js:238-239 | Validation passes exactly when every field meets its condition (`Acceptable`). |
| SignUpPage.FormErrorsTextFields | src/pages/SignUpPage.js:198-218 | User name, email, password and phone number each have an entry exactly when they fail their own condition, with the message for the reason: missing when blank, otherwise malformed or too short. |
| SignUpPage.FormErrorsChoiceFields | src/pages/SignUpPage.js:220-236 | Gender and image have an entry exactly when empty, with their required message. The birthday has `Birthday is required` when empty and `Birthday must be a past date` when it parses to today or later, and no entry otherwise. |
| SignUpPage.ClearError | src/pages/SignUpPage.js:246-248 | The keys are kept, the named error becomes empty, and every other entry is kept. |
| SignUpPage.ClearErrorIdempotent | src/pages/SignUpPage.js:246-248 | Clearing twice is clearing once, and clearing never adds a non-empty error. |
| SignUpPage.Settle | src/pages/SignUpPage.js:289-313 | Definition of what the submit shows once the service call has settled. |
| SignUpPage.Submit | src/pages/SignUpPage.js:281-314 | Definition of `handleSubmit` as a function. `SubmitValidSettles`, `SubmitInvalidNeverCallsServer`, `SubmitSignedUpIff` and `SubmitRejectedShowsServerErrors` state its properties. |
| SignUpPage.MergeDetails | src/pages/SignUpPage.js:305-311 | The loop's result is `errors` overridden by `details`: the keys of both, with the server's message on each field it names. |
| SignUpPage.SubmitValidSettles | src/pages/SignUpPage.js:284-293 | An acceptable form is always sent, starting from no errors. |
| SignUpPage.SubmitInvalidNeverCallsServer | src/pages/SignUpPage.js:284-287 | An unacceptable form is never sent: the result is the validation errors, whatever the server would answer. |
| SignUpPage.SubmitSignedUpIff | src/pages/SignUpPage.js:284-295 | Sign-up succeeds exactly when the form is acceptable and the service resolves. No error is shown then. |
| SignUpPage.SubmitRejectedShowsServerErrors | src/pages/SignUpPage.js:296-313 | After a rejection, a general message leaves the form without errors; otherwise the form shows exactly the server's field errors. Field errors come only from a 400 reply. |
| SignUpPage.SignUpForm.constructor | src/pages/SignUpPage.js:180-192 | All seven fields empty, no errors, no preview, no gender. |
| SignUpPage.SignUpForm.ValidateForm | src/pages/SignUpPage.js:195-240 | The shown errors become `FormErrors` of the form, and nothing else changes. The result is true exactly when there are no errors, which is exactly when the form is `Acceptable`. |
| SignUpPage.SignUpForm.HandleChange | src/pages/SignUpPage.js:242-249 | The field takes the new value, its shown error is cleared, and nothing else changes. |
| SignUpPage.SignUpForm.HandleFileChange | src/pages/SignUpPage.js:251-258 | Reading starts exactly for a chosen file of at most 5 MB. A larger file sets exactly the image error. No file changes nothing. |
| SignUpPage.SignUpForm.ImageLoaded | src/pages/SignUpPage.js:259-268 | The data URL becomes the image and the preview, and the image error is cleared. |
| SignUpPage.SignUpForm.HandleGenderSelect | src/pages/SignUpPage.js:272-279 | The gender is selected and stored in the form, and its error is cleared. |
| SignUpPage.SignUpForm.HandleSubmit | src/pages/SignUpPage.js:281-314 | The result and the errors shown afterwards are `Submit` of the form as it was, and the form is unchanged. |

The model follows the code as written in these places:

- A non-positive expiration or volatility is not rejected; the fan is computed from it.
- A degenerate z-score input is not reported as an error.
  - An empty series gives `null`.
  - A zero deviation gives the undefined quotient. See `ChartPage.WithIndicator` below.
- Indicators are not recomputed when a new series arrives.
- A birthday the date parser rejects passes validation. `new Date(...) >= today` is false for an invalid date. The service then fails while formatting it and reports the connection message.

## Left out

- HTTP and the network. The sign-up exchange is the parameter `server` (request body to reply). The chart API reply is an `Option<Quote>`, where `None` stands for any failure of the request or of reading `chart.result[0]`.
- The clock and the date functions. `new Date()` is the parameter `today` (milliseconds). `new Date(s)` is `parseDate`, and `toISOString().split('T')[0]` is `isoDay`. `Math.sqrt` is the parameter `sqrt`; lemmas that need its properties state them as preconditions.
- IEEE floating point. Prices are exact reals, so NaN, infinities and rounding are not modelled. Neither is the display formatting (`toFixed`).
- Rendering, styled components, modals, toasts, console logging, the loading flag and navigation to `/login`.
- The asynchronous interleaving of handlers. Each handler runs to completion on the state it starts from, so React's batched `setState` calls and the closures that see stale state are not modelled. In particular, `onloadend` reads the `formData` and `errors` of the render that created the reader.
- Quote arrays shorter than the timestamp list, and `null` prices. `ChartPage.ZipQuotes` requires every price array to cover the timestamps.
- ChartPage.IndicatorPanel.AddIndicator: requires `windowSize >= 1` for a new SMA or Bollinger indicator. With a smaller window, the source throws a TypeError reading `data[i].x` at a negative index in `calculateSMA`, which the Bollinger calculation calls first.
- ChartPage.WithIndicator: when every close is equal, the source still stores two overlays and percentages, but all of them are NaN. The model leaves the z-score state unchanged in that case. The same applies to `ChartPage.IndicatorPanel.AddIndicator`.
- SignUpPage.PasswordErrorIff: the length is counted in characters, not in UTF-16 code units, so a password with astral-plane characters may be counted shorter than JavaScript counts it.
- SignupService.Classify: JSON bodies are either `null` or objects whose `details` is a map of strings and whose `message` is a string. Other JSON values (arrays, numbers, `details` whose members are not strings) are not modelled.
- The real file contents. `HandleFileChange` receives only the file's size; the data URL the reader produces is the argument of `ImageLoaded`.
- The rest of the chart page (live prices, trade orders, comparison stock selection) and of the application. These are not part of this model.
