# Agricultural dashboard pages — a Dafny model

This project models the client-side logic of four pages of a Next.js
agricultural dashboard:

- **Market prices** (`app/market-price/page.tsx`). The user picks a
  commodity, a state and a date range. Submitting the form resets the page,
  checks the parameters (all present, end date not after today, start date
  not after end date), builds the backend URL with every value passed
  through `encodeURIComponent`, and then shows the rows, "No data found" or
  "Error fetching market prices". The page is the class
  `MarketPrice.MarketPricePage`. Its fields are the React state variables,
  and `Submit` is `handleSubmit`. The fetch is a parameter: `today` is the
  UTC date and `outcome` is what the backend answered.
- **AI chat** (`app/ai/page.tsx`). The chat log opens with a greeting.
  `Send` appends the user's message when the input is not blank after
  `trim()`, and it clears the input. `DeliverReply` is the timer callback
  that appends the canned AI answer. The class is `AiChat.ChatPage`.
- **Weather** (`app/weather/page.tsx`). This part is pure. It covers the
  icon chosen from a condition text (cloud, then rain, then storm, else
  sun), the card heading `time || date`, the 1–7 day duration gate that
  disables Refresh and replaces the forecast tab, the `?.data || []`
  defaulting of the payload, and the three chart series.
- **Cloud** (`app/cloud/page.tsx`). This part is pure. It covers the
  usage caption thresholds (above 80 High, above 50 Moderate, else Low)
  and the capitalisation of pipeline statuses.

The JavaScript library behaviour these pages rely on is modelled in shared
modules:

- `Text`: `String.prototype.trim` with the ECMAScript white-space set,
  `toLowerCase`, `includes`, and `charAt(0).toUpperCase() + slice(1)`.
- `StringOrder`: the relational `<` on strings, which compares UTF-16 code
  units.
- `UriComponent`: `encodeURIComponent`, which is UTF-8 (RFC 3629) followed
  by percent-encoding of every byte outside the unreserved set of
  section 18.2.6.5 of ECMA-262. It comes with a decoder, and the round trip
  through it is proved.

On the market-price page, the parameters are validated inside
`handleSubmit` as well as by the form's `required` attributes. The model
follows the code, so an incomplete query is rejected with "Please select
all parameters." even when the form is bypassed.

## Model

| member | source | states |
|---|---|---|
| Text.TrimStart | app/ai/page.tsx:24 | result is a suffix of the input; empty iff the input is all white space; otherwise it starts with a non-white-space character |
| Text.TrimEnd | app/ai/page.tsx:24 | result is a prefix of the input; empty iff the input is all white space; otherwise it ends with a non-white-space character |
| Text.Trim | app/ai/page.tsx:24 | `trim()` is no longer than the input and, when not empty, starts and ends with a non-white-space character |
| Text.TrimStartDropsBlank | app/ai/page.tsx:24 | the prefix that trimming the start removes is all white space |
| Text.TrimEndDropsBlank | app/ai/page.tsx:24 | the suffix that trimming the end removes is all white space |
| Text.TrimIsSlice | app/ai/page.tsx:24 | `trim()` is the contiguous slice of the input that starts right after its leading white space |
| Text.TrimDropsBlank | app/ai/page.tsx:24 | what `trim()` removes before and after that slice is all white space, so with `Text.Trim` it removes exactly the leading and trailing white space |
| Text.TrimEmptyIff | app/ai/page.tsx:24 | `trim()` is empty exactly when every character is ECMAScript white space |
| Text.Lower | app/weather/page.tsx:214-218 | `toLowerCase()` keeps the length and maps each character through the ASCII lower-case mapping |
| Text.LowerIdempotent | app/weather/page.tsx:214-218 | lower-casing twice equals lower-casing once |
| Text.LowerIgnoresUpper | app/cloud/page.tsx:150 | lower-casing a capitalised string gives the same result as lower-casing the original |
| Text.IncludesIff | app/weather/page.tsx:214-218 | `includes(p)` holds iff `p` occurs at some index of the string |
| Text.Capitalize | app/cloud/page.tsx:150 | `charAt(0).toUpperCase() + slice(1)` keeps the length and every character after the first, and upper-cases the first |
| Text.CapitalizeIdempotent | app/market-price/page.tsx:108 | capitalising twice equals capitalising once |
| StringOrder.UnitsLessIrreflexive | app/market-price/page.tsx:61 | no code-unit sequence is less than itself |
| StringOrder.UnitsLessAsymmetric | app/market-price/page.tsx:61-66 | two code-unit sequences are never each less than the other |
| StringOrder.LessIrreflexive | app/market-price/page.tsx:61-66 | the JS comparison `a > a` is false for every string, so equal dates pass both date guards |
| StringOrder.LessAsymmetric | app/market-price/page.tsx:61-66 | `a < b` and `b < a` never hold together: JS `<` on strings is a strict order |
| StringOrder.UnitsLessTotal | app/market-price/page.tsx:61 | any two different code-unit sequences are ordered one way or the other |
| StringOrder.UnitsAtMostTransitive | app/market-price/page.tsx:61-66 | "not greater than" on code-unit sequences is transitive |
| StringOrder.AtMostTransitive | app/market-price/page.tsx:61-66 | for JS strings: `!(today < end)` and `!(end < start)` give `!(today < start)` |
| StringOrder.IsoDateOrder | app/market-price/page.tsx:55-66 | on `YYYY-MM-DD` dates, the string comparison `<` agrees with chronological order (year, then month, then day) |
| UriComponent.PercentByte | app/market-price/page.tsx:73-77 | each escape is `%` and two upper-case hex digits whose value is the byte |
| UriComponent.Encode | app/market-price/page.tsx:73-77 | `encodeURIComponent(s)` is never shorter than `s`; `UriComponent.DecodeEncode` gives its inverse |
| UriComponent.PercentBytes | app/market-price/page.tsx:73-77 | escaping a byte sequence gives exactly three characters per byte |
| UriComponent.PercentBytesAlphabet | app/market-price/page.tsx:73-77 | every character of the escaped bytes is `%` or a hex digit |
| UriComponent.EncodeAlphabet | app/market-price/page.tsx:73-77 | `encodeURIComponent` output uses only unreserved characters, `%` and hex digits |
| UriComponent.EncodeAvoidsDelimiters | app/market-price/page.tsx:71-77 | an encoded value never contains `&`, `=`, `#` or `+`, so it cannot break the query string |
| UriComponent.Utf8 | app/market-price/page.tsx:73-77 | a character takes one to four bytes, each below 256, and a single byte exactly when it is ASCII |
| UriComponent.UnescapePercentBytes | app/market-price/page.tsx:73-77 | the `%XX` escapes of a byte sequence unescape to exactly those bytes, ahead of whatever follows |
| UriComponent.UnescapeEncode | app/market-price/page.tsx:73-77 | unescaping `encodeURIComponent(s)` gives the UTF-8 bytes of `s` |
| UriComponent.DecodeScalarUtf8 | app/market-price/page.tsx:73-77 | the UTF-8 bytes of one character decode back to that character and consume exactly those bytes |
| UriComponent.Utf8DecodeEncode | app/market-price/page.tsx:73-77 | UTF-8 decoding undoes UTF-8 encoding for every string |
| UriComponent.DecodeEncode | app/market-price/page.tsx:73-77 | decoding `encodeURIComponent(s)` gives back `s` for every string `s` |
| MarketPrice.OptionLabels | app/market-price/page.tsx:106-108 | one label per commodity, in order, each the commodity with its first letter upper-cased |
| MarketPrice.CommodityOptionLabels | app/market-price/page.tsx:106-108 | the labels shown for the fixed commodity list are Potato … Groundnut |
| MarketPrice.Validate | app/market-price/page.tsx:56-70 | rejects with the missing-parameters message iff a field is empty; with the future-end-date message iff all are present and `today < endDate`; with the reversed-range message iff neither of those holds and `endDate < startDate`; accepts otherwise |
| MarketPrice.AcceptedStartNotInFuture | app/market-price/page.tsx:56-70 | an accepted query also has its start date not after today |
| MarketPrice.AcceptedIffChronological | app/market-price/page.tsx:55-70 | for complete ISO dates, acceptance is exactly start ≤ end ≤ today in calendar order |
| MarketPrice.RequestUrlLayout | app/market-price/page.tsx:71-77 | `RequestUrl`, the request URL, is the backend, the endpoint path, and the four `key=encodeURIComponent(value)` pairs joined by `&`, in the source's order |
| MarketPrice.ReadJoinParams | app/market-price/page.tsx:71-77 | splitting the joined query on `&` and `=` and decoding recovers every key/value pair, when the keys are unreserved |
| MarketPrice.QueryRoundTrip | app/market-price/page.tsx:71-77 | the backend can read back exactly the commodity, state, start and end date the user chose, whatever characters they hold |
| MarketPrice.PanelFor | app/market-price/page.tsx:147-155 | the result panel is Loading iff loading; otherwise the error iff an error is set; otherwise Empty iff there are no rows; otherwise the table of exactly those rows |
| MarketPrice.MarketPricePage.constructor | app/market-price/page.tsx:16-22 | the page starts with no rows, not loading, no error and empty form fields |
| MarketPrice.MarketPricePage.SetCommodity | app/market-price/page.tsx:100-102 | changes the commodity field only |
| MarketPrice.MarketPricePage.SetState | app/market-price/page.tsx:112-114 | changes the state field only |
| MarketPrice.MarketPricePage.SetStartDate | app/market-price/page.tsx:124-127 | changes the start date field only |
| MarketPrice.MarketPricePage.SetEndDate | app/market-price/page.tsx:131-134 | changes the end date field only |
| MarketPrice.MarketPricePage.SubmitDisabled | app/market-price/page.tsx:141 | the Show Prices button is disabled exactly when the result panel shows the loading state |
| MarketPrice.MarketPricePage.BeginSubmit | app/market-price/page.tsx:52-77 | clears rows and error; on a rejected query stops loading with the verdict's message and issues no request; on an accepted one stays loading and issues the request URL for the form |
| MarketPrice.MarketPricePage.Complete | app/market-price/page.tsx:78-90 | always stops loading; success stores the rows; an unsuccessful answer sets "No data found"; a failure sets "Error fetching market prices"; other fields are unchanged |
| MarketPrice.MarketPricePage.Submit | app/market-price/page.tsx:50-91 | a request is issued iff the form is valid, and it is the form's URL; a rejection leaves no rows and shows its message; otherwise the rows, "No data found" or the fetch error is shown; the form and the backend are unchanged; loading is off at the end |
| AiChat.CanSendIff | app/ai/page.tsx:24 | `CanSend`, the guard `input.trim()`, allows sending iff some character of the input is not white space |
| AiChat.SendDisabledIff | app/ai/page.tsx:89 | `SendDisabled`, the button's `disabled`, holds iff every character of the input is white space |
| AiChat.ButtonMatchesGuard | app/ai/page.tsx:24-89 | the button is disabled exactly when `handleSend` would do nothing |
| AiChat.CountAppend | app/ai/page.tsx:25-36 | appending a message adds one to its sender's count and nothing to the other's |
| AiChat.CountsPartition | app/ai/page.tsx:25-36 | every message in the log is counted once, as either the AI's or the user's |
| AiChat.PrefixTransitive | app/ai/page.tsx:25-36 | the history-only-grows relation composes across several sends and replies |
| AiChat.ChatPage.constructor | app/ai/page.tsx:15-21 | the log holds exactly the AI greeting; the input is empty; no reply is pending |
| AiChat.ChatPage.SetInput | app/ai/page.tsx:81 | sets the input and leaves the log unchanged |
| AiChat.ChatPage.Send | app/ai/page.tsx:23-38 | with a non-blank input, appends the user's message with the untrimmed text, clears the input and schedules one reply; with a blank input, changes nothing; earlier messages are never altered |
| AiChat.ChatPage.DeliverReply | app/ai/page.tsx:28-36 | appends the canned AI answer to the latest log, leaves the input, and fulfils one pending reply |
| AiChat.ChatPage.Settled | app/ai/page.tsx:15-36 | once no reply is pending, the log holds exactly one more AI message than user messages, so its length is odd: twice the user messages plus one |
| Weather.ConditionIcon | app/weather/page.tsx:214-220 | the cloud icon iff the lower-cased condition mentions "cloud"; rain iff it mentions "rain" and not "cloud"; storm iff it mentions "storm" and neither of the others; the sun icon otherwise, including a missing condition |
| Weather.RainBeatsStorm | app/weather/page.tsx:294-300 | a condition that mentions rain and storm but not cloud shows the rain icon |
| Weather.IconIgnoresCase | app/weather/page.tsx:294-300 | the icon does not depend on the letter case of the condition |
| Weather.Icons | app/weather/page.tsx:206-220 | one icon per card, each the classifier of that row's condition |
| Weather.Heading | app/weather/page.tsx:288 | a forecast card is headed by its time when that is a non-empty string, and by its date otherwise |
| Weather.RefreshDisabled | app/weather/page.tsx:172 | Refresh is enabled iff the duration lies between 1 and 7 days inclusive |
| Weather.RowsOf | app/weather/page.tsx:65-66 | a section's rows are its data when present, else the empty list |
| Weather.PastRows | app/weather/page.tsx:65 | past rows default to empty when there is no payload or no past data |
| Weather.ForecastRows | app/weather/page.tsx:66 | forecast rows default to empty when there is no payload or no forecast data |
| Weather.PastTab | app/weather/page.tsx:181-202 | the past tab shows the spinner iff loading, otherwise the cards of exactly the past rows iff there are any, otherwise the no-data notice; it never shows the duration error |
| Weather.ForecastTab | app/weather/page.tsx:255-279 | the forecast tab shows the duration error iff the duration is outside 1–7, then the spinner iff loading, then the forecast cards iff there are any |
| Weather.RefreshEnabledIffForecastShown | app/weather/page.tsx:172-255 | Refresh is enabled exactly when the forecast tab does not show the duration error |
| Weather.Project | app/weather/page.tsx:69-103 | `data.map(f)` has one entry per row, each `f` of that row |
| Weather.TemperatureSeries | app/weather/page.tsx:69-79 | labels are the row dates and values the temperatures, in row order |
| Weather.HumiditySeries | app/weather/page.tsx:81-91 | labels are the row dates and values the humidities, in row order |
| Weather.WindSeries | app/weather/page.tsx:93-103 | labels are the row dates and values the wind speeds, in row order |
| Weather.ChartsShareLabels | app/weather/page.tsx:69-103 | the three charts share the same x-axis labels |
| Weather.ProjectAppend | app/weather/page.tsx:69-103 | mapping concatenated rows is the concatenation of the mapped parts |
| Cloud.UsageOf | app/cloud/page.tsx:69 | High usage iff the value exceeds 80; Moderate iff it exceeds 50 and is at most 80; Low iff it is at most 50 |
| Cloud.UsageMonotone | app/cloud/page.tsx:69 | a larger value never gets a lower usage bucket |
| Cloud.CaptionInjective | app/cloud/page.tsx:69 | `Caption` gives the three buckets distinct texts |
| Cloud.Captions | app/cloud/page.tsx:53-69 | one caption per metric, each the bucket of that metric's value |
| Cloud.InfrastructureCaptions | app/cloud/page.tsx:18-23 | the listed metrics read Moderate, Low, Moderate and Low usage |
| Cloud.PipelineStatusLabels | app/cloud/page.tsx:129-150 | the listed pipeline stages display Completed, Completed, Running and Pending |

## Left out

- Network I/O: the `fetch` calls of the market-price and weather pages are not modelled. The market-price answer is a parameter (`Outcome`), and `fetchWeather`'s request and response handling is not part of this model; only the payload shape it stores is.
- The backend base URL comes from the environment, so it is a parameter (`backend`).
- `new Date().toISOString().slice(0, 10)` reads the clock, so the UTC date `today` is a parameter of `Submit`.
- Timers: the 1200 ms `setTimeout` in the chat is modelled as a separate `DeliverReply` step that may run at any later time. The ghost count `pendingReplies` stands for the scheduled callbacks.
- Overlapping submits: two `handleSubmit` calls whose fetches interleave are not modelled; `Submit` runs one request to completion.
- AiChat.ChatPage.Send: the source appends using the `messages` value captured at render time. The model appends to the current log, which is the same thing when no reply arrives between the render and the click.
- Text.Lower, Text.Capitalize: only ASCII letters change case. Full Unicode case mapping (for example `ß` upper-casing to `SS`, which changes the length) is not modelled.
- UriComponent.Encode: Dafny's `char` is a Unicode scalar value, so the lone surrogates that make `encodeURIComponent` throw `URIError` cannot occur in the model.
- StringOrder.IsoDateOrder: string order equals calendar order only for four-digit-year `YYYY-MM-DD` strings. Other strings are still compared by code units, exactly as the source does.
- Weather.RefreshDisabled: the duration is a `real`, so `NaN` from an unparsable input (which leaves Refresh enabled in the source) is not modelled.
- Weather.TemperatureSeries: the legend is kept as the characters stored in the file (`Temperature (¬∞C)`, a mis-encoded degree sign). Chart options, colours and animations are not modelled.
- Temperature units: the forecast card shows `temperature - 273.15` (app/weather/page.tsx:291), while the past card (line 211) and both charts (line 74) use the raw value under a °C label. Which unit the backend sends for each section is not part of this model, so the series carry the raw value exactly as the source does.
- Floating-point formatting of prices, temperatures and percentages, and all styling and static markup, are not modelled.
- The login, register and API proxy pages, the layout, and the remaining static pages are not part of this model.
