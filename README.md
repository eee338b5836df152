# Scalpe page logic in Dafny

This project models the logic of the trading-journal web pages in
`assets/js/app.js`. The DOM wiring is not modelled. The project has these modules:

- **Markets**: the closed table of markets (`marketMeta`), the lookup
  that falls back to the global market (`getMarketMeta`), and the three-way
  decision made by `formatPriceForMarket`: dashes, the raw value, or a
  currency amount.
- **Trades** (`TradesModule`): the journal of trade records kept under
  one storage key. It covers the submit handler that builds a normalised record and
  creates or replaces it by id, the delete-by-id filter, clear-all, and the
  edit action that copies a record back into the form. The journal is a
  class whose storage slot each handler rewrites.
- **IndiaMarket** (`IndiaMarketModule`): the ticker strip shows a
  three-quote window over five quotes and rotates by one per render. It is a class with
  the `tickerIndex` field. The module also covers the session classifier over the
  minute of the day in India.
- **Subscription** (`SubscriptionModule`): the billing toggle, the
  selected plan, the summary beside the plan cards, and the payment submit
  that refuses without a plan and clears the selection afterwards.
- **Analysis** (`AnalysisModule`): covers these parts:
  - the newest-first history, cut to ten entries;
  - the heading/paragraph classification of the returned analysis text;
  - the API-key field and its mask;
  - the image-upload guard on type and size.
- **JsString**, **Storage**, **Wrappers**: the JavaScript string
  operations the logic relies on:
  - `toUpperCase` on ASCII letters;
  - ECMAScript `trim`, `startsWith` and `split("\n")`;
  - the test `/^\d+\./`.

  They also hold what `JSON.parse(localStorage.getItem(key))` yields under
  the page's `try`/`catch` fallback, and an `Option` type.

Browser services are passed in as parameters. The id from
`generateId`, `Date.now()`, `Number(text)`, `Number(text).toFixed(2)`, the
user's answer to `confirm` and the clock in India all arrive as arguments.

## Model

| member | source | states |
|---|---|---|
| Markets.Lookup | assets/js/app.js:51-73 | A key finds a market exactly when it is one of the three table keys, and the market found has that key. |
| Markets.Key | assets/js/app.js:51-73 | The reference table of keys: `global`, `nse` and `bse`. |
| Markets.Meta | assets/js/app.js:51-73 | The reference table of rows: label, currency, symbol, placeholder and locale of each market. |
| Markets.LookupKey | assets/js/app.js:51-73 | Every market's key leads back to that market. |
| Markets.GetMarketMeta | assets/js/app.js:75 | A known key gets its own row. Every other key gets the global row. Only the global row carries the `$` symbol. |
| Markets.FormatPriceForMarket | assets/js/app.js:77-86 | Undefined, null and empty text, and nothing else, give `--`. Non-empty text that does not parse comes back unchanged. Everything else becomes an amount with the symbol and locale of the market's row (global for unknown keys) and the parsed value. |
| Trades.FindIndex | assets/js/app.js:196 | Gives the first position holding the id, or -1 exactly when no record has it. |
| Trades.RemoveById | assets/js/app.js:145 | The reference definition of the delete filter: the records whose id differs, in order. Its properties are stated by RemoveByIdMeaning. |
| Trades.FindTrade | assets/js/app.js:150 | A record is found exactly when the id is stored. The record found is the first one with that id. |
| Trades.BuildPayload | assets/js/app.js:188-195 | The id comes from the form when the form has one, otherwise from the generated id. The asset is the form's asset upper-cased: same length, no lower-case letter, and already upper-case text kept. An empty market field gives `global`, and any other market value is kept. Bias is kept, and both prices go through `toFixed(2)`. |
| Trades.Upsert | assets/js/app.js:196-201 | A present id replaces the first record with that id, at the same position and with the same length. An absent id is appended at the end. Every other position, including later records with the same id, keeps its value. The id set grows by exactly the payload's id, and unique ids stay unique. |
| Trades.RemoveByIdMeaning | assets/js/app.js:145 | After filtering, no record with the id remains and every other record keeps its count. The result is an order-preserving subsequence of the input, and removing an absent id changes nothing. |
| Trades.RemoveByIdKeepsUnique | assets/js/app.js:145 | Deleting by id keeps unique ids unique. |
| Trades.RemoveByIdAppend | assets/js/app.js:145 | Filtering by id distributes over concatenation. |
| Trades.RemoveUndoesFreshUpsert | assets/js/app.js:145-146 | Deleting a record just added under a fresh id gives back the previous list. |
| Trades.FindAfterUpsert | assets/js/app.js:150 | After a submit, looking the id up finds exactly the submitted record. |
| Trades.UpsertAllFresh | assets/js/app.js:189-201 | Submitting records that have pairwise distinct ids, all new to the journal, appends them in submission order. |
| Trades.ResubmitEditedTradeUnchanged | assets/js/app.js:150-158 | Editing a stored record that is already normalised and submitting the form unchanged leaves the journal as it was. |
| Trades.EditForm | assets/js/app.js:153-157 | The reference definition of the form the edit action fills: each form field holds the record's field. |
| Trades.TradeJournal.Submit | assets/js/app.js:186-201 | Stores the create-or-replace of the built record. Keeps ids unique. Appends when the form has no id and the generated one is fresh, and keeps the length when the form's id is stored. |
| Trades.TradeJournal.Delete | assets/js/app.js:141-147 | Stores the filtered list. Afterwards the id is gone, the journal is unchanged when the id was absent, and unique ids stay unique. |
| Trades.TradeJournal.Reset | assets/js/app.js:211-215 | After a confirmed reset the slot is removed and the journal reads as empty. An unconfirmed reset changes nothing. |
| Trades.TradeJournal.Edit | assets/js/app.js:149-158 | Gives a form exactly when the id is stored. The form is filled from the first stored record with that id and carries that id. |
| Trades.TradeJournal.constructor | assets/js/app.js:92-98 | The journal starts from whatever the storage slot holds. |
| Trades.TradeJournal.Trades | assets/js/app.js:92-98 | `loadTrades()`: the stored list, or empty when the slot is absent or unreadable. |
| Storage.ReadList | assets/js/app.js:92-98 | The reference definition of reading a slot: its list, or empty when it is absent or unreadable. |
| IndiaMarket.Slice | assets/js/app.js:261 | Bounds are clamped to the length, and each element comes from its offset after the start. |
| IndiaMarket.TickerWindow | assets/js/app.js:261-264 | For at least two quotes and an index inside the list, the window has three quotes: those at index, index+1 and index+2 modulo the length. |
| IndiaMarket.NextIndex | assets/js/app.js:278 | The next index stays below the length. It is one more than the current index, or 0 after the last quote. |
| IndiaMarket.IndexAfter | assets/js/app.js:278 | The reference definition of the index after k renders: k applications of the step from 0. Its values are stated by IndexAfterIsMod. |
| IndiaMarket.IndexAfterCountsUp | assets/js/app.js:255-278 | During the first full round the index counts up from 0. |
| IndiaMarket.IndexAfterPeriodic | assets/js/app.js:255-278 | Every length-many renders the strip is back where it was. |
| IndiaMarket.IndexAfterRounds | assets/js/app.js:255-278 | After whole rounds plus r renders the strip starts at quote r. |
| IndiaMarket.IndexAfterIsMod | assets/js/app.js:255-278 | After k renders the strip starts at quote k mod length. |
| IndiaMarket.TickerStrip.constructor | assets/js/app.js:229-255 | The strip starts at index 0 over the five fixed quotes. |
| IndiaMarket.TickerStrip.RenderTickers | assets/js/app.js:259-279 | Without the strip's element nothing is shown and the index is kept. Otherwise it shows the three circular positions from the old index and advances the index by one mod the length, staying in range. |
| IndiaMarket.ClassifySession | assets/js/app.js:310-319 | Live exactly when 555 ≤ minutes ≤ 930, pre-open exactly when minutes < 555, closed exactly when minutes > 930. |
| IndiaMarket.SessionMonotone | assets/js/app.js:314-319 | Over the day the status only moves forward: pre-open, then live, then closed. |
| IndiaMarket.LiveOnTheClock | assets/js/app.js:310-316 | On the clock, the session is live from 9:15 up to and including 15:30. |
| IndiaMarket.StatusLine | assets/js/app.js:327 | The live status reads "NSE cash session active". Any other status reads "India session: " followed by its text. |
| IndiaMarket.StatusText | assets/js/app.js:314-318 | The reference definition of the three status texts: "Cash session LIVE", "Pre-open" and "Closed". |
| Subscription.CardPrice | assets/js/app.js:369-371 | A card shows its yearly price under yearly billing and its monthly price otherwise. |
| Subscription.SelectAsWritten | assets/js/app.js:409-412 | The selection keeps the plan name and the price the card showed at the click. |
| Subscription.SummaryAsWritten | assets/js/app.js:380-391 | "None" without a selection. Otherwise the plan, the current cadence and the price captured at the click. |
| Subscription.StaleSummaryAfterToggle | assets/js/app.js:389-398 | A plan chosen under monthly billing, followed by a switch to yearly, shows "Yearly" with the monthly price. |
| Subscription.Summary | assets/js/app.js:380-391 | "None" exactly without a selection. Otherwise the plan, the current cadence and the price the card shows under that cadence. |
| Subscription.SummaryMatchesWhenToggleUnchanged | assets/js/app.js:380-412 | The corrected summary and the written one agree while the toggle has not moved since the selection. |
| Subscription.PlanSelector.constructor | assets/js/app.js:362-363 | Starts under monthly billing with no plan selected. |
| Subscription.PlanSelector.Toggle | assets/js/app.js:396-399 | Sets the billing flag and keeps the selection. The class follows the corrected summary: its cadence and price follow the new choice. The page as written keeps the price from the click (see Findings). |
| Subscription.PlanSelector.Select | assets/js/app.js:404-414 | Selects the card and keeps the billing flag. The corrected summary shows that card under the current cadence; at the moment of the click this agrees with the page as written. |
| Subscription.PlanSelector.SubmitPayment | assets/js/app.js:421-439 | Refused and nothing changes without a plan. Otherwise it reports the plan, the cadence and the form fields, and clears the selection. Afterwards the corrected summary shows no plan. |
| Analysis.Limited | assets/js/app.js:477-479 | Keeps the first ten entries, or all of them when there are fewer. |
| Analysis.PushNewest | assets/js/app.js:482-490 | The new entry is at index 0, followed by the older entries in order. The length is min(old + 1, 10). |
| Analysis.AddAllNewestFirst | assets/js/app.js:482-490 | After any run of analyses the history holds the latest first, newest to oldest, then what was there before, cut to ten. |
| Analysis.AnalysisHistory.constructor | assets/js/app.js:469-475 | The history starts from whatever the storage slot holds. |
| Analysis.AnalysisHistory.History | assets/js/app.js:469-475 | `loadHistory()`: the stored list, or empty when the slot is absent or unreadable. |
| Analysis.AnalysisHistory.AddToHistory | assets/js/app.js:482-491 | Stores the new entry in front of the loaded history, cut to ten. The history then starts with the new entry and has at most ten entries. |
| Analysis.ClassifyLine | assets/js/app.js:602-605 | A line is a heading exactly when, trimmed, it starts with `#` or with digits and a dot. Headings and non-empty paragraphs keep the untrimmed line, and only the empty line becomes `<br>`. |
| Analysis.IsHeadingLine | assets/js/app.js:602 | The reference definition of the heading test: the trimmed line starts with `#` or with digits and a dot. |
| Analysis.RenderAnalysis | assets/js/app.js:601-606 | One block per line of `split("\n")`, in order. Block i is line i classified: a heading with the line's text exactly when the line is one, otherwise a paragraph with the line's text or `<br>` for an empty line. |
| Analysis.NumberedLineIsHeading | assets/js/app.js:602 | A line that starts with a number and a dot is a heading, whatever follows. |
| Analysis.SaveKeyAsWritten | assets/js/app.js:624-634 | Refuses exactly when the trimmed value is empty. Otherwise it stores the trimmed value, mask included. |
| Analysis.MaskSavedAsKey | assets/js/app.js:618-634 | Saving while the field shows the mask stores the mask as the key. |
| Analysis.SaveKey | assets/js/app.js:624-641 | Refuses exactly on empty input and keeps the old key exactly on the mask. Otherwise it stores the trimmed value, which is neither empty nor the mask, and agrees with the written handler on every non-mask input. |
| Analysis.ApiKeyField.constructor | assets/js/app.js:618-622 | A non-empty saved key is shown as the twenty-bullet mask in a plain-text field. Without one the field is taken to be the empty password field of the page's markup (see Left out). |
| Analysis.ApiKeyField.ApiKey | assets/js/app.js:461-463 | `getApiKey()`: the stored key, or empty when none is stored. |
| Analysis.ApiKeyField.KeyForRequest | assets/js/app.js:461-508 | No key is sent when none is stored or the stored one is empty. A key sent is the stored one and is non-empty. |
| Analysis.ApiKeyField.Save | assets/js/app.js:624-634 | Follows the corrected save rule. A stored key is shown masked in plain text. Otherwise nothing changes. |
| Analysis.ApiKeyField.Focus | assets/js/app.js:636-641 | Focusing clears the mask into an empty password field and leaves anything else as it was. The stored key is kept. |
| Analysis.CheckUpload | assets/js/app.js:655-662 | Not an image exactly when the type lacks the `image/` prefix. Too large exactly for an image over 10 MiB. Accepted exactly for an image of at most 10 485 760 bytes. |
| Analysis.UploadPanel.constructor | assets/js/app.js:458 | No image is held at first. |
| Analysis.UploadPanel.HandleFile | assets/js/app.js:654-665 | Applies the guard. An accepted file becomes the current image, and a refused one leaves it unchanged. Only accepted files are ever held. |
| Analysis.UploadPanel.RemoveImage | assets/js/app.js:694-700 | The current image is cleared. |
| Analysis.UploadPanel.AnalyzeClicked | assets/js/app.js:702-706 | Goes ahead only with an image held, and that image passed the type and size guard. |
| JsString.ToUpperCase | assets/js/app.js:190 | Keeps the length and leaves no lower-case letter. Lower-case ASCII letters move up by 32 and every other character is kept. |
| JsString.LeadingSpace | assets/js/app.js:602 | The run of white space at the start of a string is maximal. |
| JsString.TrailingSpace | assets/js/app.js:602 | The run of white space at the end of a string is maximal. |
| JsString.Trim | assets/js/app.js:602 | The result is the slice after the leading white space, with only white space after it. It has no white space at either end, and it is empty exactly when the input is all white space. |
| JsString.StartsWith | assets/js/app.js:602 | The reference definition of `startsWith`: the prefix is the text's first characters. |
| JsString.StartsWithNumberDot | assets/js/app.js:602 | The reference definition of `/^\d+\./`: a non-empty maximal digit run followed by a dot. Its meaning is stated by NumberDotMeaning. |
| JsString.LeadingDigits | assets/js/app.js:602 | The run of ASCII digits at the start of a string is maximal. |
| JsString.NumberDotMeaning | assets/js/app.js:602 | The digit-run test agrees with the pattern "one or more digits, then a dot". |
| JsString.SplitLines | assets/js/app.js:601 | Gives at least one piece, no piece holds a line feed, and joining the pieces with line feeds gives back the text. |
| JsString.SplitSingleLine | assets/js/app.js:601 | Text without a line feed splits to itself. |
| JsString.SplitAfterLine | assets/js/app.js:601 | A line, a line feed and more text split into that line followed by the split of the rest. |
| JsString.SplitJoin | assets/js/app.js:601 | Joining line-feed-free pieces and splitting the result recovers the pieces. |

## Left out

- DOM rendering and event binding are not modelled: `innerHTML` templates, class toggles, `alert`,
  scrolling, `renderHistory`, `renderLeaders`, `renderEvents`, the gain/loss classes on the ticker, and
  the market-hint placeholders. They produce markup, not state.
- The `LogoIntro`, `LoginPage` and `FAQModule` modules are DOM-only and not modelled.
- The `JSON.parse`/`JSON.stringify` codec and `localStorage` itself are left out.
  - A storage slot is either absent, holding unparsable text, or holding a parsed list.
  - The page's `?? []` and `|| []` fallbacks and its `try`/`catch` read the first two as empty.
  - A stored JSON value that parses to something other than a list is not modelled.
- `Number(...)`, `toFixed(2)` and `toLocaleString` are floating point and locale libraries.
  - They arrive as the parameters `parseNumber` and `toFixed2`.
  - A formatted amount is returned as its symbol, locale and value rather than as text.
  - A JavaScript number that is `NaN` is not a `PriceValue`.
- `crypto.randomUUID`/`Date.now` arrive as arguments, the generated id and the timestamp.
  Freshness of the id appears as a hypothesis in the contracts, not as a precondition.
- The conversion of the current time to India's time zone and `setInterval` scheduling are left out.
  The classifier starts from hours and minutes, or from the minute of the day.
- The `fetch` call to the analysis service, `FileReader`/base64 conversion and drag-and-drop are network
  and asynchronous plumbing. What is modelled is the guard before the call: an image must be held
  and a non-empty key stored.
- ToUpperCase handles ASCII letters only. Letters outside ASCII that `toUpperCase` maps (for
  example `ß` to `SS`) are kept as they are.
- Trades.Trade: the `market` of a record saved before markets existed (`undefined`, shown through `?? "global"`) is
  not represented. Every record carries a market string.
- Trades.TradeJournal.Submit: the contract does not demand that the generated id be fresh. When it
  is not fresh the record replaces the stored one with that id, exactly as the code does.
- GetMarketMeta: key names inherited from `Object.prototype` (such as `constructor`) are treated
  as unknown. In the page they would find a non-row value.
- The whole classifier is over integer minutes, and the clock's time-label formatting is
  not modelled.
- The summary's price text, `$… / mo` with `toFixed(0)`, is not modelled. Neither is the `$0` shown
  beside "None" when no plan is selected. The summary is kept as a plan, a cadence and a price, or
  `NoPlan`.
- Analysis.ApiKeyField.constructor: without a saved key the code leaves the field as the page's markup
  has it. The model assumes that markup is an empty password field.
- The subscription plan cards' prices are taken as numbers. Parsing them from `data-*`
  attributes with `Number` is not modelled.

## Findings

| source | as written | input that shows it | evidently intended | confidence | as-written member | corrected member |
|---|---|---|---|---|---|---|
| assets/js/app.js:618-634 | After a key is saved the field shows twenty bullets. Save trims that value and stores it as the key. | A saved key, then Save pressed again without focusing the field. The stored key becomes the twenty-bullet mask. | The mask is never stored as a key. Saving it keeps the old key. | not executed | Analysis.MaskSavedAsKey | Analysis.SaveKey |
| assets/js/app.js:389-412 | The selected plan captures its price at the click. The billing toggle later changes only the cadence label. | A card with monthly 29 and yearly 24, selected under monthly billing, then the toggle switched to yearly. The summary reads "Yearly" at $29 / mo. | The summary shows the selected card's price under the current billing choice. | not executed | Subscription.StaleSummaryAfterToggle | Subscription.Summary |
