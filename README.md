# GaiaSenses web: playback controls, composition table and composition links in Dafny

GaiaSenses web maps live weather (temperature, rain, wind, lightning) to generative
audio-visual "compositions". This project models the small amount of logic the
application itself contains and proves what it does:

- **Playback controls** (`CompositionControls`, file `composition_controls.dfy`). On each
  render the component reads the engine `status` from the audio-engine hook. While a
  patch is set and the engine is `playing`, it forwards every control message to the
  engine. Its play handler starts a `waiting` engine or resumes a `suspended` one. Its
  pause handler suspends a `started` or `playing` engine. The class `Controls` holds the
  latest props, the latest status and a log of every engine call made so far. The
  functions `RenderCalls`, `PlayCalls` and `PauseCalls` say which calls one render or one
  click makes, and the lemmas state when each call happens.
- **Composition metadata table** (`CompositionsInfo`). Five composition names, each with
  its declared attributes, data endpoints and thumbnail.
- **Home page** (`HomePage`). Coordinates default to `"0"`. `LoadTodayData` is the data
  block that fetches today's weather and lightning count, step by step inside a
  try/catch. The today links and the history links carry `lat`, `lon` and the
  attributes as a query string. The links are checked by reading their query back
  (`JsText.ParseQuery`) and the composition name in their path (`LinkedComposition`),
  and their attribute keys are checked against the table. `RenderPage` puts these
  together: the coordinates it reads are the ones it requests data for and links with.
- **Storm Eye** (`StormEye`). Optional weather props become concrete sketch values.

`JsText` models the JavaScript string operations the links use: `join` and the decimal
text of a number in a template string. It also holds this model's own query-string
reader (`Split`, `ParseQuery`), which the links never call; it exists to read the links
back.

Modelling choices:
- `if (patchPath)` is JavaScript truthiness, so the empty path counts as no path
  (`HasPatch`).
- The hook is not part of this model. Its status is an input of each render
  (`Controls.Render`), and the model adds no status transitions of its own.
- The page's `error` variable stays `null`: the catch handler's `error = error`
  assigns the handler's own parameter (app/page.tsx:104-106). `LoadTodayData` states this.
- Each object of the weather response the data block reads (`main`, `rain`, `wind`) is
  an `Option`, because reading a field of a missing one throws (app/page.tsx:94, 96,
  100-101). The first throw abandons the rest of the block: the values set before it
  stay, the later ones stay 0, and the lightning request is issued only when all three
  objects are present. A rejected request and a null result are both `None`.
- An attribute object is the list of its entries in `Object.keys` order. An object
  with no keys produces the segment `undefined=undefined`.

Things the component does not do, and the model therefore does not do either:
- It keeps no guard of its own against a second `start` (`NoStartGuard`).
- It never calls `close`, on unmount or at any other time (`NeverCloses`).
- It does not check the play intent again after `start` resolves.

## Model

| member | source | states |
|---|---|---|
| CompositionControls.Sends | components/compositions/composition-controls.tsx:21-23 | forwarding makes exactly one engine call per message |
| CompositionControls.SendsInOrder | components/compositions/composition-controls.tsx:21-23 | the i-th send carries the i-th message's own nodeId, portletId and message: each message is sent once, in list order |
| CompositionControls.RenderForwardsOnlyWhilePlaying | components/compositions/composition-controls.tsx:19-25 | RenderCalls (the calls one render makes) is non-empty iff a patch path is set, status is playing and the message list is present and non-empty; with no list it sends nothing; every call it makes is a send of the list, in order |
| CompositionControls.PlayDecision | components/compositions/composition-controls.tsx:27-41 | PlayCalls (the calls of handlePlay) is start iff a patch is set and status is waiting, resume iff a patch is set and status is suspended, never both, nothing otherwise; it never suspends, closes or sends |
| CompositionControls.PauseDecision | components/compositions/composition-controls.tsx:43-49 | PauseCalls (the calls of handlePause) is suspend iff a patch is set and status is started or playing, and empty otherwise |
| CompositionControls.NoPatchNoCalls | components/compositions/composition-controls.tsx:19-49 | without a (non-empty) patch path, neither a render nor a handler makes any engine call |
| CompositionControls.NeverCloses | components/compositions/composition-controls.tsx:16-49 | close is obtained from the hook but no render or handler ever calls it |
| CompositionControls.NoStartGuard | components/compositions/composition-controls.tsx:27-41 | the component keeps no start guard of its own: two plays while the hook still reports waiting make two start calls |
| CompositionControls.Controls.constructor | components/compositions/composition-controls.tsx:7-25 | the first render records the props and status and makes exactly the calls of one render |
| CompositionControls.Controls.Render | components/compositions/composition-controls.tsx:19-25 | a render appends exactly RenderCalls (the messages, in order, only while playing) to the call log and never adds close |
| CompositionControls.Controls.HandlePlay | components/compositions/composition-controls.tsx:27-41 | a play click appends exactly PlayCalls for the latest render's patch path and status |
| CompositionControls.Controls.PlayTwice | components/compositions/composition-controls.tsx:27-41 | two play clicks with no render between them append PlayCalls twice; with a patch and a waiting engine that is [Start, Start] |
| CompositionControls.Controls.HandlePause | components/compositions/composition-controls.tsx:43-49 | a pause click appends exactly PauseCalls for the latest render's patch path and status |
| CompositionsInfo.InfoOf | components/compositions/compositions-info.tsx:26-62 | every entry's name equals its key; it declares at least one attribute and none twice; it has a non-empty endpoint list; its thumb is a file name ending in .png |
| CompositionsInfo.FiveCompositions | components/compositions/compositions-info.tsx:7-24 | the table is total over exactly five names with five distinct keys |
| CompositionsInfo.ParseName | components/compositions/compositions-info.tsx:7-12 | a string names a composition only if it is that composition's key |
| CompositionsInfo.KeyRoundTrip | components/compositions/compositions-info.tsx:7-12 | every key parses back to its composition, and exactly the five keys parse |
| CompositionsInfo.DeclaredAttributes | components/compositions/compositions-info.tsx:26-62 | declared attributes are lluvia [rain], zigzag [rain, lightningCount], colorFlower [temperature], stormEye [temperature, windSpeed, windDeg], curves [rain, temperature] |
| CompositionsInfo.PlaceholderEndpoints | components/compositions/compositions-info.tsx:31-59 | exactly colorFlower and stormEye have the single placeholder endpoint "" |
| StormEye.Render | components/compositions/storm-eye/storm-eye.tsx:4-42 | temperature, windDeg and windSpeed reach the sketch as given, or 0 when omitted; play reaches the sketch unchanged; the wrapper's debug is the debug prop, false when omitted |
| StormEye.TodayHasNoEffect | components/compositions/storm-eye/storm-eye.tsx:27-30 | the today flag changes nothing that is passed on |
| StormEye.CoordinatesAreUnused | components/compositions/storm-eye/storm-eye.tsx:4-39 | lat and lon are accepted but reach neither the sketch nor the wrapper |
| HomePage.CoordinateParam | app/page.tsx:76-82 | lat and lon are the search parameter when present and "0" otherwise |
| HomePage.LoadTodayData | app/page.tsx:84-107 | its outcome satisfies Loaded: the weather request comes first. If it fails, every value stays 0 and no lightning request is made. Otherwise the temperature is set if `main` is present; then rain (the "1h" entry or 0) if `rain` is present; then wind speed and direction if `wind` is present. Each missing object leaves it and every later value at 0. The lightning request (radius 50) is made iff all three are present, and the count is its result or 0. error stays null on every path |
| HomePage.LoadedDeterminesResult | app/page.tsx:84-107 | Loaded fixes the data block's outcome: for given coordinates and fetch outcomes, the variables and the request list are unique |
| HomePage.FirstKeyOnly | app/page.tsx:198-202 | only the first key of an attribute object contributes to its segment |
| HomePage.AttributesStringSegments | app/page.tsx:198-202 | AttributesString is "" for no attributes; when no first key or value contains "&" (SegmentSafe), it otherwise splits on "&" into exactly one key=value segment per attribute object, in list order |
| HomePage.CompositionLinkQuery | app/page.tsx:197-207 | the query of CompositionLink (the `/compositions/<name>/?lat=..&lon=..&` + AttributesString template) reads back as lat, lon and then each object's first key and value, in order; no attributes leave one empty trailing pair |
| HomePage.CompositionLinkPath | app/page.tsx:207 | the path of CompositionLink is `/compositions/<key>/`, and reading the name back from it (LinkedComposition) gives the composition |
| HomePage.LinksOpenTheirComposition | app/page.tsx:207 | every composition link, with any coordinates and attributes, opens its own composition |
| HomePage.TodayLinksAreCompositionLinks | app/page.tsx:162-193 | TodayHref (the four template links of today's card) has a link for every composition except curves, and each is the CompositionLink of its today attributes |
| HomePage.TodayLinkPath | app/page.tsx:163-192 | today's link to a composition opens that composition |
| HomePage.TodayLinkQuery | app/page.tsx:163-192 | the query of today's link to a composition reads back as lat, lon and that composition's today attributes |
| HomePage.TodayPairs | app/page.tsx:163-192 | today's links carry exactly: lluvia rain; zigzag rain, lightningCount; colorFlower temperature; stormEye windSpeed, windDeg, temperature — each with the decimal text of its value (read together with TodayLinkQuery) |
| HomePage.TodayKeysDeclared | app/page.tsx:163-192 | every attribute a today link carries is declared for its composition in the table |
| HomePage.HistoryAgreesWithTable | app/page.tsx:36-69 | every CompositionHistory item's attribute objects have one key each, declared for its composition, and its thumbnail is the one the table lists |
| HomePage.HistoryLinks | app/page.tsx:197-207 | there is one history link (the CompositionLink of the item) per CompositionHistory item, and the k-th link opens the k-th item's composition (LinkedComposition reads the name in its path) |
| HomePage.HistoryLinkQueries | app/page.tsx:197-207 | each history link reads back as lat, lon and then the item's attributes, in order |
| HomePage.TodayLinks | app/page.tsx:162-193 | today's card has four links, to lluvia, zigzag, colorFlower and stormEye in that order, each the TodayHref of its composition |
| HomePage.TodayLinksOpen | app/page.tsx:162-193 | each link of today's card opens the composition of its place on the card |
| HomePage.CoordinatesFirst | app/page.tsx:207 | when lat and lon have no "&" and the attributes are QuerySafe, a composition link's query starts with the pairs lat and lon |
| HomePage.TodayLinksCarryCoordinates | app/page.tsx:163-192 | every link of today's card reads back lat and lon as its first two pairs |
| HomePage.HistoryLinksCarryCoordinates | app/page.tsx:197-207 | every history link reads back lat and lon as its first two pairs |
| HomePage.RenderPage | app/page.tsx:71-207 | with lat and lon the search parameters or "0", the page's data and requests are exactly those of the data block for those coordinates (Loaded, so at most the two requests, both to lat and lon); today's links are TodayLinks of that data and the history links are HistoryLinks, and (without "&" in lat or lon) every link reads them back first |
| JsText.Join | app/page.tsx:198-202 | joining an empty list gives "" |
| JsText.SplitJoin | app/page.tsx:198-202 | joining "&"-free segments with "&" and splitting again gives the segments back |
| JsText.NumberText | app/page.tsx:163-192 | a number's text is non-empty decimal digits, with a "-" exactly when it is negative and only as its first character |
| JsText.DigitsRoundTrip | app/page.tsx:163-192 | the decimal digits of a natural number read back as that number |
| JsText.NumberTextRoundTrip | app/page.tsx:163-192 | the text of a number, read back as a signed decimal, is that number |
| JsText.NumberTextInjective | app/page.tsx:163-192 | different numbers have different texts |
| JsText.NumberTextIsQuerySafe | app/page.tsx:163-192 | a number's text never contains "&", "=" or "?" |

## Left out

- The audio-engine hook (`useWebpd`) is not part of this model: patch loading, the asynchronous start, status transitions and any loading state. Its status is an input of each render.
- The toggle button that calls the handlers is not part of this model. `HandlePlay` and `HandlePause` can be called after any render.
- The continuation after `start()` resolves is not modelled: its body is commented out and makes no call.
- The `getWeather` and `getLightning` network calls and their promise sequencing. Each outcome is an `Option` input (`None` for a rejected call).
- Weather fields that are only displayed (feels-like, humidity, clouds, gust, visibility, description, city, state) are not modelled.
- Floating-point weather values are modelled as integers. Number text (`NumberText`) is integer decimal text, so JavaScript's fractional and exponent forms are not covered.
- JSX rendering, cards, images, date formatting with `toLocaleDateString`, the history dates, the theme toggle and the audio stopper are not modelled.
- The `Component` field of each metadata entry (a reference to the renderer) is not modelled.
- app/location-bar.tsx (conditional rendering only) and components/compositions/chaos-tree/chaos-tree.tsx (string-to-number conversion around controls without a patch path) are not part of this model.
- HomePage.CompositionLinkQuery, HomePage.AttributesStringSegments: the read-back holds only when `lat` and `lon` contain no "&" and attribute keys and values contain no "&"; reading the pairs back also needs keys without "=". The templates do no URL encoding, so other values change the query's shape.
- HomePage.LoadTodayData: the `console.log` in the catch handler (app/page.tsx:105) is not modelled. A present object that lacks the field read from it (`main` without `temp`, `wind` without `speed`) yields `undefined` in JavaScript, not a throw; the model has no `undefined` number and treats every present object as complete.
