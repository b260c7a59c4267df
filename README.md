# psref in Dafny

A model of the core of `psref`, an unofficial Go client for Lenovo's PSREF
product catalog API, together with proofs about that model. Two parts are covered:

- **The request logic of `client.go`.**
  - The client's configuration and its functional options (`NewClient`,
    `WithBaseURL`, `WithRetry` and the other options).
  - One request attempt (`getOnce`): the rate limiter's wait, the injected
    `api_v=2` query parameter, and the classification of the HTTP status.
  - The retry loop around it (`get`).
  - The query a product request carries (`getModel`).
  - The search-based resolver (`productByModelCode`, `ModelByCode`).
  - The conditional percent-decoder for image URLs (`unescapeImage`, over
    Go's `url.PathUnescape`).
  - The endpoints that tidy what they decode (`Products`,
    `WithdrawnProducts`, `Updates`, `ProductByID`, `ProductByModelCode`,
    `ModelByID`).
- **The response records of `types.go`.**
  - The backslash repair `normalizeURL` and the in-place `normalize`
    passes over product types, product lines, series, products and models.
  - The `Date` JSON layout `2006-01-02`.
  - The change feed's `parse` pass: title clean-up, the
    `Version (\d+)` and ` (\w{3}\.\d{1,2}, \d{4})` extractions with the
    `Jan.2, 2006` layout, and the reason suffix split off each updated
    entry.
  - `Model.DetailByName`.

The network, the rate limiter's clock and the JSON decoder do not appear.
Each attempt meets an *outcome* taken from a sequence that is a parameter:
- the wait's error, if any;
- then a transport error, or a status with the decoded body or a decode error.

The project's files are:

| file | module | what it holds |
|---|---|---|
| `wrappers.dfy` | `Wrappers` | `Option` and `Result` |
| `text.dfy` | `Text` | the Go `strings`/`strconv` operations the core uses, on ASCII; 64-bit integer ranges and Go's `int` wrap-around |
| `escape.dfy` | `Escape` | `url.PathUnescape`, `unescapeImage`, a reference encoder |
| `dates.dfy` | `Dates` | calendar dates, the `2006-01-02` and `Jan.2, 2006` layouts |
| `records.dfy` | `Records` | the records of `types.go` and their `normalize` passes |
| `feed.dfy` | `Feed` | the change feed and its `parse` pass, the two pattern scanners |
| `config.dfy` | `Config` | defaults and client options as values |
| `client.dfy` | `Client` | the attempt, the retry loop, the query, the resolver, the `Client` class and its endpoints |

The representation follows the source:
- Records the client edits in place are classes: `Product`, `Model`,
  `ProductLine` and `Updates`. Their `normalize`/`parse` methods carry
  `modifies` clauses.
- Records that are only read are datatypes.
- The loops of the source are methods with loop invariants. Each such
  method is proved against a function that specifies it.

A Go string is a `seq<char>` whose characters are its bytes.

## Model

| member | source | states |
|---|---|---|
| `Config.Defaults` | client.go:91-97 | the defaults are the default HTTP client, the default URL, 3 retries, a limiter of one token per 333 333 333 ns with a burst of 10, and no debug writer |
| `Config.WithHTTPClient` | client.go:46-53 | a nil client stands for the default client; any other client is installed |
| `Config.WithBaseURL` | client.go:56-63 | the empty URL becomes the default URL; any other URL is kept until the option is applied |
| `Config.Apply` | client.go:46-84 | one option applied to a configuration; what it sets and keeps is carried by `RetriesKept`, `ConfigureKeepsNoTrailingSlash`, `EmptyBaseURLIsDefault` and `TrailingSlashesDropped` |
| `Config.Configure` | client.go:98-103 | `NewClient`'s option loop as a fold; its meaning is carried by `ConfigureAppend`, `NilOptionSkipped` and `LastRetryWins` |
| `Config.ConfigureAppend` | client.go:98-103 | applying a list of options equals applying its first part and then its second |
| `Config.NilOptionSkipped` | client.go:98-101 | a nil option anywhere in the list changes nothing |
| `Config.RetriesKept` | client.go:72-78 | options other than `WithRetry` leave the retry count alone |
| `Config.LastRetryWins` | client.go:98-103 | options are applied in order, so the retry count is the one the last `WithRetry` gave |
| `Config.ConfigureKeepsNoTrailingSlash` | client.go:60-62 | applying options never leaves a base URL ending in `/` |
| `Config.NewClientNoTrailingSlash` | client.go:91-105 | no client `NewClient` builds has a base URL ending in `/` |
| `Config.EmptyBaseURLIsDefault` | client.go:56-59 | `WithBaseURL("")` installs the default URL unchanged |
| `Config.TrailingSlashesDropped` | client.go:60-62 | every trailing `/` given to `WithBaseURL` is dropped, and nothing before them |
| `Client.Client.constructor` | client.go:91-105 | the new client's fields are the defaults with the non-nil options applied in order, and its base URL has no trailing `/` |
| `Client.ApplyOptions` | client.go:98-103 | the option loop computes the same configuration as the specification fold |
| `Client.Message` | client.go:157-160 | the not-found error reads "not found"; a bad status reads as the path, ": status " and the status text; the two ambiguity errors have their fixed texts |
| `Client.Once` | client.go:137-161 | with a limiter, a failed wait is the result; otherwise 404 is not-found, 200 with a decoded body is success and the only success, and any other status but 200 is an error naming the path and the status text |
| `Client.WaitErrorRetried` | client.go:124-141 | a failed wait does not end the retry loop |
| `Client.FirstStop` | client.go:124-128 | the first attempt that succeeds or finds nothing: every earlier attempt failed otherwise |
| `Client.Attempts` | client.go:119-132 | retries 0 or 1 mean one attempt; more than 1 means at most that many; the loop runs until the first stopping attempt, with no other early end |
| `Client.Retried` | client.go:119-132 | with retries 0 or 1, the result is the one attempt's result; with retries below 0, the result is a success or not-found; with retries above 1, a failing result means the whole budget was used |
| `Client.FirstStopDecides` | client.go:123-128 | with retries above 1, the first attempt that succeeds or finds nothing ends the loop and its result is returned |
| `Client.UnboundedFirstStop` | client.go:124-128 | with retries below 0, the loop ends at the first attempt that succeeds or finds nothing and returns its result |
| `Client.AllFailLastError` | client.go:123-131 | with retries above 1 and every attempt failing, exactly `retries` attempts are made and the last one's error is returned |
| `Client.NoStopNeverCovered` | client.go:124-130 | with a negative retry count and no attempt that succeeds or finds nothing, the loop asks for more attempts than any finite sequence of outcomes holds |
| `Client.CancelledUnboundedNeverEnds` | client.go:119-141 | with a negative retry count and a context whose every wait (or, with no limiter, every send) fails, no number of attempts ends the loop |
| `Client.Client.GetOnce` | client.go:137-161 | the result is the attempt's classification; nothing is sent exactly when a limited client's wait fails; otherwise the request sent is `RequestTo` of the base URL, the path and the caller's query |
| `Client.RequestTo` | client.go:143-147 | the request goes to the base URL followed by the path; its query has `api_v` set to "2" over any caller value, holds every other key of the caller's query with its value, and no key besides |
| `Client.Client.Get` | client.go:119-132 | the loop makes exactly the attempts `Attempts` counts and returns the result `Retried` specifies; every attempt sends the same request for the caller's path and query, except one whose limited wait failed, which sends nothing |
| `Client.ModelQuery` | client.go:231-246 | each of `clsf`, `sc`, `qt` and `kw` is in the query exactly when its option is non-empty, with that value; `pagenumber` is there exactly when the page is non-zero, as its decimal text; no other key is set |
| `Client.NoModelOptsEmptyQuery` | client.go:259 | the options `ProductByID` passes put no key in the query |
| `Client.ProductByModelCodeLoop` | client.go:262-278 | the loop returns what `Resolve` specifies: a search error is passed on, no hit is not-found, hits for two products are an ambiguity error, otherwise the first ID and the 64-bit wrapping sum of the model counts; every error comes with a zero ID and count |
| `Client.Resolve` | client.go:262-278 | the specification of the resolver; its meaning is carried by `ProductByModelCodeLoop`, `ResolveSingle` and `ResolveAppend` |
| `Client.ResolveSingle` | client.go:269-277 | one hit resolves to its own ID and model count |
| `Client.ResolveAppend` | client.go:271-276 | a further hit for the same product adds its model count; a hit for another product is an ambiguity error |
| `Client.Client.Products` | client.go:179-186 | the result is the retried request's, for `/` with no query but `api_v`; every line of every returned product type has its image URL repaired, and its name and series are kept, even when lines are shared between types |
| `Client.NormalizeTypes` | client.go:182-184 | normalizing every type of a list repairs each line's image exactly once, even for a line listed under two types |
| `Client.Client.WithdrawnProducts` | client.go:189-201 | requests go to the withdrawn-products path with no query but `api_v`; each withdrawn type becomes a product type with its name, no colour and its lineup, in the same order; every line's image URL is repaired |
| `Client.Rebuild` | client.go:192-199 | the rebuilt list has the same length, names and lineups, and holds the same lines |
| `Client.Client.Updates` | client.go:204-209 | the result is the retried request's, for the feed path with no query but `api_v`; a feed in it has been parsed in place (cleaned title, version and timestamp read from it or kept, reasons split) |
| `Client.Client.GetModel` | client.go:230-254 | every request goes to the product path with `ModelQuery` of the options plus `api_v`; the result is the retried request's; a product in it has its image URL unescaped and then repaired, every other URL field and each image repaired, its image list's length kept, and its ID, key, name, withdrawn status, models and documents kept |
| `Client.ProductPath` | client.go:248 | the product path is the fixed prefix followed by digits that read back as the ID |
| `Client.ModelPath` | client.go:301 | the model path is the fixed prefix, digits that read back as the ID, `/` and the code |
| `Client.Client.ProductByID` | client.go:258-260 | every request goes to the product path of the ID with no query but `api_v`, that is `getModel` with no optional parameter; the result is the retried request's, and a product in it is left as `GetModel` leaves it: image URL unescaped and then repaired, every other URL field and each image repaired, image list length, ID, key, name, withdrawn status, models and documents kept |
| `Client.Client.ProductByModelCode` | client.go:283-289 | a resolver error is returned with no product and no request sent; otherwise the requests and the result are those of `ProductByID` for the resolved ID, and a product in it is left as `ProductByID` leaves it (image unescaped then repaired, every other URL field and image repaired, every other field kept) |
| `Client.Client.ModelByID` | client.go:299-308 | requests go to the model path with no query but `api_v`; the result is the retried request's; a model in it gets the requested code and keeps its own `RefURL`, details and withdrawn status; its product's image URL is repaired with no unescaping, every other URL field and each image of the product are repaired, and the product's image list length, ID, key, name, withdrawn status, models and documents are kept |
| `Client.Client.ModelByCode` | client.go:313-321 | a resolver error is passed on and a summed model count above 1 is the "more than one model matched" error, both with no request sent; otherwise the requests and the result are those of `ModelByID` for the resolved ID and the code, and a model in it is left as `ModelByID` leaves it (code set, own `RefURL`, details and withdrawn status kept, product repaired with no unescaping) |
| `Escape.UnescapeFrom` | client.go:223 | the scan from a position succeeds exactly when every `%` it meets starts two hex digits; its output is never longer than what is left; an error starts with the offending `%` and holds at most three characters |
| `Escape.PathUnescape` | client.go:223 | decoding succeeds exactly when every `%` the scan meets starts two hex digits; the output is never longer; an error holds at most three characters from the offending `%` |
| `Escape.UnescapeImage` | client.go:219-228 | input not starting with `http%` is returned as is; input that fails to decode is returned as is; otherwise the decoded string |
| `Escape.UnescapeEscapeAll` | client.go:223 | decoding inverts the reference encoder on every byte string |
| `Escape.UnescapeWithoutPercent` | client.go:223 | a string without `%` decodes to itself, so `+` stays `+` |
| `Escape.EscapeByte` | client.go:223 | the reference encoding of a byte is a complete `%HH` escape that names that byte |
| `Escape.UnescapeShift` | client.go:223 | the scan from a position past a prefix depends only on what follows the prefix |
| `Escape.UnescapeAppend` | client.go:223 | decoding distributes over concatenation of decodable strings |
| `Escape.MalformedImageUnchanged` | client.go:224-226 | `http%zz` and `http%4` come back unchanged |
| `Escape.UnescapeJoinedSegments` | client.go:223 | `%`-free segments joined by `%2f` decode to the segments joined by `/` |
| `Escape.DoubleEncodedImage` | types_test.go:10-11 | a double-encoded `http%3a%2f%2f…` URL decodes to the plain `http://…` URL |
| `Escape.UnescapeImageNotIdempotent` | client.go:219-228 | decoding twice differs from decoding once on `http%2541` |
| `Escape.UnescapeImageSettles` | client.go:220-222 | once the result no longer starts with `http%`, a second call changes nothing |
| `Records.NormalizeURL` | types.go:22-24 | the output has the input's length and no backslash; each backslash becomes `/` and every other character is kept |
| `Records.NormalizeURLFixes` | types.go:22-24 | a string without backslashes is left as it is |
| `Records.NormalizeURLIdempotent` | types.go:22-24 | repairing twice equals repairing once |
| `Records.ProductLine.Normalize` | types.go:72-77 | only the image URL is repaired; the name and the series are kept |
| `Records.NormalizeSeries` | types.go:84-88 | a series' pass changes nothing, since a short product's pass is empty |
| `Records.NormalizeType` | types.go:59-63 | every line of the lineup has its image repaired, a line listed twice included, and keeps its name and series |
| `Records.Product.Normalize` | types.go:134-144 | exactly the six URL fields and each image are repaired; the image list keeps its length; ID, key, name, withdrawn status, models and documents are kept; afterwards no URL field holds a backslash |
| `Records.NormalizeEach` | types.go:141-143 | each image is repaired where it stands and the list keeps its length |
| `Records.FirstDetail` | types.go:227-234 | the value of the first detail with the name, or "" when no detail has it |
| `Records.Model.DetailByName` | types.go:227-234 | the scan returns the first match that `FirstDetail` specifies |
| `Dates.DaysIn` | types.go:34 | months have 28 to 31 days, 29 exactly for February of a leap year |
| `Dates.CheckedDate` | types.go:34-37 | a date is accepted exactly when its month and its day of month are valid |
| `Dates.ParseDate` | types.go:34 | only a ten-character text with `-` at positions 4 and 7 parses, and the year, month and day are the values of its three digit fields; `DateRoundTrip` and `ParseDateCanonical` carry the rest of its meaning |
| `Dates.FormatDate` | types.go:43 | the `2006-01-02` rendering; its meaning is carried by `DateRoundTrip` (it parses back) and `MarshalJSON` |
| `Dates.MarshalJSON` | types.go:42-45 | the JSON text is the `2006-01-02` rendering in quotes |
| `Dates.UnmarshalJSON` | types.go:29-40 | a JSON error or a layout mismatch leaves the date unchanged and is returned; success stores the parsed date |
| `Dates.FieldDigits` | types.go:43 | a zero-padded field has exactly its width in digits and reads back as its value |
| `Dates.DateRoundTrip` | types.go:34-43 | parsing the rendering of a date with a four-digit year gives the date back |
| `Dates.ParseDateCanonical` | types.go:34 | only the canonical rendering parses: rendering a parsed date gives the input back |
| `Dates.FiveDigitYearDoesNotRoundTrip` | types.go:34-43 | a year past 9999 is rendered with five digits, which the parser refuses |
| `Dates.LookupMonth` | types.go:181 | the month found is the first abbreviation matching the word without regard to case; no match means none does |
| `Dates.MonthNamesFound` | types.go:181 | each month's abbreviation has three letters and is found as that month |
| `Dates.StampYearRoundTrip` | types.go:181 | the year part of the `Jan.2, 2006` layout reads back |
| `Dates.StampDayRoundTrip` | types.go:181 | the day-and-year part of the layout reads back |
| `Dates.ParseStamp` | types.go:181 | a parsed `Jan.2, 2006` text has the month its first three letters name; `StampRoundTrip` carries the rest of its meaning |
| `Dates.StampRoundTrip` | types.go:181 | parsing the `Jan.2, 2006` rendering of a date with a four-digit year gives the date back |
| `Feed.CleanTitle` | types.go:172-174 | the version title clean-up; its meaning is carried by `CleanTitleWrapped` and `Updates.CleanVersionTitle` |
| `Feed.CleanTitleWrapped` | types.go:172-174 | a title wrapped in `<b>…</b>` loses the markup and its surrounding blanks |
| `Feed.DigitRunEnd` | types.go:154 | the greedy digit run ends at the first non-digit or at the end |
| `Feed.FindVersion` | types.go:175 | the leftmost position where `Version ` and a digit match |
| `Feed.VersionDigits` | types.go:175 | the submatch is a non-empty digit string |
| `Feed.FindVersionAt` | types.go:175 | the first match position is what the scan finds |
| `Feed.DigitRunAt` | types.go:154 | a digit run followed by a non-digit is read whole |
| `Feed.VersionNumber` | types.go:175-179 | the number the title names, if its digits fit 64 bits; its meaning is carried by `FindVersion`, `VersionDigits`, `VersionFound` and `NewVersion` |
| `Feed.VersionFound` | types.go:175-179 | a title holding `Version ` and a number's decimal text, with no earlier `V` and no digit after, yields that number |
| `Feed.VersionExample` | types.go:175-179 | `Version 593 Jan.2, 2024` yields 593 |
| `Feed.StampDayWidth` | types.go:155 | a two-digit day is tried before a one-digit day; no width means neither matches |
| `Feed.FindStamp` | types.go:180 | the leftmost position where the timestamp pattern matches |
| `Feed.FindStampAt` | types.go:180 | the first match position is what the scan finds |
| `Feed.StampMatch` | types.go:155 | a blank, three word characters, `.`, one or two digits, `, ` and four digits match with the day's own width |
| `Feed.StampAtShift` | types.go:155 | the pattern matches at a position after a prefix exactly when it matches at the start of the rest |
| `Feed.NoStampBefore` | types.go:155 | no match starts inside a prefix without `.` when the rest has no `.` in its first four characters |
| `Feed.StampTextAfter` | types.go:180 | after a prefix without `.`, the submatch is the timestamp without its blank |
| `Feed.StampTextOfFormat` | types.go:180 | the submatch of a blank and the `Jan.2, 2006` rendering of a date, after a prefix without `.`, is that rendering |
| `Feed.StampText` | types.go:180 | the timestamp submatch; its meaning is carried by `FindStamp`, `StampTextAfter` and `StampTextOfFormat` |
| `Feed.VersionStamp` | types.go:180-181 | the date the submatch parses to; its meaning is carried by `StampFound` and `NewStamp` |
| `Feed.StampFound` | types.go:180-184 | a title ending in a blank and a date in the `Jan.2, 2006` layout, with no `.` before, yields that date |
| `Feed.SplitReason` | types.go:185-200 | the ID is kept; a changed entry ended in `)`, had its last `(` after the start, and now holds the trimmed title before it and a recognised reason |
| `Feed.LastIndexAt` | types.go:191 | a `(` with none after it is the last index of `(` |
| `Feed.SplitReasonSplits` | types.go:187-198 | `title(new model added)` and `title(spec updated)` become the trimmed title and that reason |
| `Feed.SplitReasonKeepsOthers` | types.go:193-198 | any other bracketed text leaves the entry unchanged |
| `Feed.SplitReasonNeedsPrefix` | types.go:191 | a title that is only a bracketed reason is unchanged, since the `(` must not come first |
| `Feed.NewVersion` | types.go:175-179 | the version becomes the number the title names when it fits in 64 bits, and keeps its old value otherwise |
| `Feed.NewStamp` | types.go:180-184 | the timestamp becomes the date the title names when it parses, and keeps its old value otherwise |
| `Feed.Updates.Parse` | types.go:168-201 | the title is cleaned; the version and timestamp are read from the cleaned title or kept; each updated entry has its reason split where it stands; the new and withdrawn lists are untouched |
| `Feed.Updates.CleanVersionTitle` | types.go:172-174 | only the title changes, to its cleaned form |
| `Feed.Updates.ReadVersionNumber` | types.go:175-179 | only the version changes, to what `NewVersion` specifies |
| `Feed.Updates.ReadVersionStamp` | types.go:180-184 | only the timestamp changes, to what `NewStamp` specifies |
| `Feed.Updates.SplitReasons` | types.go:185-200 | only the updated list changes: same length, each entry split by `SplitReason` |
| `Feed.SplitEach` | types.go:185-200 | the loop computes `SplitReason` on every entry and keeps the length |
| `Feed.ParseFeed` | types.go:168-171 | a nil feed is left alone; any other feed is parsed as `Parse` states |
| `Text.TrimPrefix` | types.go:172 | at most one leading copy of the prefix is removed |
| `Text.TrimSuffix` | types.go:173 | at most one trailing copy of the suffix is removed |
| `Text.TrimSpace` | types.go:174 | the result is a slice of the input with only blanks cut from both ends, and it neither starts nor ends with a blank |
| `Text.TrimRight` | client.go:61 | the result is a prefix of the input; everything cut is the given character; the result does not end with it |
| `Text.LastIndexOf` | types.go:191 | the index holds the character and no later index does; -1 when it is absent |
| `Text.ParseUint64` | types.go:176 | the digits are accepted exactly when their value fits in 64 bits, and the result is that value |
| `Text.FormatInt` | client.go:242 | a non-negative number is its decimal text; a negative one is `-` and the decimal text of its magnitude |
| `Text.DecimalString` | client.go:248 | `strconv.FormatUint` in base 10: at least one digit, and a leading `0` only for zero itself; it reads back by `DecimalRoundTrip` |
| `Text.DecimalRoundTrip` | client.go:248 | the decimal text of a number reads back as the number |
| `Text.Wrap64` | client.go:275 | the result is a 64-bit signed integer congruent to the input |
| `Text.WrapAdd` | client.go:275 | adding to a wrapped sum and wrapping again equals wrapping the whole sum |

## Left out

- The HTTP transport is left out: building the request, sending it, closing the body. An attempt's reply is an input.
- The rate limiter's token bucket and its clock are left out. Only "the wait may fail" is modelled, as part of an attempt's outcome.
- Context deadlines and cancellation are left out. A cancelled wait or transport call is one more failed attempt, as the retry loop treats it.
- JSON decoding and the struct-tag field mapping are left out. The decoded record, or the decoder's error, is part of an attempt's outcome.
- The encoding of the query (`url.Values.Encode`) and the resulting URL string are left out. The request is its target and its query map.
- The debug dump of each response body to the debug writer is left out, since it is output only. The writer is kept as a configuration field.
- `Books` and `Search` are left out. They are endpoint wrappers with no logic beyond the path and the `kw` parameter, and the search results reach the resolver as an input.
- `time.Time` internals are left out: location, time of day and the zero instant. A date is a (year, month, day) triple, and the zero date stands for Go's zero time.
- `TrimSpace` handles only ASCII blanks, not Unicode white space. Strings are sequences of bytes.
- Client.Client.Products: returns an empty list with an error. The Go code returns whatever the decoder left in the list, normalized, which is the zero value except after a decode error.
- Client.Client.WithdrawnProducts: returns an empty list with an error, where the Go code rebuilds whatever a failed decode left.
- Client.Client.Updates: returns nil with an error, where the Go code returns and parses whatever a failed decode left.
- Client.Client.GetModel: returns nil with an error, where the Go code returns and tidies whatever a failed decode left.
- Client.Client.ModelByID: returns nil with an error, where the Go code returns and tidies whatever a failed decode left.
- Client.Client.GetOnce: the request records the query with `api_v` set, but not that Go's `vars.Set` writes it into the caller's map. Every caller passes a fresh map or nil, so nothing observable depends on it.
- Client.Client.Get: requires the outcome sequence to answer every attempt the loop makes (`Covers`). With a negative retry count that means some attempt succeeds or finds nothing. When none does, the Go loop never returns, and the model has no run to describe (see the first note below).
- Client.Client.Get: the request each attempt sends is a ghost record, and the URL-encoded query string is not modelled.

### Notes on the code

These facts about the code are stated by lemmas:

- With a negative retry count and a cancelled context, `get` never returns. `rate.Wait` fails at once on every attempt, or `Do` does when there is no limiter (client.go:138-141, 152-155). Such an error is neither nil nor `ErrNotFound`, so the loop condition `c.retries < 0 || try < c.retries` stays true forever (client.go:124-130). `Client.CancelledUnboundedNeverEnds` shows that no finite number of such attempts ends the loop; `Client.WaitErrorRetried` shows that a failed wait never stops it.
- `unescapeImage` is not idempotent. `http%2541` becomes `http%41`, and a second call turns that into `httpA` (`Escape.UnescapeImageNotIdempotent`). Once the result no longer starts with `http%`, further calls change nothing (`Escape.UnescapeImageSettles`).
- A failed version or timestamp extraction keeps the field's decoded value. That value is zero only when the JSON did not carry the field (`Feed.NewVersion`, `Feed.NewStamp`).
- On an error the endpoints return the decoder's partial result alongside it. The model returns nil or an empty list instead (see the endpoint lines above).
- A reply that decodes to JSON `null` is a success of the retry loop. The endpoints then return nil with no error, and `Updates` skips the parse.
