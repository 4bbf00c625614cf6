# feed_reader: RSS documents and the paginated Telegram menus

This project models the core of feed_reader, a Telegram bot that subscribes to
RSS 2.0 feeds and lets the user page through them with inline keyboards. The
model has two parts.

- `rss.dfy` (module `Rss`) covers the document layer of package `rss`:
  - the decoded document tree;
  - the Atom `rel="self"` link lookup (RFC 4287 section 4.2.7.2) and synthesis;
  - the guid `isPermaLink` defaulting done by post-processing;
  - validation (version "2.0", non-blank channel description and title);
  - the date fallback from the RFC 1123 layout to the RFC 1123 numeric-offset layout;
  - the decode, post-process, validate sequence of `NewDocument`.
- `bot.dfy` (module `Bot`) covers the menus of the bot:
  - the page counter every copy of a menu shares (a class);
  - the guarded `NextPage` / `PrevPage`;
  - the per-menu texts and callback data;
  - the keyboard layout of `PageMarkup`;
  - the state `main` keeps between updates (class `Session`): the feed list, the bound item list, the active menu, and the callback dispatch that moves between them;
  - the "ensure a self link, then append" step of adding a feed.
- `golib.dfy` (module `GoLib`) states the parts of Go's standard library that the core's behaviour depends on: `strings.TrimSpace`, `strings.HasPrefix`, `strconv.ParseBool`, `strconv.Atoi` and `fmt.Sprintf("%d")`.
- `wrappers.dfy` holds the `Option` / `Result` / `Outcome` types. They stand in for Go's `(value, error)` pairs and for the calls that end the process.

Modelling choices:
- RSS documents are values (datatypes). Each in-place update of the source (`SetSelfLink`, `Postprocess`) returns the updated document.
- `Postprocess` and `SelfLink` keep their loops as methods. Each is proved against a specification function: `SelfLinkOf` for `SelfLink`, and `Postprocessed` (over the recursive `NormalizeItems`) for `Postprocess`.
- Two library calls are parameters of the operations that use them: XML decoding (`xml.Unmarshal`) and layout matching (`time.Parse`).
- A Go `SelectMenu` interface value is a copy of the menu struct: it shares the `*SelectMenuBase` pointer but holds a snapshot of the slice. It is modelled as a datatype that holds a `SelectMenuBase` reference and a sequence. As a result, after `/add` the active feed menu keeps paging over the feeds it was copied with, until the next `back` or `/list`.
- Every `log.Panic` / `log.Fatalf` / runtime panic on the paths modelled becomes an error value, apart from the item text of bot.go:86: the model's keyboard shows the clamped `Bot.ItemText` (see "## Findings"). On an error the session's state is unchanged.

## Model

| member | source | states |
|---|---|---|
| `Rss.UnmarshalDateTime` | rss/rss.go:28-48 | A decoder error is returned as is. Otherwise the trimmed text is parsed with RFC1123 first. Success or a non-layout error of that parse is final. Only a layout mismatch (`*time.ParseError`) falls back to RFC1123Z, whose outcome is then the result. A success always comes from one of the two layouts. |
| `Rss.UnmarshalDateTimeTrimmed` | rss/rss.go:35-35 | Surrounding white space never changes how a date decodes. |
| `Rss.IsSelfLink` | rss/rss.go:166-166 | The link is in the Atom namespace (`http://www.w3.org/2005/Atom`) and its rel is "self". |
| `Rss.SelfLinkOf` | rss/rss.go:164-172 | The specification of the self link: "" when no link is in the Atom namespace with rel "self", otherwise the href of the first such link. |
| `Rss.SelfLink` | rss/rss.go:164-172 | The scan with early return yields exactly `SelfLinkOf` of the channel links. |
| `Rss.SetSelfLink` | rss/rss.go:174-186 | Exactly one link is appended. It is an Atom self link named "link", with type "application/rss+xml" and the given href, and its other fields keep their zero values. Every earlier link and every other field of the document is unchanged. |
| `Rss.SelfLinkOfAppend` | rss/rss.go:164-186 | Appending a link changes the self link only when there was no self link before. In that case the self link becomes the new link's href if the new link is a self link, and "" otherwise. |
| `Rss.SelfLinkAfterSet` | rss/rss.go:164-186 | After `SetSelfLink(u)`, `SelfLink` is `u` when the channel had no self link, and the old self link otherwise. |
| `Rss.EnsureSelfLink` | bot.go:109-111 | The self-link step: `SetSelfLink(url)` exactly when `SelfLink()` is "", otherwise the document as it is. The links only grow, by at most one, and they grow exactly when `SelfLink()` was "". |
| `Rss.EnsureSelfLinkResolves` | bot.go:109-111 | The self-link step adds at most one link at the end and changes nothing else. It leaves a document with a non-empty self link untouched. Without a previous self link, the self link becomes the fetch URL; with one, it stays what it was. |
| `Rss.EmptySelfHrefIsNotReplaced` | bot.go:109-111 | A channel whose only self link has an empty href gets a second self link, and its self link is still "". |
| `Rss.NormalizeGuid` | rss/rss.go:199-203 | After the guid rule, `isPermaLink` always parses as a bool. A value `strconv.ParseBool` accepts is kept verbatim, a rejected one becomes "true", and no other field changes. |
| `Rss.NormalizeItems` | rss/rss.go:198-204 | Same number of items, same order, and the guid rule applied to each. |
| `Rss.Postprocessed` | rss/rss.go:195-205 | The post-processed document has the same items in the same order, each with the guid rule applied. Everything outside the items is unchanged. |
| `Rss.Postprocess` | rss/rss.go:195-205 | The in-place loop over the items produces exactly `Postprocessed`. |
| `Rss.PostprocessedIdempotent` | rss/rss.go:198-204 | After post-processing every `isPermaLink` is a bool, and a second pass changes nothing. |
| `Rss.ComplainIfEmpty` | rss/rss.go:188-193 | Passes exactly when the value is not all white space. Otherwise it fails naming the element and its container. |
| `Rss.Validate` | rss/rss.go:207-226 | Passes exactly when the version is "2.0" and neither the channel description nor the title is blank; items are not checked. Errors are reported in the source's order: version, then description, then title. |
| `Rss.NewDocument` | rss/rss.go:228-240 | A decode error is returned and no document is produced. Otherwise the result is a success exactly when validation passes. A success holds the post-processed document, which is valid and has a boolean `isPermaLink` on every item. A failure carries the validation error. |
| `GoLib.IsSpace` | rss/rss.go:189-189 | `unicode.IsSpace`, the set `strings.TrimSpace` removes: tab, line feed, vertical tab, form feed, carriage return, space, U+0085 and U+00A0, plus the other Unicode White_Space code points (U+1680, U+2000 to U+200A, U+2028, U+2029, U+202F, U+205F, U+3000). |
| `GoLib.TrimSpace` | rss/rss.go:189-189 | The result neither starts nor ends with white space, and it is empty exactly when the input is all white space. |
| `GoLib.TrimSpaceSlice` | rss/rss.go:35-35 | What TrimSpace keeps is one contiguous part of the input. Everything dropped before and after it is white space. |
| `GoLib.TrimSpaceIdempotent` | rss/rss.go:35-35 | Trimming twice is trimming once. |
| `GoLib.HasPrefix` | bot.go:280-280 | `strings.HasPrefix`: `s` is at least as long as `prefix` and starts with it. The dispatch uses it for "feed:" and "item:". |
| `GoLib.ParseBool` | rss/rss.go:199-199 | `strconv.ParseBool`: "1", "t", "T", "TRUE", "true" and "True" are true; "0", "f", "F", "FALSE", "false" and "False" are false; anything else, the empty string included, is an error. |
| `GoLib.Atoi` | bot.go:281-283 | A parsed index is a 64-bit int, and the text it came from starts with a digit or a sign. |
| `GoLib.NatStringDigits` | bot.go:71-71 | The decimal form of a natural number is a non-empty string of digits whose value is that number. |
| `GoLib.DecimalString` | bot.go:71-71 | `fmt.Sprintf("%d", n)`: a minus sign for negative numbers, then the shortest decimal form of the magnitude. |
| `GoLib.DecimalStringDigits` | bot.go:153-153 | What `%d` prints is an optional minus sign followed by a non-empty string of digits whose value is the magnitude. |
| `GoLib.AtoiDecimalString` | bot.go:281-283 | `strconv.Atoi` reads back every 64-bit int that `%d` prints. |
| `Bot.SelectMenuBase.constructor` | bot.go:231-232 | A menu's page counter starts at the given page. |
| `Bot.SelectMenuBase.Page` | bot.go:41-43 | The current page of the shared counter. |
| `Bot.SelectMenuBase.Offset` | bot.go:45-47 | The index of the page's first entry: page * `EntriesPerPage`, that is page * 3. |
| `Bot.SelectMenuBase.PageInc` | bot.go:49-51 | The shared page goes up by exactly one. |
| `Bot.SelectMenuBase.PageDec` | bot.go:53-55 | The shared page goes down by exactly one. |
| `Bot.WithinPagesIffAtMostLastPage` | bot.go:124-134 | A page is in range (not negative, and either the first page or one starting at an existing entry) exactly when it lies between 0 and the last page, ceil(len/3) - 1, or 0 for an empty list. |
| `Bot.EntryOnOnePage` | bot.go:45-47 | Since `Offset` is page * 3, entry i is shown on exactly one page, i / 3, and that page is in range. |
| `Bot.NextPage` | bot.go:124-128 | The page goes up by one exactly when `Offset() + 3 < Len()`, and is unchanged otherwise. |
| `Bot.PrevPage` | bot.go:130-134 | The page goes down by one exactly when it is positive, and is unchanged otherwise. |
| `Bot.RunWithinPages` | bot.go:124-134 | Starting in range, any sequence of NextPage and PrevPage keeps the page in range. |
| `Bot.AdvanceRetreatInverse` | bot.go:124-134 | A NextPage that moved is undone by a PrevPage. Within range, a PrevPage that moved is undone by a NextPage. |
| `Bot.WithinPagesGrow` | bot.go:119-119 | Appending feeds never puts a page out of range. |
| `Bot.SelectMenu.Len` | bot.go:62-64 | A feed menu has as many entries as its feed slice, an item menu as many as its item slice. |
| `Bot.SelectMenu.Page` | bot.go:41-43 | A menu copy's page is the page of the counter it shares with every other copy, as the promoted `Page` called through the interface at bot.go:131 and 153. |
| `Bot.SelectMenu.Offset` | bot.go:45-47 | A menu copy's offset is the shared counter's offset, page * 3, as the promoted `Offset` called through the interface at bot.go:125, 139 and 156. |
| `Bot.SelectMenu.TextOf` | bot.go:66-68 | A feed entry shows its channel title. An item entry shows `Bot.ItemText` of the item, the corrected form of the text of bot.go:84-90. |
| `Bot.SelectMenu.CallbackDataOf` | bot.go:70-72 | The data of entry i is "feed:" for a feed menu, or "item:" for an item menu, followed by `%d` of i. |
| `Bot.ItemTextAsWritten` | bot.go:84-90 | As written, the text panics exactly when the item has no title and its description is shorter than ten characters. Otherwise an untitled item shows the first ten characters of its description and "...", and a titled item shows its title. |
| `Bot.ShortDescriptionPanics` | bot.go:84-90 | As written, the text of an untitled item with a description shorter than ten characters panics ("Read more" is one). |
| `Bot.ItemText` | bot.go:84-90 | An item shows its title when it has one. Otherwise it shows at most the first ten characters of its description followed by "...". The text is never empty, and it equals the as-written text wherever that does not panic. |
| `Bot.TextOfNonEmpty` | bot.go:66-68 | Every entry of a menu of validated feeds, or of items, has a non-empty text. |
| `Bot.ParseCallback` | bot.go:277-305 | The dispatch tests "back", then the "feed:" prefix, then the "item:" prefix, then "next" and "previous". After either prefix it parses the text from position 5 on (the source slices `len("feed:")` for both). An index `strconv.Atoi` rejects is `Malformed`, and anything else is no command. |
| `Bot.ParseCallbackCases` | bot.go:277-305 | Each command comes from exactly one shape of data: "back", "next", "previous", or a "feed:"/"item:" prefix followed by text that does or does not parse as an int. A parsed index is the value `strconv.Atoi` reads. |
| `Bot.CallbackDataRoundTrip` | bot.go:280-292 | The callback data of entry i, "feed:" or "item:" followed by i in decimal, is dispatched as "open feed i" or "open item i" respectively. |
| `Bot.NavigationCommands` | bot.go:301-305 | "back", "previous" and "next" are dispatched as those commands. The page number's "X" is no command. |
| `Bot.PageMarkup` | bot.go:136-161 | One row per entry from `Offset()` up to `min(Len(), Offset() + 3)`, in ascending order, each showing `TextOf(i)` with `CallbackDataOf(i)`. Then the navigation row: back, previous (always), the page number counted from 1 with data "X", and next only when `Offset() + 3 < Len()`. |
| `Bot.PageMarkupTextsNonEmpty` | bot.go:136-161 | No button of a keyboard built over validated feeds or over items is blank. |
| `Bot.PageMarkupCommands` | bot.go:140-157 | Each entry button of a keyboard opens its own entry, and the navigation buttons do what `Bot.NavRowCommands` states. |
| `Bot.NavRowCommands` | bot.go:150-157 | The navigation row's buttons go back, go to the previous page, do nothing (the page number), and go to the next page when that button is present. |
| `Bot.PrepareFeed` | bot.go:104-111 | The document comes out exactly when decoding and validation succeed. It is the post-processed document with the self-link step applied, and it has a title. Otherwise the error is the decoder's error or the first validation error. |
| `Bot.Session.constructor` | bot.go:225-232 | No feeds, no items, no active menu, and both pages at 0 on separate counters. |
| `Bot.Session.AddFeed` | bot.go:96-122 | When decoding and validation succeed, exactly one document is appended at the end of the feeds: the post-processed, self-linked one. Otherwise the error is reported, the feeds are unchanged, and the error is the decoder's error or the first validation error, as `NewDocument` reports it. Menus and pages are untouched, and the session invariant is kept. |
| `Bot.Session.AppendFeed` | bot.go:119-119 | Appending a validated document keeps every page in range and leaves the rest of the session unchanged. |
| `Bot.Session.List` | bot.go:261-265 | "/list" activates a copy of the feed menu and changes nothing else. |
| `Bot.Session.Callback` | bot.go:277-305 | The dispatch, one command at a time. "back" re-activates the feed menu with its page kept. "feed:i" binds the item menu to feed i's items at page 0 and activates it, or fails when i is out of range. "item:i" changes nothing and fails when i is out of range. "next"/"previous" apply NextPage/PrevPage to the active menu's shared page, or fail while no menu is active. A malformed index fails. Any other data changes nothing. A failure changes nothing, and every page stays in range. |
| `Bot.Session.Render` | bot.go:307-311 | The keyboard sent after a callback is the active menu's page layout. It is an error while no menu is active. |
| `Bot.OpenFeedAndGoBack` | bot.go:277-289 | Opening feed i from the list and pressing "back" returns to the feed list on the page it was left at, with feed i's items bound at page 0. |

## Left out

- Fetching the feed over HTTP and reading the response body (bot.go:97-102) are left out, because they are I/O. `AddFeed` takes the body as a parameter. The source also ignores the error from reading the body.
- The JSON dump of each added feed (bot.go:113-117) is left out, because it is output only.
- The Telegram bot API is left out as transport I/O. This covers:
  - the token, the update channel and `bot.Send`;
  - the reply texts of "/add" and "/list", and the "Unknown command" reply;
  - the `tg.*` button and markup types. A keyboard is modelled as rows of (text, data) pairs.
- `toTelegraphNodeElement` and its tag and attribute tables (bot.go:164-222) are left out. The "item:i" callback only checks the index. The function does not compile as written and only drives an external HTML tokenizer.
- XML decoding and its struct-tag field binding are not modelled: the decoder is a parameter `unmarshal`.
- The layout semantics of `time.Parse` are not modelled: it is a parameter that reports success, a layout mismatch or another error.
- `DateTime.String` and `DateTime.MarshalJSON` are left out; they only convert to text for output.
- Process termination by `log.Fatalf` / `log.Panic`, and Go runtime panics, are error values here, and the state is left unchanged. In the source none of them is recovered, so each one stops the whole process. The one exception is the item text of bot.go:86: the model's keyboard shows the clamped `Bot.ItemText` instead of panicking (see "## Findings").
- Go strings are byte sequences; the model works on code points. As a result:
  - `Description.Value[:10]` can cut a multi-byte character in Go, while `Bot.ItemText` takes ten code points;
  - `Bot.ItemTextAsWritten` panics below ten code points, where Go panics below ten bytes. An untitled item described as "ééééé" (five code points, ten bytes) is shown as "ééééé..." by Go but panics in the model;
  - `strings.TrimSpace` is modelled for the Unicode white space it removes.
- The menu page counter and the indexes are Go `int` values; the model uses unbounded integers. The overflow of `page * 3` is not modelled. It needs more than 3·10^18 NextPage calls, and `NextPage` never goes past the last page.
- `Bot.PageMarkupCommands` assumes the indexes of the shown entries fit in 64 bits. Only there can `strconv.Atoi` read the printed index back, and a Go slice cannot hold more entries.
- Go pointers to documents (`[]*rss.Document`) and the item slice shared with a feed are modelled as values. Nothing modifies a document or its items after it is added, so no aliasing is observable.
- main.go is not part of this model (package `atom`: type declarations, library decoding and file I/O).
- html-parse.go is not part of this model (a print loop over an external tokenizer).

## Behaviour worth noting

The self-link step of adding a feed (bot.go:109-111) tests whether
`SelfLink()` returns "", not whether a self link exists. A channel whose first
Atom self link has an empty href therefore gets a second self link appended,
and `SelfLink()` still returns "" because it reports the first one.
`Rss.EnsureSelfLinkResolves` proves that a channel without a self link ends up
with the fetch URL as its self link. `Rss.EmptySelfHrefIsNotReplaced` exhibits
the empty-href case.

## Findings

| source | as written | input that shows it | evidently intended | confidence | as-written member | corrected member |
|---|---|---|---|---|---|---|
| bot.go:84-90 | An untitled item shows `Description.Value[:10] + "..."`, which panics when the description is shorter than ten bytes. The panic happens while the keyboard is built, and nothing recovers it, so the bot process stops. | An item with an empty title and the description "Read more" (nine characters), as one of the first three items of a feed opened with "feed:i". | Show the whole description when it is shorter than ten characters, followed by "...". | not executed | `Bot.ShortDescriptionPanics` (over `Bot.ItemTextAsWritten`) | `Bot.ItemText` |
