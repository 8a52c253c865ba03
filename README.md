# calproxy core, modelled in Dafny

calproxy is a small HTTP service. It serves one iCalendar document that
merges every child calendar listed on an upstream index page. On each
request it does three things:

- It fetches the index page (an HTML directory listing) with Basic-Auth.
- It takes from that page the locators (hrefs) of the child calendars.
- It fetches and parses every child calendar concurrently, merges their
  events and timezones into one calendar, and renders the result.

The model covers how that answer is worked out. The HTTP server, the
network and the concurrency are left out.

- `Index` (index.dfy): the decoded shape of the index page, the `HTML`
  struct, and `getIndex`'s walk over it, written as nested loops.
  `GetIndex` and `ScanRows` are proved against the specification function
  `Locators`. The model proves the properties of the locator list:
  - locators come in document order;
  - tables whose class is not "nodeTable" are ignored;
  - each row gives the href of its first "nameColumn" cell and nothing more;
  - the count is exact, so duplicate hrefs are kept.
- `Fetch` (fetch.dfy): the status and error logic of `get`, given the
  outcome of one HTTP exchange, and the construction of each child URL
  from the index URL.
- `Aggregate` (aggregate.dfy): `getIcs` and `getAll`, written as the
  sequential fold that the merge goroutine performs. `order` is the order
  in which the workers finish; it is a parameter and may be any
  permutation.
  - A parsed resource contributes its events and timezones, in order.
  - A resource whose fetch or parse failed contributes nothing.
  - Every other entry kind is logged and dropped.
  - The calendar's multiset of entries does not depend on `order`.
- `Ical` (ical_event.dfy): the vendored `ical.Event` and its operations.
  - `Type()` and `AddEntry`.
  - `AddProperty` folds its options in a loop, lower-cases the key, then
    either Sets the property (for the 19 known VEVENT names), Appends it
    (for "x-" names or when forced), or refuses it.
- `Config` (config.dfy): how the `PORT` variable is turned into a listen
  address.
- `Text` (text.dfy): `strings.ToLower` on ASCII, and `strings.HasPrefix`.
- `Seqs` (seqs.dfy): generic facts about concatenating per-element pieces
  and about visiting a sequence in a permuted order.
- `Wrappers` (wrappers.dfy): `Option` and `Result`.

Two behaviours of the code worth knowing:

- A "nameColumn" cell with no `<a>` decodes to href "" and still yields a
  locator. Nothing checks that a locator is non-empty.
- A table class is compared exactly, so "nodeTable extra" is not a node
  table.

## Model

| member | source | states |
|---|---|---|
| Config.ListenAddr | main.go:27-35 | The address always starts with ':'. An unset PORT gives ":8080". A value starting with ':' is kept. Any other value gets one ':' in front. |
| Config.ListenAddrIdempotent | main.go:29-33 | Normalising an address that is already normalised changes nothing. |
| Config.ListenAddrKeepsValue | main.go:31-33 | A configured value survives as the tail of the address, which is at most one character longer. |
| Config.ListenAddrColonOptional | main.go:31-33 | "8081" and ":8081" give the same address. |
| Index.NameCellFrom | main.go:177-183 | Finds the first cell with class "nameColumn" at or after a position. It returns None exactly when no such cell exists. |
| Index.GetIndex | main.go:170-186 | The loop over sections returns exactly `Locators` of the page. |
| Index.ScanRows | main.go:175-184 | The labelled row loop appends, for each row in order, the href of its first name cell. |
| Index.LocatorsAppend | main.go:171-185 | Locators are produced in document order: a page made of two parts yields the first part's locators, then the second's. |
| Index.OtherTablesIgnored | main.go:172-174 | A section whose table class is not exactly "nodeTable" contributes nothing, wherever it stands. |
| Index.FirstNameCellWins | main.go:177-183 | A row yields the href of its first name cell. Cells after that one are never looked at. |
| Index.RowWithoutNameCell | main.go:177-180 | A row with no name cell yields no locator. |
| Index.LocatorCount | main.go:170-186 | There is exactly one locator per node-table row that has a name cell, so duplicates are kept. There are never more locators than node-table rows. |
| Index.ThreeRowExample | main.go:170-186 | Rows "/a.ics", a row with no name cell, then "/b.ics" give exactly ["/a.ics", "/b.ics"]. |
| Fetch.Get | main.go:251-272 | A body is returned exactly when the request was built, sent and answered with a 2xx status, and its body was read. Otherwise the first failing step names the error, and a non-2xx status is reported with its code. |
| Fetch.ResourceUrl | main.go:216-220 | A child URL has the index URL's scheme and host and the locator as its path. It has no user, query or fragment. |
| Fetch.ResourceUrlAuthorityOnly | main.go:216-220 | Index URLs that share scheme and host give the same child URL. |
| Fetch.ResourceUrlInjective | main.go:216-220 | Distinct locators give distinct `Url` values. Their rendered forms are not covered (see Left out). |
| Fetch.StatusOk | main.go:264 | The success test of `get`: a status passes exactly when it is 200 to 299. `Fetch.Get`'s first ensures builds on it. |
| Text.ToLower | vendor/github.com/lestrrat-go/ical/event_gen.go:63 | Keeps the length. Lower-cases each ASCII capital and keeps every other character. The result has no capitals. |
| Text.ToLowerIdempotent | vendor/github.com/lestrrat-go/ical/event_gen.go:63 | Lower-casing twice is the same as lower-casing once. |
| Ical.LastNamed | vendor/github.com/lestrrat-go/ical/event_gen.go:54-61 | Finds the last option with the given name. It returns None exactly when no option has that name. |
| Ical.FoldOptionsLastWins | vendor/github.com/lestrrat-go/ical/event_gen.go:52-61 | After the options loop, params comes from the last "Parameters" option and force from the last "Force" option. Each defaults to its zero value when no such option exists. |
| Ical.FoldOptionsIgnoresOthers | vendor/github.com/lestrrat-go/ical/event_gen.go:55-60 | An option with any other name has no effect, wherever it stands. |
| Ical.Store | vendor/github.com/lestrrat-go/ical/event_gen.go:63-72 | The dispatch on the lower-cased key succeeds exactly for a known name, an "x-" name or a forced one. On success the new property is last. An unknown name is appended behind the old set unchanged. On failure the error names the key. |
| Ical.SetPropertyReplaces | vendor/github.com/lestrrat-go/ical/event_gen.go:65 | After Set, the new property is the only entry of its name. Every other name keeps its entries, in order. |
| Ical.AppendPropertyAdds | vendor/github.com/lestrrat-go/ical/event_gen.go:68 | After Append, the new property follows the earlier entries of its name. No other name changes. |
| Ical.KnownKeyIsSet | vendor/github.com/lestrrat-go/ical/event_gen.go:63-65 | A key whose lower-case form is one of the 19 known names always succeeds. It leaves exactly one property of that name, carrying the folded parameters. |
| Ical.KnownKeyTwice | vendor/github.com/lestrrat-go/ical/event_gen.go:64-65 | Adding a known name twice keeps only the second value. |
| Ical.UnknownKey | vendor/github.com/lestrrat-go/ical/event_gen.go:66-71 | An unknown name succeeds if and only if it starts with "x-" or force is set. On success the property is appended at the end. On failure the error names the lower-cased key. |
| Ical.CaseInsensitive | vendor/github.com/lestrrat-go/ical/event_gen.go:63 | Keys that differ only in letter case have the same outcome, which equals the outcome for the lower-cased key. |
| Ical.StoredLowerCased | vendor/github.com/lestrrat-go/ical/event_gen.go:63-68 | On success the last property carries the lower-cased key, the value and the folded parameters. |
| Ical.SummaryExample | vendor/github.com/lestrrat-go/ical/event_gen.go:63-65 | "SUMMARY" succeeds and has the same outcome as "summary". |
| Ical.Event.Type | vendor/github.com/lestrrat-go/ical/event_gen.go:30-32 | An event's type name is "VEVENT", the name every `Entry.Event` reports whatever its id. |
| Ical.Event.AddEntry | vendor/github.com/lestrrat-go/ical/event_gen.go:34-37 | Never fails. It appends the entry and changes nothing else. |
| Ical.Event.AddProperty | vendor/github.com/lestrrat-go/ical/event_gen.go:51-74 | The options loop and the key dispatch leave the property set as `AddedProperties` says. On an error, the set is unchanged and the error is returned. |
| Ical.Event.constructor | vendor/github.com/lestrrat-go/ical/event_gen.go:18-22 | A new event has no entries and a fresh, empty property set. |
| Ical.PropertySet.Set | vendor/github.com/lestrrat-go/ical/event_gen.go:65 | Replaces the entries of the property's name with the property. |
| Ical.PropertySet.Append | vendor/github.com/lestrrat-go/ical/event_gen.go:68 | Appends the property. |
| Aggregate.KeptCount | main.go:232-239 | A worker sends each event and timezone of its resource exactly as often as it occurs, and nothing else. |
| Aggregate.KeptAllMergeable | main.go:232-236 | A resource that holds only events and timezones is sent whole and in order. |
| Aggregate.Dispatch | main.go:221-241 | The worker's loop sends exactly the resource's contribution and logs the type name of every other entry, in order. A failed resource sends nothing. |
| Aggregate.Worker | main.go:214-231 | One worker's outcome for its locator. It is parsed only when its resource URL was answered with a 2xx status, the body was read and the parser accepted it. The fetch fails exactly when `get` fails, with `get`'s error. The parse fails exactly when the fetch succeeded and the parser refused the body. |
| Aggregate.IndexLocators | main.go:158-186 | The index yields locators exactly when its exchange was answered with a 2xx status, the body was read and the decoder accepted it. The locators are then `Locators` of the decoded page: one per named node-table row, and never more than there are node-table rows. |
| Aggregate.Outcomes | main.go:212-243 | There is one outcome per locator, namely the outcome of the worker for that locator. |
| Aggregate.Calendar.constructor | main.go:194 | A new calendar is empty. |
| Aggregate.Calendar.AddEntry | main.go:200-202 | Appends the entry. |
| Aggregate.Receive | main.go:197-206 | The merge loop appends a worker's entries to the calendar in the order they arrive. |
| Aggregate.MergedBeforeStop | main.go:197-209 | The merge loop's stop as written. After all workers have sent, the loop receives some prefix of the buffered entries before it takes the stop signal. The rest is never added. |
| Aggregate.EarlyStopLosesEntry | main.go:197-209 | An event still buffered when `select` takes the stop signal is missing from the calendar. |
| Aggregate.DrainedStopKeepsAll | main.go:197-209 | The calendar keeps every buffered entry if and only if the stop comes after the buffers are drained. |
| Aggregate.GetIcs | main.go:189-249 | With workers finishing in any order, the calendar is the concatenation of their contributions in that order. Its multiset of entries equals that of document order. |
| Aggregate.ArrivalStep | main.go:197-206 | One more finished worker adds its contribution at the end of the calendar. |
| Aggregate.GetAll | main.go:146-168 | The whole request fails only when fetching or decoding the index page fails, with that error. Otherwise the calendar holds the merged entries of all locators. |
| Aggregate.AggregatePermutation | main.go:195-209 | Order independence: two arrival orders of the same resources give calendars with the same entries, each as often. |
| Aggregate.AggregateIsKeptEntries | main.go:221-239 | The calendar is exactly the events and timezones of all parsed resources. |
| Aggregate.AggregateContents | main.go:221-239 | An entry is in the calendar if and only if it is an event or timezone of some parsed resource. It appears as often as those resources hold it. |
| Aggregate.AllEntriesMembership | main.go:227-232 | An entry is among all entries if and only if some parsed resource holds it. |
| Aggregate.FailedResourceIgnored | main.go:221-230 | A resource whose fetch or parse failed changes nothing, wherever it finishes. |
| Aggregate.InTwoOrders | main.go:195-209 | Two resources give either concatenation of their contributions, depending on which finishes first. |
| Aggregate.TwoResourcesExample | main.go:189-249 | Events E1 and E2 from one resource and timezone Z1 from another give {E1, E2, Z1} in either order. |
| Seqs.ConcatPermutation | main.go:195-209 | Rearranging the elements leaves the multiset of the concatenated pieces unchanged. |
| Seqs.OrderingPermutes | main.go:212-245 | Visiting the outcomes in a completion order visits each outcome exactly as often as it occurs. |

## Left out

- The HTTP server is not modelled, because it is I/O. This covers `main`, `NewServer`, flag parsing, routing, the handler and graceful shutdown on signals (main.go:38-144).
- The network is not modelled. A request, its Basic-Auth header, the transport, the status line and body reading enter only as `Exchange`, the outcome `get` sees. The outgoing-request counter is not kept.
- `xml.Unmarshal` is replaced by the `decode` parameter of `GetAll`. The model starts from the decoded `Html` tree and trusts the decoder to fill in "" for a missing attribute.
- The ical parser is replaced by the `parse` parameter. Its result is an `Option` of the entries.
- A parse failure is modelled as contributing nothing. The code logs the error and then ranges over whatever calendar value the parser returned; code that is not part of this model decides what that value holds.
- Goroutines, channels, the `WaitGroup` and the done/result handshake are left out. The model is the sequential fold of one merge goroutine, with the workers' completion order given as `order`. Entries of one worker are received contiguously, in sending order.
- `GetIcs` assumes every sent entry is received before the calendar is returned. In the code, `select` may take `done` while entries wait in the buffered channels, and those entries are lost. This race condition is recorded under Findings and modelled on its own by `MergedBeforeStop`.
- Events and timezones travel on different channels, so the code may merge them in any interleaving. `GetIcs` states one interleaving exactly and the multiset for every order.
- Rendering is not modelled: `Calendar.String`, `Event.String`, `MarshalJSON` and the ical encoder (event_gen.go:24-28, 76-82).
- Query operations are not modelled: `Event.Entries`, `GetProperty` and `Properties` (event_gen.go:39-49).
- `PropertySet` and `EntryList` are modelled as sequences, because the library's implementation is not modelled. Set is modelled as "drop that name's entries, then append". Only the entries per name, and their order within a name, are meant.
- `url.URL.String` is not modelled: rendering and escaping the URL. The model compares `Url` values field by field.
- Fetch.ResourceUrlInjective: covers only the `Url` values. Go's `url.URL.String` puts a '/' in front of a path that lacks one when a host is set. So "a.ics" and "/a.ics" give distinct `Url` values but fetch the same URL.
- Logging and Prometheus metrics are dropped. Only the list of unhandled type names that `Dispatch` would log is kept.
- Text.ToLower: lower-cases ASCII letters only. Go's `strings.ToLower` also maps other Unicode capitals.
- Ical.Event.AddProperty: requires every "Parameters" or "Force" option to carry a value of the matching type. The Go type assertions panic otherwise, and a panic is not modelled.
- Aggregate.Outcomes: one worker result per locator, from a deterministic `exchange`. A locator listed twice therefore has the same outcome both times, whereas two real fetches could differ.

## Findings

| source | as written | input that shows it | evidently intended | confidence | as-written member | corrected member |
|---|---|---|---|---|---|---|
| main.go:197-209, 245-248 | Once `wg.Wait` returns, every entry has been sent, but some may still sit in the buffered channels `icsec` and `icstc`. `select` chooses among the ready cases, so it may take `done` first and return the calendar without them. | After `wg.Wait`, one event E1 is still buffered in `icsec` and `select` picks `done`: E1 never reaches the calendar. | Each entry a worker sent before the stop signal is in the calendar, for example by draining both channels after `done`. | likely; not executed | Aggregate.EarlyStopLosesEntry | Aggregate.GetIcs |
