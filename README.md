# NAMASTE-ICD11 web client: offline cache layer and page logic, in Dafny

This project models the logic of the NAMASTE-ICD11 web client, the browser front end of a system that maps
NAMASTE traditional-medicine codes to ICD-11 (the Traditional Medicine 2 and biomedicine chapters). It covers
six parts:

- **The service worker** (`service_worker.dfy`, module `ServiceWorker`):
  - the first-match request router;
  - the cache-first, network-first and navigation strategies;
  - the cacheable-request predicate;
  - the install and activate lifecycle.

  Cache storage is modelled as a list of cache names in creation order and a map from each name to its
  entries. `caches.open` creates a missing cache. `caches.match` searches the caches in creation order.
  `cache.addAll` is all-or-nothing, and it refuses a 206 Partial Content response although that response is ok.
- **The application shell** (`app_shell.dfy`, module `AppShell`): the query client's retry predicate, and the
  sidebar's two flags as a class whose handlers change them in place. The main area's margin class is
  computed from the flags and the viewport width when the component renders, and it renders again only when
  a flag changes, so the class on screen can lag behind a resize.
- **The mapping page** (`mapping_page.dfy`, module `MappingPage`):
  - the selected code and the guards of the two queries;
  - the history of generated mappings, newest first and capped at five;
  - the fallback that extracts the results from the query data.
- **The mapping results panel** (`mapping_results.dfy`, module `MappingResultsView`):
  - the confidence tiers and their colours;
  - the system colours;
  - the TM2/BIO split;
  - the dual-coding badge, the empty message and the FHIR button.
- **The access log** (`access_log.dfy`, module `AccessLog`):
  - the case-insensitive filter over doctor, role and purpose;
  - the newest-first sort, modelled as a stable insertion sort;
  - the single expanded row and the Clear button.
- **Registration** (`registration.dfy`, module `Registration`):
  - the fields each category shows;
  - every field's rules with their exact messages, applied in the order the form library uses (required,
    then minimum length, then pattern, then the password comparison);
  - an email check proved to accept exactly what the email regular expression matches;
  - the browser's own check of the `type="email"` inputs, which runs before the form library's;
  - the category switch that resets the form, the submit payload, and the page title.

`util.dfy` (module `Util`) holds the shared pieces: `Option`, distinctness, prefix and substring tests
(JavaScript `startsWith` and `includes`) and ASCII lower-casing.

The network, the clock and the browser are parameters:
- A strategy receives what its `fetch` does: a response, or a rejection.
- A resize handler receives the viewport width.
- A history update receives the current time.

## Model

| member | source | states |
|---|---|---|
| ServiceWorker.Route | public/sw.js:80-124 | a request is intercepted iff it is a GET from the worker's own origin; the cache-first handler never gets an `/api/` path; the navigation handler only gets navigate-mode requests whose path has no dot |
| ServiceWorker.RouteByRule | public/sw.js:84-123 | each of the four outcomes stated as an equivalence with the first routing rule the request meets: pass-through iff not an own-origin GET; cache-first iff not API and (`/static/` or a dot); navigation iff neither and navigate mode; network-first otherwise |
| ServiceWorker.ApiPathWithDotIsNetworkFirst | public/sw.js:95-105 | an API path containing a dot is still routed network-first, because the API rule comes first |
| ServiceWorker.ShouldCacheIff | public/sw.js:17-21 | the cacheable-request predicate holds iff the path contains `/api/stats`, `/api/search/autocomplete` or `/api/terminology` |
| ServiceWorker.ShouldCacheOnlyApi | public/sw.js:263-269 | only a path that contains `/api/` is ever written to the runtime cache |
| ServiceWorker.Lookup | public/sw.js:130 | `cache.match` finds an entry iff the named cache exists and holds the key, and returns that entry |
| ServiceWorker.OpenedNames | public/sw.js:129 | `caches.open` appends the name to the creation order only when the cache is missing |
| ServiceWorker.Opened | public/sw.js:129 | `caches.open` keeps every existing cache as it was and adds an empty one when the name is missing |
| ServiceWorker.Put | public/sw.js:136 | `cache.put` makes the key return the new response and changes no other (cache, key) lookup |
| ServiceWorker.PutIdempotent | public/sw.js:134-137 | writing the same response twice under one key is the same as writing it once |
| ServiceWorker.MatchAll | public/sw.js:186 | `caches.match` finds something iff some cache holds the key, and returns the entry of the first such cache in creation order |
| ServiceWorker.MatchAllIgnoresNewEmptyCache | public/sw.js:177-186 | the empty runtime cache that network-first's `caches.open` may create changes no later `caches.match` result |
| ServiceWorker.FirstMatchUnique | public/sw.js:186 | the entry `caches.match` returns is the one of the first cache that holds the key |
| ServiceWorker.Precached | public/sw.js:40-42 | a successful `addAll` stores exactly the precache URLs |
| ServiceWorker.PrecachedAt | public/sw.js:40-42 | with distinct URLs, each URL is stored with the response fetched for it |
| ServiceWorker.Surviving | public/sw.js:62-65 | a cache name survives activation iff it is one of the two current names; the survivors are never more than the names |
| ServiceWorker.Stale | public/sw.js:62-69 | activation deletes exactly the names different from both current names; deleted and surviving names together account for every name |
| ServiceWorker.SurvivingDistinct | public/sw.js:62-65 | the surviving names are still distinct, so the storage invariant holds after activation |
| ServiceWorker.UpgradeExample | public/sw.js:55-77 | an upgrade from generation v0 to v1 deletes both v0 caches and keeps the v1 shell cache |
| ServiceWorker.MissThenHit | public/sw.js:127-159 | after a cache-first miss answered with status 200, the next cache-first request for the same key is served that response, whatever the network then does |
| ServiceWorker.Worker.constructor | public/sw.js:1-21 | the worker starts over the caches a previous version left behind, with neither `skipWaiting` nor `clients.claim` reached |
| ServiceWorker.Worker.Open | public/sw.js:129 | the shell or runtime cache is opened, being created if missing, and nothing else changes |
| ServiceWorker.Worker.Install | public/sw.js:33-52 | the shell cache is opened; the precache is stored iff every precache fetch gives an ok response other than 206, and then every precache URL maps to its response and `skipWaiting` is reached; otherwise the opened cache keeps its entries and `skipWaiting` is not reached; in both cases the promise given to `waitUntil` resolves, because the `.catch` swallows the failure |
| ServiceWorker.PartialContentFailsPrecache | public/sw.js:40-42 | a 206 response is ok, yet one among the precache fetches makes `addAll` fail |
| ServiceWorker.InstallSettles | public/sw.js:36-51 | the install promise rejects iff some precache fetch was rejected or gave a response that is not ok or is a 206, and no `.catch` handles the failure |
| ServiceWorker.FailedPrecacheStillInstalls | public/sw.js:48-50 | with a 404 for `/static/css/main.css` the precache fails, yet the install promise resolves |
| ServiceWorker.AtomicInstall | public/sw.js:36-47 | without the `.catch`, the installation succeeds iff every precache fetch is ok and not a 206, and then each precache URL is stored with its response |
| ServiceWorker.Worker.Activate | public/sw.js:55-77 | the deleted names are exactly the stale ones in listing order; the remaining caches are the current ones that existed, unchanged; the clients are claimed |
| ServiceWorker.CacheFirstStep | public/sw.js:127-159 | the shell cache is opened; a hit returns the cached response and changes no entry; a miss returns the network response whatever its status and stores it iff its status is 200; a rejected fetch gives the 503 text response |
| ServiceWorker.Worker.CacheFirst | public/sw.js:127-159 | the response, the cache names and the cache contents afterwards are those `CacheFirstStep` gives for the old storage; the storage invariant is kept |
| ServiceWorker.Worker.Revalidate | public/sw.js:133-140 | the background refresh after a hit overwrites the entry only on a status-200 response; a rejection or another status changes nothing |
| ServiceWorker.NetworkFirstStep | public/sw.js:162-198 | a fetched response is returned, and written to the runtime cache iff its status is 200 and the path is cacheable, with no other change; on rejection the runtime cache is opened and its entry returned, else for a navigation `caches.match('/')` (possibly nothing), else the JSON 503 response |
| ServiceWorker.Worker.NetworkFirst | public/sw.js:162-198 | the response, the cache names and the cache contents afterwards are those `NetworkFirstStep` gives for the old storage; the storage invariant is kept |
| ServiceWorker.NavigationStep | public/sw.js:201-260 | the network response as it is, with no change to the caches; on rejection the shell cache is opened and its `/` entry returned, else the synthesised offline page |
| ServiceWorker.Worker.Navigation | public/sw.js:201-260 | the response, the cache names and the cache contents afterwards are those `NavigationStep` gives for the old storage |
| ServiceWorker.Worker.HandleFetch | public/sw.js:80-124 | a request is left to the browser iff the router passes it through, and then no cache changes; otherwise the answer and the caches afterwards are exactly those of the step function of the handler the router picked |
| AppShell.ShouldRetry | src/App.js:68-74 | a query is retried iff its error's status is not in [400, 500) and fewer than two failures were counted; an error without a response counts as not 4xx |
| AppShell.RetryBound | src/App.js:70-73 | a 4xx error is never retried; a retry needs at most one counted failure; without a status the answer is `failureCount < 2` |
| AppShell.Resized | src/App.js:90-99 | from width 1024 the sidebar opens and keeps its collapsed flag; below it both flags become false |
| AppShell.SidebarToggled | src/App.js:111-119 | on the desktop only the collapsed flag flips, on mobile only the open flag |
| AppShell.SidebarClosed | src/App.js:121-125 | closing sets open to false on mobile and changes nothing on the desktop |
| AppShell.CollapseToggled | src/App.js:127-129 | the collapsed flag flips at any width and the open flag is kept |
| AppShell.MainMargin | src/App.js:155-161 | `lg:ml-16` iff open, desktop and collapsed; `lg:ml-64` iff open, desktop and expanded; no margin otherwise |
| AppShell.TogglesAreInvolutions | src/App.js:111-129 | toggling twice at the same width restores the state, for both toggles |
| AppShell.Rerender | src/App.js:81-161 | after a handler the flags are the new ones; the component renders again at the current width, so the margin on screen matches it, iff a flag changed; otherwise the view is the old one |
| AppShell.TogglesRefreshMargin | src/App.js:111-129 | both toggles change a flag, so after either the margin on screen is the one the flags call for at the current width |
| AppShell.StaleMarginAfterResize | src/App.js:90-161 | opened on mobile (800 px) and resized to 1200 px, the sidebar is open on the desktop while the main area keeps no margin |
| AppShell.ResizedAndRendered | src/App.js:90-161 | with a render at every resize, the flags follow the resize and the margin on screen matches the new width |
| AppShell.MarginAfterResize | src/App.js:90-161 | with a render at every resize, the main area leaves room for the sidebar exactly on the desktop, and a sidebar toggle there switches between the two margins |
| AppShell.ResizeAsWritten | src/App.js:90-99 | the resize as written agrees with the corrected one whenever it changes a flag, and otherwise leaves the margin on screen as it was |
| AppShell.Layout.constructor | src/App.js:81-102 | both flags start false, the mount effect applies one resize at the current width, and the margin on screen matches that width |
| AppShell.Layout.HandleResize | src/App.js:90-99 | the new flags are the resize transition of the old ones; the component renders again at the new width only if a flag changed |
| AppShell.Layout.ToggleSidebar | src/App.js:111-119 | the new flags are the sidebar toggle of the old ones, and the margin on screen matches the current width |
| AppShell.Layout.CloseSidebar | src/App.js:121-125 | the new flags are the close transition of the old ones; the component renders again only if the sidebar was open on mobile |
| AppShell.Layout.ToggleCollapse | src/App.js:127-129 | the new flags are the collapse toggle of the old ones, and the margin on screen matches the current width |
| AppShell.Layout.Render | src/App.js:90-129 | React's same-value bail-out behind every handler: the flags are kept, and the render width becomes the current width iff a flag differs from before the handler |
| MappingPage.PushHistory | src/src/pages/Mapping.js:40-43 | the new history has the new entry at its head, then the first min(4, n) previous entries in their order, and at most five entries |
| MappingPage.NewestFirst | src/src/pages/Mapping.js:40-43 | the last n items of a sequence in reverse order |
| MappingPage.ReplayIsNewestFive | src/src/pages/Mapping.js:38-45 | after any run of successes the history is the five most recent entries, newest first |
| MappingPage.ResultsOf | src/src/pages/Mapping.js:73 | the results are the envelope's `data` when present, else a bare list, else `[]` for no data; an envelope without `data` yields no list |
| MappingPage.MappingView.constructor | src/src/pages/Mapping.js:16-17 | the selected code is the `code` URL parameter or `""`, and the history starts empty |
| MappingPage.MappingView.QueriesEnabled | src/src/pages/Mapping.js:36-56 | `enabled: !!selectedCode` of both queries: they run iff the selected code is non-empty |
| MappingPage.MappingView.SelectCode | src/src/pages/Mapping.js:61-65 | the selected code is replaced and the history kept; both queries are enabled iff the new code is non-empty |
| MappingPage.MappingView.OnSuccess | src/src/pages/Mapping.js:38-45 | with a payload and a selected code the entry is pushed onto the history; otherwise the history is unchanged; the history never exceeds five entries |
| MappingPage.MappingView.HandleGenerateMapping | src/src/pages/Mapping.js:67-71 | a refetch is requested iff a code is selected, that is iff the queries are enabled |
| MappingResultsView.ConfidenceColor | src/components/search/MappingResults.js:6-10 | the text colour is the one of the score's tier |
| MappingResultsView.ConfidenceBg | src/components/search/MappingResults.js:12-16 | the background is the one of the score's tier |
| MappingResultsView.ColoursAgree | src/components/search/MappingResults.js:6-16 | two scores get the same text colour iff they get the same background, iff they are in the same tier |
| MappingResultsView.TextClassInjective | src/components/search/MappingResults.js:7-9 | the three text colours are distinct |
| MappingResultsView.BgClassInjective | src/components/search/MappingResults.js:13-15 | the three backgrounds are distinct |
| MappingResultsView.TierOf | src/components/search/MappingResults.js:6-16 | a score is high iff it is at least 0.8 and low iff it is below 0.5, medium otherwise |
| MappingResultsView.TierMonotone | src/components/search/MappingResults.js:6-16 | a higher score never gets a lower tier |
| MappingResultsView.TierBounds | src/components/search/MappingResults.js:7-8 | high iff the score is at least 0.8; medium iff it is in [0.5, 0.8); low iff it is below 0.5 |
| MappingResultsView.SystemColor | src/components/search/MappingResults.js:18-27 | blue for ICD-11-TM2, purple for ICD-11-BIO, gray for any other system |
| MappingResultsView.OfSystem | src/components/search/MappingResults.js:29-30 | the filter holds each result of the system exactly as often as the results do, and nothing else |
| MappingResultsView.OfSystemAppend | src/components/search/MappingResults.js:29-30 | filtering distributes over concatenation, so the original order is kept |
| MappingResultsView.Tm2Mappings | src/components/search/MappingResults.js:29 | the TM2 group holds each ICD-11-TM2 result exactly as often as the results do, and nothing else |
| MappingResultsView.BioMappings | src/components/search/MappingResults.js:30 | the BIO group holds each ICD-11-BIO result exactly as often as the results do, and nothing else |
| MappingResultsView.OtherMappings | src/components/search/MappingResults.js:29-30 | the mappings of any other system, which neither group shows, each as often as in the results and nothing else |
| MappingResultsView.Partition | src/components/search/MappingResults.js:29-30 | the TM2 group, the BIO group and the unshown mappings together are the results as a multiset |
| MappingResultsView.GroupsDisjoint | src/components/search/MappingResults.js:29-30 | no mapping appears in both groups |
| MappingResultsView.DualCoding | src/components/search/MappingResults.js:44 | the badge condition: both groups non-empty, which needs at least two results |
| MappingResultsView.ShowsNoMappings | src/components/search/MappingResults.js:152 | the empty message shows only for an empty list, so never together with the dual-coding badge |
| MappingResultsView.ShowsFhirButton | src/components/search/MappingResults.js:162 | the FHIR button shows iff the empty message does not |
| MappingResultsView.DualCodingIff | src/components/search/MappingResults.js:44 | the dual-coding badge shows iff some result targets TM2 and some result targets BIO |
| MappingResultsView.SectionColours | src/components/search/MappingResults.js:53-115 | every TM2 card has the blue border and every BIO card the purple one, so the gray fallback never shows and the two sections never share a colour |
| MappingResultsView.EmptyOrButton | src/components/search/MappingResults.js:152-170 | exactly one of the empty message and the FHIR button shows; a panel with dual coding always offers the button |
| AccessLog.PurposeText | src/src/components/patient/AccessLog.js:40 | `l.purpose \|\| ''`: the purpose when present, the empty string otherwise |
| AccessLog.Matches | src/src/components/patient/AccessLog.js:36-41 | the empty query matches every entry; an entry without a purpose matches iff the lower-cased query occurs in its lower-cased doctor name or role |
| AccessLog.Matching | src/src/components/patient/AccessLog.js:36-41 | the filter keeps every matching entry as often as it occurs and drops every other one |
| AccessLog.Insert | src/src/components/patient/AccessLog.js:42 | inserting an entry adds exactly that entry to the multiset, placing it first or after the old head |
| AccessLog.InsertKeepsOrder | src/src/components/patient/AccessLog.js:42 | inserting into a newest-first list keeps it newest first |
| AccessLog.NewestFirstCons | src/src/components/patient/AccessLog.js:42 | an entry at least as new as the head can be put in front of a newest-first list |
| AccessLog.SortNewestFirst | src/src/components/patient/AccessLog.js:34-42 | the sort is a permutation of its input in non-increasing access-time order |
| AccessLog.Filtered | src/src/components/patient/AccessLog.js:33-43 | the list is newest first; for the empty query it is a permutation of the logs, otherwise of the filtered entries |
| AccessLog.FilteredSpec | src/src/components/patient/AccessLog.js:33-43 | the list is newest first; it holds every entry for the empty query and otherwise exactly the matching entries, each as often as in the logs |
| AccessLog.EmptyQueryMatchesAll | src/src/components/patient/AccessLog.js:34-41 | every entry matches the empty query, so the empty-query path shows what the filter would show |
| AccessLog.DemoShownInOrder | src/src/components/patient/AccessLog.js:9-13 | the three demonstration entries are already newest first and are shown as they are |
| AccessLog.Toggled | src/src/components/patient/AccessLog.js:46 | a click expands the row iff it was not the expanded one, and collapses everything iff it was |
| AccessLog.ToggleTwice | src/src/components/patient/AccessLog.js:46 | a second click on the same row undoes the first when no other row was open |
| AccessLog.AccessLogView.constructor | src/src/components/patient/AccessLog.js:26-30 | the logs are fixed, the query is empty and no row is expanded |
| AccessLog.AccessLogView.SetQuery | src/src/components/patient/AccessLog.js:62 | the query is replaced and the expanded row kept |
| AccessLog.AccessLogView.Clear | src/src/components/patient/AccessLog.js:72-78 | the query becomes empty, so the rows are all logs as a newest-first permutation |
| AccessLog.AccessLogView.Toggle | src/src/components/patient/AccessLog.js:46 | the expanded row becomes the toggle of the old one: the clicked row is expanded iff it was not, and every other row is collapsed |
| Util.DistinctCons | public/sw.js:62-65 | an element absent from a distinct list can be put in front of it |
| Util.ContainsAt | src/src/components/patient/AccessLog.js:38-40 | `includes` holds when the needle occurs at some position |
| Util.ContainsWitness | src/src/components/patient/AccessLog.js:38-40 | when `includes` holds, the needle occurs at some position |
| Util.ContainsTransitive | public/sw.js:266-268 | a string containing a string that contains a needle contains the needle |
| Util.ContainsChar | public/sw.js:104 | `includes` of a one-character string is membership of that character |
| Util.ToLower | src/src/components/patient/AccessLog.js:35-40 | lower-casing keeps the length and lower-cases each ASCII capital |
| Util.ToLowerIdempotent | src/src/components/patient/AccessLog.js:35-40 | lower-casing twice is lower-casing once |
| Registration.RenderedFields | src/src/pages/Register.js:425-436 | the form shows the category's own fields and the password, confirmation and terms fields |
| Registration.FieldsByCategory | src/src/pages/Register.js:74-436 | every known category asks for an email; only patients give an ABHA ID, only doctors an NMC ID, only hospital administrators a pincode; patients and doctors give a phone number; an unknown category shows only the common fields |
| Registration.Find | src/src/pages/Register.js:70 | `categories.find` returns an entry with the id iff one exists |
| Registration.CategoryTitle | src/src/pages/Register.js:69-72 | the title is `<name> Registration` for a known category and `Registration` iff the category is unknown |
| Registration.FindAt | src/src/pages/Register.js:70 | with distinct ids, `categories.find` returns the entry that carries the id |
| Registration.CategoryTitles | src/src/pages/Register.js:35-39 | the titles of the three categories of the picker |
| Registration.FirstIndexOf | src/src/pages/Register.js:107 | the position of the first occurrence of a character, or the length when there is none |
| Registration.LastIndexOf | src/src/pages/Register.js:107 | the position of the last occurrence of a character, or -1 when there is none |
| Registration.IsValidEmail | src/src/pages/Register.js:107 | an address the email expression accepts has at least six characters and a single `@` |
| Registration.EmailCheckMatchesPattern | src/src/pages/Register.js:107 | the email check accepts exactly the strings the case-insensitive email expression matches |
| Registration.Validate | src/src/pages/Register.js:81-577 | an empty value always gets the field's required message; a value that passes every rule is non-empty |
| Registration.EmptyAlwaysRejected | src/src/pages/Register.js:81-577 | every field, the address fields and the terms box included, rejects an undefined value, an empty text and an unticked box |
| Registration.DigitFields | src/src/pages/Register.js:127-410 | ABHA ID, phone number and pincode are accepted iff they are exactly 14, 10 and 6 decimal digits |
| Registration.MinimumLengths | src/src/pages/Register.js:81-513 | name, NMC ID, hospital name, username and password are accepted iff they have at least 2, 5, 3, 3 and 6 characters |
| Registration.FieldMinLength | src/src/pages/Register.js:81-513 | each of name, NMC ID, hospital name, username and password has a minimum length and accepts a text iff it is at least that long |
| Registration.MinLengthRule | src/src/pages/Register.js:81-87 | a rule with only a positive minimum length accepts a text iff it is at least that long |
| Registration.AddressFieldsRequired | src/src/pages/Register.js:345-387 | taluka, district and state are accepted iff they are non-empty |
| Registration.EmailField | src/src/pages/Register.js:104-110 | the email field accepts exactly what the email expression matches |
| Registration.ConfirmationField | src/src/pages/Register.js:544-548 | the confirmation is accepted iff it is non-empty and equal to the watched password |
| Registration.EmailExamples | src/src/pages/Register.js:107 | `a.b@mail.co` is accepted; `ab@co` (no dot) and `a@b.c` (a one-letter top-level domain) are refused |
| Registration.RuleOf | src/src/pages/Register.js:81-577 | every field is required with a message; exactly name, NMC ID, hospital name, username and password have a positive minimum length; exactly email, ABHA ID, phone and pincode have a pattern; only the confirmation compares with the password |
| Registration.ValidDomain | src/src/pages/Register.js:111 | a domain the browser accepts is non-empty and starts and ends with a letter or digit |
| Registration.HtmlEmail | src/src/pages/Register.js:111 | an address the browser accepts in a `type="email"` input has at least three characters and ends with a letter or digit |
| Registration.LocalCharsAllowed | src/src/pages/Register.js:104-111 | every character the email expression allows before the `@` is one the browser allows there too |
| Registration.DomainCons | src/src/pages/Register.js:111 | for the browser, a domain is a label alone, or a label, a dot and a domain |
| Registration.HtmlEmailParts | src/src/pages/Register.js:111 | the browser accepts `local@domain` iff the local part is non-empty and made of allowed characters and the domain is well formed |
| Registration.EmailChecksAgree | src/src/pages/Register.js:104-111 | `a.b@mail.co` passes both the email expression and the browser's check |
| Registration.PatternAcceptsEmptyLabel | src/src/pages/Register.js:104-111 | `a@b..cc` matches the email expression but the browser refuses it |
| Registration.BrowserAcceptsSingleLabel | src/src/pages/Register.js:104-111 | `a@b` passes the browser's check but not the email expression |
| Registration.BrowserAccepts | src/src/pages/Register.js:496-602 | the browser's check before submit: a category without an email input, or an empty or missing email, always passes; a non-empty email on screen passes iff the browser accepts the address |
| Registration.Errors | src/src/pages/Register.js:425-577 | errors are reported exactly for the rendered fields whose rules fail |
| Registration.EmptyFormReportsCommonFields | src/src/pages/Register.js:501-577 | an empty form reports at least the password, the confirmation and the terms, in every category |
| Registration.RegisterForm.constructor | src/src/pages/Register.js:23-31 | the form starts on the patient category with no values |
| Registration.RegisterForm.SetValue | src/src/pages/Register.js:74-436 | a rendered field's value is replaced and the category kept |
| Registration.RegisterForm.HandleCategoryChange | src/src/pages/Register.js:48-51 | the category is selected and every value is reset, so submitting now reports the common fields |
| Registration.RegisterForm.Submit | src/src/pages/Register.js:53-67 | a payload is sent iff the browser accepts the email input (the form at line 496 has no `noValidate`) and no rendered field has an error; it is the values plus `userType` set to the category, and holds exactly the rendered fields, each filled in |

## Left out

- The service worker's `sync`, `push` and `notificationclick` handlers are log-only stubs and operating-system notification calls.
- Console logging is left out. The offline page keeps its status, Content-Type and a heading; its CSS and the rest of its markup are abridged.
- ServiceWorker.Worker.CacheFirst: only network failures are modelled. A failing `caches.open` or `cache.match` (storage quota, a closed origin) is not. The unawaited `cache.put` is taken to complete before the next request.
- ServiceWorker.Worker.NetworkFirst: a failing `caches.open` is not modelled. Inside the `try` (line 168) it would fall through to the cache lookup; in the `catch` (line 177) it would reject the response. The unawaited `cache.put` is taken to complete before the next request.
- ServiceWorker.Worker.Navigation: a failing `caches.open` or `cache.match` in the offline path (lines 209-210) is not modelled; it would reject the response.
- ServiceWorker.Worker.Install: a failing `caches.open` (line 37) is not modelled; the `.catch` would swallow it and `skipWaiting` would not be reached, with no cache created.
- ServiceWorker.Worker.Revalidate: the fire-and-forget refresh is a separate step that may run at any later point. Its interleaving with other requests, and the duplicate fetches it can cause, are not modelled.
- The router's `!url.pathname.startsWith('/api/')` test in the cache-first rule can never fail, because API paths were already routed. The model keeps it, and `RouteByRule` shows it has no effect.
- ServiceWorker.Worker.Install: `addAll` also refuses a response carrying `Vary: *`; response headers other than the content type are not modelled, so that rejection is not captured.
- The `Request` objects built with `cache: 'reload'` in install are modelled by the fetch outcome of each URL. HTTP cache bypass is browser behaviour.
- The cache key is the path plus the query string of a same-origin request. `Vary` headers and request bodies are not consulted.
- AppShell.MainMargin: the classes are compared as names. The `lg:` prefix, which makes a margin apply only from 1024 CSS pixels, is style-sheet behaviour.
- AppShell.ShouldRetry: react-query decides how `failureCount` is counted and when the predicate is called, so only the predicate is modelled. `staleTime`, `cacheTime` and `refetchOnWindowFocus` are library caching behaviour.
- The HTTP client module and its token injection and 401 redirect are not part of this model. Neither are the page components that only render or forward calls, nor the search debounce.
- MappingPage.MappingView.SelectCode: the `window.history.replaceState` address-bar update is browser I/O.
- `new Date()` in the history entry is the `now` parameter.
- The `namaste-codes` and `dual-coding` queries' data are not modelled, only their `enabled` guard.
- The prop through which the mapping page hands its results to a results component is not modelled. The component the page imports is not part of this model. The results panel is modelled on its own `results` prop.
- Percentages shown with `toFixed` and dates shown with `toLocaleString` are float and locale formatting.
- AccessLog.Matching: `toLowerCase` is modelled on ASCII letters only. Unicode case mappings, including those that change a string's length, are not.
- AccessLog.SortNewestFirst: an access time is the millisecond instant its ISO text denotes. An unparsable date, whose comparisons give NaN, is not modelled.
- AccessLog.SortNewestFirst: the contract states a newest-first permutation, not the stability the insertion sort also has.
- MappingResultsView.TierOf: scores are real numbers. NaN scores, which fall into the low tier in the source, are not modelled.
- Registration.Validate: lengths are counted in Unicode scalar values. The browser counts UTF-16 code units, which differ for characters outside the Basic Multilingual Plane.
- Registration.Validate: the form library's `validate` runs only when the earlier rules pass. Its other modes (all errors at once, native validation through the library) are not used by the page. The browser's own check of the email inputs is a separate step, modelled in `Submit`.
- Registration.RegisterForm.Submit: the browser's value sanitisation of email inputs (newlines and surrounding whitespace removed) is not modelled; the values are taken as the sanitised text. Internationalised domain names, which a browser may convert before checking, are not modelled.
- Registration.RegisterForm.Submit: the `registerUser` call, the loading flag and the redirect after success are I/O. The model stops at the payload. The redirect of a signed-in user is navigation only.

## Findings

`ServiceWorker.Worker.Install` and `AppShell.Layout` model the code as written. The corrected members state what
the evidently intended code does.

| source | as written | input that shows it | evidently intended | confidence | as-written member | corrected member |
|---|---|---|---|---|---|---|
| public/sw.js:48-50 | the `.catch` after the precache chain logs the failure and resolves, so the install event succeeds with an incomplete shell cache | a 404 for `/static/css/main.css` during install | the installation fails, so the previous worker stays in control | medium, not executed | ServiceWorker.FailedPrecacheStillInstalls | ServiceWorker.AtomicInstall |
| src/App.js:90-161 | the margin class reads `window.innerWidth` during render, and a resize that changes no flag renders nothing | width 800, open the sidebar, resize to 1200: the sidebar shows on the desktop and the main area has no margin | the margin follows the current width after every resize | high, not executed | AppShell.StaleMarginAfterResize | AppShell.MarginAfterResize |
