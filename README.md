# Indie game storefront: the deterministic core

This project models the logic of a React storefront for independent games whose data
lives in a document store and whose builds live in file storage. Developers and
companies register, edit their profiles and publish games with per-platform builds;
players browse a paged catalogue and download builds.

The model covers the parts of that front end that are plain computation or plain state
change:

- **Catalogue queries.** `GamesService.getGames` turns a filter into a store query:
  "published" always, plus genre, platform and free predicates, a sort field and
  direction, a cursor and a page size. It then filters the fetched page by a
  case-insensitive search and re-sorts it by price. `createGame`, `addBuildToGame`, the
  mock `uploadFile` and `getDownloadUrl` are modelled too (module `GoogleDrive`).
- **Catalogue page.** Tabs map to query settings, pages load with reset or append
  semantics, `hasMore` follows the page length, `loadMore` is guarded, the filter panel
  is applied, and the two statistics are computed (module `IndexPage`, class
  `CatalogPage`).
- **Filter panel.** Single-field updates, duplicate-free tags, the reset, the "active"
  test, the badge count, the free toggle, the "all" sentinels and the price slider
  (module `GameFilters`).
- **Publishing a game.** Upload validation, the upload list's state machine (tick,
  complete, fail, remove), tag and platform editing, and the ordered submit checks with
  the record they build (module `AddGame`, class `AddGamePage`).
- **Registration.** The ordered validation, the sign-up data, the error-code messages,
  single-field edits and the fields each tab's inputs write (module `Register`, class
  `RegisterPage`).
- **Profile editing.** The form filled from the profile, the comma-separated skills and
  their round trip, and the update sent on save (module `Profile`, class `ProfilePage`).
- **Download panel.** Builds grouped by platform, the purchase gate, the in-progress
  marker and the icons (module `GameDownload`).
- **Catalogue card.** The image-validity test, the title hash and its two hues, and the
  platform and free badges (module `SimpleGameCard`).
- **Route guards.** Where `ProtectedRoute` and `PublicRoute` send a visitor (module
  `ProtectedRoute`).

The store is a parameter everywhere. A query is answered by a function
`Query -> Option<seq<GameDoc>>`, where `None` stands for a failed call. Collections of
games and builds are maps and sequences passed in and returned. Clock readings, generated
ids and the outcome of each remote call are parameters too. `Common` holds the shared
pieces:

- `Option` and `Result`;
- the signed-in user's profile;
- ASCII lower-casing and trimming;
- `includes`, `endsWith`, `split` and `join`;
- the tag-list `filter`.

Where the code does something its authors evidently did not intend, the model follows the
code as written and shows the consequence in a lemma (see "## Findings"). The mirrored
quirks are:

- uploads are stored under the placeholder game id;
- `addBuildToGame` ignores its build id;
- `applyFilters` sends an `isFree == null` predicate whenever the free filter is unset;
- "clear filters" applies the filters it has just replaced.

## Model

| member | source | states |
|---|---|---|
| Common.Lower | src/lib/googleDrive.ts:232-236 | `toLowerCase` keeps the length and maps every character through the (ASCII) lower-case table |
| Common.LowerIdempotent | src/lib/googleDrive.ts:232-236 | lower-casing twice is lower-casing once |
| Common.Trim | src/pages/AddGame.tsx:182-186 | `trim` returns a string with no white space at either end, drawn from the input's characters, and leaves an already trimmed string unchanged |
| Common.TrimDropsOnlySpace | src/pages/AddGame.tsx:182-186 | `trim` returns the slice of the input that starts right after its leading white space, and every character cut off before or after that slice is white space, so inner characters are never dropped |
| Common.TrimStartDropsSpace | src/pages/AddGame.tsx:182-186 | removing leading white space never lengthens the string and drops only white space from its front |
| Common.TrimEndDropsSpace | src/pages/AddGame.tsx:182-186 | removing trailing white space never lengthens the string and drops only white space from its end |
| Common.TrimLeadingSpace | src/pages/Profile.tsx:77 | trimming a trimmed non-empty item behind one space gives the item back |
| Common.Split | src/pages/Profile.tsx:77 | `split(',')` yields at least one part and no part contains the separator |
| Common.JoinSplit | src/pages/Profile.tsx:77 | joining the parts of a split with the separator gives the original string |
| Common.SplitJoinComma | src/pages/Profile.tsx:59 | splitting a `', '`-joined list on ',' gives the first item, then each later item behind one space |
| Common.RemoveAll | src/components/GameFilters.tsx:102-104 | `filter(t => t !== x)` keeps exactly the elements different from x, each as often as the input holds it, and never grows |
| Common.RemoveAllOrder | src/pages/AddGame.tsx:191-196 | removal keeps the remaining elements in order and keeps a duplicate-free list duplicate-free |
| GoogleDrive.GameRecord | src/lib/googleDrive.ts:223-226 | a fetched game always has an id: the stored id when the data carries one, otherwise the document id; every field other than the id is the stored data |
| GoogleDrive.BuildRecord | src/lib/googleDrive.ts:275-278 | a fetched build always has an id: the stored id when the data carries one, otherwise the document id; every field other than the id is the stored data |
| GoogleDrive.QueryFor | src/lib/googleDrive.ts:172-217 | every query starts with status == published; it has a genre equality iff genre is non-empty and platform array-contains iff platform is non-empty; it has an isFree equality, with the given value (null included), iff isFree is not undefined; no other field is ever filtered; the order is (price, asc) for price_low, (price, desc) for price_high, (downloadCount/rating, desc) for popular/rating, otherwise (createdAt, desc); the cursor is lastDoc and the limit is limitCount, or 12 when it is 0 |
| GoogleDrive.SearchFilter | src/lib/googleDrive.ts:230-238 | the search keeps an order-preserving subsequence of the page whose members all match, and every matching game exactly as often as the page holds it |
| GoogleDrive.Records | src/lib/googleDrive.ts:221-227 | the page's games are the fetched documents, one for one and in order |
| GoogleDrive.CopyDocs | src/lib/googleDrive.ts:221-227 | the `forEach` loop collects exactly the records of the fetched documents, in order, and leaves the last one as the cursor (none for an empty page) |
| GoogleDrive.LastOf | src/lib/googleDrive.ts:221-226 | the cursor is null iff the server page is empty, otherwise its last document |
| GoogleDrive.SortByPrice | src/lib/googleDrive.ts:241-245 | the in-place sort leaves the array ordered by price (non-decreasing for price_low, non-increasing for price_high), a permutation of what it held, and stable: the games of any one price keep their relative order |
| GoogleDrive.SinkLast | src/lib/googleDrive.ts:241-245 | one insertion step moves the new last element down into an ordered prefix, giving an ordered, permuted prefix in which every price group keeps its order |
| GoogleDrive.SwapDown | src/lib/googleDrive.ts:241-245 | exchanging two neighbours of different price swaps exactly those two, keeps the multiset and keeps every price group's order |
| GoogleDrive.SwapKeepsPriceGroups | src/lib/googleDrive.ts:241-245 | exchanging two neighbours of different price leaves the games of each price in the same order |
| GoogleDrive.WithPriceConcat | src/lib/googleDrive.ts:241-245 | the games of one price in a concatenation are those of the first part followed by those of the second |
| GoogleDrive.ComposeQuery | src/lib/googleDrive.ts:172-217 | building the query step by step yields exactly `QueryFor` of the filter |
| GoogleDrive.ProcessPage | src/lib/googleDrive.ts:219-247 | the page returned is the searched records, re-sorted by price for the price sorts, stably (equal prices keep the search order), with the server page's last document as cursor (`ValidPage`) |
| GoogleDrive.GetGames | src/lib/googleDrive.ts:163-252 | a failing store call gives the error "Ошибка загрузки игр"; otherwise the result is a valid page for the fetched documents |
| GoogleDrive.PageFromDocs | src/lib/googleDrive.ts:219-247 | every returned game is the record of some fetched document |
| GoogleDrive.RecordMeetsFilter | src/lib/googleDrive.ts:172-189 | a document satisfying the query is published, has the asked genre and platform and the asked isFree, and the filter cannot have had isFree null |
| GoogleDrive.PageMeetsQuery | src/lib/googleDrive.ts:163-247 | from a store that answers the query faithfully, every returned game is published and meets the genre, platform and free conditions |
| GoogleDrive.PageWithinLimit | src/lib/googleDrive.ts:217-238 | a returned page is no longer than the server page, which is no longer than the limit |
| GoogleDrive.SearchedFromRecords | src/lib/googleDrive.ts:230-238 | the search never invents a game |
| GoogleDrive.SearchedLength | src/lib/googleDrive.ts:230-238 | the search never lengthens the page |
| GoogleDrive.SubsequenceLength | src/lib/googleDrive.ts:233-237 | a subsequence is never longer than its source |
| GoogleDrive.EmptySearchKeepsPage | src/lib/googleDrive.ts:230-245 | with no search and no price sort the page is the fetched records unchanged |
| GoogleDrive.CreatedRecord | src/lib/googleDrive.ts:133-142 | a created game has rating 0, downloadCount 0, no builds and both timestamps set to now, whatever the input carried; all other fields are the input's |
| GoogleDrive.CreateGame | src/lib/googleDrive.ts:133-148 | creating adds exactly the new id, holding the created record, and leaves every other game as it was |
| GoogleDrive.BuildsFor | src/lib/googleDrive.ts:267-279 | the builds queried for a game are exactly the records of the stored builds carrying its id: each result is such a record, and every such stored build is among them |
| GoogleDrive.BuildsForAppend | src/lib/googleDrive.ts:267-279 | storing one more build extends a game's build list, in store order, by exactly that build's record when it belongs to the game, and leaves it unchanged otherwise |
| GoogleDrive.AddBuildToGame | src/lib/googleDrive.ts:265-289 | for an existing game, its builds become exactly the stored builds with its id and updatedAt becomes now, the build id having no effect; other games are untouched; an unknown game gives the error "Ошибка добавления билда к игре" |
| GoogleDrive.UploadFile | src/lib/googleDrive.ts:62-98 | an upload appends one build record with the file's name and size, the game id and platform, the mock file id and its download URL, no id of its own, version "1.0.0", uploadedAt now and an empty creatorId, keeping the earlier records |
| GoogleDrive.GetDownloadUrl | src/lib/googleDrive.ts:101-104 | the download URL of a file id is the fixed prefix followed by the id, and the id can be read back from it |
| GoogleDrive.DownloadUrlRoundTrip | src/lib/googleDrive.ts:101-104 | the file id can be read back from its download URL, so distinct ids give distinct URLs |
| AddGame.FileError | src/pages/AddGame.tsx:100-119 | a file over 500·1024·1024 bytes is rejected with the size message; a file of acceptable size is rejected with the type message iff its MIME type is not one of the four listed and its name ends in neither .exe nor .apk; otherwise it is accepted |
| AddGame.Apply | src/pages/AddGame.tsx:135-172 | a tick keeps the status and never takes progress past 90; from at most 90 it never goes back, and below 90 it always moves forward; completion sets status completed, progress 100 and the drive id and URL; failure sets status error and progress 0; a tick or a failure keeps the drive id and URL; id, file and platform never change |
| AddGame.UpdateUnits | src/pages/AddGame.tsx:136-142 | a per-id update changes exactly the units with that id and keeps the list's length and order |
| AddGame.UpdateAbsentUnit | src/pages/AddGame.tsx:136-142 | an update for an id no longer in the list changes nothing |
| AddGame.TicksApproachNinety | src/pages/AddGame.tsx:135-143 | n ticks take progress p to min(p+10n, 90) and keep the status |
| AddGame.RemoveUnit | src/pages/AddGame.tsx:177-179 | removal keeps, in order, exactly the units with other ids |
| AddGame.CompletedUnits | src/pages/AddGame.tsx:216 | the completed units, in order, and only those |
| AddGame.StepKeepsValid | src/pages/AddGame.tsx:135-172 | ticks, completions and failures keep ids distinct and every progress within its status's range |
| AddGame.AppendKeepsValid | src/pages/AddGame.tsx:121-131 | appending a fresh uploading unit at 0 keeps the list valid |
| AddGame.RemoveKeepsDistinct | src/pages/AddGame.tsx:177-179 | removal keeps ids distinct |
| AddGame.RemoveKeepsValid | src/pages/AddGame.tsx:177-179 | removal keeps the list valid |
| AddGame.TagsAfterAdd | src/pages/AddGame.tsx:181-189 | adding appends the trimmed tag only when it is non-empty and absent, so the tags stay duplicate-free |
| AddGame.SubmitError | src/pages/AddGame.tsx:198-221 | the first failing check decides the message, in order: no user, missing title/short description/genre, no platform, no completed upload; no message iff every check passes |
| AddGame.SubmittedGame | src/pages/AddGame.tsx:225-246 | the record is free with price 0 iff the price type is free, otherwise carries the parsed price (0 when unparsable); it is published iff visibility is public, else draft; the developer is the display name when it is non-empty and "Unknown" otherwise, so never empty; the form's fields are copied |
| AddGame.PublishedGame | src/pages/AddGame.tsx:225-253 | the record a successful publish leaves under the new id: the submitted record as `createGame` stores it (SubmittedGame, CreatedRecord), with the builds stored under the id as its build list (BuildsFor); PublishGame and Submit state that this is what is stored |
| AddGame.UploadNeverLinked | src/pages/AddGame.tsx:146 | a build stored under the placeholder game id is never among the builds linked to a real game |
| AddGame.PublishGame | src/pages/AddGame.tsx:248-253 | publishing adds exactly the new id; when every `addBuildToGame` call succeeds it holds the submitted record, created now, with the builds stored under that id as its build list, and it reports success iff no call failed; when a call fails the game stays stored, with no builds if the first call failed and with the linked list otherwise |
| AddGame.LinkAll | src/pages/AddGame.tsx:250-252 | the loop over the completed units links the game's builds when some call is made, stops at the first failing call, and reports success iff no call failed; other games are untouched |
| AddGame.LinkOnce | src/pages/AddGame.tsx:250-252 | one `addBuildToGame` call on the new game leaves every other game as it was and gives the new game the builds stored under its id |
| AddGame.AddGamePage.constructor | src/pages/AddGame.tsx:58-78 | the page starts with the empty form, no uploads, no error and no tag being typed |
| AddGame.AddGamePage.HandleFileUpload | src/pages/AddGame.tsx:97-131 | with no file nothing changes; a rejected file sets its error and leaves the list alone; an accepted file is appended as one new uploading unit at 0 and clears the error |
| AddGame.AddGamePage.ProgressTick | src/pages/AddGame.tsx:135-143 | a tick updates only the unit with that id |
| AddGame.AddGamePage.FinishUpload | src/pages/AddGame.tsx:146-163 | the file and platform of the unit being uploaded are stored under the placeholder game id; the unit becomes completed with its drive id and URL; nothing else changes |
| AddGame.AddGamePage.FailUpload | src/pages/AddGame.tsx:164-173 | the unit becomes error with progress 0 and the upload error is shown |
| AddGame.AddGamePage.RemoveFile | src/pages/AddGame.tsx:177-179 | the list becomes `RemoveUnit` of the old list; nothing else changes |
| AddGame.AddGamePage.SetCurrentTag | src/pages/AddGame.tsx:424 | the typed tag is stored; nothing else changes |
| AddGame.AddGamePage.AddTag | src/pages/AddGame.tsx:181-189 | tags become `TagsAfterAdd` of the typed text, which is cleared only when a tag was added |
| AddGame.AddGamePage.RemoveTag | src/pages/AddGame.tsx:191-196 | every equal tag is removed; nothing else changes |
| AddGame.AddGamePage.TogglePlatform | src/pages/AddGame.tsx:394-405 | checking appends the platform; unchecking removes every occurrence |
| AddGame.AddGamePage.Submit | src/pages/AddGame.tsx:198-261 | a failed check sets its message and stores nothing; a publish whose `addBuildToGame` call fails keeps the created game stored, sets "Ошибка при публикации игры" and does not navigate; a successful one stores the published game under the new id, clears the error and goes to /dashboard; loading ends false |
| IndexPage.TabSettings | src/pages/Index.tsx:49-66 | trending → popular, top → rating, any other tab → newest; only the free tab sets isFree, to true; no tab yields isFree null |
| IndexPage.PanelFree | src/pages/Index.tsx:95-101 | the panel's unset free filter is sent as null, never as undefined |
| IndexPage.LoadFilter | src/pages/Index.tsx:68-74 | a tab load keeps the panel's genre, platform and search, takes sortBy and isFree from the tab, and asks for 12 after the given cursor |
| IndexPage.TabOverridesPanel | src/pages/Index.tsx:68-74 | two panels that agree on genre, platform and search give the same tab query, whatever their sortBy and isFree |
| IndexPage.ApplyFilter | src/pages/Index.tsx:95-101 | applying uses the panel's filters unchanged with no cursor and a limit of 20 |
| IndexPage.ApplyWithUnsetFreeFindsNothing | src/pages/Index.tsx:95-101 | with the free filter unset, a store that answers faithfully returns no game at all |
| IndexPage.FreeCount | src/pages/Index.tsx:365 | the free count never exceeds the number of games |
| IndexPage.StatsAppend | src/pages/Index.tsx:359-365 | both statistics add up over appended pages |
| IndexPage.TotalDownloads | src/pages/Index.tsx:359 | the downloads total; with no negative count it is at least every single game's count (its sum over pages is in StatsAppend) |
| IndexPage.FreeCountMeaning | src/pages/Index.tsx:365 | the free count is the number of positions holding a free game |
| IndexPage.DownloadsNonNegative | src/pages/Index.tsx:359 | with no negative download count, the downloads total is non-negative |
| IndexPage.HasMoreMeansFullServerPage | src/pages/Index.tsx:86 | when hasMore is set, the store returned a full page of 12 |
| IndexPage.CatalogPage.constructor | src/pages/Index.tsx:19-37 | the page starts loading on the "all" tab, with no games, no cursor, hasMore set and the default filters |
| IndexPage.CatalogPage.LoadGames | src/pages/Index.tsx:44-93 | a reset load asks from no cursor and replaces both lists; an appending load asks from the stored cursor and appends to both; the cursor is replaced and hasMore is "page has 12"; a failure sets "Ошибка загрузки игр" and keeps the lists; loading ends false |
| IndexPage.CatalogPage.FinishLoad | src/pages/Index.tsx:76-90 | a missing page sets "Ошибка загрузки игр" and keeps lists, cursor and hasMore; a page replaces (reset) or extends both lists, moves the cursor, sets hasMore to "page has 12" and clears the error; loading ends false |
| IndexPage.CatalogPage.LoadMore | src/pages/Index.tsx:44-114 | nothing happens while loading or without more; otherwise the next page is fetched from the cursor with the current filters and tab: a failing fetch sets "Ошибка загрузки игр" and keeps the lists, a successful one appends the valid page to both lists, moves the cursor and sets hasMore iff the page is full; loading ends false |
| IndexPage.CatalogPage.SetActiveTab | src/pages/Index.tsx:38-108 | choosing the current tab loads nothing; a new tab fetches from the start with that tab's settings: a failing fetch sets "Ошибка загрузки игр", a successful one replaces both lists by the valid page, sets the cursor and hasMore iff the page is full |
| IndexPage.CatalogPage.SetFilters | src/pages/Index.tsx:182 | panel edits replace the filters and nothing else |
| IndexPage.CatalogPage.ApplyFilters | src/pages/Index.tsx:95-108 | only the shown list is replaced, by a limit-20 query with the panel's filters; games, cursor and hasMore are untouched; a failure sets "Ошибка применения фильтров" |
| IndexPage.CatalogPage.FinishApply | src/pages/Index.tsx:101-106 | a missing page sets "Ошибка применения фильтров"; a page replaces only the shown list; loading ends false |
| IndexPage.CatalogPage.ClearFilters | src/pages/Index.tsx:317-330 | the filters become the defaults, but the shown list is reloaded with the filters as they were before: a failing fetch sets "Ошибка применения фильтров" and keeps the list, a successful one replaces the list by the valid page and keeps the error; the tab is kept and loading ends false |
| GameFilters.Get | src/components/GameFilters.tsx:88-93 | every key reads a value of its own type |
| GameFilters.FiltersByKeys | src/components/GameFilters.tsx:88-93 | two filter records that agree at every key are equal |
| GameFilters.UpdateFilter | src/components/GameFilters.tsx:88-93 | the record equals the old one except at the given key, which holds the new value |
| GameFilters.UpdateWithSameValue | src/components/GameFilters.tsx:88-93 | writing back a key's own value changes nothing |
| GameFilters.AddTag | src/components/GameFilters.tsx:95-100 | the tag is appended only if non-empty and absent (no trimming); only the tags change and they stay duplicate-free |
| GameFilters.RemoveTag | src/components/GameFilters.tsx:102-104 | every occurrence is removed, the others kept in order and as often as they were; only the tags change |
| GameFilters.ToggleTag | src/components/GameFilters.tsx:351-357 | a popular-tag click adds an absent tag and removes a present one |
| GameFilters.RemoveAfterAdd | src/components/GameFilters.tsx:95-104 | adding an absent tag and removing it restores the record |
| GameFilters.RemoveAllAbsent | src/components/GameFilters.tsx:102-104 | removing an absent tag changes nothing |
| GameFilters.RemoveAllAppend | src/components/GameFilters.tsx:102-104 | removing a tag undoes appending it |
| GameFilters.ClearAll | src/components/GameFilters.tsx:106-119 | reset yields exactly the default record, which is not active |
| GameFilters.InactiveMeansDefault | src/components/GameFilters.tsx:121-124 | within the slider's range, a record is inactive iff it equals the defaults up to sortBy |
| GameFilters.HasActiveFilters | src/components/GameFilters.tsx:121-124 | whether any filter is set; InactiveMeansDefault shows it is false exactly for the default record (up to sortBy) and BadgeImpliesActive relates it to the badge |
| GameFilters.CountNonEmpty | src/components/GameFilters.tsx:179-181 | the truthy count never exceeds the number of entries |
| GameFilters.CountNonEmptyAppend | src/components/GameFilters.tsx:179-181 | the truthy count adds up over concatenation |
| GameFilters.CountAllNonEmpty | src/components/GameFilters.tsx:179-181 | entries that are all non-empty are all counted |
| GameFilters.BadgeCountClosedForm | src/components/GameFilters.tsx:179-181 | the badge counts genre, platform, the free label only when isFree is true, the rating label only when rating > 0, and each non-empty tag |
| GameFilters.BadgeCount | src/components/GameFilters.tsx:179-181 | the number on the badge: the truthy entries among genre, platform, the free label, the rating label and the tags, in closed form in BadgeCountClosedForm |
| GameFilters.BadgeImpliesActive | src/components/GameFilters.tsx:121-124 | a non-zero badge means active filters; the converse fails (a search alone shows no badge) |
| GameFilters.ToggleFree | src/components/GameFilters.tsx:204-206 | the quick button sets isFree to null when it is true and to true otherwise; nothing else changes |
| GameFilters.ToggleFreeTwice | src/components/GameFilters.tsx:204-206 | two presses restore the record, except that false becomes null |
| GameFilters.SelectGenre | src/components/GameFilters.tsx:248 | "Все жанры" is stored as "", any other choice verbatim |
| GameFilters.SelectPlatform | src/components/GameFilters.tsx:264 | "Все платформы" is stored as "", any other choice verbatim |
| GameFilters.PriceSliderAsWritten | src/components/GameFilters.tsx:284-288 | as written, the two updates start from the same stale record, so only priceMax survives |
| GameFilters.PriceSliderLosesMinimum | src/components/GameFilters.tsx:284-288 | moving the minimum to 100 leaves the default record unchanged |
| GameFilters.PriceSlider | src/components/GameFilters.tsx:284-288 | the slider sets both ends of the price range and nothing else |
| GameFilters.PriceSliderActivates | src/components/GameFilters.tsx:284-288 | a moved slider stays in range and makes the filters active |
| Register.ValidateForm | src/pages/Register.tsx:42-64 | "" iff every check passes; otherwise the first failing check's message, in order: missing email/password/name, password under 6, mismatch, company without name, terms |
| Register.CompanyNameOnlyForCompanies | src/pages/Register.tsx:55-57 | a developer's form is judged without its company name; a valid developer form is valid for a company iff it has a company name |
| Register.AdditionalDataFor | src/pages/Register.tsx:76-86 | the display name is always sent; a company also sends its name, the contact person or else the display name, and verified false |
| Register.ErrorMessage | src/pages/Register.tsx:93-99 | the two known error codes get their own messages, every other code the generic one |
| Register.UpdateField | src/pages/Register.tsx:125-127 | the named field takes the value and every other field is unchanged |
| Register.EditsKeepOtherFields | src/pages/Register.tsx:125-127 | edits through inputs that do not write a field leave it as it was |
| Register.DeveloperTabCannotRegister | src/pages/Register.tsx:207-220 | as written, no edit on the developer tab sets the password, so validation always fails with the missing-fields message |
| Register.DeveloperEditsFill | src/pages/Register.tsx:173-247 | typing a name, an email, a password, its confirmation and ticking the terms box on the developer tab leaves the form holding exactly those values, the company fields still absent |
| Register.DeveloperTabCanRegister | src/pages/Register.tsx:173-247 | with a password input on the developer tab, filling it in passes validation |
| Register.CompanyContactIsDisplayName | src/pages/Register.tsx:268-279 | no company-tab input writes the contact person, so the contact person sent is always the display name |
| Register.RegisterPage.constructor | src/pages/Register.tsx:28-37 | the page starts on the developer tab with the empty form |
| Register.RegisterPage.SetUserType | src/pages/Register.tsx:161 | switching tabs keeps the form |
| Register.RegisterPage.UpdateFormData | src/pages/Register.tsx:125-127 | the form becomes `UpdateField` of the old form |
| Register.RegisterPage.Submit | src/pages/Register.tsx:66-103 | a failing validation sets its message and makes no sign-up call; otherwise sign-up gets the email, password, type and additional data, success goes to /dashboard, failure shows the code's message, and loading ends false |
| Profile.TrimNonEmpty | src/pages/Profile.tsx:77 | trimming and dropping empties yields non-empty, trimmed, comma-free items, no more than there were parts |
| Profile.ParseSkills | src/pages/Profile.tsx:77 | an empty string gives []; every parsed skill is non-empty, trimmed and comma-free |
| Profile.TrimNonEmptyExact | src/pages/Profile.tsx:77 | parts that trim to given non-empty items parse to exactly those items |
| Profile.SplitJoinedSkills | src/pages/Profile.tsx:59 | splitting a displayed skills list on ',' gives the first skill, then each later skill behind one space |
| Profile.TrimJoinedSkills | src/pages/Profile.tsx:59 | each such piece trims back to its skill |
| Profile.FormatParseRoundTrip | src/pages/Profile.tsx:59 | parsing the `', '`-joined display of a list of non-empty, trimmed, comma-free skills gives the list back |
| Profile.FormatSkills | src/pages/Profile.tsx:59 | the skills shown in the form, joined with ", ", or "" when there are none; FormatParseRoundTrip and ParseFormatStable show saving them back gives the same list |
| Profile.ParseFormatStable | src/pages/Profile.tsx:77 | saving an unedited skills field a second time sends the same skills |
| Profile.FormFromProfile | src/pages/Profile.tsx:52-63 | the form holds the profile's fields, each absent one as "", and the skills joined with ", " |
| Profile.UpdateForm | src/pages/Profile.tsx:95-97 | the named field takes the value and every other field is unchanged |
| Profile.WebsiteInputField | src/pages/Profile.tsx:253-267 | the website input writes the company site for a company and the personal site for a developer |
| Profile.UpdateDataFor | src/pages/Profile.tsx:71-83 | the update holds the personal fields and the parsed skills; company name and site are sent iff the profile is a company |
| Profile.SaveUneditedKeepsProfile | src/pages/Profile.tsx:52-83 | saving the form as filled writes back the profile's own values, its skills included |
| Profile.ProfilePage.constructor | src/pages/Profile.tsx:40-50 | the page starts with the empty form, no message, not loading |
| Profile.ProfilePage.ProfileLoaded | src/pages/Profile.tsx:52-64 | when the profile arrives the form is filled from it |
| Profile.ProfilePage.Edit | src/pages/Profile.tsx:95-97 | the form becomes `UpdateForm` of the old form |
| Profile.ProfilePage.Cancel | src/pages/Profile.tsx:294-305 | cancel resets the form to exactly the values used when filling it, and clears the message |
| Profile.ProfilePage.Submit | src/pages/Profile.tsx:66-93 | the update sent is `UpdateDataFor` of the form; the success or error message follows the store call; loading ends false |
| GameDownload.PlatformIcon | src/components/GameDownload.tsx:74-82 | the phone icon exactly for "android" and "ios" in any letter case, otherwise the monitor |
| GameDownload.PlatformIconIgnoresCase | src/components/GameDownload.tsx:74-82 | the icon of a lower-cased name is the icon of the name |
| GameDownload.FileIcon | src/components/GameDownload.tsx:84-88 | .apk gives the phone, otherwise .exe gives the monitor, anything else the archive; an .exe name always gets the monitor |
| GameDownload.OfPlatform | src/components/GameDownload.tsx:90-96 | a platform's group holds exactly the builds of that platform |
| GameDownload.OfPlatformKeepsOrder | src/components/GameDownload.tsx:90-96 | a group keeps the input order |
| GameDownload.OfPlatformAppend | src/components/GameDownload.tsx:94 | pushing a build extends only its own platform's group |
| GameDownload.PlatformsInOrder | src/components/GameDownload.tsx:91-93 | the keys are duplicate-free |
| GameDownload.PlatformsInOrderMembers | src/components/GameDownload.tsx:91-93 | the keys are exactly the platforms that occur among the builds |
| GameDownload.GroupSizesStep | src/components/GameDownload.tsx:90-96 | one more build adds one to the group sizes exactly when its platform is a key |
| GameDownload.KeysStep | src/components/GameDownload.tsx:91-93 | a new platform becomes the last key; a known one leaves the keys alone |
| GameDownload.GroupSizesSum | src/components/GameDownload.tsx:90-96 | the group sizes add up to the number of builds |
| GameDownload.PushKeepsGroups | src/components/GameDownload.tsx:94 | pushing a build onto its platform's list keeps every list equal to its platform's builds |
| GameDownload.GroupStepPresent | src/components/GameDownload.tsx:94 | pushing onto an existing group keeps the grouping exact |
| GameDownload.GroupStepAbsent | src/components/GameDownload.tsx:91-94 | creating a group for a new platform keeps the grouping exact |
| GameDownload.GroupBuilds | src/components/GameDownload.tsx:90-96 | the accumulator pass yields the keys in first-appearance order, and each key's group is exactly that platform's builds in input order |
| GameDownload.DownloadPanel.constructor | src/components/GameDownload.tsx:41 | no build is being fetched at first |
| GameDownload.DownloadPanel.Click | src/components/GameDownload.tsx:43-49 | without the right to download (neither free nor purchased) the marker is untouched and the purchase handler is called if there is one; otherwise the build is marked as being fetched and its button is disabled |
| GameDownload.DownloadPanel.Enabled | src/components/GameDownload.tsx:157-161 | a build's button is shown when the game may be downloaded and is disabled while that build is being fetched; Click disables it and HandleDownload leaves it enabled again |
| GameDownload.CanDownload | src/components/GameDownload.tsx:98 | downloads are allowed iff the game is free or purchased; Click and HandleDownload gate on it |
| GameDownload.DownloadPanel.Finish | src/components/GameDownload.tsx:51-71 | a link to the build's URL with its file name as download name is clicked; onDownload gets the build's id and platform iff the click did not throw; the marker is cleared either way |
| GameDownload.HandleDownload | src/components/GameDownload.tsx:43-71 | a forbidden click never reports a download; a permitted one clicks the build's link and, unless that throws, reports exactly that build's id and platform; the panel is idle afterwards and the build's button enabled again |
| SimpleGameCard.DefaultPlaceholderContainsWord | src/components/SimpleGameCard.tsx:36-39 | the default placeholder contains "placeholder", so validity is: non-empty, no "placeholder", no load error |
| SimpleGameCard.HasValidImage | src/components/SimpleGameCard.tsx:36-39 | the picture is used iff the image is non-empty, not the default placeholder, contains no "placeholder" and has not failed to load |
| SimpleGameCard.ToInt32 | src/components/SimpleGameCard.tsx:46 | the int32 coercion lies in [−2^31, 2^31), agrees with its input modulo 2^32, and is the identity inside that range |
| SimpleGameCard.ShiftLeft5 | src/components/SimpleGameCard.tsx:46 | `h << 5` lies in the int32 range and agrees with 32·h modulo 2^32 |
| SimpleGameCard.Utf16 | src/components/SimpleGameCard.tsx:45-46 | the code units of a title: one or two per character, and when all characters are in the basic plane exactly the characters' own codes, one each |
| SimpleGameCard.Utf16Append | src/components/SimpleGameCard.tsx:45-46 | the encoding works character by character: the units of a concatenation are the units of its parts |
| SimpleGameCard.SurrogatePair | src/components/SimpleGameCard.tsx:45-46 | a character above the basic plane becomes a high surrogate then a low surrogate, which decode back to the character |
| SimpleGameCard.HashBound | src/components/SimpleGameCard.tsx:43-47 | each character moves the hash by less than 2^31 + 2^16, so the number arithmetic stays exact for any realistic title |
| SimpleGameCard.HuesOf | src/components/SimpleGameCard.tsx:49-50 | hue1 = abs(hash) mod 360 and hue2 is hue1 plus 60 modulo 360, both in [0, 360) |
| SimpleGameCard.EmptyTitleGradient | src/components/SimpleGameCard.tsx:42-53 | an empty title gives hues 0 and 60 |
| SimpleGameCard.GenerateGradient | src/components/SimpleGameCard.tsx:42-53 | the loop computes exactly the gradient of the title's hash, with both hues in [0, 360) |
| SimpleGameCard.PlatformBadges | src/components/SimpleGameCard.tsx:142-151 | at most two platform badges, in order, then "+k" with k = length − 2 only when there are more than two |
| SimpleGameCard.BadgesAccountForAll | src/components/SimpleGameCard.tsx:142-151 | the badges together stand for every platform |
| SimpleGameCard.FreeBadge | src/components/SimpleGameCard.tsx:102-106 | the free badge is shown iff isFree is true, with an omitted isFree read as false |
| SimpleGameCard.Card.constructor | src/components/SimpleGameCard.tsx:32-33 | a card starts with no image error and not loaded |
| SimpleGameCard.Card.CoverShown | src/components/SimpleGameCard.tsx:66-94 | the picture is shown iff the image is valid, otherwise the title's gradient |
| SimpleGameCard.Card.HandleImageError | src/components/SimpleGameCard.tsx:55-57 | after a load error the gradient is shown |
| SimpleGameCard.Card.HandleImageLoad | src/components/SimpleGameCard.tsx:59-61 | a successful load changes which cover is shown in no way |
| ProtectedRoute.Protect | src/components/ProtectedRoute.tsx:11-30 | a signed-out visitor goes to redirectTo (default /login) carrying the location as `from`; a signed-in visitor lacking the required type (or any profile) goes to /unauthorized; the children render iff neither applies |
| ProtectedRoute.ReturnPath | src/components/ProtectedRoute.tsx:39 | the return path is `from`'s pathname when present and non-empty, else /dashboard |
| ProtectedRoute.Public | src/components/ProtectedRoute.tsx:33-44 | a signed-in visitor is redirected to the return path; the children render iff signed out |
| ProtectedRoute.LoginReturnsToRequestedPage | src/components/ProtectedRoute.tsx:19-40 | a signed-out visit to a protected page, followed by signing in on the page it leads to, returns the visitor to the page asked for |
| ProtectedRoute.GuardsAreComplementary | src/components/ProtectedRoute.tsx:11-44 | no visitor sees both a protected page's and a public page's content; without a required type exactly one of them renders |

## Left out

- The document store, file storage and authentication calls (`getDocs`, `addDoc`, `updateDoc`, `signup`, `updateUserProfile`) are parameters: a query function, maps and sequences, and a flag or error code for the outcome of each call whose failure the callers handle: a failing query, sign-up or profile update, an upload, a `createGame` call (no new id), and the position of the first failing `addBuildToGame` call. src/contexts/AuthContext.tsx, src/pages/Login.tsx, src/pages/Dashboard.tsx and src/pages/GameDetail.tsx are thin wrappers over those calls and are not part of this model.
- `GoogleDriveService.deleteFile`, `GamesService.updateGame` and `getGameById` perform network or store I/O only and are not modelled.
- Timers and asynchrony are not modelled: the progress interval, the simulated download delay, `await` points and overlapping uploads. Each tick, completion, failure and click is a separate sequential operation.
- Ids from `Date.now()` and `Math.random()` and clock readings are parameters. Fresh ids are required to differ from existing ones.
- `parseFloat` of the price is an input (`Option<real>`, `None` when unparsable). Prices and ratings are reals that are only compared.
- `toLowerCase` and `trim` act on ASCII letters and ASCII white space only. Unicode case folding and Unicode spaces are not modelled.
- String lengths are counted in characters. The password length check counts characters, not UTF-16 code units. Only the title hash works on UTF-16 code units.
- SimpleGameCard.HashBound: the hash is computed on unbounded integers. JavaScript numbers agree with it only while the hash stays below 2^53, which the lemma guarantees for titles shorter than about two million code units. Rounding beyond that is not modelled.
- The gradient's CSS text, the `toFixed` rating display and all JSX layout are not modelled. src/components/SimpleHeader.tsx and the route table in src/App.tsx are not part of this model.
- GameDownload.DownloadPanel.Finish: the DOM link element is reduced to its href and download name, and its click to a flag saying whether it threw.
- AddGame.PublishGame: one clock reading `now` stands for the separate `new Date()` readings of the submitted record, of `createGame` and of each `addBuildToGame` call.
- GoogleDrive.BuildsForAppend: the order of the `builds` sequence stands for the order in which the store answers the builds query, which has no `orderBy` and so comes back in document-id order; `addDoc` picks random ids, so where a new build falls in that order is not modelled, and the model's appending at the end is one of the possible answers. The platform order of GroupBuilds inherits this.
- The `Object.entries` order of the grouped builds is modelled as first-appearance order. That is the engine's order for non-numeric string keys; numeric-looking platform names would be listed first by the engine, and that case is not modelled.

## Findings

| source | as written | input that shows it | evidently intended | confidence | as-written member | corrected member |
|---|---|---|---|---|---|---|
| src/components/GameFilters.tsx:285-288 | the slider handler calls `updateFilter('priceMin', min)` and then `updateFilter('priceMax', max)`; each spreads the same captured `filters`, so the second call discards the first | moving the minimum of the default range to 100 (max stays 5000) leaves priceMin at 0 | both ends of the range are stored | high (not executed) | GameFilters.PriceSliderAsWritten, GameFilters.PriceSliderLosesMinimum | GameFilters.PriceSlider, GameFilters.PriceSliderActivates |
| src/pages/Register.tsx:207-220 | the developer tab's field labelled as the password writes `confirmPassword`; no developer-tab input writes `password` | any sequence of developer-tab edits from the empty form, e.g. name "Ann", email, "secret" in the password field, terms checked, still fails with "Заполните все обязательные поля" | the field writes `password` (and a confirmation field writes `confirmPassword`) | high (not executed) | Register.DeveloperTabCannotRegister | Register.DeveloperTabCanRegister |
