# Personal portfolio: client, state hook and service, in Dafny

This project models the three pieces of logic behind a personal portfolio
site, and proves what each one promises.

- **The browser's REST client** (`PortfolioAPI`).
  - `fetchWithTimeout` turns each way one HTTP call can end into a JSON body or an `APIError`.
  - `withRetry` retries server errors.
  - The resource operations build their URLs and verbs.
  - `healthCheck` probes the server.
- **The portfolio hook** (`usePortfolio`). It holds four pieces of state:
  - the last snapshot;
  - the loading flag;
  - the error message;
  - the time of the last successful fetch.

  It puts a five-minute cache in front of the fetch. After the personal and about updates it merges the changes into the snapshot in memory.
- **The portfolio service** (`PortfolioService`). It works on six collections: portfolios, plus one per kind of list item (skills, experience, projects, achievements, publications).
  - Reads are sorted by position.
  - Updates keep only the fields that were given. Personal and about updates write them as nested `$set` paths.
  - Creates, updates and deletes act on items by id.
  - The migration fills the collections from a mock-data dictionary. It gives each entry its position as `order`, fills in the record defaults, and upserts under a natural key.

Files:

| file | what it holds |
|---|---|
| `wrappers.dfy` | `Option` and `Result` |
| `json_value.dfy` | parsed JSON values; JavaScript truthiness, `\|\|` and `String(v)`; decimal rendering of numbers |
| `api_client.dfy` | the client |
| `portfolio_hook.dfy` | the hook, as a class whose fields are the four pieces of React state |
| `documents.dfy` | the document collection the service relies on |
| `portfolio_models.dfy` | the pydantic records |
| `portfolio_service.dfy` | the service, as a class whose fields are the six collections, with the migration's specification |

A collection is a sequence of documents in storage order. A query is an equality filter. `find_one`, `update_one`, `delete_one` and `replace_one` act on the first match; `insert_one` appends. A read sorted by `order` gives a permutation of the matching documents, ascending by that field.

The outside world enters as parameters:

- **The network** is an oracle. `network(req, k)` says how the k-th `fetch` of request `req` goes: how many milliseconds it takes, and whether it resolves with a response or rejects.
- **The abort timer** is a comparison of that duration with the configured timeout.
- **JSON.parse** is an optional parsed value carried by the response.
- **The clocks** (`Date.now()`, `datetime.now`) are integer parameters.
- **`uuid4()`** is a function from kind and position to an id.

Each of the service's five migration loops is an upsert per entry. The model builds the whole list of writes first, then runs them in one loop over a copy of the collection, and stores the result once. Building a record reads and writes nothing, so the result is the same. The five loops run one after another, in the source's order.

## Model

| member | source | states |
|---|---|---|
| ApiClient.FetchWithTimeout | frontend/src/services/api.js:19-67 | A call still pending when the timer fires is a 408 timeout error, whatever the connection would have done. The result is the body exactly when a 2xx response arrives in time with a JSON body. A non-2xx response fails with its own status and the parsed body as data. Its message is `detail`, else `message`, else `"HTTP <status>"`. An error body that parses to null is a status-0 network error instead. A rejected call is a network error carrying the cause (408 if it is an AbortError). Every failure has status 0, 408 or the server's own. A failure has status ≥ 500 exactly when a non-null 5xx error body arrived in time. |
| ApiClient.RetryFromSpec | frontend/src/services/api.js:72-82 | The recursive retry makes between 1 and `retries`+1 calls. It returns the outcome of the last call unchanged. Every earlier call failed with status ≥ 500. It stops before the budget is spent only on an outcome that is not such a failure. |
| ApiClient.NoRetryUnlessTransient | frontend/src/services/api.js:73-80 | A first call that succeeds, or fails with a status below 500, is the only call made, and its outcome is the result. |
| ApiClient.ThreeServerErrorsThenSuccess | frontend/src/services/api.js:72-82 | With the default budget of 3, three 503 failures and then a success give the success after exactly four calls. |
| ApiClient.WithRetry | frontend/src/services/api.js:72-82 | The loop agrees with the recursive definition. It makes 1 to `retries`+1 calls and returns the last one's outcome. Every earlier call was a failure with status ≥ 500, and it stops early only on another outcome. It waits RETRY_DELAY before each retry. |
| ApiClient.RequestFor | frontend/src/services/api.js:91-384 | Creates and the migration are POSTs, the three kinds of update are PUTs, deletes are DELETEs, and every other operation is a GET. A body is sent exactly with a POST or a PUT, and it is the operation's own argument: the updates, the new item's data or the mock data. The URL is the base URL, "/", then the path segments joined by "/", with no caller headers. When any id is plain, the path and verb select that operation's own endpoint. |
| ApiClient.SplitJoin | frontend/src/services/api.js:151 | Segments that contain no "/" are recovered by splitting their "/"-joined path. |
| ApiClient.MatchesOwnRoute | frontend/src/services/api.js:91-384 | The path segments and verb of every operation whose id, if it has one, is plain select that same operation's endpoint. |
| ApiClient.RequestRoutesBack | frontend/src/services/api.js:91-384 | For every operation whose id is plain (not empty, not "." or "..", free of "/", "?", "#", "%", "\\", tab, line feed and carriage return, and not ending in a space or control character), the URL and verb it sends lead back to that operation. No two operations share an endpoint, and each reaches its own. |
| ApiClient.SentHeaders | frontend/src/services/api.js:27-30 | Every header the caller gives is sent unchanged. `Content-Type` is sent as well, and is `application/json` unless the caller sets it. |
| ApiClient.Call | frontend/src/services/api.js:91-384 | Every operation but getStatus is the retry policy around fetchWithTimeout of its own request. There are at most four calls. All calls before the last failed with status ≥ 500. The result is the last call's outcome. |
| ApiClient.Status | frontend/src/services/api.js:408-410 | getStatus is a single GET of `/status`. Its outcome is that of a retry policy with no budget, so even a 5xx failure is final. |
| ApiClient.HealthCheck | frontend/src/services/api.js:393-403 | The probe never fails. It is healthy exactly when its single call resolves with a 2xx status. It uses no retry and no abort timer. |
| JsValue.Or | frontend/src/services/api.js:46 | `a \|\| b` is one of its two operands. It is truthy exactly when either operand is, it is `a` whenever `a` is truthy, and it is `b` whenever it is falsy. |
| JsValue.NatText | frontend/src/services/api.js:46 | A status prints as one or more decimal digits without a leading zero, and as one digit exactly when it is below 10. |
| JsValue.NatTextRoundTrip | frontend/src/services/api.js:46 | Reading the printed digits back gives the number. |
| JsValue.NatTextInjective | frontend/src/services/api.js:46 | Two different statuses never print the same, so `"HTTP <status>"` tells them apart. |
| PortfolioHook.ShallowMerge | frontend/src/hooks/usePortfolio.js:73-76 | The merged section has the keys of the old section and of the update. Updated keys take the new values; every other key keeps its old one. |
| PortfolioHook.MergeSection | frontend/src/hooks/usePortfolio.js:69-78 | The updater fails exactly when the snapshot is null or has no non-null `portfolio`. Otherwise every other top-level key and every other section keep their values. The section becomes the shallow merge of its old value with the update. |
| PortfolioHook.MergeSectionIdempotent | frontend/src/hooks/usePortfolio.js:69-78 | Applying the same update twice gives the snapshot of applying it once. |
| PortfolioHook.PersonalMergeExample | frontend/src/hooks/usePortfolio.js:73-76 | `{name: "X"}` merged into `{name: "A", email: "b@c.com"}` gives `{name: "X", email: "b@c.com"}`. |
| PortfolioHook.Hook.constructor | frontend/src/hooks/usePortfolio.js:9-12 | On mount there is no data and no error, nothing has been fetched, and loading is true. |
| PortfolioHook.Hook.FetchPortfolio | frontend/src/hooks/usePortfolio.js:15-51 | Cached data is served when the fetch is not forced, the data is truthy and younger than the TTL (a zero or missing stamp counts as no cache). It is returned with no call and no change of state. Otherwise the client is called and loading ends false. On success the new snapshot is stored, stamped with the completion time, and the error is cleared. On failure the snapshot and stamp are kept, the message is stored and the error is returned. |
| PortfolioHook.Hook.Refresh | frontend/src/hooks/usePortfolio.js:56-58 | A refresh always calls the client, whatever the cache age, with the same success and failure transitions. |
| PortfolioHook.Hook.UpdateSection | frontend/src/hooks/usePortfolio.js:63-122 | On success the result is true, the section is merged into the snapshot, and an earlier error is kept. On failure the snapshot is untouched, the message is stored and the error is returned. `lastFetched` never changes, and loading ends false. |
| PortfolioHook.Hook.UpdatePersonalInfo | frontend/src/hooks/usePortfolio.js:63-90 | The same transitions, merging into `portfolio.personal` after a PUT of the personal section. |
| PortfolioHook.Hook.UpdateAboutSection | frontend/src/hooks/usePortfolio.js:95-122 | The same transitions, merging into `portfolio.about` after a PUT of the about section. |
| PortfolioHook.Hook.SectionData | frontend/src/hooks/usePortfolio.js:159-168 | A section's data is always truthy. It is the snapshot's value for the section when that is truthy, and an empty list otherwise. |
| PortfolioHook.CachedWithinTtl | frontend/src/hooks/usePortfolio.js:15-27 | After a successful fetch of truthy data, a second unforced fetch within the TTL returns the same data and makes no call. After a failed fetch it calls again. |
| Documents.FirstMatch | backend/services/portfolio_service.py:18 | `find_one` acts on the first matching document, and finds none exactly when no document matches. |
| Documents.Find | backend/services/portfolio_service.py:24-28 | `find` returns matching documents only, and every one of them. It returns as many documents as match, so each comes back exactly as often as it is stored. |
| Documents.SortByOrder | backend/services/portfolio_service.py:24-28 | `sort("order", 1)` gives a permutation of its input, ascending by `order`. |
| Documents.InsertByOrder | backend/services/portfolio_service.py:24-28 | Inserting into a sorted list keeps it sorted and adds exactly that document. |
| Documents.ApplySet | backend/services/portfolio_service.py:57-60 | After a `$set` the document has its old fields plus the heads of the paths set. A top-level path takes its value, a nested path writes into its embedded document, and every other field is kept. |
| Documents.NestedSet | backend/services/portfolio_service.py:59 | The `$set` for a section holds exactly the keys `"<section>.<k>"` for the kept fields, with their values. |
| Documents.FieldSet | backend/services/portfolio_service.py:93 | The `$set` of an item update holds exactly the kept fields as top-level paths, with their values. |
| Documents.NestedSetMerges | backend/services/portfolio_service.py:57-60 | A nested `$set` with at least one field merges those fields over the old embedded document and changes nothing else. |
| Documents.FieldSetOverwrites | backend/services/portfolio_service.py:92-93 | A top-level `$set` overwrites exactly its fields. |
| Documents.UpdateOne | backend/services/portfolio_service.py:57-61 | Only the first match is updated. With no match nothing changes and the count is 0. The modified count is 1 exactly when the first match actually changed. |
| Documents.DeleteOne | backend/services/portfolio_service.py:96-99 | The deleted count is 1 exactly when some document matches. Exactly one match disappears and nothing else changes. |
| Documents.ReplaceOne | backend/services/portfolio_service.py:44-48 | The first match is replaced. With no match the document is appended when upserting, and otherwise nothing changes. No other document appears. |
| Documents.InsertOne | backend/services/portfolio_service.py:83 | The document is appended after the existing ones. |
| Documents.UpsertCount | backend/services/portfolio_service.py:44-48 | Upserting a document under a filter it satisfies leaves one match when there was none, and the same number otherwise. It never adds a match for a filter the document does not satisfy. |
| PortfolioModels.FieldsDoc | backend/models/portfolio.py:32-87 | An item stores its title and position, and none of its payload fields is named like the id, the owner, `createdAt` or `updatedAt`, so no payload field overwrites them. |
| PortfolioModels.ItemDoc | backend/models/portfolio.py:32-87 | An item's dump holds `id`, `portfolioId`, `title`, `order`, `createdAt` and `updatedAt`, each with the item's own value. |
| PortfolioModels.NewItem | backend/services/portfolio_service.py:80-84 | A created item has the payload's kind, the fresh id, the owner, and `now` as both timestamps. |
| PortfolioModels.NewItemKeepsPayload | backend/services/portfolio_service.py:80-84 | The stored document holds every field of the payload's dump unchanged. |
| PortfolioModels.Lookup | backend/services/portfolio_service.py:217 | `v[key]` succeeds exactly on a dictionary that holds the key, and gives the value stored there. |
| PortfolioModels.AsStr | backend/models/portfolio.py:35 | A `str` field accepts a string, and only a string, and keeps it. |
| PortfolioModels.AsOptStr | backend/models/portfolio.py:84 | An `Optional[str]` field accepts a string or null, and nothing else, and keeps it. |
| PortfolioModels.AsBool | backend/models/portfolio.py:49 | A `bool` field accepts a boolean, or 0 or 1 as false or true, and nothing else. |
| PortfolioModels.AsStrList | backend/models/portfolio.py:36 | A `List[str]` field accepts a list whose elements are all strings, and only such a list, and keeps it. |
| PortfolioModels.RequiredStr | backend/models/portfolio.py:35 | A required string field is read exactly when the input is a dictionary holding a string under that key. |
| PortfolioModels.ValidatePersonal | backend/models/portfolio.py:6-12 | A dictionary validates as a personal section exactly when all six fields are present as strings. The result agrees with the input on those six fields. |
| PortfolioModels.ValidateEducation | backend/models/portfolio.py:14-17 | A dictionary validates as an education exactly when all three fields are present as strings. The result agrees with the input on them. |
| PortfolioModels.ValidateAbout | backend/models/portfolio.py:19-22 | A validated about section has the input's description and the validated education. Its title is "About Me" when the input has none, and the input's title otherwise. It validates exactly when the input is a dictionary whose title, if present, is a string, whose description is a string and whose education validates. |
| PortfolioService.NonNullFields | backend/services/portfolio_service.py:53 | Exactly the fields whose value is not None are kept, with their values. |
| PortfolioService.PersonalUpdateEmpty | backend/services/portfolio_service.py:51-55 | A personal update keeps no field exactly when all six of its fields are None. |
| PortfolioService.AboutUpdateEmpty | backend/services/portfolio_service.py:63-67 | An about update keeps no field exactly when all three of its fields are None. |
| PortfolioService.SectionUpdateMerges | backend/services/portfolio_service.py:57-60 | A personal or about update merges the kept fields, key by key, into that section of the user's first portfolio. Nothing else changes. |
| PortfolioService.OwnedByOrder | backend/services/portfolio_service.py:24-28 | A list read is ascending by position. It holds exactly the portfolio's documents of that collection, each as often as it is stored. |
| PortfolioService.PortfolioOf | backend/services/portfolio_service.py:16-37 | `get_portfolio` is None exactly when no portfolio belongs to the user. Otherwise it holds the user's stored portfolio and the five lists, each read in order of position. |
| PortfolioService.MigrationKey | backend/services/portfolio_service.py:223-244 | The natural key is owner and title, and for an experience owner, title and company. |
| PortfolioService.KeyMatchesItem | backend/services/portfolio_service.py:223-244 | A migrated item's dump satisfies its own natural key. |
| PortfolioService.SkillRecordFields | backend/services/portfolio_service.py:217-222 | A skill category is built exactly when the entry has a string title and a list of strings as items. It takes both from the entry, and its position as order. |
| PortfolioService.ExperienceRecordFields | backend/services/portfolio_service.py:230-239 | An experience is built exactly when its five string fields are present as strings and a given `current` is a valid boolean. It takes those fields from the entry. `current` is false unless given, and the position is the order. |
| PortfolioService.ProjectRecordFields | backend/services/portfolio_service.py:247-257 | A project is built exactly when title and description are strings, technologies is a list of strings, and every given link is a string and every given flag a valid boolean. It takes title, description and technologies from the entry. The links are "#" and the two flags false unless given, and the position is the order. |
| PortfolioService.AchievementRecordFields | backend/services/portfolio_service.py:265-269 | An achievement is built exactly when title and description are strings. It takes both from the entry, and its position as order. |
| PortfolioService.PublicationRecordFields | backend/services/portfolio_service.py:278-285 | A publication is built exactly when its four string fields are strings and a given DOI is a string or null. It takes those fields from the entry. The DOI is None unless given, and the position is the order. |
| PortfolioService.ItemRecordStamped | backend/services/portfolio_service.py:216-291 | Every migrated record has the kind of its list, belongs to the default portfolio, and carries its position, the id given and `now`. |
| PortfolioService.NewPortfolio | backend/services/portfolio_service.py:209-213 | The migrated portfolio belongs to the default user, is stamped `now`, and holds the validated personal and about sections of the input. It is built exactly when both sections are present and validate. |
| PortfolioService.PortfolioUpsert | backend/services/portfolio_service.py:39-48 | The restamped dump is stored. The user then has exactly one portfolio if they had none, and as many as before otherwise. |
| PortfolioService.UpsertEach | backend/services/portfolio_service.py:216-291 | The loop makes one list's writes in order and stops at the first entry without a record. Its result agrees with the recursive specification. |
| PortfolioService.UpsertAllSucceeds | backend/services/portfolio_service.py:216-296 | The upsert loop succeeds exactly when every remaining entry makes a record. |
| PortfolioService.UpsertAllProvenance | backend/services/portfolio_service.py:216-291 | Every document the loop leaves was there before or is one that it wrote. |
| PortfolioService.RecordDoc | backend/services/portfolio_service.py:216-221 | The record of the i-th entry is stored with order i. |
| PortfolioService.MigrateItemsSucceeds | backend/services/portfolio_service.py:216-296 | Migrating a list succeeds exactly when every one of its entries makes a record. |
| PortfolioService.MigrateItemsProvenance | backend/services/portfolio_service.py:216-291 | Every document of a migrated collection was there before, or is the record of one of the list's entries, stored with that entry's position as order. |
| PortfolioService.UpsertKeepsKeysUnique | backend/services/portfolio_service.py:223-227 | One upsert of a document under its own natural key keeps every natural key unique in the collection. |
| PortfolioService.UpsertAllKeepsKeysUnique | backend/services/portfolio_service.py:216-291 | A run of such upserts keeps the natural keys unique. |
| PortfolioService.WritesAreKeyed | backend/services/portfolio_service.py:223-289 | Every write of the migration goes under a natural key of its kind, which the written document satisfies. |
| PortfolioService.MigrateItemsKeepsKeysUnique | backend/services/portfolio_service.py:216-291 | Migrating one list keeps that collection's natural keys unique. |
| PortfolioService.MigrateKindsKeepsKeysUnique | backend/services/portfolio_service.py:216-291 | Migrating the lists in turn keeps the natural keys of every collection unique. |
| PortfolioService.MigrationKeepsKeysUnique | backend/services/portfolio_service.py:206-296 | Starting from collections with unique natural keys, the migration leaves them unique. |
| PortfolioService.MigrationTwiceFromEmpty | backend/services/portfolio_service.py:206-296 | Running the migration twice on empty collections leaves no two records under one natural key, and at most one portfolio for the default user. |
| PortfolioService.MigrateKindsKeepsPortfolios | backend/services/portfolio_service.py:216-291 | The five item migrations leave the portfolios as they were. |
| PortfolioService.MigrationKeepsOnePortfolio | backend/services/portfolio_service.py:206-296 | The migration never gives the default user a second portfolio. |
| PortfolioService.CreateThenDelete | backend/services/portfolio_service.py:80-99 | Deleting a freshly created item by its new id removes exactly it, leaves the collection as it was, and reports one deletion. |
| PortfolioService.PortfolioService.constructor | backend/services/portfolio_service.py:6-13 | The service starts on the six collections given. |
| PortfolioService.PortfolioService.GetItems | backend/services/portfolio_service.py:76-78 | `get_skills` … `get_publications` return a permutation of the portfolio's items of that kind, ascending by position. |
| PortfolioService.PortfolioService.ExportData | backend/services/portfolio_service.py:298-300 | `export_data` returns exactly what `get_portfolio` returns. |
| PortfolioService.PortfolioService.CreateOrUpdatePortfolio | backend/services/portfolio_service.py:39-49 | The portfolio is returned as given. The only change is the upsert of its restamped dump under its user. |
| PortfolioService.PortfolioService.UpdateSection | backend/services/portfolio_service.py:51-73 | With no kept field the answer is False and nothing changes. Otherwise the nested `$set` is applied to the user's first portfolio, and the answer is whether it changed. |
| PortfolioService.PortfolioService.UpdatePersonalInfo | backend/services/portfolio_service.py:51-61 | The same, writing `"personal.<k>"` for the kept fields of the personal update. |
| PortfolioService.PortfolioService.UpdateAboutSection | backend/services/portfolio_service.py:63-73 | The same, writing `"about.<k>"` for the kept fields of the about update. |
| PortfolioService.PortfolioService.CreateItem | backend/services/portfolio_service.py:80-84 | The new item is appended to the collection of its kind, and no other collection changes. |
| PortfolioService.PortfolioService.UpdateItem | backend/services/portfolio_service.py:86-94 | An all-None payload answers False and changes nothing. Otherwise the kept fields and `updatedAt = now` are set on the first item with that id, and the answer is whether it changed. A True answer means that item now holds its old fields overwritten by the kept ones and the new stamp. |
| PortfolioService.PortfolioService.DeleteItem | backend/services/portfolio_service.py:96-99 | The answer is True exactly when an item had that id. Then one such item is removed and nothing else changes. |
| PortfolioService.PortfolioService.MigrateCollection | backend/services/portfolio_service.py:216-291 | A missing or unusable list in the mock data fails with nothing written. Otherwise that list is migrated. |
| PortfolioService.PortfolioService.MigrateList | backend/services/portfolio_service.py:216-291 | The collection becomes the result of upserting the list's records in order, and the answer is whether every entry made one. |
| PortfolioService.PortfolioService.MigrateMockData | backend/services/portfolio_service.py:206-296 | The state and the answer are those of the migration's specification. The portfolio is written first, then the five lists in order. The first failure ends it with False, keeping the writes made so far. |

Some members are plain definitions; the rows of other members state their
properties. `PortfolioHook.Hook.IsCacheValid` (the cache test) and
`PortfolioHook.Hook.HasData` (`!!portfolioData`) are described by the rows
of `Hook.FetchPortfolio` and `CachedWithinTtl`. `ApiClient.RetryFrom`
(withRetry as written) is described by `RetryFromSpec` and `WithRetry`.
`JsValue.ToJsString` (JavaScript's `String(v)`) makes the error messages
of `FetchWithTimeout`. `PortfolioService.PortfolioService.GetPortfolio` is
`PortfolioOf` on the service's collections. `PortfolioService.PortfolioService.SetItems`
is the model's own assignment of one collection, used where a migration
stores its result.

## Left out

- Real time: the abort timer, `clearTimeout`, the retry sleep and the periodic health check. The timer is a comparison of the call's duration with the timeout. The sleep is a count of waited milliseconds.
- `fetch`, `response.text()` and `JSON.parse` are outside the model. Their outcomes are fields of the network oracle's answer.
- ApiClient.SentHeaders: the header merge is a map of exact names, apart from the request the network oracle sees. Real `Headers` compare names case-insensitively, so a caller's `content-type` would merge with the default `Content-Type`; the model keeps them apart.
- `JSON.stringify` of request bodies: a body is kept as the JSON value that would be sent.
- Spreading an array or a string with `{...v}` copies index keys in JavaScript. The model copies nothing for them.
- Floating-point JSON numbers: numbers are integers.
- PortfolioHook.Hook.UpdateSection: when the snapshot is null or has no `portfolio`, React's updater would throw inside a later render. The model leaves the snapshot unchanged.
- PortfolioHook.Hook.UpdatePersonalInfo: the same null-snapshot case as `UpdateSection`, whose body it shares.
- PortfolioHook.Hook.UpdateAboutSection: the same null-snapshot case as `UpdateSection`, whose body it shares.
- PortfolioHook.Hook.FetchPortfolio: the UNKNOWN_ERROR message is not modelled. Every rejection of the client is an APIError, so that branch cannot be taken.
- Console logging, overlapping fetches, React effect scheduling and the `useAPIStatus` hook (browser online/offline events).
- The `timeout: 5000` option of healthCheck: `fetch` ignores it, and so does the model.
- Mongo's `_id` field, the `{"_id": 0}` projection and the stability of the sort among equal positions.
- A `$set` that names both a field and a path below it is a conflict in the database. The model lets the top-level path win.
- Documents.ApplySet: a nested `$set` whose parent field holds something other than an embedded document (a string or null, say) fails in the database. The model replaces that field with an embedded document holding the written fields.
- Pydantic's coercions other than 0 and 1 for booleans. Strings that look like numbers or booleans, for instance, are rejected.
- `for x in v` over a non-empty string or dictionary: it yields strings, and the first `x["title"]` raises before any write. The model fails such a collection at once with nothing written, which gives the same state.
- The `print` in the migration's `except`, and the exception's text: the answer is False.
- The clock is read once per migration (`now`), and every record of one run gets that time. uuid4() is the parameter `newId`.
- PortfolioModels.NewItem: pydantic fills `createdAt` and `updatedAt` by two separate clock readings. The model uses one reading, `now`, for both.
- ApiClient.RequestRoutesBack: ids are taken to be plain, as uuid4() ids are. An empty id, a dot segment, an id holding "?", "#", "%", "\\", tab, line feed or carriage return, or one ending in a space or control character is changed by URL parsing. It does not reach its own endpoint.
- A create payload's own field defaults (`order = 0` and the others) are applied when the payload is parsed, by the routes layer. The model takes the payload as parsed.
- The routes, the server and the migration script: `backend/routes/portfolio_routes.py` is not part of this model, except for the endpoint table that `ApiClient.MatchRoute` restates.
