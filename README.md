# CARS board tracker: a Dafny model of the server's core

CARS tracks UAV airframes ("boards") through three departments: the
workshop, electrical installation and setup. Each board row keeps a JSON
checklist per department (`workshop_params`, `electrical_params`), a status
column per department (`workshop_status`, `electrical_status`: `in_progress`,
`finished` or `semifinished`), comment maps, setup dates and a few flags.
The Express server (`server.js`) updates those rows and builds the filtered
listings the department pages show.

This project models that core:

- `json.dfy` (`Json`): JSON values and objects, the JavaScript member
  names every object inherits, JavaScript and SQL trimming, and ASCII
  lower-casing.
- `jsonb.dfy` (`JsonbPath`): how PostgreSQL reads the `'{<key>}'` path
  literal the routes build from the request (blanks, quotes, commas,
  `NULL` steps, malformed literals), and what the strict
  `jsonb_set(COALESCE(col, '{}'), path, to_jsonb(v::text), true)` then
  writes to a map of scalars, or that it raises.
- `boards.dfy` (`Boards`): the board row, the `bpla` type row and its
  configurations, and the department names.
- `status.dfy` (`StatusRules`):
  - `recalculateBoardStatus` as a function on one row;
  - the department colour and listing order;
  - the summary colour.
- `routes.dfy` (`Routes`): what each board-writing route does to one row,
  plus the checks that run before any write.
- `store.dfy` (`Store`): class `BoardStore`. It holds the `boards` table as
  a map. There is one method per route and one for `recalculateBoardStatus`.
  Each method returns the HTTP status code and states the whole new table.
- `patterns.dfy` (`Patterns`):
  - SQL `LIKE`;
  - the `%<lower(trim(number))>%` pattern the number filters bind;
  - how trimming and lower-casing treat plain board numbers.
- `filters.dfy` (`Filters`): the four filter builders (boards, electrical,
  workshop, summary).
  - A query is a list of WHERE conditions plus the list of bound values.
  - Each builder is a method that appends one condition at a time, as the
    route does.
  - Each builder is proved to number its `$n` placeholders `1..|params|` in
    order.
  - Each is proved to select exactly the rows a reference predicate keeps.
- `guards.dfy` (`Guards`): the `isAuthenticated` and `hasRole` middleware.
- `files.dfy` (`Files`): the avatar file filter, and `generateFilename` with
  the clock's ISO string passed in.
- `config.dfy` (`ElectricalConfig`): the hard-coded electrical
  configurations, the label projection, and the two handlers registered for
  `GET /api/bpla/:id/electrical-config`.

Behaviours of the code that the model keeps and proves:

- `jsonb_set` and `to_jsonb` are strict. A parameter PATCH whose value is
  null sets the whole JSON map to NULL, not just one key
  (`Routes.NullPatchClearsWholeMap`).
- The recalculation's `UPDATE ... WHERE <dept>_status != 'semifinished'`
  matches neither a semifinished row nor a row whose status is NULL.
- The comment route writes its flag into `department_statuses` and never
  into `<dept>_status`. So it changes no department colour, and it records
  the flag only for a department that already has an entry.
- Neither parameter PATCH route checks the parameter name, which is pasted
  into a `text[]` literal. A padded key reaches the path trimmed, a key
  spelled `null` is a NULL step and makes the statement fail (answer 500),
  a key with a comma is a two-step path that writes nothing, and a trailing
  comma is a malformed literal (answer 500).
- The set-semifinished route does not check the department either; it
  pastes it into `SET <department>_status`. PostgreSQL skips leading
  whitespace and folds the identifier to lower case, so `Workshop` or
  ` workshop` write the workshop status, while a name that resolves to no
  status column fails the UPDATE (answer 500). Clearing the flag under
  such another spelling runs the recalculation under that spelling: it
  reads the electrical configuration (the source tests `=== 'workshop'`)
  and finds no parameters (the result row is keyed by the folded column
  name), so the board ends `finished` only when that configuration has no
  keys (`Routes.RespelledDeptIgnoresParams`).
- Two handlers are registered for `GET /api/bpla/:id/electrical-config`. The
  first one always answers, so the database-backed second handler is never
  reached.
- The electrical filter computes a "finished" condition from the type's
  configuration but never uses it.
- The workshop filter passes any status string through. An unknown status
  selects nothing (assuming a text-typed status column, see below).
- The number filters do not escape `%` and `_` in the request, so `_` acts
  as a one-character wildcard.
- A configured key named like a member every JavaScript object inherits
  (`constructor`, `toString`, ...) counts as filled in the recalculation
  on any board whose map is not NULL, while SQL's `->>` reads NULL for it.

Assumptions about the database schema, which is not part of this model:

- Only the workshop and electrical departments have `<dept>_status` and
  `<dept>_params` columns; `setup_status` and other names do not exist, so
  a statement naming them fails.
- The status columns are of a text type. With an enum type, comparing with
  an unknown status string would fail the query instead of selecting
  nothing.
- `creation_date` is a date column, so the `NOW()` the INSERT writes is
  stored as the day, and `creation_date = CURRENT_DATE` on the summary
  page matches every board created today. The model keeps the creation
  time as that day. With a timestamp column the test would match only
  boards created exactly at midnight.
- Column defaults: a new board gets the status default (a parameter of
  `Store.BoardStore.constructor`) and NULL for every column the INSERT does
  not name.

## Model

| member | source | states |
|---|---|---|
| Json.Trim | server.js:250 | The result is the input with a run of trimmable characters cut from each end, and it neither starts nor ends with one. Input without trimmable characters is returned unchanged. |
| JsonbPath.JsonbSetText | server.js:815-817 | A malformed literal raises. A null value gives a NULL column. A non-null value raises iff the first step is NULL, or the first key exists and the second step is NULL. A one-step path stores the value under its key. No other key of the coalesced map changes. |
| JsonbPath.PaddedPlainKeyParses | server.js:816 | A plain key with blanks around it is the one-step path to the key itself. |
| JsonbPath.PlainKeyWrite | server.js:815-817 | A value sent under a plain key is stored under that key, starting from `{}` for a NULL column. |
| JsonbPath.NullKeyIsNullStep | server.js:815-824 | A key spelled `null` in any case is a NULL step, so the write raises and the route answers 500. |
| JsonbPath.QuotedKeyParses | server.js:816 | A double-quoted key without quotes or backslashes inside reaches the path as it is. |
| JsonbPath.TwoStepKeyParses | server.js:816 | `a,b` is the two-step path `[a, b]`. |
| JsonbPath.TwoStepKeyWritesNothing | server.js:815-817 | A two-step key leaves the map unchanged for a value, and NULLs it for a null value. |
| JsonbPath.TrailingCommaRaises | server.js:815-824 | A key ending in a comma is a malformed literal, and the write raises whatever the value. |
| Json.Lower | server.js:348 | Same length. Each character is lower-cased on its own. |
| Boards.ParseDept | server.js:732 | Accepts exactly `workshop`, `electrical` and `setup`, and maps each back to its name. |
| Boards.ColumnDeptOf | server.js:762-766 | `workshop` and `electrical` name their own department's columns. |
| Boards.ColumnDeptFolds | server.js:762-766 | A name resolves iff, after leading whitespace and lower-casing, it is `workshop` or `electrical`, and then to that department. |
| Boards.ConfiguredKeys | server.js:864-870 | Some iff the type row, its configuration and its `params` all exist, and then exactly the keys of `params`. |
| Boards.WorkshopComplete | server.js:682-687 | Implies the engine date is set and each watched parameter is present and not null. |
| StatusRules.AllFilled | server.js:872 | A NULL map fills no key. For keys that are not inherited member names, all are filled iff each is present with a value other than null and `''`. |
| StatusRules.InheritedKeysCountAsFilled | server.js:870-880 | A configuration whose keys are all inherited member names, absent from a non-NULL map, makes the board finished. |
| StatusRules.Recalc | server.js:859-881 | Only the department's status changes. A semifinished row, a NULL status and a missing type or `params` leave the row as it was. Otherwise the status becomes `finished` iff every configured key is non-null and non-empty, else `in_progress`. |
| StatusRules.RecalcNamed | server.js:859-881 | Under the lower-case name it is `Recalc`. Only the resolved status column changes, and only from in progress or finished. Under another spelling it reads the electrical configuration and no parameters, so the status becomes finished iff that configuration has no keys. |
| StatusRules.RecalcIdempotent | server.js:859-881 | Recalculating twice is the same as recalculating once. |
| StatusRules.RecalcIsLocal | server.js:876-880 | The other department's status, both parameter maps and all comments are unchanged. |
| StatusRules.EmptyConfigMeansFinished | server.js:870-873 | An empty `config.params` turns an in-progress board finished. |
| StatusRules.DeptColor | server.js:786-788 | Red iff semifinished, green iff finished, orange otherwise. |
| StatusRules.DeptRank | server.js:801 | Band 0 iff in progress, band 1 iff finished, band 2 for everything else. |
| StatusRules.ColorMatchesRank | server.js:785-801 | Green iff band 1. Band 0 is orange and red is band 2. A NULL status is orange but listed last. |
| StatusRules.ListedBeforeIsTotalPreorder | server.js:801 | The listing order (band, then creation date descending with NULLs first) is total, reflexive and transitive. |
| StatusRules.NeighboursSuffice | server.js:990 | A listing whose neighbours are in order is in order throughout. Every in-progress board precedes every finished board, which precedes every other board. |
| StatusRules.SummaryColor | server.js:667-675 | Green iff `is_fully_finished` is TRUE. Red only for a board with workshop comments. |
| StatusRules.SummaryRed | server.js:668-674 | Red needs a non-empty workshop comment map. |
| StatusRules.SummaryRedMeansIncomplete | server.js:667-687 | A board that is red on the summary page is not `workshop_complete`. A complete board is never red. |
| StatusRules.SummaryIgnoresStatus | server.js:667-676 | Rewriting a status column never changes the summary colour. |
| Routes.WriteParam | server.js:815-817 | Fails iff the `jsonb_set` raises. Otherwise the department's map becomes its result, and nothing else in the row changes. |
| Routes.AfterParamPatch | server.js:811-826 | Fails iff the write raises. Otherwise only the department's map and status change. The map is the written one. With a configuration and an in-progress or finished status, the status is finished iff every configured key is filled. Otherwise it is unchanged. |
| Routes.ParamPatchEffect | server.js:811-826 | Under a plain key the PATCH succeeds. A non-null value is stored under its key. The other keys, the other department, the comments and `department_statuses` are kept. The status ends `finished` iff every configured key is filled in the new map. |
| Routes.NullPatchClearsWholeMap | server.js:815-820 | A null value succeeds iff the path literal is well formed, and then empties the whole map. With a non-empty configuration, the board drops to `in_progress` unless it is semifinished or its status is NULL. |
| Routes.PatchesKeepSemifinished | server.js:876-879 | Parameter PATCHes never lift a board out of `semifinished`. |
| Routes.AfterSetSemifinished | server.js:759-776 | Only the resolved status column changes. It is semifinished iff the flag is set. Otherwise it is in progress or finished. Under the lower-case name, finished only with a configuration whose every key is filled. |
| Routes.SetSemifinishedEffect | server.js:759-776 | Under the lower-case name, setting the flag gives `semifinished`. Clearing it gives `finished` iff every configured key is filled, and `in_progress` without a configuration. Only the status column changes. |
| Routes.RespelledDeptIgnoresParams | server.js:859-872 | Under another spelling that resolves, clearing the flag gives `finished` iff the electrical configuration has no keys, whatever the board's parameters. |
| Routes.RespelledWorkshopResolves | server.js:762-766 | `Workshop` and ` workshop` both name the workshop status column. |
| Routes.SetSemiFlag | server.js:739-742 | The flag is written only under an existing department entry. Every other entry is kept. |
| Routes.AfterComment | server.js:729-757 | Fails, rolling back the flag, iff the comment write raises. Otherwise the comment map is the written one, `department_statuses` carries the flag, and nothing else changes. |
| Routes.CommentKeepsDepartmentColours | server.js:729-757 | The comment route leaves both status columns and both parameter maps alone, so colours and order are unchanged. |
| Routes.CommentFlagNeedsEntry | server.js:739-747 | A null comment succeeds iff the path literal is well formed. Without an entry for the department the flag is lost. With one, it is stored. A null comment empties the comment map. |
| Routes.CommentCanTurnSummaryRed | server.js:743-747 | A comment on an empty watched parameter turns the summary colour red, while the department colour stays. |
| Routes.WatchedParamsArePlain | server.js:668-674 | The watched parameter names are plain keys, so a comment under one is a one-step write. |
| Routes.AfterLegacyPatch | server.js:447-449 | The named date column is set, or NULLed for a null date. Every other column is unchanged. |
| Routes.FinishedFlagColumn | server.js:1045-1054 | Only the three department names give a column. A name every JavaScript object inherits passes the lookup and then fails in SQL. |
| Routes.AfterFinishedFlag | server.js:1057 | Sets `is_<dept>_finished` and nothing else. |
| Routes.SemifinishedParamsToSave | server.js:1071-1077 | A body without an array is refused. An empty array is stored as NULL, any other array as itself. |
| Routes.CheckBoardNumber | server.js:250-252 | Accepted iff the number is a string that is not blank after trimming. A truthy non-string makes the check throw. |
| Routes.NewBoard | server.js:255-260 | Stores the number, type, supplier and creation date (the day of `now`). `controller_id` 0 becomes NULL and any other id is kept. Both parameter maps are the ones sent. The finished date, setup dates and comment maps are empty. The statuses take the column default. |
| Routes.AfterElectricalPut | server.js:1000-1013 | Sets the four columns the PUT names. The electrical map is the sent one, and neither status changes. |
| Routes.ElectricalPutLeavesStatusStale | server.js:1000-1013 | The whole-map PUT can leave a fully filled board `in_progress` until the next recalculation. |
| Store.BoardStore.RecalculateBoardStatus | server.js:859-881 | Fails with no change iff the name resolves to no department. Otherwise the table afterwards holds `RecalcNamed` of the board, and nothing else changes. |
| Store.BoardStore.PatchWorkshopParameter | server.js:811-826 | 500 with no change iff the path literal is malformed or the write raises on the board. Otherwise 200, and the board becomes the write followed by the recalculation. |
| Store.BoardStore.PatchElectricalParameter | server.js:827-857 | 400 iff the parameter is missing or empty. 500 iff the literal is malformed or the write raises. Nothing changes on either. Otherwise 200 with write plus recalculation. |
| Store.BoardStore.SetSemifinished | server.js:759-776 | 500 with no change iff the name resolves to no status column. Otherwise 200 and the board becomes `AfterSetSemifinished` under that name. |
| Store.BoardStore.PostComment | server.js:729-757 | 400 iff the department is not allowed. 500 iff the literal is malformed or the comment write raises, and the transaction is rolled back. Nothing changes on either. Otherwise 200, and both writes of the transaction. |
| Store.BoardStore.PatchSetupDate | server.js:428-460 | 400 iff the column is not allowed, 404 iff the board is missing, else 200. The date is written and the updated row returned. |
| Store.BoardStore.PatchFinishedFlag | server.js:1039-1064 | 400, 500 or 200 as the column lookup says. Only 200 writes the flag. |
| Store.BoardStore.PatchSemifinishedParams | server.js:1066-1092 | 400 iff `params` is not an array. Otherwise the list, or NULL for an empty one, is stored. |
| Store.BoardStore.AddBoard | server.js:245-274 | 201 iff the number passes the check, 400 or 500 otherwise. The new row gets a fresh id. |
| Store.BoardStore.DeleteBoard | server.js:464-474 | 404 iff the board is missing. The row is removed. |
| Store.BoardStore.PutElectrical | server.js:1000-1013 | Always 200. Four columns are overwritten and there is no recalculation. |
| Patterns.NumberPattern | server.js:348 | The pattern is `%`, the trimmed and lower-cased number, and `%`. |
| Patterns.Like | server.js:349 | A pattern without wildcards matches exactly itself. |
| Patterns.LikeLiteralPrefix | server.js:349 | A `LIKE` pattern that starts with literal text matches exactly the texts that start with it and then match the rest. |
| Patterns.LikeContains | server.js:349 | `ILIKE '%s%'` on a pattern-free `s` is a substring test. |
| Patterns.PlainNumberUnchanged | server.js:348 | Trimming and lower-casing leave a number of digits, dots and underscores alone. |
| Patterns.SqlTrimPadded | server.js:349 | SQL `TRIM` removes the spaces around a stored number. |
| Patterns.PlainNumberPattern | server.js:348 | The bound pattern of such a number is the number between two `%`. |
| Patterns.LikeOneUnderscoreThree | server.js:349 | `_` in the pattern matches any one character. |
| Filters.NumberFilterIsSubstring | server.js:347-350 | The number filter keeps a board iff the trimmed, lower-cased request is a substring of the trimmed, lower-cased stored number. This assumes the request has no wildcards. |
| Filters.NumberFilterKeepsContaining | server.js:347-350 | For numbers of digits and dots, padded with spaces or not, the filter keeps exactly the numbers containing the request. |
| Filters.NumberFilterUnderscoreIsWildcard | server.js:347-350 | The request `1_3` keeps the board numbered `123`. |
| Filters.NumberPatternIsLower | server.js:348-349 | The bound pattern is already lower-case. |
| Filters.PushAndBind | server.js:352-353 | Pushing a value and appending `$<params.length>` keeps the numbering `1..n` and adds exactly that condition. |
| Filters.FilterByType | server.js:336-346 | With a type, binds `[bpla_id] ++ children` as `$1` to `b.bpla_id = ANY($1)`. Otherwise it adds nothing. |
| Filters.FilterByNumber | server.js:347-350 | Binds `'%' + lower(trim(number)) + '%'` to the next `$n` and keeps exactly the matching rows. |
| Filters.FilterByController | server.js:351-354 | Adds `controller_id = $n` for a truthy id, and keeps the numbering. |
| Filters.FilterBySupplier | server.js:982 | Adds `supplier_id = $n` for a truthy id, and keeps the numbering. |
| Filters.FilterByTypeOnly | server.js:703-707 | Adds `bpla_id = $n` for a truthy id, and keeps the numbering. |
| Filters.FilterByFinishedFrom | server.js:355-358 | Adds `finished_date >= $n` for a given date. |
| Filters.FilterByFinishedTo | server.js:359-362 | Adds `finished_date <= $n` for a given date. |
| Filters.AddDateFlag | server.js:371 | A set flag adds `<column> IS NOT NULL` and binds nothing. |
| Filters.RequestedDatesSet | server.js:371-377 | The seven flag conditions together say that every requested date is set. |
| Filters.FilterByDateFlags | server.js:371-377 | Keeps exactly the rows with every requested date set. |
| Filters.FilterBySetupStatus | server.js:366-378 | `finished` keeps the rows with all seven dates and `in_progress` the others. Any other status applies the flags. |
| Filters.BuildBoardsFilter | server.js:312-389 | Placeholders numbered `1..n`, ordered by number parts. Selects exactly the rows `BoardsFilterKeeps` keeps. |
| Filters.StartWithType | server.js:976-978 | Starts with `b.bpla_id = $1` bound to the type. |
| Filters.StatusNamed | server.js:985-987 | Recognises exactly the three status names. |
| Filters.FilterByElectricalStatus | server.js:984-988 | A known status keeps its rows. An unknown one keeps all rows. |
| Filters.BuildElectricalFilter | server.js:950-998 | Refused iff no type is given. Otherwise numbered `1..n`, in listing order, selecting exactly `ElectricalFilterKeeps`. |
| Filters.ElectricalFinishedCondition | server.js:959-961 | FALSE iff there are no keys. It binds no value. Otherwise a row passes iff each key's `->>` text is non-NULL and not `''`. |
| Filters.ElectricalFinishedConditionVsRecalc | server.js:959-961 | The unused condition implies the recalculation's test. For keys that are not inherited member names they agree. For an empty configuration it is FALSE, where the recalculation says finished. |
| Filters.InheritedKeySplitsConditionFromRecalc | server.js:959-961 | For the key `constructor` and an empty map, the condition fails while the recalculation counts the key as filled. |
| Filters.FilterByWorkshopStatus | server.js:796-799 | Numbers the placeholder before the push. Keeps exactly the rows whose status text equals the request. |
| Filters.BuildWorkshopFilter | server.js:779-808 | Refused iff no type is given. Otherwise numbered `1..n`, in listing order, selecting exactly `WorkshopFilterKeeps`. |
| Filters.UnknownWorkshopStatusKeepsNothing | server.js:796-799 | An unknown status selects no board. |
| Filters.FilterBySummaryStatus | server.js:709-713 | `finished` means green, `overdue` red, `today` orange and created today. Any other status keeps all rows. |
| Filters.BuildSummaryFilter | server.js:657-725 | Numbered `1..n`, ordered by `is_fully_finished` then id descending, selecting exactly `SummaryFilterKeeps`. |
| Filters.SummaryFinishedIgnoresDepartments | server.js:709-713 | A fully finished board is listed as finished on the summary even while both departments show orange. |
| Guards.IsAuthenticated | server.js:113-117 | Passes iff there is a session user. Otherwise an `/api/` path gets 401 and any other path is redirected to `/login.html`. |
| Guards.HasRole | server.js:198-205 | Passes iff the session user's role is listed. Otherwise 403. |
| Guards.HasRoleMonotone | server.js:198-205 | Listing more roles never locks anyone out. |
| Guards.ApiRequestsAreNotRedirected | server.js:113-117 | An API path is never redirected. |
| Guards.UploadGuardChain | server.js:198-206 | An upload route answers 401 without a session and 403 for an unlisted role, and passes a listed role. |
| Files.ImageFiles | server.js:89 | Keeps exactly the names with an image extension, in any case. |
| Files.ImageFilesAppend | server.js:89 | The filter keeps directory order. |
| Files.ImageFilesIdempotent | server.js:89 | Filtering twice is filtering once. |
| Files.UpperCaseExtensionIsImage | server.js:89 | `A.PNG` is kept and `a.png.txt` is not. |
| Files.StripStamp | server.js:152 | The result has no `-`, `T`, `:`, `.` or `Z`. |
| Files.IsoStampDigits | server.js:152 | An ISO timestamp becomes its seventeen digits, in order. |
| Files.IsoStampInjective | server.js:152 | Different ISO strings give different stamps. |
| Files.GenerateFilename | server.js:151-154 | The name starts with controller, `_`, kind, `_` and ends with the extension. |
| Files.GeneratedFilenameShape | server.js:151-154 | The name is controller, `_`, kind, `_`, seventeen digits, then the extension. |
| Files.FilenamesDifferByInstant | server.js:151-154 | Uploads at different instants get different names. |
| ElectricalConfig.LabelOf | server.js:900 | The label of a key, or the key itself when the label is missing or empty. Never empty for a non-empty key. |
| ElectricalConfig.LabelProjection | server.js:899-902 | Has exactly the configured keys, each mapped to its label or to itself. |
| ElectricalConfig.TableKeysAreLabelled | server.js:883-893 | Every configured key has a label of its own. |
| ElectricalConfig.HardCodedConfig | server.js:895-907 | Found iff the id is a key of the table. The labels cover exactly its keys. |
| ElectricalConfig.DatabaseConfig | server.js:1030-1037 | Found iff the type row exists and has an electrical configuration. |
| ElectricalConfig.ServeElectricalConfig | server.js:895-907 | Never a stored configuration. Labels are found iff the id is in the hard-coded table, and they cover its keys. |
| ElectricalConfig.ServedConfigIgnoresDatabase | server.js:895-907 | The first handler reads only the hard-coded tables, so two different `bpla` tables get the same answer. |
| ElectricalConfig.ShadowedRouteHidesStoredConfig | server.js:1030-1037 | A configuration stored only in the database (type 3) is answered 404. |
| ElectricalConfig.SealNumberOnlyForTypeTwo | server.js:883-888 | Only type 2 has the seal number, labelled "Номер пломбы". |

## Left out

- Database access, connection handling, transactions as concurrency units, and error answers caused by database failures (HTTP 500) are not modelled. The exceptions are an UPDATE naming a column that does not exist and a `jsonb_set` path that PostgreSQL refuses.
- `logAction`, console logging and the `Promise.all` lookups of the reference tables are not modelled.
- Login, logout, password hashing (bcrypt) and the session store are not modelled. The session user is a parameter.
- Firmware and dump uploads, photos and static files are not modelled. Only the file name they are saved under is (`generateFilename`).
- The statistics aggregation (`GET /api/summary/statistics`, server.js:609) is left out. Its colour rule is the summary colour modelled in `StatusRules.SummaryColor`.
- `PUT /api/board/:id`, the whole-row update, is left out. Its effect is a plain overwrite of the columns it names.
- The client-side scripts under `public/` are not modelled.
- The clock (`NOW()`, `CURRENT_DATE`, `new Date()`) is a parameter. The column default of the status columns is a parameter of `Store.BoardStore.constructor`.
- Filters.BuildBoardsFilter: the `ORDER BY string_to_array(number, '.')::int[]` cast is recorded as an order tag only. A number that does not cast makes the query fail, and that failure is not modelled.
- Json.Lower: lower-casing is modelled for ASCII letters only. PostgreSQL's `LOWER`/`ILIKE` and JavaScript's `toLowerCase` fold other scripts too, so `Filters.NumberFilterIsSubstring` holds for ASCII case only.
- Patterns.Like: the `\` escape of SQL `LIKE` is not modelled. Patterns containing `\` are excluded by `NoWildcards` where it matters.
- Filters: a `number` that is not a string (it would make `trim` throw) is not modelled. The filter models take the number as text.
- Filters: department names are interpolated into SQL text by the source. The model takes them from the parsed department, so it does not model injection through them.
- JsonbPath.SqlPath: a key containing `'` ends the SQL string literal early. The model treats every such key as a failing statement, while some of them form another valid statement (SQL injection), which is not modelled.
- JsonbPath.Elements: a key that starts with `{` and forms a valid multi-dimensional array literal is treated as malformed. PostgreSQL flattens it into a path instead.
- JsonbPath.JsonbSetText: the values below a key are taken to be flat scalars, as the routes store them. A nested object written by another route would let a longer path write into it.
- Store.BoardStore.SetSemifinished: a department that carries more SQL than an identifier (a comment before it, or `workshop_status = 'finished', electrical`) can form another valid statement. The model treats every such name as failing, so that SQL injection is not modelled.
- Request fields are taken as absent or as text (`Option<string>`, with `Routes.KeyText` printing an absent one as `undefined`). A JSON `null`, number, boolean or array in the body is not modelled. For example `parameter: null` prints as `null`, a NULL path step that fails the workshop PATCH, while the electrical PATCH refuses it with 400. Likewise `department: ["workshop"]` prints as `workshop`.
- Routes.NewBoard: the INSERT names only the type, number, supplier, controller, both parameter maps and the creation date. `is_fully_finished`, `department_statuses`, `semi_finished_params`, the finished flags, the setup comments and `engine_installation_date` are taken to be NULL or empty by default, which the schema decides.
- ElectricalConfig.LabelProjection: the key order of the JSON object is not modelled, because a map has none.
- ElectricalConfig.DatabaseConfig: the route's string id is taken as an already-cast integer.
- Express routing is modelled only as far as the shadowed electrical-config route goes.
- Floating-point and non-string JSON values in the parameter maps are reduced to what the routes test: null, empty text or other.
