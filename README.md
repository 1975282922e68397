# Dinner-event ticketing, modelled in Dafny

The system is an admin tool for selling tickets to one dinner event. An Express
server (`server.js`) keeps the tickets in a SQLite table and offers several routes:

- an authenticated REST API to list, create, confirm and delete tickets and to fetch
  a ticket's QR code;
- a public check-in page that the QR code points to;
- a public POST route that checks a ticket in.

A browser client (`js/data.js`, `js/app.js`) talks to that API and keeps a token in
localStorage. It renders the dashboard's statistics, the filtered table and a CSV
export. A separate script (`backup_db.js`) copies the database into `backups/` under
a name stamped with the current time.

The model has eight modules:

- `Common`: `Option`.
- `Text`: the JavaScript string operations the code relies on:
  - `${n}`, `split` on one character, `join`, `replace`, `slice`, `trim`, `includes`;
  - ASCII `toLowerCase`/`toUpperCase`.
- `TicketStore`: the `tickets` table as a value with an AUTOINCREMENT counter. It holds:
  - each route as a function with its full contract;
  - the invariant all writes keep: `checked_in` is 1 exactly when `check_in_time` is
    set, `checked_in` never returns to 0, and inserted columns and ids never change;
  - the check-in page's decision.
- `Server`: class `TicketTable`. Its methods change the rows step by step the way the
  handlers do: the INSERT, then the separate `qr_code` UPDATE, then the SMS. Each
  method is proved to reach the state the `TicketStore` function describes.
- `ServerAuth`: the bearer-token middleware (401/403) and the login route.
- `ClientData`: the `TicketManager` object as a class over localStorage and the page
  location. It also holds the price table and the request headers.
- `ClientApp`: the dashboard statistics, `filterTickets`, the row buttons, the CSV
  text and the new-ticket form data. The global `state` is a class whose methods are
  the event handlers.
- `Backup`: the timestamp, filename and path derivation, and the script's
  directory and copy guards over a file-system class.

Foreign pieces are parameters:

- the QR encoder is `encode: string -> Option<string>` (None when encoding fails);
- `jwt.verify` is `verify: string -> Option<string>`;
- `jwt.sign` and `bcrypt.compare` are function parameters;
- the clock is a string parameter (an ISO time, or the locale time the check-in
  route stamps);
- an SMS is an emitted `Sms` event appended to an outbox;
- each `fetch` on the client is a `Response` value the method receives.

Four behaviours of the code are easy to misread. The model keeps them as written:

- The POST check-in route has no guard. It checks in a pending or cancelled ticket.
  On a ticket already checked in it stamps the new time over the old one, and it
  answers success for an unknown id. Only the rendered page refuses
  (`TicketStore.CheckInRouteIgnoresStatus`, `TicketStore.CheckInShowsOnPage`).
- Confirm sets `confirmed` from any status, cancelled included.
- Create stores the price the client sent. The client takes it from `PRICES`
  (`ClientApp.NewTicketForm`), so it is 120–250 only for the three known types.
- The page's "Cannot check in: Ticket is …" line shows the status as stored. Only the
  badge is upper-cased.

## Model

| member | source | states |
|---|---|---|
| Text.IntToString | server.js:246 | `${id}` renders an integer as its decimal digits, with a leading '-' exactly for negatives, followed by the digits of its absolute value |
| Text.IntToStringInjective | server.js:246 | distinct ids render as distinct strings |
| Text.Split | server.js:134 | `split` on one character yields at least one piece and no piece contains the separator |
| Text.JoinSplitReplaces | backup_db.js:16 | `split(c).join(d)` replaces every `c` with `d` |
| Text.SplitJoin | js/app.js:284 | splitting a join on its separator gives back the pieces when none holds the separator |
| Text.Lower | js/app.js:345 | `toLowerCase` keeps the length, leaves no upper-case ASCII letter and changes only those letters |
| Text.Upper | server.js:382 | `toUpperCase` keeps the length, leaves no lower-case ASCII letter and changes only those letters |
| Text.Trim | js/app.js:231 | `trim` returns a slice of the input with only white space cut from either end, and leaves no white space at either end |
| Text.TrimIdempotent | js/app.js:231 | trimming twice is trimming once |
| TicketStore.CheckInUrl | server.js:246 | the QR URL is the server URL, then `/checkin/`, then one path segment with no '/', which the `/checkin/:id` route captures whole |
| TicketStore.CheckInUrlInjective | server.js:246 | no two tickets share a check-in URL |
| TicketStore.CheckInUrlNamesTicket | server.js:246 | the segment after `/checkin/` is the id's digits and reads back as the id |
| TicketStore.ConfirmationTextNamesTicket | server.js:263 | the SMS text (the same template at line 310) carries the ticket id: for the same name, type and date, two messages are equal only for the same ticket |
| TicketStore.DateOfIso | server.js:232 | the stored date of an ISO time is its first ten characters |
| TicketStore.Create | server.js:230-272 | fresh id = counter, above every id in the table; fields stored as sent; not checked in; `qr_code` is the encoding of the ticket's check-in URL, or NULL when encoding fails; one SMS iff status is 'confirmed' and the phone is non-empty |
| TicketStore.Confirm | server.js:287-320 | unknown id: 404 and nothing changes; otherwise only that row's status becomes 'confirmed', from any status, and one SMS goes to the stored phone iff it is non-empty |
| TicketStore.CheckIn | server.js:348-359 | stamps `checked_in` and the time on that row only, with no status guard; an unknown id changes nothing; the reply is success either way |
| TicketStore.Delete | server.js:275-284 | removes exactly that row, keeps every other one, reports 1 or 0 changes |
| TicketStore.RunEvolves | server.js:230-359 | after any sequence of requests: ids are never reused; `checked_in` never returns to 0 and is set iff a check-in time is; inserted columns and `qr_code` never change |
| TicketStore.List | server.js:215-227 | every row exactly once, ids strictly descending |
| TicketStore.QrCode | server.js:322-335 | the stored payload, or 404 when the row is missing or its `qr_code` is NULL or empty |
| TicketStore.DeletedTicketIsGone | server.js:275-335 | after a delete, the ticket is absent from the list and its QR code answers 404 |
| TicketStore.CheckInPageFor | server.js:362-433 | unknown id: not found; checked in: "CHECKED IN" and the stored time; else the check-in button iff 'confirmed', and exactly otherwise "Cannot check in: Ticket is <status>" |
| TicketStore.CheckInShowsOnPage | server.js:348-433 | after a check-in the page shows that time; a second check-in replaces it |
| TicketStore.CheckInRouteIgnoresStatus | server.js:348-359 | a ticket the page refuses is still checked in by a direct POST |
| Server.TicketTable.constructor | server.js:54-65 | the table starts empty with the counter at 1 |
| Server.TicketTable.Create | server.js:230-272 | INSERT, `qr_code` UPDATE and SMS reach the state, reply and outbox `TicketStore.Create` gives, keeping the invariant |
| Server.TicketTable.Confirm | server.js:287-320 | the SELECT, 404 and status UPDATE reach what `TicketStore.Confirm` gives |
| Server.TicketTable.CheckIn | server.js:348-359 | the one UPDATE reaches what `TicketStore.CheckIn` gives and touches only the rows |
| Server.TicketTable.Delete | server.js:275-284 | the DELETE reaches what `TicketStore.Delete` gives |
| Server.TicketTable.List | server.js:215-227 | returns `TicketStore.List` of the current table |
| Server.TicketTable.QrCode | server.js:322-335 | returns `TicketStore.QrCode` of the current table |
| ServerAuth.BearerToken | server.js:133-134 | the token is the second space-separated part of the header, present iff that part exists and is non-empty |
| ServerAuth.BearerHeaderRoundTrip | js/data.js:16 | the server reads back from `Bearer <t>` exactly `t`, for a non-empty `t` without spaces |
| ServerAuth.Authenticate | server.js:132-147 | no token: 401; a token `verify` rejects: 403; otherwise the token's user |
| ServerAuth.GuardedStatus | server.js:132-147 | a protected route answers 401 iff no token, 403 iff an invalid one, else its own status |
| ServerAuth.Login | server.js:183-208 | a token iff the user exists and the password matches; both failures give the same 400 and message |
| ClientData.PriceOf | js/data.js:157-161 | VIP 250, Standard 150, Early Bird 120; no price for any other type |
| ClientData.HeadersFor | js/data.js:12-18 | JSON content type always; `Bearer <token>` when a truthy token is stored, else empty |
| ClientData.ServerReadsStoredToken | js/data.js:12-18 | the server extracts the stored token from the header, or nothing (a 401) when none is stored |
| ClientData.StorageAfter | js/data.js:53-57 | a 401 or 403 removes `authToken` and nothing else; any other response keeps storage |
| ClientData.ListResult | js/data.js:47-65 | `[]` after a thrown error or a 401/403, otherwise the reply's `data` |
| ClientData.ItemResult | js/data.js:67-87 | null after a thrown error or a 401/403, otherwise the reply's field |
| ClientData.TokenKeptIffAccepted | js/data.js:53-57 | end to end with the server: the token survives a request iff the server authenticated it |
| ClientData.TicketManager.CheckAuth | js/data.js:21-45 | true iff a token is stored and the check is ok; no token: to the login page; not ok: token and username removed, to the login page; a thrown error changes nothing |
| ClientData.TicketManager.HandleRejection | js/data.js:53-57 | on a 401/403: token removed and location '/'; otherwise nothing changes |
| ClientData.TicketManager.GetTickets | js/data.js:47-65 | returns `ListResult` and leaves storage as `StorageAfter` says |
| ClientData.TicketManager.AddTicket | js/data.js:67-87 | returns `ItemResult` and leaves storage as `StorageAfter` says |
| ClientData.TicketManager.Refetch | js/data.js:89-128 | a failed write gives `[]`; a refused one `[]`, no token and location '/'; otherwise the list fetched afresh, with storage and location as that list request leaves them |
| ClientData.TicketManager.DeleteTicket | js/data.js:89-108 | `[]` on a thrown error or a 401/403 (token removed); otherwise a fresh `getTickets` result, with its storage and location ('/' when the list request is refused) |
| ClientData.TicketManager.ConfirmTicket | js/data.js:110-128 | `[]` on a thrown error or a 401/403 (token removed); otherwise a fresh `getTickets` result, with its storage and location ('/' when the list request is refused) |
| ClientData.TicketManager.GetQrCode | js/data.js:130-148 | returns `ItemResult` and leaves storage as `StorageAfter` says |
| ClientData.TicketManager.Logout | js/data.js:150-154 | removes token and username, goes to '/' |
| ClientApp.Filter | js/app.js:174-184 | `filter` keeps only elements satisfying the test, each one that does, in order (a subsequence) |
| ClientApp.FilterKeepsCounts | js/app.js:174-184 | a value passing the test occurs in the result as often as in the list, one failing it not at all: no duplicate is collapsed |
| ClientApp.FilterComplement | js/app.js:85 | a test and its negation split the list's length between them |
| ClientApp.ReduceRevenueIsSum | js/app.js:89-91 | the `reduce` fold equals the sum of the prices of tickets not cancelled |
| ClientApp.RoundDiv | js/app.js:93 | `Math.round(a/b)` is the integer nearest `a/b`, halves up |
| ClientApp.RoundDivBounds | js/app.js:93 | rounding a quotient that lies between two integers stays between them |
| ClientApp.RenderStats | js/app.js:83-109 | sold = not cancelled; available = 100 − sold; sold + cancelled = all; confirmed ≤ sold; revenue = sum of sold prices; average and confirmed share rounded, 0 and '0%' with nothing sold; share ≤ 100 |
| ClientApp.AveragePriceBounds | js/app.js:93 | the average price lies between the lowest and highest sold price |
| ClientApp.TablePricesAverage | js/app.js:239 | tickets priced from `PRICES` average between 120 and 250 |
| ClientApp.FilterTickets | js/app.js:174-184 | every shown ticket matches the search on lower-cased name or phone and each select not 'all'; every matching ticket is shown, as many times as it is listed; order kept |
| ClientApp.DefaultFiltersShowAll | js/app.js:3-12 | with the initial filters every ticket is shown |
| ClientApp.RowActions | js/app.js:127-143 | QR and delete for every row; the confirm button, first, iff the ticket is pending |
| ClientApp.RenderTable | js/app.js:111-172 | "no results" iff nothing passes the filter; else one row per shown ticket, '-' for a missing phone |
| ClientApp.HeaderLine | js/app.js:260-261 | the header line splits back into the seven column names |
| ClientApp.CountLines | js/app.js:277-281 | five figure lines; the revenue line carries the sum of sold prices |
| ClientApp.CsvRowCells | js/app.js:263-273 | a ticket's line splits back into one cell per header: the id, the quoted name, the quoted phone or 'N/A', type, price, status and date, when no text field holds a comma |
| ClientApp.CsvRowOneLine | js/app.js:263-273 | a ticket's line holds no newline when none of its text fields does |
| ClientApp.StatisticsLines | js/app.js:275-282 | 13 lines: the title block, then the figures |
| ClientApp.StatisticsMatchDashboard | js/app.js:275-282 | the export's confirmed, cancelled and revenue figures are the dashboard's |
| ClientApp.CsvLines | js/app.js:259-284 | header, then one line per ticket in list order, then the statistics, 14 lines more than tickets |
| ClientApp.CsvContentLines | js/app.js:284 | splitting the file on newlines gives back exactly those lines, when no ticket field holds a newline |
| ClientApp.NewTicketForm | js/app.js:227-240 | phone is "+233 " and the trimmed input; price is `PRICES[type]`, 120–250 when present |
| ClientApp.FormPhoneIgnoresPadding | js/app.js:231 | padding the phone input does not change the phone sent |
| ClientApp.AppState.constructor | js/app.js:3-12 | no tickets, default filters, nothing awaiting deletion |
| ClientApp.AppState.OnSearchInput | js/app.js:344-347 | the search filter becomes the lower-cased input, other filters kept |
| ClientApp.AppState.OnStatusChange | js/app.js:349-352 | the status filter becomes the selected value |
| ClientApp.AppState.OnTypeChange | js/app.js:354-357 | the type filter becomes the selected value |
| ClientApp.AppState.PromptDelete | js/app.js:187-190 | remembers the ticket and opens the confirmation |
| ClientApp.AppState.CloseDeleteModal | js/app.js:319-322 | closes the confirmation and resets the ticket to null |
| ClientApp.AppState.ConfirmDelete | js/app.js:192-199 | does nothing unless a ticket is remembered; otherwise the list becomes the fetched one and the modal closes |
| ClientApp.AppState.ConfirmTicket | js/app.js:201-205 | the list becomes the freshly fetched one |
| ClientApp.AppState.AddTicket | js/app.js:227-257 | nothing changes without a created ticket; otherwise the list ends up as the refetched one |
| Backup.Timestamp | backup_db.js:16 | the first 19 characters of the time with ':' and '.' as '-' and 'T' as '_' |
| Backup.IsoTimestamp | backup_db.js:16 | for an ISO time the timestamp is `YYYY-MM-DD_HH-MM-SS`, starting with the ISO date |
| Backup.BackupPath | backup_db.js:17-18 | the path lies under `backups/` with the `tickets_backup_` prefix and is never the database file |
| Backup.BackupPathInjective | backup_db.js:17-18 | distinct timestamps give distinct paths |
| Backup.TimestampSameSecond | backup_db.js:16 | ISO times give the same timestamp iff they agree to the second |
| Backup.SamePathSameSecond | backup_db.js:15-18 | two backups share a path (the later overwrites) iff taken in the same second |
| Backup.FileSystem.RunBackup | backup_db.js:8-36 | `backups` created only when nothing of that name exists; copy only when the database exists and is a file and `backups` is a directory; otherwise missing or failed, with no file written; the database itself never changes |

## Left out

- Express routing, body parsing, sessions, CORS, static files and `app.listen`.
  SQLite callback plumbing is left out too: the table is a map.
- TicketStore.Create, TicketStore.Confirm, TicketStore.RunEvolves: each request is
  modelled as one atomic step, so the requests are served one at a time. In the code a
  handler can be interrupted at two points:
  - Create awaits the QR encoder (server.js:247) between the INSERT and the `qr_code`
    UPDATE. A request served in that gap sees `qr_code` NULL: GET /qrcode answers 404
    and the list shows null.
  - Confirm runs its SELECT (server.js:289) and its UPDATE (server.js:301-302) as
    separate callbacks. A DELETE landing between them makes the reply `changes: 0`,
    and the SMS is still sent for a row that no longer exists.

  Confirm's `Changed(1)` reply and RunEvolves's "`qr_code` never changes" hold only
  when requests are served one at a time.
- Driver errors are not modelled: the 400/500 replies on a failed query, and a
  failed `qr_code` UPDATE that is only logged.
- Route ids arrive as strings, and SQLite matches them against integer ids by type
  affinity. The model takes ids as integers.
- The creation of the `users` table, the default admin account and the seeding of
  sample tickets are left out. The seeding runs async callbacks inside `forEach`, so
  its order is a concurrency matter. The login lookup is modelled: `ServerAuth.Login`
  takes the users table as a map from username to row.
- bcrypt, `jwt.sign`/`jwt.verify` (the 24-hour expiry included), the QR encoder and
  the Twilio client are parameters. Whether an SMS is actually delivered is not
  modelled: a triggered SMS is recorded in the outbox.
- Time is a parameter: `toISOString`, and the locale string the check-in route stamps.
- Locale formatting (`formatDate`, revenue `toLocaleString`) and all HTML, CSS,
  icons and colours of the pages are left out.
- The DOM, toasts, timers, modals other than the delete confirmation, the QR modal
  (`showQRCode`) and `init` are left out. So are the Blob download and the CSV
  filename and BOM.
- The network is left out: each `fetch` is a given `Response`.
- `TOTAL_CAPACITY - soldCount` is not checked against overselling. The code does not
  check it either.
- ClientApp.AppState.ConfirmDelete: a list reply without `data` makes `state.tickets`
  undefined in the code. The state class keeps a sequence, so it takes the resolved
  list as given.
- ClientApp.AppState.AddTicket: same as ConfirmDelete.
- ClientApp.RenderStats: `Math.round` on floating-point quotients is modelled as
  exact rational rounding (halves up). The capacity percentage
  `Math.round((sold / 100) * 100)` is taken as `sold`. Binary rounding error at an
  exact half is not modelled.
- Prices are integers. For a type without a `PRICES` entry the form sends no price,
  the row stores NULL and the list returns `price: null`, which the revenue `reduce`
  adds as 0. The model has no NULL price: such a ticket carries an integer price.
  The `undefined` price of the ticket `addTicket` unshifts is replaced by the refetch
  before the dashboard renders, so it never reaches the sums.
- A ticket whose status is NULL (a POST /api/tickets without `status`) is not
  modelled: the status is always a string. In the code, GET `/checkin/:id` then throws
  on `toUpperCase()` for such a ticket when it is not checked in.
- Backup.PathJoin: `path.join` uses the platform separator. The model always joins
  with '/', as on POSIX systems.
- `toLowerCase`/`toUpperCase` are modelled on ASCII letters only. `trim` uses the
  ECMAScript white-space set.
- backup_db.js: the console output, including the `Total backups` count, is left
  out. I/O failures other than the ones the model names (a database that is a
  directory, a `backups` that is a file) are left out, as is a failing `mkdirSync`.
