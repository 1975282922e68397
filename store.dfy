/** The `tickets` table of server.js as a value: its rows keyed by id, the
    AUTOINCREMENT counter, and the four ways the route handlers write to it
    (create, confirm, check-in, delete) and the two ways they read it. */
module TicketStore {
  import opened Common
  import opened Text

  const CONFIRMED := "confirmed"
  const PENDING := "pending"
  const CANCELLED := "cancelled"

  /** One row of `tickets`. A NULL `phone` is the empty string (both are falsy to the
      route handlers); the 0/1 `checked_in` column is a boolean. */
  datatype Ticket = Ticket(
    id: int,
    name: string,
    phone: string,
    ticketType: string,
    price: int,
    status: string,
    date: string,
    qrCode: Option<string>,
    checkedIn: bool,
    checkInTime: Option<string>)

  /** The table: its rows by id, and `nextId`, the id AUTOINCREMENT hands out next
      (one more than the largest id ever assigned, deleted rows included). */
  datatype Db = Db(rows: map<int, Ticket>, nextId: int)

  /** An SMS handed to the message sender: an emitted event, never awaited by the model. */
  datatype Sms = Sms(to: string, body: string)

  datatype Request =
    | CreateTicket(name: string, phone: string, ticketType: string, price: int, status: string, isoNow: string)
    | ConfirmTicket(id: int)
    | CheckInTicket(id: int, timestamp: string)
    | DeleteTicket(id: int)

  /** The JSON body (and status) a write route answers with. */
  datatype Reply =
    | Created(ticket: Ticket)
    | Changed(changes: nat)
    | NotFound
    | CheckInDone(time: string)

  datatype Outcome = Outcome(db: Db, reply: Reply, sent: seq<Sms>)

  predicate CheckInConsistent(t: Ticket) {
    t.checkedIn <==> t.checkInTime.Some?
  }

  /** What every reachable table satisfies: ids were handed out by the counter,
      each row knows its own id, and `checked_in` is 1 exactly when `check_in_time` is set. */
  ghost predicate Valid(db: Db) {
    1 <= db.nextId
    && forall id :: id in db.rows ==>
         1 <= id < db.nextId && db.rows[id].id == id && CheckInConsistent(db.rows[id])
  }

  /** What a later version of a row keeps of an earlier one: the inserted columns and
      the QR code never change, the status only ever becomes 'confirmed', and a
      checked-in ticket stays checked in. */
  predicate RowEvolves(before: Ticket, after: Ticket) {
    && after.id == before.id
    && after.name == before.name
    && after.phone == before.phone
    && after.ticketType == before.ticketType
    && after.price == before.price
    && after.date == before.date
    && after.qrCode == before.qrCode
    && (after.status == before.status || after.status == CONFIRMED)
    && (before.checkedIn ==> after.checkedIn)
  }

  /** What a later table keeps of an earlier one: the counter never goes back, an id
      that was free below the counter (never used, or deleted) never reappears, and
      rows present in both evolve as `RowEvolves` says. */
  ghost predicate Evolves(before: Db, after: Db) {
    && before.nextId <= after.nextId
    && (forall id :: id in after.rows && id < before.nextId ==> id in before.rows)
    && (forall id :: id in before.rows && id in after.rows ==> RowEvolves(before.rows[id], after.rows[id]))
  }

  lemma EvolvesTransitive(a: Db, b: Db, c: Db)
    requires Valid(a) && Evolves(a, b) && Evolves(b, c)
    ensures Evolves(a, c)
  {
  }

  // ---------------------------------------------------------------------------
  // Values the create and confirm routes derive
  // ---------------------------------------------------------------------------

  /** `${SERVER_URL}/checkin/${id}`: what a ticket's QR code encodes. */
  function CheckInUrl(serverUrl: string, id: int): (url: string)
    ensures StartsWith(url, serverUrl + "/checkin/") && |url| > |serverUrl + "/checkin/"|
    ensures '/' !in url[|serverUrl + "/checkin/"|..]
  {
    var url := serverUrl + "/checkin/" + IntToString(id);
    assert url[|serverUrl + "/checkin/"|..] == IntToString(id);
    url
  }

  /** Two tickets never share a check-in URL. */
  lemma {:induction false} CheckInUrlInjective(serverUrl: string, a: int, b: int)
    ensures CheckInUrl(serverUrl, a) == CheckInUrl(serverUrl, b) ==> a == b
  {
    var n := |serverUrl + "/checkin/"|;
    assert CheckInUrl(serverUrl, a)[n..] == IntToString(a);
    assert CheckInUrl(serverUrl, b)[n..] == IntToString(b);
    IntToStringInjective(a, b);
  }

  /** The path segment after `/checkin/` is the decimal id, so the `/checkin/:id`
      page reached by scanning the code looks up the ticket it was made for. */
  lemma {:induction false} CheckInUrlNamesTicket(serverUrl: string, id: int)
    requires id >= 1
    ensures var segment := CheckInUrl(serverUrl, id)[|serverUrl| + |"/checkin/"|..];
            AllDigits(segment) && DigitsValue(segment) == id
  {
    assert CheckInUrl(serverUrl, id)[|serverUrl| + |"/checkin/"|..] == NatToString(id);
    DigitsValueOfNatToString(id);
  }

  /** `new Date().toISOString().split('T')[0]`: the date part of the creation time. */
  function DateOf(isoNow: string): string {
    Split(isoNow, 'T')[0]
  }

  /** For an ISO-8601 timestamp the stored date is its `YYYY-MM-DD` part. */
  lemma {:induction false} DateOfIso(isoNow: string)
    requires IsIsoString(isoNow)
    ensures DateOf(isoNow) == isoNow[..10]
  {
    assert isoNow == isoNow[..10] + ['T'] + isoNow[11..];
    SplitAtFirst(isoNow[..10], isoNow[11..], 'T');
  }

  /** The confirmation message both the create and the confirm route send. */
  function ConfirmationText(name: string, ticketType: string, id: int, date: string): string {
    "Hello " + name + "! Your " + ticketType + " ticket for the Dinner Event has been confirmed. Ticket ID: "
    + IntToString(id) + ". See you on " + date + "!"
  }

  /** The ticket id can be read off the message: for the same name, type and date,
      two messages are equal only for the same ticket. */
  lemma {:induction false} ConfirmationTextNamesTicket(name: string, ticketType: string, date: string, a: int, b: int)
    ensures ConfirmationText(name, ticketType, a, date) == ConfirmationText(name, ticketType, b, date) ==> a == b
  {
    var head := "Hello " + name + "! Your " + ticketType + " ticket for the Dinner Event has been confirmed. Ticket ID: ";
    var tail := ". See you on " + date + "!";
    var ma, mb := ConfirmationText(name, ticketType, a, date), ConfirmationText(name, ticketType, b, date);
    assert ma == head + IntToString(a) + tail;
    assert mb == head + IntToString(b) + tail;
    if ma == mb {
      assert IntToString(a) == ma[|head|..|ma| - |tail|];
      assert IntToString(b) == mb[|head|..|mb| - |tail|];
      IntToStringInjective(a, b);
    }
  }

  /** The row INSERT writes: `qr_code` NULL, `checked_in` at its default 0, no check-in time. */
  function NewRow(id: int, name: string, phone: string, ticketType: string, price: int, status: string, date: string): Ticket {
    Ticket(id, name, phone, ticketType, price, status, date, None, false, None)
  }

  /** `UPDATE tickets SET qr_code = ? WHERE id = ?`. */
  function SetQrCode(db: Db, id: int, qr: Option<string>): Db {
    if id in db.rows then db.(rows := db.rows[id := db.rows[id].(qrCode := qr)]) else db
  }

  /** Adding a consistent row under the counter's id, and advancing the counter,
      keeps the table valid and changes no existing row. */
  lemma InsertEvolves(db: Db, t: Ticket)
    requires Valid(db) && t.id == db.nextId && CheckInConsistent(t)
    ensures var after := Db(db.rows[db.nextId := t], db.nextId + 1);
            Valid(after) && Evolves(db, after) && forall id :: id in db.rows ==> id < t.id
  {
  }

  // ---------------------------------------------------------------------------
  // The write routes
  // ---------------------------------------------------------------------------

  /** POST /api/tickets: insert the row as the client sent it, under a fresh id larger
      than every id in the table; then store the QR payload of its check-in URL (NULL
      when the encoder fails, which does not fail the request); send the confirmation
      SMS only for a ticket created 'confirmed' with a phone. */
  function Create(
    db: Db, serverUrl: string, encode: string -> Option<string>,
    name: string, phone: string, ticketType: string, price: int, status: string, isoNow: string
  ): (r: Outcome)
    requires Valid(db)
    ensures Valid(r.db) && Evolves(db, r.db)
    ensures r.reply.Created? && r.reply.ticket.id == db.nextId
    ensures forall id :: id in db.rows ==> id < r.reply.ticket.id
    ensures r.db.nextId == db.nextId + 1 && r.db.rows == db.rows[db.nextId := r.reply.ticket]
    ensures var t := r.reply.ticket;
      && t.name == name && t.phone == phone && t.ticketType == ticketType
      && t.price == price && t.status == status && t.date == DateOf(isoNow)
      && t.qrCode == encode(CheckInUrl(serverUrl, t.id))
      && !t.checkedIn && t.checkInTime == None
    ensures |r.sent| <= 1
    ensures r.sent != [] <==> status == CONFIRMED && phone != ""
    ensures forall m :: m in r.sent ==>
      m == Sms(phone, ConfirmationText(name, ticketType, db.nextId, DateOf(isoNow)))
  {
    var id := db.nextId;
    var date := DateOf(isoNow);
    var inserted := Db(db.rows[id := NewRow(id, name, phone, ticketType, price, status, date)], id + 1);
    var qr := encode(CheckInUrl(serverUrl, id));
    var updated := SetQrCode(inserted, id, qr);
    var ticket := Ticket(id, name, phone, ticketType, price, status, date, qr, false, None);
    assert updated.rows == db.rows[id := ticket];
    InsertEvolves(db, ticket);
    var sent := if status == CONFIRMED && phone != "" then [Sms(phone, ConfirmationText(name, ticketType, id, date))] else [];
    Outcome(updated, Created(ticket), sent)
  }

  /** PATCH /api/tickets/:id/confirm: 404 for an unknown id; otherwise the status becomes
      'confirmed' whatever it was, nothing else changes, and the SMS goes out exactly
      when the stored phone is non-empty. */
  function Confirm(db: Db, id: int): (r: Outcome)
    requires Valid(db)
    ensures Valid(r.db) && Evolves(db, r.db)
    ensures id !in db.rows ==> r == Outcome(db, NotFound, [])
    ensures id in db.rows ==>
      && r.reply == Changed(1)
      && r.db.nextId == db.nextId
      && r.db.rows.Keys == db.rows.Keys
      && r.db.rows[id] == db.rows[id].(status := CONFIRMED)
      && (forall k :: k in db.rows && k != id ==> r.db.rows[k] == db.rows[k])
    ensures |r.sent| <= 1
    ensures r.sent != [] <==> id in db.rows && db.rows[id].phone != ""
    ensures id in db.rows ==> forall m :: m in r.sent ==>
      var t := db.rows[id]; m == Sms(t.phone, ConfirmationText(t.name, t.ticketType, t.id, t.date))
  {
    if id !in db.rows then Outcome(db, NotFound, [])
    else
      var t := db.rows[id];
      var sent := if t.phone != "" then [Sms(t.phone, ConfirmationText(t.name, t.ticketType, t.id, t.date))] else [];
      Outcome(db.(rows := db.rows[id := t.(status := CONFIRMED)]), Changed(1), sent)
  }

  /** POST /api/tickets/:id/checkin: stamps the time on that row whatever its status and
      whether or not it was already checked in; an unknown id changes nothing, and the
      answer is success either way. */
  function CheckIn(db: Db, id: int, timestamp: string): (r: Outcome)
    requires Valid(db)
    ensures Valid(r.db) && Evolves(db, r.db)
    ensures r.reply == CheckInDone(timestamp) && r.sent == []
    ensures id !in db.rows ==> r.db == db
    ensures id in db.rows ==>
      && r.db.nextId == db.nextId
      && r.db.rows.Keys == db.rows.Keys
      && r.db.rows[id] == db.rows[id].(checkedIn := true, checkInTime := Some(timestamp))
      && (forall k :: k in db.rows && k != id ==> r.db.rows[k] == db.rows[k])
  {
    var rows := if id in db.rows then db.rows[id := db.rows[id].(checkedIn := true, checkInTime := Some(timestamp))] else db.rows;
    Outcome(db.(rows := rows), CheckInDone(timestamp), [])
  }

  /** DELETE /api/tickets/:id: removes exactly that row and reports how many rows went. */
  function Delete(db: Db, id: int): (r: Outcome)
    requires Valid(db)
    ensures Valid(r.db) && Evolves(db, r.db)
    ensures id !in r.db.rows && r.db.nextId == db.nextId
    ensures forall k :: k in db.rows && k != id ==> k in r.db.rows && r.db.rows[k] == db.rows[k]
    ensures r.db.rows.Keys <= db.rows.Keys
    ensures r.reply == Changed(if id in db.rows then 1 else 0) && r.sent == []
  {
    Outcome(db.(rows := db.rows - {id}), Changed(if id in db.rows then 1 else 0), [])
  }

  function Step(db: Db, serverUrl: string, encode: string -> Option<string>, req: Request): (r: Outcome)
    requires Valid(db)
  {
    match req
    case CreateTicket(name, phone, ticketType, price, status, isoNow) =>
      Create(db, serverUrl, encode, name, phone, ticketType, price, status, isoNow)
    case ConfirmTicket(id) => Confirm(db, id)
    case CheckInTicket(id, timestamp) => CheckIn(db, id, timestamp)
    case DeleteTicket(id) => Delete(db, id)
  }

  /** The table after a sequence of requests, in order. */
  function Run(db: Db, serverUrl: string, encode: string -> Option<string>, reqs: seq<Request>): Db
    requires Valid(db)
    decreases |reqs|
  {
    if reqs == [] then db
    else
      var next := Step(db, serverUrl, encode, reqs[0]).db;
      Run(next, serverUrl, encode, reqs[1..])
  }

  /** Whatever requests arrive, and in whatever order, the table stays valid and every
      row keeps what `RowEvolves` promises: `checked_in` never returns to 0, it is 1
      exactly when `check_in_time` is set, the inserted columns never change, and ids
      are never reused. */
  lemma {:induction false} RunEvolves(db: Db, serverUrl: string, encode: string -> Option<string>, reqs: seq<Request>)
    requires Valid(db)
    ensures Valid(Run(db, serverUrl, encode, reqs))
    ensures Evolves(db, Run(db, serverUrl, encode, reqs))
    decreases |reqs|
  {
    if reqs != [] {
      var next := Step(db, serverUrl, encode, reqs[0]).db;
      RunEvolves(next, serverUrl, encode, reqs[1..]);
      EvolvesTransitive(db, next, Run(next, serverUrl, encode, reqs[1..]));
    }
  }

  // ---------------------------------------------------------------------------
  // The read routes
  // ---------------------------------------------------------------------------

  /** The rows with ids from `k` down to 1, in that order. */
  function RowsDownFrom(rows: map<int, Ticket>, k: int): (r: seq<Ticket>)
    requires forall id :: id in rows ==> rows[id].id == id
    ensures forall i, j :: 0 <= i < j < |r| ==> r[i].id > r[j].id
    ensures forall i :: 0 <= i < |r| ==> 1 <= r[i].id <= k && r[i].id in rows && rows[r[i].id] == r[i]
    ensures forall id :: id in rows && 1 <= id <= k ==> rows[id] in r
    decreases k
  {
    if k < 1 then []
    else (if k in rows then [rows[k]] else []) + RowsDownFrom(rows, k - 1)
  }

  /** GET /api/tickets (`ORDER BY id DESC`): every row once, strictly newest first. */
  function List(db: Db): (r: seq<Ticket>)
    requires Valid(db)
    ensures forall i, j :: 0 <= i < j < |r| ==> r[i].id > r[j].id
    ensures forall t :: t in r ==> t.id in db.rows && db.rows[t.id] == t
    ensures forall id :: id in db.rows ==> db.rows[id] in r
  {
    RowsDownFrom(db.rows, db.nextId - 1)
  }

  datatype QrReply = QrFound(qrCode: string) | QrNotFound

  /** GET /api/tickets/:id/qrcode: the stored payload, or 404 when the row is missing
      or its `qr_code` is NULL or empty. */
  function QrCode(db: Db, id: int): (r: QrReply)
    ensures r.QrFound? <==> id in db.rows && db.rows[id].qrCode.Some? && db.rows[id].qrCode.value != ""
    ensures r.QrFound? ==> r.qrCode == db.rows[id].qrCode.value
  {
    if id in db.rows && db.rows[id].qrCode.Some? && db.rows[id].qrCode.value != "" then
      QrFound(db.rows[id].qrCode.value)
    else
      QrNotFound
  }

  /** After a delete the ticket is gone from the list and its QR code answers 404. */
  lemma DeletedTicketIsGone(db: Db, id: int)
    requires Valid(db)
    ensures var after := Delete(db, id).db;
      QrCode(after, id) == QrNotFound && forall t :: t in List(after) ==> t.id != id
  {
  }

  // ---------------------------------------------------------------------------
  // The check-in page, GET /checkin/:id
  // ---------------------------------------------------------------------------

  datatype CheckInAction =
    | ShowCheckInTime(time: Option<string>)
    | CheckInButton
    | CannotCheckIn(message: string)

  datatype CheckInPage =
    | TicketNotFound
    | TicketView(ticket: Ticket, badge: string, action: CheckInAction)

  /** The page a QR scan opens: "Ticket Not Found" for an unknown id; for a checked-in
      ticket the badge "CHECKED IN" and the stored time; otherwise the status upper-cased
      as the badge, and the check-in button only for a 'confirmed' ticket. */
  function CheckInPageFor(db: Db, id: int): (p: CheckInPage)
    requires Valid(db)
    ensures p.TicketNotFound? <==> id !in db.rows
    ensures p.TicketView? ==> p.ticket == db.rows[id]
    ensures p.TicketView? && p.ticket.checkedIn ==>
      p.badge == "CHECKED IN" && p.action.ShowCheckInTime? && p.action.time == p.ticket.checkInTime && p.action.time.Some?
    ensures p.TicketView? && !p.ticket.checkedIn ==> p.badge == Upper(p.ticket.status)
    ensures p.TicketView? ==> (p.action.CheckInButton? <==> !p.ticket.checkedIn && p.ticket.status == CONFIRMED)
    ensures p.TicketView? && p.action.CannotCheckIn? ==>
      !p.ticket.checkedIn && p.ticket.status != CONFIRMED
      && p.action.message == "Cannot check in: Ticket is " + p.ticket.status
    ensures p.TicketView? && !p.ticket.checkedIn && p.ticket.status != CONFIRMED ==>
      p.action == CannotCheckIn("Cannot check in: Ticket is " + p.ticket.status)
  {
    if id !in db.rows then TicketNotFound
    else
      var t := db.rows[id];
      var badge := if t.checkedIn then "CHECKED IN" else Upper(t.status);
      var action :=
        if t.checkedIn then ShowCheckInTime(t.checkInTime)
        else if t.status == CONFIRMED then CheckInButton
        else CannotCheckIn("Cannot check in: Ticket is " + t.status);
      TicketView(t, badge, action)
  }

  /** Pressing the button (the POST check-in) turns the page into the checked-in view
      showing the time just stamped; pressing again re-stamps it. */
  lemma CheckInShowsOnPage(db: Db, id: int, first: string, second: string)
    requires Valid(db) && id in db.rows
    ensures var once := CheckIn(db, id, first).db;
            var twice := CheckIn(once, id, second).db;
            CheckInPageFor(once, id).action == ShowCheckInTime(Some(first))
            && CheckInPageFor(twice, id).action == ShowCheckInTime(Some(second))
  {
  }

  /** The POST route itself has no guard: a pending or cancelled ticket whose page
      refuses check-in is still checked in by a direct request. */
  lemma CheckInRouteIgnoresStatus(db: Db, id: int, timestamp: string)
    requires Valid(db) && id in db.rows && db.rows[id].status != CONFIRMED && !db.rows[id].checkedIn
    ensures CheckInPageFor(db, id).action.CannotCheckIn?
    ensures CheckIn(db, id, timestamp).db.rows[id].checkedIn
  {
  }
}
