/** The route handlers of server.js over the SQLite `tickets` table, as an object whose
    methods change the table step by step the way the handlers' statements do. Each
    method's new state is the one the TicketStore function of the same route gives. */
module Server {
  import opened Common
  import opened Text
  import opened TicketStore

  class TicketTable {
    var rows: map<int, Ticket>
    /** The AUTOINCREMENT counter: the id the next INSERT receives. */
    var nextId: int
    /** Every SMS handed to the sender so far, oldest first. */
    var outbox: seq<Sms>
    /** SERVER_URL. */
    const serverUrl: string
    /** QRCode.toDataURL: the payload for a URL, or None when encoding fails. */
    const encode: string -> Option<string>

    ghost function State(): Db
      reads this
    {
      Db(rows, nextId)
    }

    ghost predicate Valid()
      reads this
    {
      TicketStore.Valid(State())
    }

    constructor (serverUrl: string, encode: string -> Option<string>)
      ensures Valid()
      ensures State() == Db(map[], 1) && outbox == []
      ensures this.serverUrl == serverUrl && this.encode == encode
    {
      rows := map[];
      nextId := 1;
      outbox := [];
      this.serverUrl := serverUrl;
      this.encode := encode;
    }

    /** POST /api/tickets: the INSERT with a NULL `qr_code`, then the separate UPDATE
        that stores the QR payload, then the SMS for a ticket created confirmed. */
    method Create(name: string, phone: string, ticketType: string, price: int, status: string, isoNow: string)
      returns (reply: Reply)
      requires Valid()
      modifies this
      ensures Valid() && Evolves(old(State()), State())
      ensures var o := TicketStore.Create(old(State()), serverUrl, encode, name, phone, ticketType, price, status, isoNow);
        State() == o.db && reply == o.reply && outbox == old(outbox) + o.sent
    {
      var date := DateOf(isoNow);
      var id := nextId;
      rows := rows[id := NewRow(id, name, phone, ticketType, price, status, date)];
      nextId := nextId + 1;
      var qr := encode(CheckInUrl(serverUrl, id));
      if id in rows {
        rows := rows[id := rows[id].(qrCode := qr)];
      }
      reply := Created(Ticket(id, name, phone, ticketType, price, status, date, qr, false, None));
      if status == CONFIRMED && phone != "" {
        outbox := outbox + [Sms(phone, ConfirmationText(name, ticketType, id, date))];
      }
    }

    /** PATCH /api/tickets/:id/confirm: the SELECT, a 404 when it finds nothing, else the
        status UPDATE and the SMS to the stored phone. */
    method Confirm(id: int) returns (reply: Reply)
      requires Valid()
      modifies this
      ensures Valid() && Evolves(old(State()), State())
      ensures var o := TicketStore.Confirm(old(State()), id);
        State() == o.db && reply == o.reply && outbox == old(outbox) + o.sent
    {
      if id !in rows {
        return NotFound;
      }
      var ticket := rows[id];
      rows := rows[id := rows[id].(status := CONFIRMED)];
      if ticket.phone != "" {
        outbox := outbox + [Sms(ticket.phone, ConfirmationText(ticket.name, ticket.ticketType, ticket.id, ticket.date))];
      }
      reply := Changed(1);
    }

    /** POST /api/tickets/:id/checkin: the one UPDATE of `checked_in` and `check_in_time`. */
    method CheckIn(id: int, timestamp: string) returns (reply: Reply)
      requires Valid()
      modifies this`rows
      ensures Valid() && Evolves(old(State()), State())
      ensures var o := TicketStore.CheckIn(old(State()), id, timestamp);
        State() == o.db && reply == o.reply
    {
      if id in rows {
        rows := rows[id := rows[id].(checkedIn := true, checkInTime := Some(timestamp))];
      }
      reply := CheckInDone(timestamp);
    }

    /** DELETE /api/tickets/:id. */
    method Delete(id: int) returns (reply: Reply)
      requires Valid()
      modifies this`rows
      ensures Valid() && Evolves(old(State()), State())
      ensures var o := TicketStore.Delete(old(State()), id);
        State() == o.db && reply == o.reply
    {
      var changes := if id in rows then 1 else 0;
      rows := rows - {id};
      reply := Changed(changes);
    }

    /** GET /api/tickets. */
    method List() returns (tickets: seq<Ticket>)
      requires Valid()
      ensures tickets == TicketStore.List(State())
    {
      tickets := RowsDownFrom(rows, nextId - 1);
    }

    /** GET /api/tickets/:id/qrcode. */
    method QrCode(id: int) returns (reply: QrReply)
      requires Valid()
      ensures reply == TicketStore.QrCode(State(), id)
    {
      if id in rows && rows[id].qrCode.Some? && rows[id].qrCode.value != "" {
        reply := QrFound(rows[id].qrCode.value);
      } else {
        reply := QrNotFound;
      }
    }
  }
}
