/** js/data.js: the browser-side `TicketManager`. It holds the price table, builds the
    request headers from the token in localStorage, and after each `fetch` decides what
    to return and whether to forget the token. The network is a parameter: each method
    receives the response its request got. */
module ClientData {
  import opened Common
  import opened Text
  import opened TicketStore
  import ServerAuth

  /** PRICES, in GHS. */
  const PRICES: map<string, int> := map["VIP" := 250, "Standard" := 150, "Early Bird" := 120]

  /** `PRICES[type]`: undefined for a type outside the table. */
  function PriceOf(ticketType: string): (price: Option<int>)
    ensures price.Some? <==> ticketType == "VIP" || ticketType == "Standard" || ticketType == "Early Bird"
    ensures price.Some? ==> 120 <= price.value <= 250
    ensures ticketType == "VIP" ==> price == Some(250)
    ensures ticketType == "Standard" ==> price == Some(150)
    ensures ticketType == "Early Bird" ==> price == Some(120)
  {
    if ticketType in PRICES then Some(PRICES[ticketType]) else None
  }

  const AUTH_TOKEN := "authToken"
  const USERNAME := "username"
  const LOGIN_PAGE := "/"

  /** `getAuthToken()`: `localStorage.getItem('authToken')`, null when absent. */
  function StoredToken(storage: map<string, string>): Option<string> {
    if AUTH_TOKEN in storage then Some(storage[AUTH_TOKEN]) else None
  }

  /** JavaScript truthiness of a string that may be null. */
  predicate Truthy(s: Option<string>) {
    s.Some? && s.value != ""
  }

  datatype Headers = Headers(contentType: string, authorization: string)

  /** `getHeaders()`: always JSON, and `Bearer <token>` only when a token is stored. */
  function HeadersFor(storage: map<string, string>): (h: Headers)
    ensures h.contentType == "application/json"
    ensures Truthy(StoredToken(storage)) ==> h.authorization == "Bearer " + storage[AUTH_TOKEN]
    ensures !Truthy(StoredToken(storage)) ==> h.authorization == ""
  {
    var token := StoredToken(storage);
    Headers("application/json", if Truthy(token) then "Bearer " + token.value else "")
  }

  /** What the server makes of the header the client sends: the stored token itself
      (when it holds no space), and no token at all when none is stored. */
  lemma {:induction false} ServerReadsStoredToken(storage: map<string, string>)
    ensures var token := StoredToken(storage);
            var header := Some(HeadersFor(storage).authorization);
            && (Truthy(token) && ' ' !in token.value ==> ServerAuth.BearerToken(header) == token)
            && (!Truthy(token) ==> ServerAuth.BearerToken(header) == None)
  {
    var token := StoredToken(storage);
    if Truthy(token) && ' ' !in token.value {
      ServerAuth.BearerHeaderRoundTrip(token.value);
    }
  }

  /** What a `fetch` came back with: a thrown error (network failure, or a body that is
      not JSON), or a status and the one field of the JSON body the caller reads
      (None when the body lacks it). */
  datatype Response<T> = Failed | Answered(status: int, field: Option<T>)

  predicate IsAuthRejection(status: int) {
    status == 401 || status == 403
  }

  /** `response.ok`. */
  predicate IsOk(status: int) {
    200 <= status <= 299
  }

  /** localStorage after a response to a protected request: a 401 or a 403 removes the token. */
  function StorageAfter<T>(storage: map<string, string>, response: Response<T>): (s: map<string, string>)
    ensures AUTH_TOKEN in s <==> AUTH_TOKEN in storage && !(response.Answered? && IsAuthRejection(response.status))
    ensures forall k :: k != AUTH_TOKEN ==> (k in s <==> k in storage) && (k in s ==> s[k] == storage[k])
  {
    if response.Answered? && IsAuthRejection(response.status) then storage - {AUTH_TOKEN} else storage
  }

  /** The result `getTickets` returns: `[]` after a 401/403 or a thrown error, otherwise
      the reply's `data` (undefined when the reply has none). */
  function ListResult(response: Response<seq<Ticket>>): (r: Option<seq<Ticket>>)
    ensures response.Failed? ==> r == Some([])
    ensures response.Answered? && IsAuthRejection(response.status) ==> r == Some([])
    ensures response.Answered? && !IsAuthRejection(response.status) ==> r == response.field
  {
    if response.Failed? || IsAuthRejection(response.status) then Some([]) else response.field
  }

  /** The result `addTicket` and `getQRCode` return: null after a 401/403 or a thrown
      error, otherwise the reply's field. */
  function ItemResult<T>(response: Response<T>): (r: Option<T>)
    ensures response.Failed? || IsAuthRejection(response.status) ==> r == None
    ensures response.Answered? && !IsAuthRejection(response.status) ==> r == response.field
  {
    if response.Failed? || IsAuthRejection(response.status) then None else response.field
  }

  /** The client forgets its token exactly when the server turns the request away: when
      no token is stored (401) and when `jwt.verify` rejects the stored one (403). A
      token that verifies survives whatever the route itself answers. */
  lemma {:induction false} TokenKeptIffAccepted(
    storage: map<string, string>, verify: string -> Option<string>, routeStatus: int)
    requires routeStatus != 401 && routeStatus != 403
    requires StoredToken(storage).Some? ==> ' ' !in StoredToken(storage).value
    ensures var auth := ServerAuth.Authenticate(Some(HeadersFor(storage).authorization), verify);
            var after := StorageAfter<()>(storage, Answered(ServerAuth.GuardedStatus(auth, routeStatus), None));
            && (auth.Authenticated? <==> Truthy(StoredToken(storage)) && verify(storage[AUTH_TOKEN]).Some?)
            && (AUTH_TOKEN in after <==> auth.Authenticated?)
  {
    ServerReadsStoredToken(storage);
  }

  /** The `TicketManager` object together with the browser state its methods change:
      localStorage and the page location. */
  class TicketManager {
    var storage: map<string, string>
    var location: string

    constructor (storage: map<string, string>, location: string)
      ensures this.storage == storage && this.location == location
    {
      this.storage := storage;
      this.location := location;
    }

    /** `checkAuth()`: false and to the login page without a token; false after a thrown
        error; false, token and username removed, to the login page when /auth/check is
        not ok; true otherwise. */
    method CheckAuth(response: Response<bool>) returns (authenticated: bool)
      modifies this
      ensures authenticated <==> Truthy(old(StoredToken(storage))) && response.Answered? && IsOk(response.status)
      ensures !Truthy(old(StoredToken(storage))) ==> storage == old(storage) && location == LOGIN_PAGE
      ensures Truthy(old(StoredToken(storage))) && response.Failed? ==> unchanged(this)
      ensures Truthy(old(StoredToken(storage))) && response.Answered? && !IsOk(response.status) ==>
        storage == old(storage) - {AUTH_TOKEN, USERNAME} && location == LOGIN_PAGE
      ensures Truthy(old(StoredToken(storage))) && response.Answered? && IsOk(response.status) ==> unchanged(this)
    {
      if !Truthy(StoredToken(storage)) {
        location := LOGIN_PAGE;
        return false;
      }
      if response.Failed? {
        return false;
      }
      if !IsOk(response.status) {
        storage := storage - {AUTH_TOKEN};
        storage := storage - {USERNAME};
        location := LOGIN_PAGE;
        return false;
      }
      authenticated := true;
    }

    /** The branch every request shares: on a 401 or 403 drop the token and go to the login page. */
    method HandleRejection<T>(response: Response<T>) returns (rejected: bool)
      modifies this
      ensures rejected <==> response.Answered? && IsAuthRejection(response.status)
      ensures storage == StorageAfter(old(storage), response)
      ensures location == if rejected then LOGIN_PAGE else old(location)
    {
      rejected := response.Answered? && IsAuthRejection(response.status);
      if rejected {
        storage := storage - {AUTH_TOKEN};
        location := LOGIN_PAGE;
      }
    }

    /** `getTickets()`. */
    method GetTickets(response: Response<seq<Ticket>>) returns (tickets: Option<seq<Ticket>>)
      modifies this
      ensures tickets == ListResult(response)
      ensures storage == StorageAfter(old(storage), response)
      ensures location == if response.Answered? && IsAuthRejection(response.status) then LOGIN_PAGE else old(location)
    {
      var rejected := HandleRejection(response);
      if rejected || response.Failed? {
        return Some([]);
      }
      tickets := response.field;
    }

    /** `addTicket(ticket)`. */
    method AddTicket(response: Response<Ticket>) returns (created: Option<Ticket>)
      modifies this
      ensures created == ItemResult(response)
      ensures storage == StorageAfter(old(storage), response)
      ensures location == if response.Answered? && IsAuthRejection(response.status) then LOGIN_PAGE else old(location)
    {
      var rejected := HandleRejection(response);
      if rejected || response.Failed? {
        return None;
      }
      created := response.field;
    }

    /** `deleteTicket(id)`: `[]` when the DELETE is refused or throws; otherwise the list
        fetched afresh, not the old one patched. */
    method DeleteTicket(deleteResponse: Response<()>, listResponse: Response<seq<Ticket>>)
      returns (tickets: Option<seq<Ticket>>)
      modifies this
      ensures deleteResponse.Failed? ==> tickets == Some([]) && unchanged(this)
      ensures deleteResponse.Answered? && IsAuthRejection(deleteResponse.status) ==>
        tickets == Some([]) && storage == old(storage) - {AUTH_TOKEN} && location == LOGIN_PAGE
      ensures deleteResponse.Answered? && !IsAuthRejection(deleteResponse.status) ==>
        && tickets == ListResult(listResponse)
        && storage == StorageAfter(old(storage), listResponse)
        && location == if listResponse.Answered? && IsAuthRejection(listResponse.status) then LOGIN_PAGE else old(location)
    {
      tickets := Refetch(deleteResponse, listResponse);
    }

    /** `confirmTicket(id)`: as `deleteTicket`, for the PATCH that confirms. */
    method ConfirmTicket(confirmResponse: Response<()>, listResponse: Response<seq<Ticket>>)
      returns (tickets: Option<seq<Ticket>>)
      modifies this
      ensures confirmResponse.Failed? ==> tickets == Some([]) && unchanged(this)
      ensures confirmResponse.Answered? && IsAuthRejection(confirmResponse.status) ==>
        tickets == Some([]) && storage == old(storage) - {AUTH_TOKEN} && location == LOGIN_PAGE
      ensures confirmResponse.Answered? && !IsAuthRejection(confirmResponse.status) ==>
        && tickets == ListResult(listResponse)
        && storage == StorageAfter(old(storage), listResponse)
        && location == if listResponse.Answered? && IsAuthRejection(listResponse.status) then LOGIN_PAGE else old(location)
    {
      tickets := Refetch(confirmResponse, listResponse);
    }

    /** The shared body of `deleteTicket` and `confirmTicket`: check the write's
        response, then return `getTickets()`. */
    method Refetch(writeResponse: Response<()>, listResponse: Response<seq<Ticket>>)
      returns (tickets: Option<seq<Ticket>>)
      modifies this
      ensures writeResponse.Failed? ==> tickets == Some([]) && unchanged(this)
      ensures writeResponse.Answered? && IsAuthRejection(writeResponse.status) ==>
        tickets == Some([]) && storage == old(storage) - {AUTH_TOKEN} && location == LOGIN_PAGE
      ensures writeResponse.Answered? && !IsAuthRejection(writeResponse.status) ==>
        && tickets == ListResult(listResponse)
        && storage == StorageAfter(old(storage), listResponse)
        && location == if listResponse.Answered? && IsAuthRejection(listResponse.status) then LOGIN_PAGE else old(location)
    {
      if writeResponse.Failed? {
        return Some([]);
      }
      var rejected := HandleRejection(writeResponse);
      if rejected {
        return Some([]);
      }
      tickets := GetTickets(listResponse);
    }

    /** `getQRCode(id)`. */
    method GetQrCode(response: Response<string>) returns (qrCode: Option<string>)
      modifies this
      ensures qrCode == ItemResult(response)
      ensures storage == StorageAfter(old(storage), response)
      ensures location == if response.Answered? && IsAuthRejection(response.status) then LOGIN_PAGE else old(location)
    {
      var rejected := HandleRejection(response);
      if rejected || response.Failed? {
        return None;
      }
      qrCode := response.field;
    }

    /** `logout()`: forget token and username, go to the login page. */
    method Logout()
      modifies this
      ensures storage == old(storage) - {AUTH_TOKEN, USERNAME} && location == LOGIN_PAGE
    {
      storage := storage - {AUTH_TOKEN};
      storage := storage - {USERNAME};
      location := LOGIN_PAGE;
    }
  }
}
