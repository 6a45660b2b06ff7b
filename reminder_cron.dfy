/**
 The scheduled reminders handler. It signs in once, then for each configured
 client in turn: fetches the reminder-eligible bookings, groups them by id,
 dispatches one message per group, and marks every fetched booking as sent.
 A client that fails is recorded in the outcome map and the next client still
 runs. The handler answers 200 once sign-in has succeeded, and 500 when
 sign-in fails.

 The network is a parameter: what each client's fetch returns, whether its
 dispatches settle, and whether the mark-sent call goes through. An
 authenticated request contributes the request record that would be sent.
 */
module ReminderCron {
  import opened Results
  import opened Auth
  import opened BookingMap

  /** The fixed list of clients the job checks, in processing order. */
  const Clients: seq<string> := ["THEEDTR", "THEEDSA"]

  const ApiRoot: string := "https://editorapp-be.fly.dev/api/"

  function RemindersUrl(client: string): string
  {
    ApiRoot + client + "/bookings/remindersAvailable"
  }

  function MarkSentUrl(client: string): string
  {
    ApiRoot + client + "/bookings/updateReminderSent"
  }

  /** Both endpoints are absolute, so the service's base URL never changes them. */
  lemma CronUrlsAreAbsolute(baseUrl: string, client: string)
    ensures ResolveUrl(baseUrl, RemindersUrl(client)) == RemindersUrl(client)
    ensures ResolveUrl(baseUrl, MarkSentUrl(client)) == MarkSentUrl(client)
  {
    assert RemindersUrl(client)[..4] == ApiRoot[..4];
    assert MarkSentUrl(client)[..4] == ApiRoot[..4];
  }

  // ---------------------------------------------------------------------------
  // Per-client data and network

  /** `response.data` of the fetch: a falsy value, a booking array, or a truthy
      value that is not an array (for example the whole JSON envelope). */
  datatype FetchData = Falsy | BookingArray(bookings: seq<Booking>) | NotAList

  /** The TypeError thrown by `bookingList.forEach` on a non-array. */
  const ForEachError: string := "bookingList.forEach is not a function"

  /** `response.data || []`, followed by the `forEach` that needs an array. */
  function BookingListOf(data: FetchData): (list: Result<seq<Booking>>)
    ensures data.Falsy? ==> list == Ok([])
    ensures data.BookingArray? ==> list == Ok(data.bookings)
    ensures data.NotAList? ==> list == Err(ForEachError)
  {
    match data
    case Falsy => Ok([])
    case BookingArray(bookings) => Ok(bookings)
    case NotAList => Err(ForEachError)
  }

  /** What the network does for one client. `fetch` is the reply to the GET (a
      transport failure is `Err`; the status is not inspected); `dispatch` is how
      the `Promise.all` over the group dispatches settles when there is at least
      one group; `markSent` is how the mark-sent POST settles (its reply is not
      inspected either). */
  datatype ClientNetwork = ClientNetwork(fetch: Result<FetchData>, dispatch: Outcome, markSent: Outcome)

  /** The body of the mark-sent POST. */
  datatype Body = MarkSentBody(bookingList: seq<int>)

  /** `bookingList.map(x => x.id)`. */
  function MarkSentIds(bookings: seq<Booking>): (ids: seq<int>)
    ensures |ids| == |bookings|
  {
    if bookings == [] then [] else [bookings[0].id] + MarkSentIds(bookings[1..])
  }

  /** The mark-sent list keeps the fetched order: its `i`-th id is that of the
      `i`-th fetched booking. */
  lemma {:induction false} MarkSentIdsAt(bookings: seq<Booking>, i: nat)
    requires i < |bookings|
    ensures MarkSentIds(bookings)[i] == bookings[i].id
  {
    if i > 0 {
      MarkSentIdsAt(bookings[1..], i - 1);
    }
  }

  /** The mark-sent list holds every fetched id, duplicates included: an id
      occurs in it once per booking of that id's group. */
  lemma {:induction false} MarkSentIdsCountGroup(bookings: seq<Booking>, key: int)
    ensures multiset(MarkSentIds(bookings))[key] == |WithId(bookings, key)|
  {
    if bookings != [] {
      var rest := bookings[1..];
      MarkSentIdsCountGroup(rest, key);
      assert multiset(MarkSentIds(bookings)) == multiset([bookings[0].id]) + multiset(MarkSentIds(rest));
    }
  }

  /** The ids in the mark-sent list are exactly the keys of `bookingMap`. */
  lemma MarkSentIdsAreGroupKeys(bookings: seq<Booking>, key: int)
    ensures key in MarkSentIds(bookings) <==> key in Ids(bookings)
  {
    MarkSentIdsCountGroup(bookings, key);
    WithIdNonEmpty(bookings, key);
    assert key in MarkSentIds(bookings) <==> key in multiset(MarkSentIds(bookings));
  }

  function FetchRequest(token: string, client: string): Request<Body>
  {
    Request(RemindersUrl(client), Some("GET"), AuthHeaders(token), None)
  }

  function MarkSentRequest(token: string, client: string, bookings: seq<Booking>): Request<Body>
  {
    Request(MarkSentUrl(client), Some("POST"), AuthHeaders(token), Some(MarkSentBody(MarkSentIds(bookings))))
  }

  /** The message the per-client `catch` records, or `None` when the client's
      whole sequence completes. */
  function ClientFailure(net: ClientNetwork): (failure: Option<string>)
    ensures failure.None? <==>
      && net.fetch.Ok?
      && BookingListOf(net.fetch.value).Ok?
      && (BookingListOf(net.fetch.value).value == [] || net.dispatch.Pass?)
      && net.markSent.Pass?
    ensures net.fetch.Err? ==> failure == Some(net.fetch.message)
    ensures net.fetch.Ok? && net.fetch.value.NotAList? ==> failure == Some(ForEachError)
    ensures (net.fetch.Ok? && BookingListOf(net.fetch.value).Ok? && BookingListOf(net.fetch.value).value != [] &&
             net.dispatch.Fail?) ==> failure == Some(net.dispatch.message)
    ensures (net.fetch.Ok? && BookingListOf(net.fetch.value).Ok? &&
             (BookingListOf(net.fetch.value).value == [] || net.dispatch.Pass?) &&
             net.markSent.Fail?) ==> failure == Some(net.markSent.message)
  {
    match net.fetch
    case Err(m) => Some(m)
    case Ok(data) =>
      match BookingListOf(data)
      case Err(m) => Some(m)
      case Ok(bookings) =>
        IdsEmpty(bookings);
        // One dispatch promise per group; `Promise.all([])` resolves.
        if |Ids(bookings)| > 0 && net.dispatch.Fail? then Some(net.dispatch.message)
        else if net.markSent.Fail? then Some(net.markSent.message)
        else None
  }

  /** The requests one client issues: always the fetch, then the mark-sent POST
      with every fetched id once the fetched list is usable and dispatch settled. */
  function ClientRequests(token: string, client: string, net: ClientNetwork): (requests: seq<Request<Body>>)
    ensures 1 <= |requests| <= 2 && requests[0] == FetchRequest(token, client)
    ensures forall r | r in requests :: r.headers == AuthHeaders(token)
    ensures |requests| == 2 ==>
      net.fetch.Ok? && BookingListOf(net.fetch.value).Ok? &&
      requests[1] == MarkSentRequest(token, client, BookingListOf(net.fetch.value).value)
    ensures |requests| == 2 <==>
      && net.fetch.Ok?
      && BookingListOf(net.fetch.value).Ok?
      && (BookingListOf(net.fetch.value).value == [] || net.dispatch.Pass?)
    ensures ClientFailure(net).None? ==> |requests| == 2
  {
    [FetchRequest(token, client)] +
    match net.fetch
    case Err(_) => []
    case Ok(data) =>
      match BookingListOf(data)
      case Err(_) => []
      case Ok(bookings) =>
        IdsEmpty(bookings);
        if |Ids(bookings)| > 0 && net.dispatch.Fail? then []
        else [MarkSentRequest(token, client, bookings)]
  }

  /** An empty fetch (a falsy `response.data` or an empty array) creates no
      group and so no dispatch; the mark-sent POST still goes out, with an empty
      id list, and only its own failure can fail the client. */
  lemma EmptyFetch(token: string, client: string, net: ClientNetwork)
    requires net.fetch.Ok? && (net.fetch.value.Falsy? || net.fetch.value == BookingArray([]))
    ensures Ids(BookingListOf(net.fetch.value).value) == {}
    ensures ClientRequests(token, client, net) ==
      [FetchRequest(token, client), Request(MarkSentUrl(client), Some("POST"), AuthHeaders(token), Some(MarkSentBody([])))]
    ensures ClientFailure(net) == if net.markSent.Fail? then Some(net.markSent.message) else None
  {
  }

  /** One iteration of the client loop; the token was cached by the earlier
      sign-in, so the authenticated requests never sign in again. */
  method ProcessClient(api: AuthService, client: string, net: ClientNetwork, signIn: Result<SignInReply>)
    returns (failure: Option<string>, issued: seq<Request<Body>>)
    requires api.HasToken()
    modifies api
    ensures api.accessToken == old(api.accessToken)
    ensures failure == ClientFailure(net)
    ensures issued == ClientRequests(old(api.accessToken).value, client, net)
  {
    CronUrlsAreAbsolute(api.baseUrl, client);
    var fetchRequest := api.AuthenticatedRequest(RemindersUrl(client), RequestOptions(Some("GET"), None, None), signIn);
    issued := [fetchRequest.value];
    match net.fetch {
      case Err(m) =>
        failure := Some(m);
      case Ok(data) =>
        var bookingList := BookingListOf(data);
        if bookingList.Err? {
          failure := Some(bookingList.message);
        } else {
          var bookingMap := GroupById(bookingList.value);
          if |bookingMap| > 0 && net.dispatch.Fail? {
            failure := Some(net.dispatch.message);
          } else {
            var options := RequestOptions(Some("POST"), None, Some(MarkSentBody(MarkSentIds(bookingList.value))));
            var markRequest := api.AuthenticatedRequest(MarkSentUrl(client), options, signIn);
            issued := issued + [markRequest.value];
            failure := if net.markSent.Fail? then Some(net.markSent.message) else None;
          }
        }
    }
  }

  // ---------------------------------------------------------------------------
  // The client loop and the response

  /** One entry of `remindersData`; only failing clients get one. */
  datatype ClientOutcome = ClientOutcome(success: bool, error: string)

  /** `remindersData` after the loop has run over `clients`. */
  function FailuresOf(clients: seq<string>, net: string -> ClientNetwork): (reminders: map<string, ClientOutcome>)
    ensures forall c :: c in reminders <==> c in clients && ClientFailure(net(c)).Some?
    ensures forall c | c in reminders :: reminders[c] == ClientOutcome(false, ClientFailure(net(c)).value)
  {
    if clients == [] then map[]
    else
      var last := clients[|clients| - 1];
      var earlier := FailuresOf(clients[..|clients| - 1], net);
      assert clients == clients[..|clients| - 1] + [last];
      match ClientFailure(net(last))
      case Some(e) => earlier[last := ClientOutcome(false, e)]
      case None => earlier
  }

  /** All requests issued by the loop over `clients`, in order. */
  function LoopRequests(token: string, clients: seq<string>, net: string -> ClientNetwork): (requests: seq<Request<Body>>)
    ensures forall r | r in requests :: r.headers == AuthHeaders(token)
    ensures forall c | c in clients :: FetchRequest(token, c) in requests
  {
    if clients == [] then []
    else
      var last := clients[|clients| - 1];
      assert clients == clients[..|clients| - 1] + [last];
      LoopRequests(token, clients[..|clients| - 1], net) + ClientRequests(token, last, net(last))
  }

  /** One more iteration of the loop extends both the outcome map and the
      request log by that client's entry and requests. */
  lemma LoopStep(token: string, clients: seq<string>, i: nat, net: string -> ClientNetwork)
    requires i < |clients|
    ensures FailuresOf(clients[..i + 1], net) ==
      match ClientFailure(net(clients[i]))
      case Some(e) => FailuresOf(clients[..i], net)[clients[i] := ClientOutcome(false, e)]
      case None => FailuresOf(clients[..i], net)
    ensures LoopRequests(token, clients[..i + 1], net) ==
      LoopRequests(token, clients[..i], net) + ClientRequests(token, clients[i], net(clients[i]))
  {
    assert clients[..i + 1][..i] == clients[..i];
  }

  /** Either failure of one client leaves the other clients' entries alone:
      the entry of `c` depends only on what the network did for `c`. */
  lemma FailureIsolation(net1: string -> ClientNetwork, net2: string -> ClientNetwork, c: string)
    requires net1(c) == net2(c)
    ensures c in FailuresOf(Clients, net1) <==> c in FailuresOf(Clients, net2)
    ensures c in FailuresOf(Clients, net1) ==> FailuresOf(Clients, net1)[c] == FailuresOf(Clients, net2)[c]
  {
  }

  const ResponseHeaders: map<string, string> :=
    map["Content-Type" := "application/json", "Access-Control-Allow-Origin" := "*"]

  /** The JSON body before `JSON.stringify`; absent keys are `None`. */
  datatype ResponseBody = ResponseBody(
    message: string,
    timestamp: string,
    authenticated: bool,
    error: Option<string>,
    clients: seq<string>,
    reminders: Option<map<string, ClientOutcome>>)

  datatype Envelope = Envelope(statusCode: int, headers: map<string, string>, body: ResponseBody)

  function OkEnvelope(timestamp: string, reminders: map<string, ClientOutcome>): Envelope
  {
    Envelope(200, ResponseHeaders, ResponseBody("ok", timestamp, true, None, Clients, Some(reminders)))
  }

  function ErrorEnvelope(timestamp: string, error: string): Envelope
  {
    Envelope(500, ResponseHeaders, ResponseBody("error", timestamp, false, Some(error), Clients, None))
  }

  /** The handler's answer for a sign-in reply and a network. */
  function HandlerResponse(signIn: Result<SignInReply>, net: string -> ClientNetwork, timestamp: string): (response: Envelope)
    ensures response.statusCode == 200 <==> SignInResult(signIn).Ok?
    ensures response.statusCode == 500 <==> SignInResult(signIn).Err?
    ensures response.headers == ResponseHeaders && response.body.clients == Clients
    ensures response.body.timestamp == timestamp
    ensures response.statusCode == 500 ==>
      && response.body.message == "error"
      && !response.body.authenticated
      && response.body.error == Some(SignInResult(signIn).message)
      && response.body.reminders.None?
    ensures response.statusCode == 200 ==>
      && response.body.message == "ok"
      && response.body.authenticated
      && response.body.error.None?
      && response.body.reminders.Some?
      && (forall c :: c in response.body.reminders.value <==> c in Clients && ClientFailure(net(c)).Some?)
      && (forall c | c in response.body.reminders.value ::
            response.body.reminders.value[c] == ClientOutcome(false, ClientFailure(net(c)).value))
  {
    match SignInResult(signIn)
    case Err(m) => ErrorEnvelope(timestamp, m)
    case Ok(_) => OkEnvelope(timestamp, FailuresOf(Clients, net))
  }

  /** A failing client never turns the answer into an error: with a valid
      sign-in the status is 200 and the message "ok" whatever the network did. */
  lemma OkDespiteClientFailures(signIn: Result<SignInReply>, net: string -> ClientNetwork, timestamp: string)
    requires SignInResult(signIn).Ok?
    ensures HandlerResponse(signIn, net, timestamp).statusCode == 200
    ensures HandlerResponse(signIn, net, timestamp).body.message == "ok"
  {
  }

  /** The `for...of` loop over the clients, with the token already cached. */
  method RunClientLoop(api: AuthService, signIn: Result<SignInReply>, net: string -> ClientNetwork)
    returns (remindersData: map<string, ClientOutcome>, issued: seq<Request<Body>>)
    requires api.HasToken()
    modifies api
    ensures api.accessToken == old(api.accessToken)
    ensures remindersData == FailuresOf(Clients, net)
    ensures issued == LoopRequests(old(api.accessToken).value, Clients, net)
  {
    ghost var token := api.accessToken.value;
    remindersData := map[];
    issued := [];
    for i := 0 to |Clients|
      invariant api.accessToken == old(api.accessToken) && api.HasToken()
      invariant remindersData == FailuresOf(Clients[..i], net)
      invariant issued == LoopRequests(token, Clients[..i], net)
    {
      var client := Clients[i];
      LoopStep(token, Clients, i, net);
      var failure, sent := ProcessClient(api, client, net(client), signIn);
      if failure.Some? {
        remindersData := remindersData[client := ClientOutcome(false, failure.value)];
      }
      issued := issued + sent;
    }
    assert Clients[..|Clients|] == Clients;
  }

  /** The handler: sign in (a failure is the only way to reach the outer
      `catch`), then run every client, recording failures. `issued` lists the
      requests sent to the booking service, in order; with a failed sign-in no
      client is processed. */
  method Handler(envBaseUrl: string, signIn: Result<SignInReply>, net: string -> ClientNetwork, timestamp: string)
    returns (response: Envelope, issued: seq<Request<Body>>)
    ensures response == HandlerResponse(signIn, net, timestamp)
    ensures SignInResult(signIn).Err? ==> issued == []
    ensures SignInResult(signIn).Ok? ==> issued == LoopRequests(SignInResult(signIn).value, Clients, net)
  {
    var api := new AuthService(envBaseUrl);
    var accessToken := api.SignIn(signIn);
    if accessToken.Err? {
      response := ErrorEnvelope(timestamp, accessToken.message);
      issued := [];
      return;
    }
    var remindersData;
    remindersData, issued := RunClientLoop(api, signIn, net);
    response := OkEnvelope(timestamp, remindersData);
  }
}
