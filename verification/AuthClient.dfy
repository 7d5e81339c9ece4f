/**
 `obsclient.Client` as the source writes it: one field, and one method per Go function.  Each
 method is proved against a function on the client's world (its token and the wire log), and
 those functions are shown to be AuthProtocol's atomic actions.
 */
module AuthClient {
  import opened Collections
  import P = AuthProtocol

  type Token = P.Token

  datatype Request = LoginRequest | LogoutRequest(token: Token) | DataRequest(url: string, token: Token)

  /** `Failed` is every outcome of `http.Client.Do` without a response. */
  datatype Response = Failed | Response(status: int, authHeader: string, body: string)

  datatype Exchange = Exchange(request: Request, response: Response)

  datatype Error =
    | Transport
    | BadStatus(status: int)
    | NoTokenHeader
    | BadBody
    | ReloginFailed(cause: Error)
    | EmptyTarget

  datatype Result<+T> = Ok(value: T) | Err(error: Error)

  /** A server and the network before it; its answer may depend on everything said so far. */
  type Network = (seq<Exchange>, Request) -> Response

  class Wire {
    const answer: Network
    var log: seq<Exchange>

    constructor (answer: Network)
      ensures this.answer == answer && log == []
    {
      this.answer := answer;
      log := [];
    }

    method Send(request: Request) returns (response: Response)
      modifies this
      ensures response == answer(old(log), request)
      ensures log == old(log) + [Exchange(request, response)]
    {
      response := answer(log, request);
      log := log + [Exchange(request, response)];
    }
  }

  // ---------------------------------------------------------------- specification

  datatype World = World(token: Token, log: seq<Exchange>)

  function Said(net: Network, log: seq<Exchange>, request: Request): seq<Exchange> {
    log + [Exchange(request, net(log, request))]
  }

  /** What a `/login` response gives: the token to store, or why there is none. */
  function Grant(response: Response): Result<Token> {
    if response.Failed? then Err(Transport)
    else if response.status != P.OK then Err(BadStatus(response.status))
    else if response.authHeader == "" then Err(NoTokenHeader)
    else Ok(response.authHeader)
  }

  function LoginStep(net: Network, w: World): (World, Result<()>) {
    var log := Said(net, w.log, LoginRequest);
    match Grant(net(w.log, LoginRequest))
    case Ok(token) => (World(token, log), Ok(()))
    case Err(e) => (World(w.token, log), Err(e))
  }

  function EnsureStep(net: Network, w: World): (World, Result<Token>) {
    if w.token != "" then (w, Ok(w.token))
    else
      var (w', r) := LoginStep(net, w);
      (w', if r.Ok? then Ok(w'.token) else Err(r.error))
  }

  function InvalidateStep(w: World, stale: Token): World {
    if w.token == stale then World("", w.log) else w
  }

  function LogoutStep(net: Network, w: World): (World, Result<()>) {
    if w.token == "" then (w, Ok(()))
    else
      var request := LogoutRequest(w.token);
      var response, log := net(w.log, request), Said(net, w.log, request);
      if response.Failed? then (World(w.token, log), Err(Transport))
      else if response.status == P.OK || response.status == P.UNAUTHORIZED then (World("", log), Ok(()))
      else (World("", log), Err(BadStatus(response.status)))
  }

  function DataStep(net: Network, w: World, url: string, token: Token): (World, Response) {
    var request := DataRequest(url, token);
    (World(w.token, Said(net, w.log, request)), net(w.log, request))
  }

  function Verdict(response: Response): Result<string> {
    if response.Failed? then Err(Transport)
    else if response.status != P.OK then Err(BadStatus(response.status))
    else Ok(response.body)
  }

  function Is401(response: Response): bool { response.Response? && response.status == P.UNAUTHORIZED }

  /** After a 401 on `token`: invalidate, log in again, send once more. */
  function RetryStep(net: Network, w: World, url: string, token: Token): (World, Result<string>) {
    var (w', r) := EnsureStep(net, InvalidateStep(w, token));
    if r.Err? then (w', Err(ReloginFailed(r.error)))
    else
      var (w'', retried) := DataStep(net, w', url, r.value);
      (w'', Verdict(retried))
  }

  /** `callAuthenticatedJSON` run alone, up to the body it gets. */
  function CallStep(net: Network, w: World, url: string): (World, Result<string>) {
    var (w', r) := EnsureStep(net, w);
    if r.Err? then (w', Err(r.error))
    else
      var (w'', response) := DataStep(net, w', url, r.value);
      if Is401(response) then RetryStep(net, w'', url, r.value) else (w'', Verdict(response))
  }

  /** And with the body decoded into `out`, which may fail; into a nil `out` every body decodes. */
  function DecodedCallStep(net: Network, w: World, url: string, decodes: string -> bool): (World, Result<string>) {
    var (w', r) := CallStep(net, w, url);
    (w', if r.Ok? && !decodes(r.value) then Err(BadBody) else r)
  }

  // ---------------------------------------------------------------- the class

  class Client {
    const target: string
    const wire: Wire
    var authToken: Token

    constructor (target: string, wire: Wire)
      ensures this.target == target && this.wire == wire && authToken == ""
    {
      this.target, this.wire, authToken := target, wire, "";
    }

    function Now(): World
      reads this, wire
    {
      World(authToken, wire.log)
    }

    method Login() returns (r: Result<()>)
      modifies this, wire
      ensures (Now(), r) == LoginStep(wire.answer, old(Now()))
    {
      var response := wire.Send(LoginRequest);
      if response.Failed? { return Err(Transport); }
      if response.status != P.OK { return Err(BadStatus(response.status)); }
      var token := response.authHeader;
      if token == "" { return Err(NoTokenHeader); }
      authToken := token;
      return Ok(());
    }

    method Logout() returns (r: Result<()>)
      modifies this, wire
      ensures (Now(), r) == LogoutStep(wire.answer, old(Now()))
    {
      if authToken == "" { return Ok(()); }
      var response := wire.Send(LogoutRequest(authToken));
      if response.Failed? { return Err(Transport); }
      authToken := "";
      if response.status == P.OK || response.status == P.UNAUTHORIZED { return Ok(()); }
      return Err(BadStatus(response.status));
    }

    method EnsureLoggedIn() returns (r: Result<Token>)
      modifies this, wire
      ensures (Now(), r) == EnsureStep(wire.answer, old(Now()))
    {
      if authToken == "" {
        var login := Login();
        if login.Err? { return Err(login.error); }
      }
      return Ok(authToken);
    }

    method InvalidateToken(stale: Token)
      modifies this
      ensures Now() == InvalidateStep(old(Now()), stale)
    {
      if authToken == stale {
        authToken := "";
      }
    }

    method CallAuthenticatedJSON(url: string, decodes: string -> bool) returns (r: Result<string>)
      modifies this, wire
      ensures (Now(), r) == DecodedCallStep(wire.answer, old(Now()), url, decodes)
    {
      var token := EnsureLoggedIn();
      if token.Err? { return Err(token.error); }
      var response := wire.Send(DataRequest(url, token.value));
      if response.Failed? { return Err(Transport); }
      if response.status == P.UNAUTHORIZED {
        InvalidateToken(token.value);
        token := EnsureLoggedIn();
        if token.Err? { return Err(ReloginFailed(token.error)); }
        response := wire.Send(DataRequest(url, token.value));
        if response.Failed? { return Err(Transport); }
      }
      if response.status != P.OK { return Err(BadStatus(response.status)); }
      if !decodes(response.body) { return Err(BadBody); }
      return Ok(response.body);
    }
  }

  // ---------------------------------------------------------------- the methods are the protocol's actions

  function ReplyOf(grant: Result<Token>): P.LoginReply {
    if grant.Ok? then P.Granted(grant.value) else P.Refused(None)
  }

  function LogoutReplyOf(response: Response): P.LogoutReply {
    if response.Failed? then P.NoAnswer(false)
    else P.Answer(response.status, response.status == P.OK || response.status == P.UNAUTHORIZED)
  }

  function DataReplyOf(response: Response): P.DataReply {
    if response.Failed? then P.Lost else P.Status(response.status)
  }

  /** `Login`, `Logout` and `invalidateToken` change the field exactly as the protocol's actions do,
      and the protocol's ledger books what they did: a login that succeeded, a logout that got a
      response, a clear that found the stale token. */
  lemma AuthStepsAreActions(net: Network, w: World, s: P.State)
    requires s.client.token == w.token
    ensures var login := P.Login(ReplyOf(Grant(net(w.log, LoginRequest))));
            var (w', r) := LoginStep(net, w);
            && P.Enabled(s, login)
            && var after := P.Apply(s, login).client;
               && after.token == w'.token
               && after.tally.logins == s.client.tally.logins + (if r.Ok? then 1 else 0)
    ensures var logout := P.Logout(LogoutReplyOf(net(w.log, LogoutRequest(w.token))));
            var (w', r) := LogoutStep(net, w);
            && P.Enabled(s, logout)
            && var after := P.Apply(s, logout).client;
               && after.token == w'.token
               && after.tally.logouts ==
                   s.client.tally.logouts + (if w.token != "" && r != Err(Transport) then 1 else 0)
    ensures forall id, stale :: id in s.client.calls && s.client.calls[id].pc == P.Rejected(stale) ==>
              && P.Enabled(s, P.Invalidate(id))
              && var after := P.Apply(s, P.Invalidate(id)).client;
                 && after.token == InvalidateStep(w, stale).token
                 && after.tally.cleared == s.client.tally.cleared + (if w.token == stale then [stale] else [])
  {
  }

  /** The protocol goes from s to s' by these actions, all of them call `id`'s own. */
  ghost predicate Leads(s: P.State, acts: seq<P.Action>, s': P.State, id: P.CallId)
    decreases |acts|
  {
    if acts == [] then s' == s
    else
      && P.Enabled(s, acts[0]) && P.Actor(acts[0]) == Some(id)
      && Leads(P.Apply(s, acts[0]), acts[1..], s', id)
  }

  lemma LeadsOne(s: P.State, a: P.Action, s': P.State, id: P.CallId)
    requires P.Enabled(s, a) && P.Actor(a) == Some(id) && s' == P.Apply(s, a)
    ensures Leads(s, [a], s', id)
  {
    assert Leads(s', [a][1..], s', id);
  }

  lemma {:induction false} LeadsOn(s: P.State, acts: seq<P.Action>, s': P.State, more: seq<P.Action>, s'': P.State,
      id: P.CallId)
    requires Leads(s, acts, s', id) && Leads(s', more, s'', id)
    ensures Leads(s, acts + more, s'', id)
    decreases |acts|
  {
    if acts == [] {
      assert acts + more == more;
    } else {
      assert (acts + more)[1..] == acts[1..] + more;
      LeadsOn(P.Apply(s, acts[0]), acts[1..], s', more, s'', id);
    }
  }

  /** The call's own counters and the wire log agree on what has been sent since `log`. */
  ghost predicate Agrees(s: P.State, id: P.CallId, pc: P.Pc, w: World, log: seq<Exchange>) {
    && s.client.token == w.token
    && id in s.client.calls && s.client.calls[id].pc == pc && P.CallOk(s.client.calls[id])
    && DataRequests(w.log) == DataRequests(log) + s.client.calls[id].requests
    && Logins(w.log) == Logins(log) + s.client.calls[id].loginTries
  }

  function EnsuredPc(pc: P.Pc, r: Result<Token>): P.Pc { P.EnsuredPc(pc, if r.Ok? then r.value else "") }

  lemma EnsureAgrees(net: Network, w: World, s: P.State, id: P.CallId, pc: P.Pc, log: seq<Exchange>)
    requires Agrees(s, id, pc, w, log) && (pc.Starting? || pc.Retrying?)
    ensures var (w', r) := EnsureStep(net, w);
            Agrees(P.ApplyEnsure(s, id, ReplyOf(Grant(net(w.log, LoginRequest)))), id, EnsuredPc(pc, r), w', log)
  {
    CountersOnSaid(net, w.log, LoginRequest);
  }

  lemma EnsureIsAction(net: Network, w: World, s: P.State, id: P.CallId, pc: P.Pc, log: seq<Exchange>)
    returns (acts: seq<P.Action>, s': P.State)
    requires Agrees(s, id, pc, w, log) && (pc.Starting? || pc.Retrying?)
    ensures var (w', r) := EnsureStep(net, w);
            && Leads(s, acts, s', id)
            && Agrees(s', id, EnsuredPc(pc, r), w', log)
            && (r.Ok? ==> r.value != "" && w'.token == r.value)
  {
    var ensure := P.Ensure(id, ReplyOf(Grant(net(w.log, LoginRequest))));
    EnsureAgrees(net, w, s, id, pc, log);
    acts, s' := [ensure], P.ApplyEnsure(s, id, ensure.reply);
    LeadsOne(s, ensure, s', id);
  }

  lemma DataIsAction(net: Network, w: World, s: P.State, id: P.CallId, pc: P.Pc, log: seq<Exchange>, url: string)
    returns (acts: seq<P.Action>, s': P.State)
    requires Agrees(s, id, pc, w, log) && (pc.Sending? || pc.Resending?)
    ensures var (w', response) := DataStep(net, w, url, pc.token);
            && Leads(s, acts, s', id)
            && Agrees(s', id, P.AfterData(pc, DataReplyOf(response)), w', log)
  {
    CountersOnSaid(net, w.log, DataRequest(url, pc.token));
    var data := P.Data(id, DataReplyOf(net(w.log, DataRequest(url, pc.token))));
    acts, s' := [data], P.ApplyData(s, id, data.data);
    LeadsOne(s, data, s', id);
  }

  lemma InvalidateIsAction(w: World, s: P.State, id: P.CallId, token: Token, log: seq<Exchange>)
    returns (acts: seq<P.Action>, s': P.State)
    requires Agrees(s, id, P.Rejected(token), w, log)
    ensures Leads(s, acts, s', id) && Agrees(s', id, P.Retrying(token), InvalidateStep(w, token), log)
  {
    acts, s' := [P.Invalidate(id)], P.ApplyInvalidate(s, id);
    LeadsOne(s, acts[0], s', id);
  }

  lemma RetryIsProtocolRun(net: Network, w: World, url: string, s: P.State, id: P.CallId, token: Token,
      log: seq<Exchange>)
    returns (acts: seq<P.Action>, s': P.State)
    requires Agrees(s, id, P.Rejected(token), w, log)
    ensures Leads(s, acts, s', id) && Agrees(s', id, P.Finished, RetryStep(net, w, url, token).0, log)
  {
    acts, s' := InvalidateIsAction(w, s, id, token, log);
    var w1 := InvalidateStep(w, token);
    var more, s2 := EnsureIsAction(net, w1, s', id, P.Retrying(token), log);
    LeadsOn(s, acts, s', more, s2, id);
    acts, s' := acts + more, s2;
    var (w2, r) := EnsureStep(net, w1);
    if r.Ok? {
      more, s2 := DataIsAction(net, w2, s', id, P.Resending(token, r.value), log, url);
      LeadsOn(s, acts, s', more, s2, id);
      acts, s' := acts + more, s2;
    }
  }

  lemma SendIsProtocolRun(net: Network, w: World, url: string, s: P.State, id: P.CallId, token: Token,
      log: seq<Exchange>)
    returns (acts: seq<P.Action>, s': P.State)
    requires Agrees(s, id, P.Sending(token), w, log)
    ensures Leads(s, acts, s', id)
    ensures var (w', response) := DataStep(net, w, url, token);
            Agrees(s', id, P.Finished, if Is401(response) then RetryStep(net, w', url, token).0 else w', log)
  {
    acts, s' := DataIsAction(net, w, s, id, P.Sending(token), log, url);
    var (w', response) := DataStep(net, w, url, token);
    if Is401(response) {
      var more, s2 := RetryIsProtocolRun(net, w', url, s', id, token, log);
      LeadsOn(s, acts, s', more, s2, id);
      acts, s' := acts + more, s2;
    }
  }

  /** `callAuthenticatedJSON` run alone is a run of the protocol by one call, from `Starting` to
      `Finished`, with the same token at the end and the same number of requests and logins. */
  lemma CallIsProtocolRun(net: Network, w: World, url: string, s: P.State, id: P.CallId)
    returns (acts: seq<P.Action>, s': P.State)
    requires s.client.token == w.token && id in s.client.calls && s.client.calls[id] == P.Call(P.Starting, 0, 0)
    ensures Leads(s, acts, s', id) && Agrees(s', id, P.Finished, CallStep(net, w, url).0, w.log)
  {
    acts, s' := EnsureIsAction(net, w, s, id, P.Starting, w.log);
    var (w', r) := EnsureStep(net, w);
    if r.Ok? {
      var more, s2 := SendIsProtocolRun(net, w', url, s', id, r.value, w.log);
      LeadsOn(s, acts, s', more, s2, id);
      acts, s' := acts + more, s2;
    }
  }

  // ---------------------------------------------------------------- counting

  function DataRequests(log: seq<Exchange>): nat {
    if log == [] then 0
    else DataRequests(log[..|log| - 1]) + (if log[|log| - 1].request.DataRequest? then 1 else 0)
  }

  function Logins(log: seq<Exchange>): nat {
    if log == [] then 0
    else Logins(log[..|log| - 1]) + (if log[|log| - 1].request.LoginRequest? then 1 else 0)
  }

  lemma CountersOnSaid(net: Network, log: seq<Exchange>, request: Request)
    ensures DataRequests(Said(net, log, request)) == DataRequests(log) + (if request.DataRequest? then 1 else 0)
    ensures Logins(Said(net, log, request)) == Logins(log) + (if request.LoginRequest? then 1 else 0)
  {
    var said := Said(net, log, request);
    assert said[..|said| - 1] == log;
  }

  /** Whatever the server answers, one call sends at most two data requests and two logins. */
  lemma CallIsBounded(net: Network, w: World, url: string)
    ensures DataRequests(CallStep(net, w, url).0.log) <= DataRequests(w.log) + 2
    ensures Logins(CallStep(net, w, url).0.log) <= Logins(w.log) + 2
  {
    var client := P.Client(w.token, map[0 := P.Call(P.Starting, 0, 0)], P.Tally(0, 0, 0, [], {}, {}));
    var acts, s' := CallIsProtocolRun(net, w, url, P.State(client, P.Server({}, {})), 0);
  }

  /** A call succeeds exactly when its last exchange is a data request answered 200 with a body that
      decodes, and then it returns that body. */
  lemma CallVerdict(net: Network, w: World, url: string, decodes: string -> bool)
    ensures var (w', r) := DecodedCallStep(net, w, url, decodes);
            && w.log <= w'.log
            && (r.Ok? <==> |w'.log| > |w.log| && var last := w'.log[|w'.log| - 1];
                           && last.request.DataRequest? && last.response.Response?
                           && last.response.status == 200 && decodes(last.response.body))
            && (r.Ok? ==> r.value == w'.log[|w'.log| - 1].response.body)
  {
  }

  // ---------------------------------------------------------------- what is said on the wire

  /** `/login`: one request; a token is stored exactly from a 200 with a non-empty header, and is then
      that header; otherwise the old one stays, and the error says what was wrong. */
  lemma LoginVerdict(net: Network, w: World)
    ensures var (w', r) := LoginStep(net, w);
            var response := net(w.log, LoginRequest);
            && w'.log == w.log + [Exchange(LoginRequest, response)]
            && (r.Ok? <==> response.Response? && response.status == 200 && response.authHeader != "")
            && w'.token == (if r.Ok? then response.authHeader else w.token)
            && (response.Failed? ==> r == Err(Transport))
            && (response.Response? && response.status != 200 ==> r == Err(BadStatus(response.status)))
            && (response.Response? && response.status == 200 && response.authHeader == "" ==> r == Err(NoTokenHeader))
  {
  }

  /** `/logout`: nothing without a token; with one, a single request that carries it.  It is an error
      exactly if no response came or the status is neither 200 nor 401. */
  lemma LogoutVerdict(net: Network, w: World)
    ensures w.token == "" ==> LogoutStep(net, w) == (w, Ok(()))
    ensures w.token != "" ==>
              var (w', r) := LogoutStep(net, w);
              var response := net(w.log, LogoutRequest(w.token));
              && w'.log == w.log + [Exchange(LogoutRequest(w.token), response)]
              && (r.Err? <==> response.Failed? || (response.status != 200 && response.status != 401))
              && (r == Err(Transport) <==> response.Failed?)
              && (r.Err? && response.Response? ==> r == Err(BadStatus(response.status)))
              && w'.token == (if response.Failed? then w.token else "")
  {
  }

  /** Answered 401. */
  predicate RejectedAt(log: seq<Exchange>, k: nat) {
    k < |log| && log[k].request.DataRequest? && log[k].response.Response? && log[k].response.status == 401
  }

  /** A data request to this address, with the token to be used: the one cached at the start if it is
      the first thing said, else the one granted by the login right before it. */
  ghost predicate DataAt(start: World, url: string, log: seq<Exchange>, k: nat) {
    && |start.log| <= k < |log| && log[k].request.DataRequest? && log[k].request.url == url
    && if k == |start.log| then log[k].request.token == start.token != ""
       else
         && log[k - 1].request.LoginRequest? && log[k - 1].response.Response? && log[k - 1].response.status == 200
         && log[k - 1].response.authHeader == log[k].request.token != ""
  }

  /** A login, needed because nothing was cached at the start or because the data request right before
      was rejected. */
  ghost predicate LoginAt(start: World, log: seq<Exchange>, k: nat) {
    && |start.log| <= k < |log| && log[k].request.LoginRequest?
    && if k == |start.log| then start.token == "" else RejectedAt(log, k - 1)
  }

  /** What a call may have said so far: data requests to its own address and the logins they need; one
      more data request only after a rejected one. */
  ghost predicate Saying(start: World, url: string, log: seq<Exchange>) {
    && start.log <= log
    && (forall k :: |start.log| <= k < |log| ==> DataAt(start, url, log, k) || LoginAt(start, log, k))
    && (forall j, k :: |start.log| <= j < k < |log| && log[j].request.DataRequest? && log[k].request.DataRequest? ==>
          RejectedAt(log, j))
  }

  /** What it has said in the end: if it stopped at a rejected data request, that was not its first. */
  ghost predicate Converses(start: World, url: string, log: seq<Exchange>) {
    && start.log < log && Saying(start, url, log)
    && (RejectedAt(log, |log| - 1) ==> exists j :: |start.log| <= j < |log| - 1 && log[j].request.DataRequest?)
  }

  lemma SaysMore(start: World, url: string, log: seq<Exchange>, e: Exchange)
    requires Saying(start, url, log)
    requires DataAt(start, url, log + [e], |log|) || LoginAt(start, log + [e], |log|)
    requires e.request.DataRequest? ==>
               forall j :: |start.log| <= j < |log| && log[j].request.DataRequest? ==> RejectedAt(log, j)
    ensures Saying(start, url, log + [e])
  {
    var longer := log + [e];
    forall k | |start.log| <= k < |longer| ensures DataAt(start, url, longer, k) || LoginAt(start, longer, k) {
      if k < |log| {
        assert DataAt(start, url, log, k) || LoginAt(start, log, k);
        assert k > 0 ==> longer[k - 1] == log[k - 1];
      }
    }
    forall j, k | |start.log| <= j < k < |longer| && longer[j].request.DataRequest? && longer[k].request.DataRequest?
      ensures RejectedAt(longer, j)
    {
      assert RejectedAt(log, j);
    }
  }

  /** The retry of a call whose first data request has just been rejected. */
  lemma RetryConverses(net: Network, w: World, url: string, start: World, token: Token)
    requires Saying(start, url, w.log) && |start.log| < |w.log| && w.token == token
    requires RejectedAt(w.log, |w.log| - 1)
    requires forall j :: |start.log| <= j < |w.log| - 1 ==> !w.log[j].request.DataRequest?
    ensures Converses(start, url, RetryStep(net, w, url, token).0.log)
  {
    var w0 := InvalidateStep(w, token);
    var (w1, r) := EnsureStep(net, w0);
    var login := Exchange(LoginRequest, net(w.log, LoginRequest));
    assert w1.log == w.log + [login];
    SaysMore(start, url, w.log, login);
    if r.Ok? {
      var request := DataRequest(url, r.value);
      SaysMore(start, url, w1.log, Exchange(request, net(w1.log, request)));
      assert w1.log[|w.log| - 1].request.DataRequest?;
      var log := RetryStep(net, w, url, token).0.log;
      assert log[|w.log| - 1].request.DataRequest?;
    }
  }

  lemma SendConverses(net: Network, w: World, url: string, start: World)
    requires Saying(start, url, w.log) && w.token != ""
    requires if w.log == start.log then start.token == w.token
             else |w.log| == |start.log| + 1 && w.log[|start.log|].request.LoginRequest?
                  && Grant(w.log[|start.log|].response) == Ok(w.token)
    ensures var (w', response) := DataStep(net, w, url, w.token);
            Converses(start, url, if Is401(response) then RetryStep(net, w', url, w.token).0.log else w'.log)
  {
    var (w', response) := DataStep(net, w, url, w.token);
    var e := Exchange(DataRequest(url, w.token), response);
    assert w'.log == w.log + [e];
    SaysMore(start, url, w.log, e);
    if Is401(response) {
      RetryConverses(net, w', url, start, w.token);
    }
  }

  /** Everything `callAuthenticatedJSON` says goes to the address it was called with, carries the token
      it should, and is said for a reason. */
  lemma CallConversation(net: Network, w: World, url: string, decodes: string -> bool)
    ensures Converses(w, url, CallStep(net, w, url).0.log)
    ensures DecodedCallStep(net, w, url, decodes).0 == CallStep(net, w, url).0
  {
    var (w1, r) := EnsureStep(net, w);
    assert Saying(w, url, w.log);
    if w.token == "" {
      SaysMore(w, url, w.log, Exchange(LoginRequest, net(w.log, LoginRequest)));
    }
    if r.Ok? {
      SendConverses(net, w1, url, w);
    }
  }

  /** A failed call says which exchange failed it: the last one. */
  lemma CallFailure(net: Network, w: World, url: string, decodes: string -> bool)
    ensures var (w', r) := DecodedCallStep(net, w, url, decodes);
            r.Err? ==>
              && |w'.log| > |w.log|
              && var last := w'.log[|w'.log| - 1];
                 if last.request.DataRequest? then
                   r.error == if last.response.Failed? then Transport
                              else if last.response.status != 200 then BadStatus(last.response.status)
                              else BadBody
                 else
                   && Grant(last.response).Err?
                   && r.error == if |w'.log| == |w.log| + 1 then Grant(last.response).error
                                 else ReloginFailed(Grant(last.response).error)
  {
  }

  // ---------------------------------------------------------------- a server that rejects everything

  function CallTimes(net: Network, w: World, url: string, k: nat): World {
    if k == 0 then w else CallStep(net, CallTimes(net, w, url, k - 1), url).0
  }

  function Granted(log: seq<Exchange>): set<Token> {
    set i | 0 <= i < |log| && log[i].request.LoginRequest? && log[i].response.Response? :: log[i].response.authHeader
  }

  /** Every login is granted a token never granted before; every data request draws a 401. */
  ghost predicate AlwaysRejects(net: Network) {
    && (forall log ::
          var r := net(log, LoginRequest);
          r.Response? && r.status == P.OK && r.authHeader != "" && r.authHeader !in Granted(log))
    && (forall log, url, token :: Is401(net(log, DataRequest(url, token))))
  }

  function LongerThanGranted(log: seq<Exchange>): Token {
    if log == [] then "x"
    else
      var last := log[|log| - 1].response;
      LongerThanGranted(log[..|log| - 1]) + (if last.Response? then last.authHeader else "")
  }

  lemma {:induction false} NothingGrantedIsLonger(log: seq<Exchange>, i: nat)
    requires i < |log| && log[i].response.Response?
    ensures |log[i].response.authHeader| < |LongerThanGranted(log)|
  {
    var front := log[..|log| - 1];
    if i < |front| {
      NothingGrantedIsLonger(front, i);
      assert front[i] == log[i];
    } else {
      LongerIsNotEmpty(front);
    }
  }

  lemma {:induction false} LongerIsNotEmpty(log: seq<Exchange>)
    ensures LongerThanGranted(log) != ""
  {
    if log != [] {
      LongerIsNotEmpty(log[..|log| - 1]);
    }
  }

  /** There is such a server: it grants a token longer than any before. */
  lemma RejectingServerExists() returns (net: Network)
    ensures AlwaysRejects(net)
  {
    net := (log: seq<Exchange>, request: Request) =>
      if request.DataRequest? then Response(P.UNAUTHORIZED, "", "") else Response(P.OK, LongerThanGranted(log), "");
    forall log: seq<Exchange> ensures LongerThanGranted(log) != "" && LongerThanGranted(log) !in Granted(log) {
      LongerIsNotEmpty(log);
      forall i | 0 <= i < |log| && log[i].response.Response?
        ensures log[i].response.authHeader != LongerThanGranted(log)
      {
        NothingGrantedIsLonger(log, i);
      }
    }
  }

  /** The last granted token is cached, and the last exchange was a data request rejected on it. */
  ghost predicate RejectedIsCached(w: World) {
    && |w.log| > 0
    && w.log[|w.log| - 1].request.DataRequest? && w.log[|w.log| - 1].request.token == w.token && w.token != ""
    && Is401(w.log[|w.log| - 1].response)
    && w.token in Granted(w.log)
  }

  lemma GrantedGrows(net: Network, log: seq<Exchange>, request: Request)
    ensures Granted(log) <= Granted(Said(net, log, request))
    ensures request.LoginRequest? && net(log, request).Response? ==>
        net(log, request).authHeader in Granted(Said(net, log, request))
  {
    var said := Said(net, log, request);
    forall t | t in Granted(log) ensures t in Granted(said) {
      var i :| 0 <= i < |log| && log[i].request.LoginRequest? && log[i].response.Response?
          && log[i].response.authHeader == t;
      assert said[i] == log[i];
    }
    assert said[|log|] == Exchange(request, net(log, request));
  }

  /** Against it, a token is always to be had. */
  lemma RejectedEnsure(net: Network, w: World)
    requires AlwaysRejects(net) && (w.token == "" || w.token in Granted(w.log))
    ensures var (w', r) := EnsureStep(net, w);
            && r == Ok(w'.token) && w'.token != "" && w'.token in Granted(w'.log)
            && Granted(w.log) <= Granted(w'.log)
            && (w.token == "" ==> w'.token !in Granted(w.log))
            && DataRequests(w'.log) == DataRequests(w.log)
            && Logins(w'.log) == Logins(w.log) + (if w.token == "" then 1 else 0)
  {
    CountersOnSaid(net, w.log, LoginRequest);
    GrantedGrows(net, w.log, LoginRequest);
  }

  lemma RejectedData(net: Network, w: World, url: string)
    requires AlwaysRejects(net) && w.token != "" && w.token in Granted(w.log)
    ensures var (w', response) := DataStep(net, w, url, w.token);
            && Is401(response) && RejectedIsCached(w') && w'.token == w.token
            && Granted(w.log) <= Granted(w'.log)
            && DataRequests(w'.log) == DataRequests(w.log) + 1 && Logins(w'.log) == Logins(w.log)
  {
    CountersOnSaid(net, w.log, DataRequest(url, w.token));
    GrantedGrows(net, w.log, DataRequest(url, w.token));
  }

  lemma RejectedRetry(net: Network, w: World, url: string)
    requires AlwaysRejects(net) && w.token != "" && w.token in Granted(w.log)
    ensures var (w', r) := RetryStep(net, w, url, w.token);
            && r.Err? && RejectedIsCached(w') && w'.token !in Granted(w.log)
            && DataRequests(w'.log) == DataRequests(w.log) + 1 && Logins(w'.log) == Logins(w.log) + 1
  {
    var cleared := InvalidateStep(w, w.token);
    RejectedEnsure(net, cleared);
    RejectedData(net, EnsureStep(net, cleared).0, url);
  }

  /** One call against it: two data requests, one login if a token was cached and two if not, and
      the token cached before is replaced. */
  lemma RejectedCall(net: Network, w: World, url: string)
    requires AlwaysRejects(net) && (w.token == "" || w.token in Granted(w.log))
    ensures var (w', r) := CallStep(net, w, url);
            && r.Err? && RejectedIsCached(w') && w'.token != w.token
            && DataRequests(w'.log) == DataRequests(w.log) + 2
            && Logins(w'.log) == Logins(w.log) + (if w.token == "" then 2 else 1)
  {
    RejectedEnsure(net, w);
    var w1 := EnsureStep(net, w).0;
    RejectedData(net, w1, url);
    RejectedRetry(net, DataStep(net, w1, url, w1.token).0, url);
  }

  /** k calls in a row from an empty cache: k+1 logins, 2k data requests, and the token rejected
      last is still cached. */
  lemma {:induction false} RejectedCalls(net: Network, url: string, k: nat)
    requires AlwaysRejects(net) && k > 0
    ensures var w := CallTimes(net, World("", []), url, k);
            RejectedIsCached(w) && Logins(w.log) == k + 1 && DataRequests(w.log) == 2 * k
  {
    if k > 1 {
      RejectedCalls(net, url, k - 1);
    } else {
      assert CallTimes(net, World("", []), url, 0) == World("", []);
    }
    RejectedCall(net, CallTimes(net, World("", []), url, k - 1), url);
  }
}
