/**
 The shared-token protocol of one `obsclient.Client`, with every critical section of
 `authMu` taken as one atomic action.

 Any number of goroutines run `callAuthenticatedJSON` against one cached token while
 others call `Login` and `Logout`.  An action carries all the choices of the server
 and of the network, so a run is a sequence of actions; the theorems quantify over
 every run.  AuthLocks refines these actions into lock, wire and write steps.
 */
module AuthProtocol {
  import opened Collections

  type Token = string  // "" is the client's "no token cached"
  type CallId = nat

  const UNAUTHORIZED := 401
  const OK := 200

  /** What `/login` answered, as the client sees it.  `Refused` covers every error path;
      the server may still have issued a token that never reached the client. */
  datatype LoginReply = Granted(token: Token) | Refused(lost: Option<Token>)

  /** What `/logout` answered, and whether the token is dead at the server afterwards. */
  datatype LogoutReply = NoAnswer(revoked: bool) | Answer(status: int, revoked: bool)

  datatype DataReply = Lost | Status(code: int)

  /** Where one `callAuthenticatedJSON` stands between its atomic steps. */
  datatype Pc =
    | Starting
    | Sending(token: Token)
    | Rejected(token: Token)
    | Retrying(rejected: Token)
    | Resending(rejected: Token, token: Token)
    | Finished

  datatype Call = Call(pc: Pc, requests: nat, loginTries: nat)

  /** The history of one client. */
  datatype Tally = Tally(
    logins: nat,          // logins that stored a token
    overwrites: nat,      // of these, the ones that replaced a cached token
    logouts: nat,         // logouts that cleared a cached token
    cleared: seq<Token>,  // tokens cleared by invalidateToken, in order
    retired: set<Token>,  // every token that has left the cache
    rejected: set<Token>  // every token that drew a 401 on a data request
  )

  datatype Client = Client(token: Token, calls: map<CallId, Call>, tally: Tally)
  datatype Server = Server(issued: set<Token>, live: set<Token>)
  datatype State = State(client: Client, server: Server)

  datatype Action =
    | Login(reply: LoginReply)
    | Logout(answer: LogoutReply)
    | Begin(id: CallId)
    | Ensure(id: CallId, reply: LoginReply)  // the reply is used only if nothing is cached
    | Data(id: CallId, data: DataReply)
    | Invalidate(id: CallId)
    | Environment(server: Server)            // other clients log in, tokens expire

  // ---------------------------------------------------------------- the cached field

  function AfterLogin(token: Token, reply: LoginReply): Token {
    if reply.Granted? then reply.token else token
  }

  function AfterEnsure(token: Token, reply: LoginReply): Token {
    if token != "" then token else AfterLogin(token, reply)
  }

  function AfterInvalidate(token: Token, stale: Token): Token {
    if token == stale then "" else token
  }

  function AfterLogout(token: Token, answer: LogoutReply): Token {
    if answer.Answer? then "" else token
  }

  // ---------------------------------------------------------------- the server

  function Carried(reply: LoginReply): set<Token> {
    match reply
    case Granted(t) => {t}
    case Refused(None) => {}
    case Refused(Some(t)) => {t}
  }

  function Issue(server: Server, reply: LoginReply): Server {
    Server(server.issued + Carried(reply), server.live + Carried(reply))
  }

  function Revoke(server: Server, token: Token, answer: LogoutReply): Server {
    if token != "" && answer.revoked then server.(live := server.live - {token}) else server
  }

  /** A confirmed logout leaves no live token behind. */
  predicate LogoutReplyOk(answer: LogoutReply) {
    answer.Answer? && (answer.status == OK || answer.status == UNAUTHORIZED) ==> answer.revoked
  }

  ghost predicate EnvironmentOk(server: Server, server': Server) {
    && server.issued <= server'.issued
    && server'.live <= server'.issued
    && server'.live * server.issued <= server.live
    && "" !in server'.issued
  }

  // ---------------------------------------------------------------- actions

  function Uses(s: State, a: Action): Option<LoginReply> {
    match a
    case Login(reply) => Some(reply)
    case Ensure(_, reply) => if s.client.token == "" then Some(reply) else None
    case _ => None
  }

  ghost predicate Enabled(s: State, a: Action) {
    && (Uses(s, a).Some? ==> "" !in Carried(Uses(s, a).value))
    && match a
       case Login(_) => true
       case Logout(answer) => LogoutReplyOk(answer)
       case Begin(id) => id !in s.client.calls
       case Ensure(id, _) => id in s.client.calls
           && (s.client.calls[id].pc.Starting? || s.client.calls[id].pc.Retrying?)
       case Data(id, _) => id in s.client.calls && (s.client.calls[id].pc.Sending? || s.client.calls[id].pc.Resending?)
       case Invalidate(id) => id in s.client.calls && s.client.calls[id].pc.Rejected?
       case Environment(server') => EnvironmentOk(s.server, server')
  }

  /** The server never hands out a token it has handed out before. */
  ghost predicate Fresh(s: State, a: Action) {
    Uses(s, a).Some? ==> Carried(Uses(s, a).value) !! s.server.issued
  }

  function LoginTally(c: Client, reply: LoginReply): Tally {
    if reply.Refused? then c.tally
    else c.tally.(logins := c.tally.logins + 1,
                  overwrites := c.tally.overwrites + (if c.token == "" then 0 else 1),
                  retired := c.tally.retired + (if c.token == "" then {} else {c.token}))
  }

  function ApplyLogin(s: State, reply: LoginReply): State {
    State(s.client.(token := AfterLogin(s.client.token, reply), tally := LoginTally(s.client, reply)),
          Issue(s.server, reply))
  }

  function ApplyLogout(s: State, answer: LogoutReply): State {
    var c := s.client;
    if c.token != "" && answer.Answer? then
      State(c.(token := AfterLogout(c.token, answer),
               tally := c.tally.(logouts := c.tally.logouts + 1, retired := c.tally.retired + {c.token})),
            Revoke(s.server, c.token, answer))
    else
      State(c, Revoke(s.server, c.token, answer))
  }

  function EnsuredPc(pc: Pc, token: Token): Pc {
    if token == "" then Finished
    else if pc.Retrying? then Resending(pc.rejected, token)
    else Sending(token)
  }

  function ApplyEnsure(s: State, id: CallId, reply: LoginReply): State
    requires id in s.client.calls
  {
    var c := s.client;
    var call := c.calls[id];
    var token := AfterEnsure(c.token, reply);
    var next := call.(pc := EnsuredPc(call.pc, token));
    if c.token != "" then
      State(c.(calls := c.calls[id := next]), s.server)
    else
      State(Client(token, c.calls[id := next.(loginTries := call.loginTries + 1)], LoginTally(c, reply)),
            Issue(s.server, reply))
  }

  function AfterData(pc: Pc, data: DataReply): Pc {
    if pc.Sending? && data == Status(UNAUTHORIZED) then Rejected(pc.token) else Finished
  }

  function ApplyData(s: State, id: CallId, data: DataReply): State
    requires id in s.client.calls && (s.client.calls[id].pc.Sending? || s.client.calls[id].pc.Resending?)
  {
    var c := s.client;
    var call := c.calls[id];
    var drew := if data == Status(UNAUTHORIZED) then {call.pc.token} else {};
    State(c.(calls := c.calls[id := Call(AfterData(call.pc, data), call.requests + 1, call.loginTries)],
             tally := c.tally.(rejected := c.tally.rejected + drew)),
          s.server)
  }

  function ApplyInvalidate(s: State, id: CallId): State
    requires id in s.client.calls && s.client.calls[id].pc.Rejected?
  {
    var c := s.client;
    var stale := c.calls[id].pc.token;
    var calls := c.calls[id := c.calls[id].(pc := Retrying(stale))];
    var tally := if c.token != stale then c.tally
                 else c.tally.(cleared := c.tally.cleared + [stale], retired := c.tally.retired + {stale});
    State(Client(AfterInvalidate(c.token, stale), calls, tally), s.server)
  }

  function Apply(s: State, a: Action): State
    requires Enabled(s, a)
  {
    match a
    case Login(reply) => ApplyLogin(s, reply)
    case Logout(answer) => ApplyLogout(s, answer)
    case Begin(id) => s.(client := s.client.(calls := s.client.calls[id := Call(Starting, 0, 0)]))
    case Ensure(id, reply) => ApplyEnsure(s, id, reply)
    case Data(id, data) => ApplyData(s, id, data)
    case Invalidate(id) => ApplyInvalidate(s, id)
    case Environment(server') => s.(server := server')
  }

  // ---------------------------------------------------------------- runs

  ghost predicate Init(s: State) {
    && s.client == Client("", map[], Tally(0, 0, 0, [], {}, {}))
    && s.server.live <= s.server.issued
    && "" !in s.server.issued
  }

  ghost predicate Step(s: State, a: Action, s': State) {
    Enabled(s, a) && s' == Apply(s, a)
  }

  ghost predicate IsRun(ss: seq<State>, acts: seq<Action>) {
    && |ss| == |acts| + 1
    && Init(ss[0])
    && forall i {:trigger acts[i]} :: 0 <= i < |acts| ==> Step(ss[i], acts[i], ss[i + 1])
  }

  ghost predicate FreshRun(ss: seq<State>, acts: seq<Action>) {
    && IsRun(ss, acts)
    && forall i {:trigger acts[i]} :: 0 <= i < |acts| ==> Fresh(ss[i], acts[i])
  }

  // ---------------------------------------------------------------- accounting, on any server

  function Cached(c: Client): nat { if c.token == "" then 0 else 1 }

  /** Each stored token is still cached, or left by exactly one of the three exits. */
  ghost predicate Balanced(c: Client) {
    c.tally.logins == |c.tally.cleared| + c.tally.logouts + c.tally.overwrites + Cached(c)
  }

  /** A call's counters are tied to its program counter. */
  ghost predicate CallOk(call: Call) {
    match call.pc
    case Starting => call.requests == 0 && call.loginTries == 0
    case Sending(t) => t != "" && call.requests == 0 && call.loginTries <= 1
    case Rejected(t) => t != "" && call.requests == 1 && call.loginTries <= 1
    case Retrying(t) => t != "" && call.requests == 1 && call.loginTries <= 1
    case Resending(r, t) => r != "" && t != "" && call.requests == 1 && call.loginTries <= 2
    case Finished => call.requests <= 2 && call.loginTries <= 2
  }

  ghost predicate CallsOk(c: Client) {
    forall id :: id in c.calls ==> CallOk(c.calls[id])
  }

  lemma StepKeepsCounters(s: State, a: Action, s': State)
    requires Balanced(s.client) && CallsOk(s.client)
    requires Step(s, a, s')
    ensures Balanced(s'.client) && CallsOk(s'.client)
  {
  }

  /** In every reachable state, whatever the server does: each call has sent at most two data
      requests and tried at most two logins, and the login ledger balances. */
  lemma {:induction false} CountersHold(ss: seq<State>, acts: seq<Action>, n: nat)
    requires IsRun(ss, acts) && n < |ss|
    ensures Balanced(ss[n].client) && CallsOk(ss[n].client)
    decreases n
  {
    if n > 0 {
      CountersHold(ss, acts, n - 1);
      StepKeepsCounters(ss[n - 1], acts[n - 1], ss[n]);
    }
  }

  // ---------------------------------------------------------------- token history, on a fresh server

  /** A token some call holds is the cached one or a retired one. */
  ghost predicate Known(c: Client, t: Token) {
    t != "" && (t == c.token || t in c.tally.retired)
  }

  ghost predicate PcOk(c: Client, pc: Pc) {
    match pc
    case Starting => true
    case Sending(t) => Known(c, t)
    case Rejected(t) => Known(c, t) && t in c.tally.rejected
    case Retrying(t) => t in c.tally.retired && t in c.tally.rejected
    case Resending(r, t) => r in c.tally.retired && r in c.tally.rejected && t != r && Known(c, t)
    case Finished => true
  }

  ghost predicate ClearedOk(t: Tally) {
    && NoDup(t.cleared)
    && forall x :: x in t.cleared ==> x in t.retired && x in t.rejected
  }

  ghost predicate HistoryOk(s: State) {
    && "" !in s.server.issued
    && s.server.live <= s.server.issued
    && s.client.tally.retired <= s.server.issued
    && s.client.token !in s.client.tally.retired
    && (s.client.token != "" ==> s.client.token in s.server.issued)
    && ClearedOk(s.client.tally)
    && forall id :: id in s.client.calls ==> PcOk(s.client, s.client.calls[id].pc)
  }

  lemma StepKeepsHistory(s: State, a: Action, s': State)
    requires HistoryOk(s) && Step(s, a, s') && Fresh(s, a)
    ensures HistoryOk(s')
    ensures s.client.tally.retired <= s'.client.tally.retired
    ensures s.client.token != "" && s'.client.token != s.client.token ==> s.client.token in s'.client.tally.retired
  {
  }

  /** To the other clients of the same server, a client's step is an environment step. */
  lemma StepIsEnvironment(s: State, a: Action, s': State)
    requires HistoryOk(s) && Step(s, a, s') && Fresh(s, a)
    ensures EnvironmentOk(s.server, s'.server)
  {
  }

  lemma {:induction false} HistoryHolds(ss: seq<State>, acts: seq<Action>, n: nat)
    requires FreshRun(ss, acts) && n < |ss|
    ensures HistoryOk(ss[n])
    decreases n
  {
    if n > 0 {
      HistoryHolds(ss, acts, n - 1);
      StepKeepsHistory(ss[n - 1], acts[n - 1], ss[n]);
    }
  }

  // ---------------------------------------------------------------- main results

  lemma {:induction false} RetiredGrows(ss: seq<State>, acts: seq<Action>, i: nat, k: nat)
    requires FreshRun(ss, acts) && i <= k < |ss|
    ensures ss[i].client.tally.retired <= ss[k].client.tally.retired
    ensures ss[i].client.token != "" && ss[k].client.token != ss[i].client.token ==>
              ss[i].client.token in ss[k].client.tally.retired
    decreases k
  {
    if i < k {
      RetiredGrows(ss, acts, i, k - 1);
      HistoryHolds(ss, acts, k - 1);
      StepKeepsHistory(ss[k - 1], acts[k - 1], ss[k]);
    }
  }

  /** What an invalidation does: it clears the cache exactly if it finds there the token that was
      rejected, so a late one leaves a newer token alone. */
  lemma LateInvalidationIsHarmless(s: State, id: CallId, s': State)
    requires Step(s, Invalidate(id), s')
    ensures s'.client.token == if s.client.token == s.client.calls[id].pc.token then "" else s.client.token
    ensures s'.client.calls[id].pc == Retrying(s.client.calls[id].pc.token)
  {
  }

  /** Rejected means answered 401 on a data request that carried the token. */
  lemma {:induction false} RejectedDrew401(ss: seq<State>, acts: seq<Action>, n: nat, token: Token)
    requires IsRun(ss, acts) && n < |ss|
    ensures token in ss[n].client.tally.rejected <==>
              exists k {:trigger acts[k]} :: 0 <= k < n && acts[k].Data? && acts[k].data == Status(401)
                                             && acts[k].id in ss[k].client.calls
                                             && Carries(ss[k].client.calls[acts[k].id].pc, token)
    decreases n
  {
    if n > 0 {
      RejectedDrew401(ss, acts, n - 1, token);
      assert Step(ss[n - 1], acts[n - 1], ss[n]);
    }
  }

  predicate Carries(pc: Pc, token: Token) { (pc.Sending? || pc.Resending?) && pc.token == token }

  /** No resurrection: a token that has left the cache is never cached again. */
  lemma NoResurrection(ss: seq<State>, acts: seq<Action>, i: nat, j: nat, k: nat)
    requires FreshRun(ss, acts) && i < j < k < |ss|
    requires ss[i].client.token != "" && ss[j].client.token != ss[i].client.token
    ensures ss[k].client.token != ss[i].client.token
  {
    RetiredGrows(ss, acts, i, j);
    RetiredGrows(ss, acts, j, k);
    HistoryHolds(ss, acts, k);
  }

  /** The retry never carries the token that drew the 401, which is no longer cached either. */
  lemma RetryCarriesAnotherToken(ss: seq<State>, acts: seq<Action>, n: nat, id: CallId)
    requires FreshRun(ss, acts) && n < |ss|
    requires id in ss[n].client.calls && ss[n].client.calls[id].pc.Resending?
    ensures var pc := ss[n].client.calls[id].pc;
            && pc.token != pc.rejected
            && pc.rejected in ss[n].client.tally.rejected
            && pc.rejected != ss[n].client.token
  {
    HistoryHolds(ss, acts, n);
    CountersHold(ss, acts, n);
    assert PcOk(ss[n].client, ss[n].client.calls[id].pc);
  }

  /** The hypothesis is needed: a server that reissues a token gets the rejected token back in
      the retry. */
  lemma ReissueDefeatsTheRetry() returns (ss: seq<State>, acts: seq<Action>)
    ensures IsRun(ss, acts) && !FreshRun(ss, acts)
    ensures 0 in ss[|ss| - 1].client.calls
    ensures ss[|ss| - 1].client.calls[0].pc == Resending("x", "x")
  {
    acts := [Begin(0), Ensure(0, Granted("x")), Data(0, Status(UNAUTHORIZED)), Invalidate(0), Ensure(0, Granted("x"))];
    var s0 := State(Client("", map[], Tally(0, 0, 0, [], {}, {})), Server({}, {}));
    var s1 := Apply(s0, acts[0]);
    var s2 := Apply(s1, acts[1]);
    var s3 := Apply(s2, acts[2]);
    var s4 := Apply(s3, acts[3]);
    var s5 := Apply(s4, acts[4]);
    ss := [s0, s1, s2, s3, s4, s5];
    assert s4.client.token == "" && "x" in s4.server.issued;
    assert !Fresh(ss[4], acts[4]);
  }

  /** Login ledger: what is stored is paid for by a 401 on a token of its own, a logout or an
      overwriting `Login`, plus at most one token still cached. */
  lemma LoginsAreAccountedFor(ss: seq<State>, acts: seq<Action>, n: nat)
    requires FreshRun(ss, acts) && n < |ss|
    ensures var t := ss[n].client.tally;
            && t.logins == |t.cleared| + t.logouts + t.overwrites + Cached(ss[n].client)
            && |t.cleared| <= |t.rejected|
            && t.logins <= 1 + |t.rejected| + t.logouts + t.overwrites
  {
    CountersHold(ss, acts, n);
    HistoryHolds(ss, acts, n);
    NoDupLength(ss[n].client.tally.cleared, ss[n].client.tally.rejected);
  }

  /** What has been cleared between two points of a run. */
  ghost predicate ClearedSince(earlier: State, later: State) {
    var before, after := earlier.client.tally, later.client.tally;
    && before.cleared <= after.cleared
    && forall x :: x in after.cleared[|before.cleared|..] ==> x in after.rejected && x !in before.retired
  }

  lemma StepClears(earlier: State, s: State, a: Action, s': State)
    requires HistoryOk(s) && Step(s, a, s')
    requires ClearedSince(earlier, s) && earlier.client.tally.retired <= s.client.tally.retired
    ensures ClearedSince(earlier, s')
  {
    if a.Invalidate? && s.client.token == s.client.calls[a.id].pc.token {
      assert PcOk(s.client, s.client.calls[a.id].pc);
      var from := |earlier.client.tally.cleared|;
      assert s'.client.tally.cleared[from..] == s.client.tally.cleared[from..] + [s.client.token];
    } else {
      assert s'.client.tally.cleared == s.client.tally.cleared;
    }
  }

  lemma NothingClearedYet(s: State)
    ensures ClearedSince(s, s)
  {
    assert s.client.tally.cleared[|s.client.tally.cleared|..] == [];
  }

  lemma {:induction false} ClearedInWindow(ss: seq<State>, acts: seq<Action>, i: nat, j: nat)
    requires FreshRun(ss, acts) && i <= j < |ss|
    ensures ClearedSince(ss[i], ss[j])
    decreases j
  {
    if i < j {
      ClearedInWindow(ss, acts, i, j - 1);
      RetiredGrows(ss, acts, i, j - 1);
      HistoryHolds(ss, acts, j - 1);
      StepClears(ss[i], ss[j - 1], acts[j - 1], ss[j]);
    } else {
      NothingClearedYet(ss[i]);
    }
  }

  /** From any point of a run on, new logins are at most the distinct tokens that draw a 401 from
      then on and had not been retired before, plus logouts and overwrites, plus one if nothing
      was cached. */
  lemma ReloginsInWindow(ss: seq<State>, acts: seq<Action>, i: nat, j: nat)
    requires FreshRun(ss, acts) && i <= j < |ss|
    ensures var before, after := ss[i].client.tally, ss[j].client.tally;
            after.logins - before.logins <= |after.rejected - before.retired|
              + (after.logouts - before.logouts) + (after.overwrites - before.overwrites)
              + (1 - Cached(ss[i].client))
  {
    CountersHold(ss, acts, i);
    CountersHold(ss, acts, j);
    ClearedInWindow(ss, acts, i, j);
    HistoryHolds(ss, acts, j);
    var before, after := ss[i].client.tally, ss[j].client.tally;
    NoDupLength(after.cleared[|before.cleared|..], after.rejected - before.retired);
  }

  /** Any number of requests rejected on one stale token cause at most one re-login. */
  lemma OneReloginPerStaleToken(ss: seq<State>, acts: seq<Action>, i: nat, j: nat, stale: Token)
    requires FreshRun(ss, acts) && i <= j < |ss|
    requires ss[i].client.token != ""
    requires ss[j].client.tally.rejected - ss[i].client.tally.retired <= {stale}
    requires ss[j].client.tally.logouts == ss[i].client.tally.logouts
    requires ss[j].client.tally.overwrites == ss[i].client.tally.overwrites
    ensures ss[j].client.tally.logins <= ss[i].client.tally.logins + 1
  {
    ReloginsInWindow(ss, acts, i, j);
    SubsetSize(ss[j].client.tally.rejected - ss[i].client.tally.retired, {stale});
  }

  // ---------------------------------------------------------------- bounded retry

  function Actor(a: Action): Option<CallId> {
    match a
    case Begin(id) => Some(id)
    case Ensure(id, _) => Some(id)
    case Data(id, _) => Some(id)
    case Invalidate(id) => Some(id)
    case _ => None
  }

  function OwnActions(acts: seq<Action>, id: CallId): nat {
    if acts == [] then 0
    else OwnActions(acts[..|acts| - 1], id) + (if Actor(acts[|acts| - 1]) == Some(id) then 1 else 0)
  }

  /** Actions a call still has to take, at most. */
  function Rank(c: Client, id: CallId): nat {
    if id !in c.calls then 6
    else match c.calls[id].pc
      case Starting => 5
      case Sending(_) => 4
      case Rejected(_) => 3
      case Retrying(_) => 2
      case Resending(_, _) => 1
      case Finished => 0
  }

  /** Under every schedule and every server a call is over after at most six of its own actions,
      and until then one of its own actions is always possible. */
  lemma {:induction false} CallsTerminate(ss: seq<State>, acts: seq<Action>, n: nat, id: CallId)
    requires IsRun(ss, acts) && n < |ss|
    ensures OwnActions(acts[..n], id) + Rank(ss[n].client, id) <= 6
    ensures id in ss[n].client.calls && !ss[n].client.calls[id].pc.Finished? ==>
              exists a :: Enabled(ss[n], a) && Actor(a) == Some(id)
    decreases n
  {
    if n > 0 {
      CallsTerminate(ss, acts, n - 1, id);
      assert acts[..n][..n - 1] == acts[..n - 1];
      assert Step(ss[n - 1], acts[n - 1], ss[n]);
    }
    if id in ss[n].client.calls && !ss[n].client.calls[id].pc.Finished? {
      var pc := ss[n].client.calls[id].pc;
      var a := if pc.Starting? || pc.Retrying? then Ensure(id, Refused(None))
               else if pc.Rejected? then Invalidate(id)
               else Data(id, Lost);
      assert Enabled(ss[n], a) && Actor(a) == Some(id);
    }
  }

  /** Data requests sent by these calls. */
  function DataRequestsBy(acts: seq<Action>, ids: set<CallId>): nat {
    if acts == [] then 0
    else
      var last := acts[|acts| - 1];
      DataRequestsBy(acts[..|acts| - 1], ids) + (if last.Data? && last.id in ids then 1 else 0)
  }

  ghost function RequestsOf(c: Client, ids: set<CallId>): map<CallId, nat> {
    map id | id in c.calls && id in ids :: c.calls[id].requests
  }

  lemma StepRequestsOf(s: State, a: Action, s': State, ids: set<CallId>)
    requires Step(s, a, s')
    ensures SumOf(RequestsOf(s'.client, ids)) ==
            SumOf(RequestsOf(s.client, ids)) + (if a.Data? && a.id in ids then 1 else 0)
  {
    if Actor(a).Some? && Actor(a).value in ids {
      var id := Actor(a).value;
      SumUpdate(RequestsOf(s.client, ids), id, s'.client.calls[id].requests);
      assert RequestsOf(s'.client, ids) == RequestsOf(s.client, ids)[id := s'.client.calls[id].requests];
    } else {
      assert RequestsOf(s'.client, ids) == RequestsOf(s.client, ids);
    }
  }

  lemma {:induction false} RequestsAreCountedBy(ss: seq<State>, acts: seq<Action>, n: nat, ids: set<CallId>)
    requires IsRun(ss, acts) && n < |ss|
    ensures DataRequestsBy(acts[..n], ids) == SumOf(RequestsOf(ss[n].client, ids))
    decreases n
  {
    if n == 0 {
      assert RequestsOf(ss[0].client, ids) == map[];
    } else {
      RequestsAreCountedBy(ss, acts, n - 1, ids);
      assert acts[..n][..n - 1] == acts[..n - 1];
      StepRequestsOf(ss[n - 1], acts[n - 1], ss[n], ids);
    }
  }

  /** Whatever other calls share the client, these calls send at most two data requests each. */
  lemma DataRequestsByCalls(ss: seq<State>, acts: seq<Action>, n: nat, ids: set<CallId>)
    requires IsRun(ss, acts) && n < |ss|
    ensures DataRequestsBy(acts[..n], ids) <= 2 * |ids|
  {
    RequestsAreCountedBy(ss, acts, n, ids);
    CountersHold(ss, acts, n);
    var requests := RequestsOf(ss[n].client, ids);
    forall id | id in requests ensures requests[id] <= 2 {
      assert CallOk(ss[n].client.calls[id]);
    }
    SumBound(requests, 2);
    SubsetSize(requests.Keys, ids);
  }

  function DataRequests(acts: seq<Action>): nat {
    if acts == [] then 0
    else DataRequests(acts[..|acts| - 1]) + (if acts[|acts| - 1].Data? then 1 else 0)
  }

  /** Data requests sent in a run are at most twice the calls begun. */
  lemma DataRequestsBounded(ss: seq<State>, acts: seq<Action>, n: nat)
    requires IsRun(ss, acts) && n < |ss|
    ensures DataRequests(acts[..n]) <= 2 * |ss[n].client.calls|
  {
    OnlyBegunCallsSend(ss, acts, n, n);
    DataRequestsByCalls(ss, acts, n, ss[n].client.calls.Keys);
  }

  lemma {:induction false} OnlyBegunCallsSend(ss: seq<State>, acts: seq<Action>, k: nat, n: nat)
    requires IsRun(ss, acts) && k <= n < |ss|
    ensures ss[k].client.calls.Keys <= ss[n].client.calls.Keys
    ensures DataRequestsBy(acts[..k], ss[n].client.calls.Keys) == DataRequests(acts[..k])
    decreases n, k
  {
    if k < n {
      OnlyBegunCallsSend(ss, acts, k, n - 1);
      assert Step(ss[n - 1], acts[n - 1], ss[n]);
    }
    if k > 0 {
      OnlyBegunCallsSend(ss, acts, k - 1, n);
      assert acts[..k][..k - 1] == acts[..k - 1];
      assert Step(ss[k - 1], acts[k - 1], ss[k]);
    }
  }
}
