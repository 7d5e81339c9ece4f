/**
 The whole exporter: any number of targets, scrapes racing through `getOrCreateClient`, the
 calls their collectors make, and the shutdown goroutine, over one server per target.

 Each client is an AuthProtocol client and moves only by AuthProtocol actions, so what is
 proved there holds here of every client.  A token is live while the server would accept it;
 a server answers 401 only to a token that is not live.
 */
module ClientCache {
  import opened Collections
  import P = AuthProtocol

  type Token = P.Token
  type Target = string
  type ClientId = nat
  type ScrapeId = nat

  /** How far a `/probe` request has got. */
  datatype Stage =
    | Looking                                          // about to Load
    | Created(c: ClientId)                             // New returned, about to Login
    | LoggedIn(c: ClientId)                            // about to LoadOrStore
    | Losing(c: ClientId, winner: ClientId)            // another client was stored first
    | Using(c: ClientId, calls: set<P.CallId>)         // getOrCreateClient returned c
    | Over(got: Option<ClientId>)                      // the handler returned

  datatype Scrape = Scrape(target: Target, stage: Stage)

  datatype Member = Member(target: Target, auth: P.Client, logoutTries: nat)

  /** Shutdown: drain, then Range over the map.  `drained` says no scrape was in flight when
      `logoutAll` started; `failed` are the targets whose logout got no answer. */
  datatype Phase =
    | Serving
    | Draining
    | LoggingOut(drained: bool, listed: set<Target>, visited: set<Target>, failed: set<Target>)
    | Stopped(drained: bool, failed: set<Target>)

  /** The events after which a token may be live with nobody left to log it out. */
  datatype Incident =
    | LoginReplyLost(target: Target, token: Token)
    | LoserLogoutFailed(target: Target, token: Token)
    | LogoutUnconfirmed(target: Target, token: Token)  // answered by neither 200 nor 401

  datatype System = System(
    servers: map<Target, P.Server>,
    clients: map<ClientId, Member>,
    cache: map<Target, ClientId>,
    scrapes: map<ScrapeId, Scrape>,
    phase: Phase,
    incidents: seq<Incident>
  )

  datatype Event =
    | Accept(pid: ScrapeId, target: Target)
    | Load(pid: ScrapeId, c: ClientId)           // c names the client New would create
    | NewFails(pid: ScrapeId)
    | Login(pid: ScrapeId, reply: P.LoginReply)
    | LoadOrStore(pid: ScrapeId)
    | LoserLogout(pid: ScrapeId, answer: P.LogoutReply)
    | BeginCall(pid: ScrapeId, id: P.CallId)
    | CallStep(c: ClientId, act: P.Action)
    | Finish(pid: ScrapeId)
    | Expire(target: Target, live: set<Token>)
    | Signal
    | StartLogout
    | Visit(target: Target, answer: P.LogoutReply)
    | EndRange

  // ---------------------------------------------------------------- views

  function ServerOf(s: System, target: Target): P.Server {
    if target in s.servers then s.servers[target] else P.Server({}, {})
  }

  function View(s: System, c: ClientId): P.State
    requires c in s.clients
  {
    P.State(s.clients[c].auth, ServerOf(s, s.clients[c].target))
  }

  const NEW_CLIENT := P.Client("", map[], P.Tally(0, 0, 0, [], {}, {}))

  ghost predicate AllOver(s: System) {
    forall pid :: pid in s.scrapes ==> s.scrapes[pid].stage.Over?
  }

  predicate IsCallStep(act: P.Action) { act.Ensure? || act.Data? || act.Invalidate? }

  /** Only a token the server would not accept draws a 401. */
  ghost predicate Honest(s: P.State, act: P.Action)
    requires P.Enabled(s, act)
  {
    act.Data? && act.data == P.Status(P.UNAUTHORIZED) ==> s.client.calls[act.id].pc.token !in s.server.live
  }

  // ---------------------------------------------------------------- events

  ghost predicate ActOk(s: System, c: ClientId, act: P.Action) {
    && c in s.clients
    && P.Enabled(View(s, c), act)
    && P.Fresh(View(s, c), act)
    && Honest(View(s, c), act)
  }

  ghost predicate CallsFinished(s: System, c: ClientId, calls: set<P.CallId>) {
    c in s.clients &&
    forall id :: id in calls ==> id in s.clients[c].auth.calls && s.clients[c].auth.calls[id].pc.Finished?
  }

  ghost predicate Enabled(s: System, e: Event) {
    match e
    case Accept(pid, _) => s.phase == Serving && pid !in s.scrapes
    case Load(pid, c) =>
      pid in s.scrapes && s.scrapes[pid].stage.Looking? && (s.scrapes[pid].target !in s.cache ==> c !in s.clients)
    case NewFails(pid) => pid in s.scrapes && s.scrapes[pid].stage.Looking? && s.scrapes[pid].target !in s.cache
    case Login(pid, reply) =>
      pid in s.scrapes && s.scrapes[pid].stage.Created? && ActOk(s, s.scrapes[pid].stage.c, P.Login(reply))
    case LoadOrStore(pid) => pid in s.scrapes && s.scrapes[pid].stage.LoggedIn?
    case LoserLogout(pid, answer) =>
      pid in s.scrapes && s.scrapes[pid].stage.Losing? && ActOk(s, s.scrapes[pid].stage.c, P.Logout(answer))
    case BeginCall(pid, id) =>
      pid in s.scrapes && s.scrapes[pid].stage.Using? && ActOk(s, s.scrapes[pid].stage.c, P.Begin(id))
    case CallStep(c, act) => IsCallStep(act) && ActOk(s, c, act)
    case Finish(pid) =>
      && pid in s.scrapes && s.scrapes[pid].stage.Using?
      && CallsFinished(s, s.scrapes[pid].stage.c, s.scrapes[pid].stage.calls)
    case Expire(target, live) => live <= ServerOf(s, target).live
    case Signal => s.phase == Serving
    case StartLogout => s.phase == Draining
    case Visit(target, answer) =>
      && s.phase.LoggingOut?
      && target in s.cache && target !in s.phase.visited
      && ActOk(s, s.cache[target], P.Logout(answer))
    case EndRange => s.phase.LoggingOut? && s.phase.listed <= s.phase.visited
  }

  /** The incidents an action of client c gives rise to. */
  function Incidents(s: System, c: ClientId, act: P.Action, loser: bool): seq<Incident>
    requires c in s.clients
  {
    var target, token := s.clients[c].target, s.clients[c].auth.token;
    match P.Uses(View(s, c), act)
    case Some(Refused(Some(lost))) => [LoginReplyLost(target, lost)]
    case _ =>
      if !act.Logout? || token == "" then []
      else match act.answer
        case NoAnswer(_) => if loser then [LoserLogoutFailed(target, token)] else []
        case Answer(status, _) =>
          if status == P.OK || status == P.UNAUTHORIZED then [] else [LogoutUnconfirmed(target, token)]
  }

  /** Client c takes an action, against the server of its target. */
  function Do(s: System, c: ClientId, act: P.Action, loser: bool): System
    requires c in s.clients && P.Enabled(View(s, c), act)
  {
    var member, next := s.clients[c], P.Apply(View(s, c), act);
    var tries := member.logoutTries + (if act.Logout? then 1 else 0);
    s.(clients := s.clients[c := Member(member.target, next.client, tries)],
       servers := s.servers[member.target := next.server],
       incidents := s.incidents + Incidents(s, c, act, loser))
  }

  function Move(s: System, pid: ScrapeId, stage: Stage): System
    requires pid in s.scrapes
  {
    s.(scrapes := s.scrapes[pid := s.scrapes[pid].(stage := stage)])
  }

  ghost function Apply(s: System, e: Event): System
    requires Enabled(s, e)
  {
    match e
    case Accept(pid, target) => s.(scrapes := s.scrapes[pid := Scrape(target, Looking)])
    case CallStep(c, act) => Do(s, c, act, false)
    case Expire(target, live) => s.(servers := s.servers[target := ServerOf(s, target).(live := live)])
    case Signal => s.(phase := Draining)
    case StartLogout => s.(phase := LoggingOut(AllOver(s), s.cache.Keys, {}, {}))
    case Visit(target, answer) =>
      var done := Do(s, s.cache[target], P.Logout(answer), false);
      var failed := s.phase.failed + (if answer.NoAnswer? then {target} else {});
      done.(phase := s.phase.(visited := s.phase.visited + {target}, failed := failed))
    case EndRange => s.(phase := Stopped(s.phase.drained, s.phase.failed))
    case Load(pid, c) =>
      var target := s.scrapes[pid].target;
      if target in s.cache then Move(s, pid, Using(s.cache[target], {}))
      else Move(s, pid, Created(c)).(clients := s.clients[c := Member(target, NEW_CLIENT, 0)])
    case NewFails(pid) => Move(s, pid, Over(None))
    case Login(pid, reply) =>
      var c := s.scrapes[pid].stage.c;
      Move(Do(s, c, P.Login(reply), false), pid, if reply.Granted? then LoggedIn(c) else Over(None))
    case LoadOrStore(pid) =>
      var scrape := s.scrapes[pid];
      if scrape.target in s.cache then Move(s, pid, Losing(scrape.stage.c, s.cache[scrape.target]))
      else Move(s, pid, Using(scrape.stage.c, {})).(cache := s.cache[scrape.target := scrape.stage.c])
    case LoserLogout(pid, answer) =>
      var stage := s.scrapes[pid].stage;
      Move(Do(s, stage.c, P.Logout(answer), true), pid, Using(stage.winner, {}))
    case BeginCall(pid, id) =>
      var stage := s.scrapes[pid].stage;
      Move(Do(s, stage.c, P.Begin(id), false), pid, Using(stage.c, stage.calls + {id}))
    case Finish(pid) => Move(s, pid, Over(Some(s.scrapes[pid].stage.c)))
  }

  ghost predicate Init(s: System) {
    && s.clients == map[] && s.cache == map[] && s.scrapes == map[]
    && s.phase == Serving && s.incidents == []
    && forall target :: target in s.servers ==> s.servers[target].live == {} && "" !in s.servers[target].issued
  }

  ghost predicate Step(s: System, e: Event, s': System) { Enabled(s, e) && s' == Apply(s, e) }

  ghost predicate IsRun(ss: seq<System>, es: seq<Event>) {
    && |ss| == |es| + 1
    && Init(ss[0])
    && forall i {:trigger es[i]} :: 0 <= i < |es| ==> Step(ss[i], es[i], ss[i + 1])
  }

  // ---------------------------------------------------------------- the invariant

  predicate Mapped(s: System, c: ClientId)
    requires c in s.clients
  {
    s.clients[c].target in s.cache && s.cache[s.clients[c].target] == c
  }

  /** The client a scrape has created and still answers for. */
  function Holds(stage: Stage): Option<ClientId> {
    match stage
    case Created(c) => Some(c)
    case LoggedIn(c) => Some(c)
    case Losing(c, _) => Some(c)
    case _ => None
  }

  ghost predicate HeldBy(s: System, pid: ScrapeId, c: ClientId) {
    pid in s.scrapes && Holds(s.scrapes[pid].stage) == Some(c)
  }

  ghost predicate ServersOk(s: System) {
    forall target :: target in s.servers ==>
      s.servers[target].live <= s.servers[target].issued && "" !in s.servers[target].issued
  }

  /** What holds of a client and its server taken alone. */
  ghost predicate ViewOk(v: P.State) {
    && P.HistoryOk(v) && P.Balanced(v.client) && P.CallsOk(v.client)
    && v.client.tally.overwrites == 0
    && forall id :: id in v.client.calls && v.client.calls[id].pc.Rejected? ==>
         v.client.calls[id].pc.token !in v.server.live
  }

  ghost predicate ClientOk(s: System, c: ClientId)
    requires c in s.clients
  {
    ViewOk(View(s, c)) && (!Mapped(s, c) ==> s.clients[c].auth.calls == map[])
  }

  ghost predicate CacheOk(s: System) {
    forall target :: target in s.cache ==>
      && s.cache[target] in s.clients && s.clients[s.cache[target]].target == target
      && s.clients[s.cache[target]].auth.tally.logins >= 1
      && (s.clients[s.cache[target]].logoutTries == 0 || s.phase.LoggingOut? || s.phase.Stopped?)
  }

  ghost predicate ScrapeOk(s: System, pid: ScrapeId)
    requires pid in s.scrapes
  {
    var scrape := s.scrapes[pid];
    match scrape.stage
    case Looking => true
    case Created(c) => Owned(s, scrape, c) && s.clients[c].auth == NEW_CLIENT
    case LoggedIn(c) => Owned(s, scrape, c) && s.clients[c].auth.token != "" && s.clients[c].auth.tally.logins == 1
    case Losing(c, w) =>
      && Owned(s, scrape, c) && s.clients[c].auth.token != "" && s.clients[c].auth.tally.logins == 1
      && scrape.target in s.cache && s.cache[scrape.target] == w
    case Using(c, calls) =>
      && scrape.target in s.cache && s.cache[scrape.target] == c && c in s.clients
      && calls <= s.clients[c].auth.calls.Keys
    case Over(got) => got.Some? ==> scrape.target in s.cache && s.cache[scrape.target] == got.value
  }

  ghost predicate Owned(s: System, scrape: Scrape, c: ClientId) {
    c in s.clients && s.clients[c].target == scrape.target && !Mapped(s, c) && s.clients[c].logoutTries == 0
  }

  ghost predicate OwnersOk(s: System) {
    forall p, q, c :: HeldBy(s, p, c) && HeldBy(s, q, c) ==> p == q
  }

  ghost predicate Logged(s: System, target: Target, token: Token) {
    exists i :: 0 <= i < |s.incidents| && s.incidents[i].target == target && s.incidents[i].token == token
  }

  /** A client nobody answers for any more: it never logged in, or made exactly one logout
      attempt, and a token it still caches is on the incident list. */
  ghost predicate Released(s: System, c: ClientId)
    requires c in s.clients
  {
    var m := s.clients[c];
    if m.auth.tally.logins == 0 then m.auth.token == "" && m.logoutTries == 0
    else m.auth.tally.logins == 1 && m.logoutTries == 1 && (m.auth.token != "" ==> Logged(s, m.target, m.auth.token))
  }

  ghost predicate Placed(s: System, c: ClientId)
    requires c in s.clients
  {
    Mapped(s, c) || (exists pid :: HeldBy(s, pid, c)) || Released(s, c)
  }

  ghost predicate InUse(s: System, c: ClientId, id: P.CallId) {
    exists pid :: pid in s.scrapes && s.scrapes[pid].stage.Using? && s.scrapes[pid].stage.c == c
        && id in s.scrapes[pid].stage.calls
  }

  ghost predicate CallsInUse(s: System) {
    forall c, id :: c in s.clients && id in s.clients[c].auth.calls && !s.clients[c].auth.calls[id].pc.Finished? ==>
      InUse(s, c, id)
  }

  /** A scrape that holds a token in a client of its own. */
  ghost predicate Carries(s: System, pid: ScrapeId, target: Target) {
    && pid in s.scrapes && s.scrapes[pid].target == target
    && (s.scrapes[pid].stage.LoggedIn? || s.scrapes[pid].stage.Losing?)
  }

  ghost predicate CachedToken(s: System, target: Target, token: Token) {
    target in s.cache && s.cache[target] in s.clients && s.clients[s.cache[target]].auth.token == token
  }

  ghost predicate CarriedToken(s: System, pid: ScrapeId, target: Target, token: Token) {
    Carries(s, pid, target) && s.scrapes[pid].stage.c in s.clients
        && s.clients[s.scrapes[pid].stage.c].auth.token == token
  }

  ghost predicate Accounted(s: System, target: Target, token: Token) {
    CachedToken(s, target, token) || (exists pid :: CarriedToken(s, pid, target, token)) || Logged(s, target, token)
  }

  ghost predicate Conserved(s: System) {
    forall target, token :: token in ServerOf(s, target).live ==> Accounted(s, target, token)
  }

  ghost predicate LoggedOut(s: System, target: Target, failed: set<Target>) {
    CachedToken(s, target, "") || target in failed
  }

  ghost predicate PhaseOk(s: System) {
    match s.phase
    case LoggingOut(drained, listed, visited, failed) =>
      drained ==> AllOver(s) && listed == s.cache.Keys && forall target :: target in visited ==>
          LoggedOut(s, target, failed)
    case Stopped(drained, failed) =>
      drained ==> AllOver(s) && forall target :: target in s.cache ==> LoggedOut(s, target, failed)
    case _ => true
  }

  ghost predicate ClientsOk(s: System) {
    ServersOk(s) && forall c :: c in s.clients ==> ClientOk(s, c)
  }

  ghost predicate PlacesOk(s: System) {
    forall c :: c in s.clients ==> Placed(s, c)
  }

  ghost predicate ScrapesOk(s: System) {
    OwnersOk(s) && forall pid :: pid in s.scrapes ==> ScrapeOk(s, pid)
  }

  ghost predicate SystemOk(s: System) {
    ClientsOk(s) && PlacesOk(s) && CacheOk(s) && ScrapesOk(s) && CallsInUse(s) && Conserved(s) && PhaseOk(s)
  }
}
