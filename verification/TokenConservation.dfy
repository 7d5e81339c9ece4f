/**
 What the exporter promises about server-side tokens, read off every reachable state of
 ClientCache: conservation, agreement on one client per target, and every client's own ledger.
 */
module TokenConservation {
  import opened Collections
  import opened ClientCache
  import Invariant = ClientCacheInvariant
  import P = AuthProtocol

  // ---------------------------------------------------------------- conservation

  /** A live token is cached in the target's mapped client, held by a scrape still inside
      getOrCreateClient, or on the incident list. */
  lemma TokensAreConserved(ss: seq<System>, es: seq<Event>, n: nat, target: Target, token: Token)
    requires IsRun(ss, es) && n < |ss|
    requires token in ServerOf(ss[n], target).live
    ensures token != ""
    ensures || CachedToken(ss[n], target, token)
            || (exists pid :: CarriedToken(ss[n], pid, target, token))
            || Logged(ss[n], target, token)
  {
    Invariant.SystemHolds(ss, es, n);
    assert Accounted(ss[n], target, token);
  }

  ghost function Creators(s: System, target: Target): set<ScrapeId> {
    set pid | pid in s.scrapes && Carries(s, pid, target)
  }

  function IncidentsAt(incidents: seq<Incident>, target: Target): seq<Incident> {
    if incidents == [] then []
    else IncidentsAt(incidents[..|incidents| - 1], target)
         + (if incidents[|incidents| - 1].target == target then [incidents[|incidents| - 1]] else [])
  }

  ghost function TokensOf(incidents: seq<Incident>): set<Token> {
    set i | 0 <= i < |incidents| :: incidents[i].token
  }

  lemma {:induction false} TokensOfSize(incidents: seq<Incident>)
    ensures |TokensOf(incidents)| <= |incidents|
  {
    if incidents != [] {
      var n := |incidents| - 1;
      TokensOfSize(incidents[..n]);
      assert TokensOf(incidents) == TokensOf(incidents[..n]) + {incidents[n].token};
    }
  }

  lemma {:induction false} IncidentsAtHasAll(incidents: seq<Incident>, target: Target, i: nat)
    requires i < |incidents| && incidents[i].target == target
    ensures incidents[i].token in TokensOf(IncidentsAt(incidents, target))
  {
    var n := |incidents| - 1;
    var before, all := IncidentsAt(incidents[..n], target), IncidentsAt(incidents, target);
    if i == n {
      assert all[|before|] == incidents[n];
    } else {
      IncidentsAtHasAll(incidents[..n], target, i);
      var k :| 0 <= k < |before| && before[k].token == incidents[i].token;
      assert all[k] == before[k];
    }
  }

  ghost predicate AllHold(s: System, pids: set<ScrapeId>) {
    forall pid :: pid in pids ==>
      && pid in s.scrapes && Holds(s.scrapes[pid].stage).Some?
      && Holds(s.scrapes[pid].stage).value in s.clients
  }

  ghost function CarriedTokens(s: System, pids: set<ScrapeId>): set<Token>
    requires AllHold(s, pids)
  {
    set pid | pid in pids :: s.clients[Holds(s.scrapes[pid].stage).value].auth.token
  }

  lemma {:induction false} CarriedTokensSize(s: System, pids: set<ScrapeId>)
    requires AllHold(s, pids)
    ensures |CarriedTokens(s, pids)| <= |pids|
    decreases pids
  {
    if pids != {} {
      var pid :| pid in pids;
      CarriedTokensSize(s, pids - {pid});
      var token := s.clients[Holds(s.scrapes[pid].stage).value].auth.token;
      assert CarriedTokens(s, pids) == CarriedTokens(s, pids - {pid}) + {token};
    }
  }

  lemma CreatorsHold(s: System, target: Target)
    requires ScrapesOk(s)
    ensures AllHold(s, Creators(s, target))
  {
    forall pid | pid in Creators(s, target) ensures Holds(s.scrapes[pid].stage).value in s.clients {
      assert ScrapeOk(s, pid);
    }
  }

  ghost function MappedToken(s: System, target: Target): set<Token> {
    if target in s.cache && s.cache[target] in s.clients then {s.clients[s.cache[target]].auth.token} else {}
  }

  lemma AccountIsCounted(s: System, target: Target, token: Token)
    requires AllHold(s, Creators(s, target)) && Accounted(s, target, token)
    ensures token in MappedToken(s, target) + CarriedTokens(s, Creators(s, target))
                     + TokensOf(IncidentsAt(s.incidents, target))
  {
    if pid :| CarriedToken(s, pid, target, token) {
      assert pid in Creators(s, target);
    } else if Logged(s, target, token) {
      var i :| 0 <= i < |s.incidents| && s.incidents[i].target == target && s.incidents[i].token == token;
      IncidentsAtHasAll(s.incidents, target, i);
    }
  }

  /** The cap: tokens live at a target number at most one if a client is stored for it, plus its
      creators in flight, plus its incidents so far. */
  lemma LiveTokensBounded(ss: seq<System>, es: seq<Event>, n: nat, target: Target)
    requires IsRun(ss, es) && n < |ss|
    ensures |ServerOf(ss[n], target).live| <=
              (if target in ss[n].cache then 1 else 0)
              + |Creators(ss[n], target)| + |IncidentsAt(ss[n].incidents, target)|
  {
    var s := ss[n];
    Invariant.SystemHolds(ss, es, n);
    CreatorsHold(s, target);
    var live, creators := ServerOf(s, target).live, Creators(s, target);
    var carried, lost := CarriedTokens(s, creators), TokensOf(IncidentsAt(s.incidents, target));
    forall token | token in live ensures token in MappedToken(s, target) + carried + lost {
      AccountIsCounted(s, target, token);
    }
    SubsetSize(live, MappedToken(s, target) + carried + lost);
    CarriedTokensSize(s, creators);
    TokensOfSize(IncidentsAt(s.incidents, target));
  }

  /** The client an event is about, where one acts. */
  function ActingClient(s: System, e: Event): ClientId
    requires Enabled(s, e) && (e.Login? || e.LoserLogout? || e.BeginCall? || e.CallStep? || e.Visit?)
  {
    if e.CallStep? then e.c else if e.Visit? then s.cache[e.target] else s.scrapes[e.pid].stage.c
  }

  /** Incidents are only ever added, one at a time, and only by the event they name: at the target of
      the client that acted, with the token the server granted it in vain or the one it was logging
      out. */
  lemma IncidentsNameTheirEvent(s: System, e: Event, s': System)
    requires Step(s, e, s') && s'.incidents != s.incidents
    ensures |s'.incidents| == |s.incidents| + 1 && s.incidents <= s'.incidents
    ensures e.Login? || e.LoserLogout? || e.CallStep? || e.Visit?
    ensures var m, incident := s.clients[ActingClient(s, e)], s'.incidents[|s.incidents|];
            && incident.target == m.target
            && match incident
               case LoginReplyLost(_, t) =>
                 (e.Login? && e.reply == P.Refused(Some(t)))
                 || (e.CallStep? && e.act.Ensure? && e.act.reply == P.Refused(Some(t)) && m.auth.token == "")
               case LoserLogoutFailed(_, t) => e.LoserLogout? && e.answer.NoAnswer? && t == m.auth.token && t != ""
               case LogoutUnconfirmed(_, t) =>
                 && (e.LoserLogout? || e.Visit?)
                 && e.answer.Answer? && e.answer.status != 200 && e.answer.status != 401
                 && t == m.auth.token && t != ""
  {
  }

  // ---------------------------------------------------------------- agreement

  lemma {:induction false} CacheEntriesStay(ss: seq<System>, es: seq<Event>, i: nat, j: nat, target: Target)
    requires IsRun(ss, es) && i <= j < |ss| && target in ss[i].cache
    ensures target in ss[j].cache && ss[j].cache[target] == ss[i].cache[target]
    decreases j
  {
    if i < j {
      CacheEntriesStay(ss, es, i, j - 1, target);
      assert Step(ss[j - 1], es[j - 1], ss[j]);
    }
  }

  /** However many scrapes of a target race, and whenever they get their client, they get the same
      one, which logged in. */
  lemma ScrapesAgree(ss: seq<System>, es: seq<Event>, i: nat, j: nat, p: ScrapeId, q: ScrapeId)
    requires IsRun(ss, es) && i <= j < |ss|
    requires p in ss[i].scrapes && q in ss[j].scrapes
    requires ss[i].scrapes[p].target == ss[j].scrapes[q].target
    requires ss[i].scrapes[p].stage.Using? && ss[j].scrapes[q].stage.Using?
    ensures ss[i].scrapes[p].stage.c == ss[j].scrapes[q].stage.c
    ensures ss[j].scrapes[q].stage.c in ss[j].clients
    ensures ss[j].clients[ss[j].scrapes[q].stage.c].auth.tally.logins >= 1
  {
    Invariant.SystemHolds(ss, es, i);
    Invariant.SystemHolds(ss, es, j);
    assert ScrapeOk(ss[i], p) && ScrapeOk(ss[j], q);
    CacheEntriesStay(ss, es, i, j, ss[i].scrapes[p].target);
  }

  /** Every client that logged in and was not stored is still held by the scrape that created it,
      or that scrape made exactly one logout attempt; it logged in once, and a token it still
      caches is on the incident list. */
  lemma UnmappedClientsAreSettled(ss: seq<System>, es: seq<Event>, n: nat, c: ClientId)
    requires IsRun(ss, es) && n < |ss|
    requires c in ss[n].clients && ss[n].clients[c].auth.tally.logins >= 1 && !Mapped(ss[n], c)
    ensures var m := ss[n].clients[c];
            || (m.logoutTries == 0 && exists pid :: HeldBy(ss[n], pid, c) && ss[n].scrapes[pid].target == m.target)
            || (m.logoutTries == 1 && m.auth.tally.logins == 1
                && (m.auth.token == "" || Logged(ss[n], m.target, m.auth.token)))
  {
    Invariant.SystemHolds(ss, es, n);
    assert Placed(ss[n], c);
    if pid :| HeldBy(ss[n], pid, c) {
      assert ScrapeOk(ss[n], pid);
    }
  }

  /** At rest, a target's live tokens are the mapped client's own and those of its incidents. */
  lemma AtRestOneTokenPerTarget(ss: seq<System>, es: seq<Event>, n: nat, target: Target)
    requires IsRun(ss, es) && n < |ss| && AllOver(ss[n])
    ensures |ServerOf(ss[n], target).live| <=
              (if target in ss[n].cache then 1 else 0) + |IncidentsAt(ss[n].incidents, target)|
    ensures forall c :: c in ss[n].clients && !Mapped(ss[n], c) && ss[n].clients[c].auth.tally.logins >= 1 ==>
              ss[n].clients[c].logoutTries == 1
  {
    LiveTokensBounded(ss, es, n, target);
    assert Creators(ss[n], target) == {};
    forall c | c in ss[n].clients && !Mapped(ss[n], c) && ss[n].clients[c].auth.tally.logins >= 1
      ensures ss[n].clients[c].logoutTries == 1
    {
      UnmappedClientsAreSettled(ss, es, n, c);
    }
  }

  // ---------------------------------------------------------------- every client's own ledger

  /** In the exporter no `Login` ever overwrites a cached token, so a client's logins are paid for
      by its creation, by 401s on distinct tokens and by logouts. */
  lemma LoginsPerClient(ss: seq<System>, es: seq<Event>, n: nat, c: ClientId)
    requires IsRun(ss, es) && n < |ss| && c in ss[n].clients
    ensures var t := ss[n].clients[c].auth.tally;
            t.overwrites == 0 && t.logins <= 1 + |t.rejected| + t.logouts
  {
    Invariant.SystemHolds(ss, es, n);
    assert ClientOk(ss[n], c);
    var t := ss[n].clients[c].auth.tally;
    NoDupLength(t.cleared, t.rejected);
  }

  lemma {:induction false} RetiredStays(ss: seq<System>, es: seq<Event>, i: nat, j: nat, c: ClientId)
    requires IsRun(ss, es) && i <= j < |ss| && c in ss[i].clients
    ensures c in ss[j].clients
    ensures ss[i].clients[c].auth.tally.retired <= ss[j].clients[c].auth.tally.retired
    ensures ss[i].clients[c].auth.token != "" && ss[j].clients[c].auth.token != ss[i].clients[c].auth.token ==>
              ss[i].clients[c].auth.token in ss[j].clients[c].auth.tally.retired
    decreases j
  {
    if i < j {
      RetiredStays(ss, es, i, j - 1, c);
      Invariant.SystemHolds(ss, es, j - 1);
      OneStepRetires(ss[j - 1], es[j - 1], ss[j], c);
    }
  }

  /** What client c does in a step, if anything. */
  ghost function ActOf(s: System, e: Event, c: ClientId): Option<P.Action>
    requires Enabled(s, e)
  {
    match e
    case Login(pid, reply) => if s.scrapes[pid].stage.c == c then Some(P.Login(reply)) else None
    case LoserLogout(pid, answer) => if s.scrapes[pid].stage.c == c then Some(P.Logout(answer)) else None
    case BeginCall(pid, id) => if s.scrapes[pid].stage.c == c then Some(P.Begin(id)) else None
    case CallStep(d, act) => if d == c then Some(act) else None
    case Visit(target, answer) => if s.cache[target] == c then Some(P.Logout(answer)) else None
    case _ => None
  }

  lemma ActorsProject(s: System, e: Event, s': System, c: ClientId)
    requires Step(s, e, s') && c in s.clients && ActOf(s, e, c).Some?
    ensures c in s'.clients && s'.clients[c].target == s.clients[c].target
    ensures P.Step(View(s, c), ActOf(s, e, c).value, View(s', c)) && P.Fresh(View(s, c), ActOf(s, e, c).value)
  {
  }

  lemma OthersProject(s: System, e: Event, s': System, c: ClientId)
    requires Step(s, e, s') && c in s.clients && ActOf(s, e, c) == None
    ensures c in s'.clients && s'.clients[c] == s.clients[c]
  {
  }

  /** Projection: a step of the exporter is, for each client, a step of its own protocol machine
      or leaves its fields alone. */
  lemma StepsProject(s: System, e: Event, s': System, c: ClientId)
    requires Step(s, e, s') && c in s.clients
    ensures c in s'.clients && s'.clients[c].target == s.clients[c].target
    ensures match ActOf(s, e, c)
            case Some(act) => P.Step(View(s, c), act, View(s', c)) && P.Fresh(View(s, c), act)
            case None => s'.clients[c].auth == s.clients[c].auth
  {
    if ActOf(s, e, c).Some? { ActorsProject(s, e, s', c); } else { OthersProject(s, e, s', c); }
  }

  lemma OneStepRetires(s: System, e: Event, s': System, c: ClientId)
    requires SystemOk(s) && Step(s, e, s') && c in s.clients
    ensures c in s'.clients
    ensures s.clients[c].auth.tally.retired <= s'.clients[c].auth.tally.retired
    ensures s.clients[c].auth.token != "" && s'.clients[c].auth.token != s.clients[c].auth.token ==>
              s.clients[c].auth.token in s'.clients[c].auth.tally.retired
  {
    StepsProject(s, e, s', c);
    if ActOf(s, e, c).Some? {
      assert ClientOk(s, c);
      P.StepKeepsHistory(View(s, c), ActOf(s, e, c).value, View(s', c));
    }
  }

  /** No resurrection, for every client of the exporter. */
  lemma NoResurrection(ss: seq<System>, es: seq<Event>, i: nat, j: nat, k: nat, c: ClientId)
    requires IsRun(ss, es) && i < j < k < |ss|
    requires c in ss[i].clients && c in ss[j].clients
    requires ss[i].clients[c].auth.token != "" && ss[j].clients[c].auth.token != ss[i].clients[c].auth.token
    ensures c in ss[k].clients && ss[k].clients[c].auth.token != ss[i].clients[c].auth.token
  {
    RetiredStays(ss, es, i, j, c);
    RetiredStays(ss, es, j, k, c);
    Invariant.SystemHolds(ss, es, k);
    assert ClientOk(ss[k], c);
  }
}
