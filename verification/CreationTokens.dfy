/**
 Which token survives: as long as nothing expires and nobody logs the mapped client out, a target
 keeps live the one token its stored client was granted at its creation, and everything else that
 is live at rest is on the incident list.
 */
module CreationTokens {
  import opened Collections
  import opened ClientCache
  import opened TokenConservation
  import Invariant = ClientCacheInvariant
  import P = AuthProtocol

  // ---------------------------------------------------------------- clients of one target

  /** Clients of one target cache different tokens. */
  ghost predicate Apart(s: System) {
    forall c, d :: c in s.clients && d in s.clients && c != d && s.clients[c].target == s.clients[d].target ==>
      s.clients[c].auth.token == "" || s.clients[c].auth.token != s.clients[d].auth.token
  }

  /** What is on the incident list has been issued. */
  ghost predicate ListedWasIssued(s: System) {
    forall i :: 0 <= i < |s.incidents| ==> s.incidents[i].token in ServerOf(s, s.incidents[i].target).issued
  }

  /** A step leaves a client its token, drops it, or gives the actor one never issued before. */
  lemma TokenMoves(s: System, e: Event, s': System, c: ClientId)
    requires Step(s, e, s') && c in s.clients
    ensures c in s'.clients && s'.clients[c].target == s.clients[c].target
    ensures var token, token' := s.clients[c].auth.token, s'.clients[c].auth.token;
            || token' == token
            || (ActOf(s, e, c).Some? && (token' == "" || token' !in ServerOf(s, s.clients[c].target).issued))
  {
    StepsProject(s, e, s', c);
  }

  lemma StepKeepsApart(s: System, e: Event, s': System)
    requires ClientsOk(s) && Step(s, e, s') && Apart(s)
    ensures Apart(s')
  {
    forall c, d | c in s'.clients && d in s'.clients && c != d && s'.clients[c].target == s'.clients[d].target
      ensures s'.clients[c].auth.token == "" || s'.clients[c].auth.token != s'.clients[d].auth.token
    {
      if c in s.clients && d in s.clients {
        TokenMoves(s, e, s', c);
        TokenMoves(s, e, s', d);
        assert ClientOk(s, c) && ClientOk(s, d);
      }
    }
  }

  lemma StepKeepsListed(s: System, e: Event, s': System)
    requires ClientsOk(s) && Step(s, e, s') && ListedWasIssued(s)
    ensures ListedWasIssued(s')
  {
    IssuedGrows(s, e, s');
    if s'.incidents != s.incidents {
      NewIncidentWasIssued(s, e, s');
    }
  }

  lemma IssuedGrows(s: System, e: Event, s': System)
    requires Step(s, e, s')
    ensures forall target :: ServerOf(s, target).issued <= ServerOf(s', target).issued
  {
  }

  lemma NewIncidentWasIssued(s: System, e: Event, s': System)
    requires ClientsOk(s) && Step(s, e, s') && s'.incidents != s.incidents
    ensures |s'.incidents| == |s.incidents| + 1 && s.incidents <= s'.incidents
    ensures var incident := s'.incidents[|s.incidents|];
            incident.token in ServerOf(s', incident.target).issued
  {
    IncidentsNameTheirEvent(s, e, s');
    var c := ActingClient(s, e);
    assert ClientOk(s, c);
    StepsProject(s, e, s', c);
    assert ActOf(s, e, c).Some?;
  }

  lemma {:induction false} ApartHolds(ss: seq<System>, es: seq<Event>, n: nat)
    requires IsRun(ss, es) && n < |ss|
    ensures Apart(ss[n]) && ListedWasIssued(ss[n])
    decreases n
  {
    if n > 0 {
      ApartHolds(ss, es, n - 1);
      Invariant.SystemHolds(ss, es, n - 1);
      StepKeepsApart(ss[n - 1], es[n - 1], ss[n]);
      StepKeepsListed(ss[n - 1], es[n - 1], ss[n]);
    }
  }

  // ---------------------------------------------------------------- survival

  /** Logged in, and never asked to log out. */
  predicate InService(s: System, c: ClientId) {
    c in s.clients && s.clients[c].auth.tally.logins >= 1 && s.clients[c].logoutTries == 0
  }

  /** Still on its first token, which is live and not on the incident list. */
  ghost predicate OnFirstToken(s: System, c: ClientId)
    requires c in s.clients
  {
    var auth, target := s.clients[c].auth, s.clients[c].target;
    && auth.token != "" && auth.tally.logins == 1 && auth.tally.retired == {}
    && auth.token in ServerOf(s, target).live
    && !Logged(s, target, auth.token)
  }

  ghost predicate Intact(s: System, target: Target) {
    && (target in s.cache ==> InService(s, s.cache[target]))
    && forall c :: InService(s, c) && s.clients[c].target == target ==> OnFirstToken(s, c)
  }

  /** Nothing expires at the target, and its mapped client is not asked to log out. */
  predicate Spares(e: Event, target: Target) {
    !(e.Expire? && e.target == target) && !(e.Visit? && e.target == target)
  }

  /** The event by which the creator of c was granted the token. */
  ghost predicate Grants(s: System, e: Event, c: ClientId, token: Token) {
    e.Login? && e.reply == P.Granted(token) && e.pid in s.scrapes && s.scrapes[e.pid].stage == Created(c)
  }

  /** Tokens other than those logged out in this step stay live. */
  lemma OthersStayLive(s: System, e: Event, s': System, target: Target, token: Token)
    requires CacheOk(s) && Step(s, e, s') && Spares(e, target)
    requires token in ServerOf(s, target).live
    requires e.LoserLogout? ==> var m := s.clients[ActingClient(s, e)]; m.target == target ==> m.auth.token != token
    ensures token in ServerOf(s', target).live
  {
    if e.LoserLogout? || e.Visit? {
      assert e.Visit? ==> s.clients[ActingClient(s, e)].target == e.target;
    }
  }

  lemma StaysUnlisted(s: System, e: Event, s': System, target: Target, token: Token)
    requires CacheOk(s) && Step(s, e, s') && Spares(e, target)
    requires token in ServerOf(s, target).issued && !Logged(s, target, token)
    requires e.LoserLogout? ==> var m := s.clients[ActingClient(s, e)]; m.target == target ==> m.auth.token != token
    ensures !Logged(s', target, token)
  {
    if s'.incidents != s.incidents {
      IncidentsNameTheirEvent(s, e, s');
      assert e.Visit? ==> s.clients[ActingClient(s, e)].target == e.target;
    }
  }

  /** A client keeps its first token for as long as it is in service. */
  lemma KeepsFirstToken(s: System, e: Event, s': System, target: Target, c: ClientId)
    requires ClientsOk(s) && CacheOk(s) && ScrapesOk(s) && Apart(s) && Step(s, e, s') && Spares(e, target)
    requires InService(s, c) && InService(s', c) && s.clients[c].target == target && OnFirstToken(s, c)
    ensures s'.clients[c].target == target && s'.clients[c].auth.token == s.clients[c].auth.token
    ensures OnFirstToken(s', c)
  {
    var token := s.clients[c].auth.token;
    assert ClientOk(s, c);
    StepsProject(s, e, s', c);
    KeepsItsToken(s, e, s', target, c);
    if e.LoserLogout? {
      LoserIsAnother(s, e, s', c);
    }
    OthersStayLive(s, e, s', target, token);
    StaysUnlisted(s, e, s', target, token);
  }

  lemma KeepsItsToken(s: System, e: Event, s': System, target: Target, c: ClientId)
    requires ClientsOk(s) && CacheOk(s) && ScrapesOk(s) && Step(s, e, s') && Spares(e, target)
    requires InService(s, c) && InService(s', c) && s.clients[c].target == target && OnFirstToken(s, c)
    ensures var auth, auth' := s.clients[c].auth, s'.clients[c].auth;
            auth'.token == auth.token && auth'.tally.logins == 1 && auth'.tally.retired == {}
  {
    StepsProject(s, e, s', c);
    if ActOf(s, e, c).Some? {
      OnlyCallsAct(s, e, s', target, c);
      assert ClientOk(s, c);
      CallsKeepTheToken(View(s, c), ActOf(s, e, c).value, View(s', c));
    }
  }

  /** What a client in service does, if it is to stay so. */
  lemma OnlyCallsAct(s: System, e: Event, s': System, target: Target, c: ClientId)
    requires CacheOk(s) && ScrapesOk(s) && Step(s, e, s') && Spares(e, target)
    requires InService(s, c) && InService(s', c) && s.clients[c].target == target && ActOf(s, e, c).Some?
    ensures e.BeginCall? || e.CallStep?
  {
    assert e.Login? ==> ScrapeOk(s, e.pid);
  }

  lemma CallsKeepTheToken(s: P.State, act: P.Action, s': P.State)
    requires P.Step(s, act, s') && (act.Begin? || IsCallStep(act)) && s.client.token != ""
    requires act.Invalidate? ==> s.client.calls[act.id].pc.token != s.client.token
    ensures s'.client.token == s.client.token
    ensures s'.client.tally.logins == s.client.tally.logins && s'.client.tally.retired == s.client.tally.retired
  {
  }

  lemma LoserIsAnother(s: System, e: Event, s': System, c: ClientId)
    requires Apart(s) && Step(s, e, s') && e.LoserLogout?
    requires InService(s, c) && InService(s', c) && s.clients[c].auth.token != ""
    ensures var m := s.clients[ActingClient(s, e)];
            m.target == s.clients[c].target ==> m.auth.token != s.clients[c].auth.token
  {
    assert ActingClient(s, e) != c;
  }

  /** A client comes into service by its creator's login. */
  lemma GetsFirstToken(s: System, e: Event, s': System, c: ClientId)
    requires ClientsOk(s) && CacheOk(s) && ScrapesOk(s) && ListedWasIssued(s) && Step(s, e, s')
    requires !InService(s, c) && InService(s', c)
    ensures Grants(s, e, c, s'.clients[c].auth.token)
    ensures OnFirstToken(s', c)
  {
    if e.Login? {
      assert ScrapeOk(s, e.pid);
    } else {
      FirstLoginIsTheCreators(s, e, s', c);
    }
  }

  lemma FirstLoginIsTheCreators(s: System, e: Event, s': System, c: ClientId)
    requires ClientsOk(s) && CacheOk(s) && Step(s, e, s')
    requires !InService(s, c) && InService(s', c)
    ensures e.Login?
  {
    if c in s.clients {
      assert ClientOk(s, c);
      StepsProject(s, e, s', c);
    }
  }

  lemma MappedStaysInService(s: System, e: Event, s': System, target: Target)
    requires CacheOk(s) && ScrapesOk(s) && Step(s, e, s') && Spares(e, target)
    requires target in s'.cache && (target in s.cache ==> InService(s, s.cache[target]))
    ensures InService(s', s'.cache[target])
  {
    if target in s.cache {
      var c := s.cache[target];
      StepsProject(s, e, s', c);
      MappedIsNotAsked(s, e, s', target, c);
    } else {
      assert ScrapeOk(s, e.pid);
    }
  }

  lemma MappedIsNotAsked(s: System, e: Event, s': System, target: Target, c: ClientId)
    requires CacheOk(s) && ScrapesOk(s) && Step(s, e, s') && Spares(e, target)
    requires target in s.cache && s.cache[target] == c
    ensures c in s'.clients && s'.clients[c].logoutTries == s.clients[c].logoutTries
    ensures s'.cache[target] == c
  {
    if e.LoserLogout? {
      assert ScrapeOk(s, e.pid);
    }
  }

  lemma StepKeepsIntact(s: System, e: Event, s': System, target: Target)
    requires SystemOk(s) && Apart(s) && ListedWasIssued(s)
    requires Step(s, e, s') && Spares(e, target) && Intact(s, target)
    ensures Intact(s', target)
    ensures forall c :: InService(s', c) && s'.clients[c].target == target ==>
              || Grants(s, e, c, s'.clients[c].auth.token)
              || (InService(s, c) && s.clients[c].target == target
                  && s.clients[c].auth.token == s'.clients[c].auth.token)
  {
    if target in s'.cache {
      MappedStaysInService(s, e, s', target);
    }
    forall c | InService(s', c) && s'.clients[c].target == target
      ensures OnFirstToken(s', c)
      ensures || Grants(s, e, c, s'.clients[c].auth.token)
              || (InService(s, c) && s.clients[c].target == target
                  && s.clients[c].auth.token == s'.clients[c].auth.token)
    {
      if InService(s, c) {
        StepsProject(s, e, s', c);
        KeepsFirstToken(s, e, s', target, c);
      } else {
        GetsFirstToken(s, e, s', c);
      }
    }
  }

  // ---------------------------------------------------------------- main results

  predicate SparesAll(es: seq<Event>, target: Target) {
    forall k {:trigger es[k]} :: 0 <= k < |es| ==> Spares(es[k], target)
  }

  ghost predicate GrantedBefore(ss: seq<System>, es: seq<Event>, n: nat, c: ClientId, token: Token) {
    exists k {:trigger es[k]} :: 0 <= k < n <= |es| && k < |ss| && Grants(ss[k], es[k], c, token)
  }

  lemma {:induction false} FirstTokensSurvive(ss: seq<System>, es: seq<Event>, n: nat, target: Target)
    requires IsRun(ss, es) && n < |ss| && SparesAll(es[..n], target)
    ensures Intact(ss[n], target)
    ensures forall c :: InService(ss[n], c) && ss[n].clients[c].target == target ==>
              GrantedBefore(ss, es, n, c, ss[n].clients[c].auth.token)
    decreases n
  {
    if n > 0 {
      assert es[..n][..n - 1] == es[..n - 1] && es[..n][n - 1] == es[n - 1];
      FirstTokensSurvive(ss, es, n - 1, target);
      Invariant.SystemHolds(ss, es, n - 1);
      ApartHolds(ss, es, n - 1);
      StepKeepsIntact(ss[n - 1], es[n - 1], ss[n], target);
      forall c | InService(ss[n], c) && ss[n].clients[c].target == target
        ensures GrantedBefore(ss, es, n, c, ss[n].clients[c].auth.token)
      {
        StillGranted(ss, es, n, c, ss[n].clients[c].auth.token);
      }
    }
  }

  lemma StillGranted(ss: seq<System>, es: seq<Event>, n: nat, c: ClientId, token: Token)
    requires 0 < n <= |es| && n <= |ss|
    requires Grants(ss[n - 1], es[n - 1], c, token) || GrantedBefore(ss, es, n - 1, c, token)
    ensures GrantedBefore(ss, es, n, c, token)
  {
    if !Grants(ss[n - 1], es[n - 1], c, token) {
      var k :| 0 <= k < n - 1 && Grants(ss[k], es[k], c, token);
      assert Grants(ss[k], es[k], c, token);
    }
  }

  ghost function Unlisted(s: System, target: Target): set<Token> {
    set token | token in ServerOf(s, target).live && !Logged(s, target, token)
  }

  /** Survival: while nothing expires at a target and its stored client is not logged out, that client
      caches the one token its creator was granted for it and has never had another; the token is live. */
  lemma CreationTokenSurvives(ss: seq<System>, es: seq<Event>, n: nat, target: Target) returns (token: Token)
    requires IsRun(ss, es) && n < |ss| && SparesAll(es[..n], target) && target in ss[n].cache
    ensures CachedToken(ss[n], target, token) && token != ""
    ensures GrantedBefore(ss, es, n, ss[n].cache[target], token)
    ensures var t := ss[n].clients[ss[n].cache[target]].auth.tally; t.logins == 1 && t.retired == {}
    ensures token in Unlisted(ss[n], target)
  {
    FirstTokensSurvive(ss, es, n, target);
    Invariant.SystemHolds(ss, es, n);
    var c := ss[n].cache[target];
    assert OnFirstToken(ss[n], c);
    token := ss[n].clients[c].auth.token;
  }

  /** At rest exactly that token is live, besides those on the incident list; without a stored client
      none is. */
  lemma AtRestExactlyTheCreationToken(ss: seq<System>, es: seq<Event>, n: nat, target: Target)
    requires IsRun(ss, es) && n < |ss| && SparesAll(es[..n], target) && AllOver(ss[n])
    ensures target in ss[n].cache ==>
              && ss[n].cache[target] in ss[n].clients
              && Unlisted(ss[n], target) == {ss[n].clients[ss[n].cache[target]].auth.token}
    ensures target !in ss[n].cache ==> Unlisted(ss[n], target) == {}
  {
    Invariant.SystemHolds(ss, es, n);
    forall token | token in Unlisted(ss[n], target) ensures CachedToken(ss[n], target, token) {
      TokensAreConserved(ss, es, n, target, token);
    }
    if target in ss[n].cache {
      var token := CreationTokenSurvives(ss, es, n, target);
    }
  }
}
