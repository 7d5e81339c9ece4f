/**
 The signal goroutine: drain, then log every cached client out.  It leaves nothing behind, in every
 way it can go on, if and only if no scrape was in flight when the logouts began.
 */
module Shutdown {
  import opened Collections
  import opened ClientCache
  import opened TokenConservation
  import Invariant = ClientCacheInvariant
  import P = AuthProtocol

  ghost predicate DrainedPhase(phase: Phase) {
    (phase.LoggingOut? || phase.Stopped?) && phase.drained
  }

  lemma CallsNeedAScrape(s: System, e: Event)
    requires SystemOk(s) && Enabled(s, e) && e.CallStep?
    ensures !AllOver(s)
  {
    assert InUse(s, e.c, e.act.id);
  }

  lemma DrainedStep(s: System, e: Event, s': System)
    requires SystemOk(s) && DrainedPhase(s.phase) && Step(s, e, s')
    ensures DrainedPhase(s'.phase) && s'.clients.Keys == s.clients.Keys && s'.cache == s.cache
    ensures forall c :: c in s.clients ==> s'.clients[c].auth.tally.logins == s.clients[c].auth.tally.logins
  {
    DrainedEvents(s, e);
  }

  /** All that can still happen then. */
  lemma DrainedEvents(s: System, e: Event)
    requires SystemOk(s) && DrainedPhase(s.phase) && Enabled(s, e)
    ensures e.Visit? || e.EndRange? || e.Expire?
  {
    assert AllOver(s);
    if e.CallStep? {
      CallsNeedAScrape(s, e);
    }
  }

  /** Once logoutAll has started with no scrape in flight, nobody logs in any more. */
  lemma {:induction false} DrainedMeansNoMoreLogins(ss: seq<System>, es: seq<Event>, i: nat, j: nat)
    requires IsRun(ss, es) && i < j < |ss| && es[i].StartLogout? && AllOver(ss[i])
    ensures DrainedPhase(ss[j].phase) && ss[j].clients.Keys == ss[i].clients.Keys && ss[j].cache == ss[i].cache
    ensures forall c :: c in ss[i].clients ==> ss[j].clients[c].auth.tally.logins == ss[i].clients[c].auth.tally.logins
    decreases j
  {
    assert Step(ss[j - 1], es[j - 1], ss[j]);
    if i + 1 < j {
      DrainedMeansNoMoreLogins(ss, es, i, j - 1);
      Invariant.SystemHolds(ss, es, j - 1);
      DrainedStep(ss[j - 1], es[j - 1], ss[j]);
    }
  }

  ghost predicate LogoutUnanswered(es: seq<Event>, n: nat, target: Target) {
    exists k :: 0 <= k < n <= |es| && es[k].Visit? && es[k].target == target && es[k].answer.NoAnswer?
  }

  ghost function FailedTargets(phase: Phase): set<Target> {
    if phase.LoggingOut? || phase.Stopped? then phase.failed else {}
  }

  lemma {:induction false} FailedMeansUnanswered(ss: seq<System>, es: seq<Event>, n: nat, target: Target)
    requires IsRun(ss, es) && n < |ss| && target in FailedTargets(ss[n].phase)
    ensures LogoutUnanswered(es, n, target)
    decreases n
  {
    if n > 0 {
      assert Step(ss[n - 1], es[n - 1], ss[n]);
      if target in FailedTargets(ss[n - 1].phase) {
        FailedMeansUnanswered(ss, es, n - 1, target);
        var k :| 0 <= k < n - 1 && es[k].Visit? && es[k].target == target && es[k].answer.NoAnswer?;
        assert es[k].Visit?;
      } else {
        assert es[n - 1].Visit? && es[n - 1].target == target;
      }
    }
  }

  /** Shutdown: if no scrape is in flight when logoutAll starts, then once its Range is over every
      mapped client has dropped its token, unless its own logout went unanswered; and what is
      still live at the servers is that, or on the incident list. */
  lemma ShutdownLeavesNothingBehind(ss: seq<System>, es: seq<Event>, i: nat, j: nat, target: Target)
    requires IsRun(ss, es) && i < j < |ss| && es[i].StartLogout? && AllOver(ss[i])
    requires ss[j].phase.Stopped?
    ensures target in ss[j].cache ==> CachedToken(ss[j], target, "") || LogoutUnanswered(es, j, target)
    ensures forall token :: token in ServerOf(ss[j], target).live ==>
              Logged(ss[j], target, token) || LogoutUnanswered(es, j, target)
  {
    DrainedMeansNoMoreLogins(ss, es, i, j);
    Invariant.SystemHolds(ss, es, j);
    if target in ss[j].cache {
      assert LoggedOut(ss[j], target, ss[j].phase.failed);
      if target in ss[j].phase.failed {
        FailedMeansUnanswered(ss, es, j, target);
      }
    }
    forall token | token in ServerOf(ss[j], target).live
      ensures Logged(ss[j], target, token) || LogoutUnanswered(es, j, target)
    {
      TokensAreConserved(ss, es, j, target, token);
      assert AllOver(ss[j]);
    }
  }

  // ---------------------------------------------------------------- one attempt each

  /** The mapped clients have been asked to log out once if they were visited, and else not at all. */
  ghost predicate AttemptsOk(s: System) {
    && (s.phase.LoggingOut? ==> s.phase.visited <= s.cache.Keys)
    && forall target :: target in s.cache && s.cache[target] in s.clients ==>
         TriesOk(s.phase, target, s.clients[s.cache[target]].logoutTries)
  }

  predicate TriesOk(phase: Phase, target: Target, tries: nat) {
    match phase
    case LoggingOut(_, _, visited, _) => tries == if target in visited then 1 else 0
    case Stopped(_, _) => tries <= 1
    case _ => tries == 0
  }

  lemma AttemptsKeep(s: System, e: Event, s': System)
    requires CacheOk(s) && ScrapesOk(s) && Step(s, e, s') && AttemptsOk(s)
    ensures AttemptsOk(s')
  {
    if e.LoserLogout? || e.LoadOrStore? {
      assert ScrapeOk(s, e.pid);
    }
  }

  lemma {:induction false} AttemptsHold(ss: seq<System>, es: seq<Event>, n: nat)
    requires IsRun(ss, es) && n < |ss|
    ensures AttemptsOk(ss[n])
    decreases n
  {
    if n > 0 {
      AttemptsHold(ss, es, n - 1);
      Invariant.SystemHolds(ss, es, n - 1);
      AttemptsKeep(ss[n - 1], es[n - 1], ss[n]);
    }
  }

  lemma AttemptsStay(s: System, e: Event, s': System, target: Target)
    requires CacheOk(s) && ScrapesOk(s) && Step(s, e, s') && target in s.cache && !e.Visit?
    ensures target in s'.cache && s'.cache[target] == s.cache[target] && s'.cache[target] in s'.clients
    ensures s'.clients[s'.cache[target]].logoutTries == s.clients[s.cache[target]].logoutTries
  {
    if e.LoserLogout? {
      assert ScrapeOk(s, e.pid);
    }
  }

  /** The Range knows every target that was cached when it began. */
  lemma {:induction false} RangeListsAll(ss: seq<System>, es: seq<Event>, i: nat, j: nat)
    requires IsRun(ss, es) && i < j < |ss| && es[i].StartLogout?
    ensures ss[j].phase.Stopped? || (ss[j].phase.LoggingOut? && ss[j].phase.listed == ss[i].cache.Keys)
    decreases j
  {
    assert Step(ss[j - 1], es[j - 1], ss[j]);
    if i + 1 < j {
      RangeListsAll(ss, es, i, j - 1);
    }
  }

  /** `logoutAll` asks every client that was cached when it began to log out, and asks it once. */
  lemma {:induction false} ExactlyOneAttempt(ss: seq<System>, es: seq<Event>, i: nat, j: nat, target: Target)
    requires IsRun(ss, es) && i < j < |ss| && es[i].StartLogout? && target in ss[i].cache && ss[j].phase.Stopped?
    ensures target in ss[j].cache && ss[j].cache[target] == ss[i].cache[target]
    ensures ss[j].cache[target] in ss[j].clients && ss[j].clients[ss[j].cache[target]].logoutTries == 1
    decreases j
  {
    assert Step(ss[j - 1], es[j - 1], ss[j]);
    CacheEntriesStay(ss, es, i, j - 1, target);
    Invariant.SystemHolds(ss, es, j - 1);
    AttemptsStay(ss[j - 1], es[j - 1], ss[j], target);
    RangeListsAll(ss, es, i, i + 1);
    if ss[j - 1].phase.Stopped? {
      ExactlyOneAttempt(ss, es, i, j - 1, target);
    } else {
      assert i + 1 < j;
      RangeListsAll(ss, es, i, j - 1);
      AttemptsHold(ss, es, j - 1);
    }
  }

  // ---------------------------------------------------------------- continuations

  ghost predicate Segment(ss: seq<System>, es: seq<Event>) {
    |ss| == |es| + 1 && forall i {:trigger es[i]} :: 0 <= i < |es| ==> Step(ss[i], es[i], ss[i + 1])
  }

  /** No logout of the Range stays without an answer. */
  predicate AllAnswered(es: seq<Event>) {
    forall i {:trigger es[i]} :: 0 <= i < |es| && es[i].Visit? ==> es[i].answer.Answer?
  }

  ghost predicate Via(s: System, ss: seq<System>, es: seq<Event>, s': System) {
    Segment(ss, es) && ss[0] == s && ss[|es|] == s' && AllAnswered(es)
  }

  /** The exporter can get from s to s', every logout of the Range answered. */
  ghost predicate LeadsTo(s: System, s': System) {
    exists ss, es :: Via(s, ss, es, s')
  }

  lemma OneStep(s: System, e: Event)
    requires Enabled(s, e) && (e.Visit? ==> e.answer.Answer?)
    ensures LeadsTo(s, Apply(s, e))
  {
    assert Via(s, [s, Apply(s, e)], [e], Apply(s, e));
  }

  lemma LeadsOn(s: System, s': System, s'': System)
    requires LeadsTo(s, s') && LeadsTo(s', s'')
    ensures LeadsTo(s, s'')
  {
    var a, ea :| Via(s, a, ea, s');
    var b, eb :| Via(s', b, eb, s'');
    ViaJoined(s, a, ea, s', b, eb, s'');
    assert Via(s, a + b[1..], ea + eb, s'');
  }

  lemma ViaJoined(s: System, a: seq<System>, ea: seq<Event>, s': System, b: seq<System>, eb: seq<Event>, s'': System)
    requires Via(s, a, ea, s') && Via(s', b, eb, s'')
    ensures Via(s, a + b[1..], ea + eb, s'')
  {
    var ss, es := a + b[1..], ea + eb;
    forall i | 0 <= i < |es| ensures Step(ss[i], es[i], ss[i + 1]) && (es[i].Visit? ==> es[i].answer.Answer?) {
      if i < |ea| {
        assert es[i] == ea[i] && Step(a[i], ea[i], a[i + 1]);
      } else {
        var k := i - |ea|;
        assert es[i] == eb[k] && Step(b[k], eb[k], b[k + 1]);
        assert ss[i] == b[k] && ss[i + 1] == b[k + 1];
      }
    }
  }

  lemma {:induction false} ViaKeepsSystem(s: System, ss: seq<System>, es: seq<Event>, s': System, n: nat)
    requires SystemOk(s) && Via(s, ss, es, s') && n <= |es|
    ensures SystemOk(ss[n])
  {
    if n > 0 {
      ViaKeepsSystem(s, ss, es, s', n - 1);
      Invariant.StepKeepsSystem(ss[n - 1], es[n - 1], ss[n]);
    }
  }

  // ---------------------------------------------------------------- fresh names

  lemma {:induction false} LongerThanAll(tokens: set<Token>) returns (token: Token)
    ensures token != "" && forall t :: t in tokens ==> |t| < |token|
    decreases tokens
  {
    token := "x";
    if tokens != {} {
      var t :| t in tokens;
      var rest := LongerThanAll(tokens - {t});
      token := t + rest;
    }
  }

  // ---------------------------------------------------------------- the Range

  /** The Range is on, undrained, with every logout answered so far. */
  ghost predicate Ranging(s: System) {
    SystemOk(s) && s.phase.LoggingOut? && !s.phase.drained && s.phase.failed == {} && s.phase.listed <= s.cache.Keys
  }

  ghost predicate RangeDone(s: System) {
    Ranging(s) && s.phase.listed <= s.phase.visited
  }

  /** s' comes after s, with the same scrapes and no new incident. */
  ghost predicate Follows(s: System, s': System) {
    LeadsTo(s, s') && s'.scrapes == s.scrapes && s'.incidents == s.incidents
  }

  lemma VisitOne(s: System, target: Target) returns (s': System)
    requires Ranging(s) && target in s.cache && target !in s.phase.visited
    ensures Follows(s, s') && Ranging(s') && s'.cache == s.cache
    ensures s'.phase.visited == s.phase.visited + {target} && s'.phase.listed == s.phase.listed
  {
    var e := Visit(target, P.Answer(P.OK, true));
    VisitIsQuiet(s, target);
    s' := Apply(s, e);
    OneStep(s, e);
    Invariant.StepKeepsSystem(s, e, s');
  }

  lemma VisitIsQuiet(s: System, target: Target)
    requires CacheOk(s) && s.phase.LoggingOut? && target in s.cache && target !in s.phase.visited
    ensures var e := Visit(target, P.Answer(P.OK, true));
            && Enabled(s, e)
            && Apply(s, e).phase == s.phase.(visited := s.phase.visited + {target})
            && Apply(s, e).scrapes == s.scrapes && Apply(s, e).cache == s.cache && Apply(s, e).incidents == s.incidents
  {
  }

  lemma {:induction false} VisitAll(s: System) returns (s': System)
    requires Ranging(s)
    ensures Follows(s, s') && RangeDone(s')
    decreases s.cache.Keys - s.phase.visited
  {
    if target :| target in s.cache && target !in s.phase.visited {
      var next := VisitOne(s, target);
      s' := VisitAll(next);
      LeadsOn(s, next, s');
    } else {
      s' := s;
      assert Via(s, [s], [], s);
    }
  }

  // ---------------------------------------------------------------- a scrape in flight goes on

  /** What a scrape can do without an incident. */
  ghost predicate Harmless(e: Event) {
    || e.Load? || e.LoadOrStore? || e.BeginCall?
    || (e.Login? && e.reply.Granted?)
    || (e.LoserLogout? && e.answer == P.Answer(P.OK, true))
    || (e.CallStep? && (e.act.Ensure? ==> e.act.reply.Granted?))
  }

  lemma HarmlessIsQuiet(s: System, e: Event)
    requires s.phase.LoggingOut? && Enabled(s, e) && Harmless(e)
    ensures Apply(s, e).phase == s.phase && Apply(s, e).incidents == s.incidents
    ensures s.cache.Keys <= Apply(s, e).cache.Keys
  {
  }

  /** s' comes after s, the Range still being done and without a new incident. */
  ghost predicate GoesOn(s: System, s': System) {
    LeadsTo(s, s') && RangeDone(s') && s'.incidents == s.incidents
  }

  lemma HarmlessGoesOn(s: System, e: Event)
    requires RangeDone(s) && Enabled(s, e) && Harmless(e)
    ensures GoesOn(s, Apply(s, e))
  {
    OneStep(s, e);
    HarmlessIsQuiet(s, e);
    Invariant.StepKeepsSystem(s, e, Apply(s, e));
  }

  ghost predicate InUseBy(s: System, pid: ScrapeId, target: Target) {
    pid in s.scrapes && s.scrapes[pid].target == target && s.scrapes[pid].stage.Using?
  }

  lemma LosingGoesOn(s: System, pid: ScrapeId) returns (s': System)
    requires RangeDone(s) && pid in s.scrapes && s.scrapes[pid].stage.Losing?
    ensures GoesOn(s, s') && InUseBy(s', pid, s.scrapes[pid].target)
  {
    assert ScrapeOk(s, pid);
    var e := LoserLogout(pid, P.Answer(P.OK, true));
    HarmlessGoesOn(s, e);
    s' := Apply(s, e);
  }

  lemma LoggedInGoesOn(s: System, pid: ScrapeId) returns (s': System)
    requires RangeDone(s) && pid in s.scrapes && s.scrapes[pid].stage.LoggedIn?
    ensures GoesOn(s, s') && InUseBy(s', pid, s.scrapes[pid].target)
  {
    var e := LoadOrStore(pid);
    HarmlessGoesOn(s, e);
    s' := Apply(s, e);
    if s'.scrapes[pid].stage.Losing? {
      var next := s';
      s' := LosingGoesOn(next, pid);
      LeadsOn(s, next, s');
    }
  }

  lemma CreatedGoesOn(s: System, pid: ScrapeId) returns (s': System)
    requires RangeDone(s) && pid in s.scrapes && s.scrapes[pid].stage.Created?
    ensures GoesOn(s, s') && InUseBy(s', pid, s.scrapes[pid].target)
  {
    assert ScrapeOk(s, pid);
    var token := FreshToken(ServerOf(s, s.scrapes[pid].target).issued);
    var e := Login(pid, P.Granted(token));
    HarmlessGoesOn(s, e);
    var next := Apply(s, e);
    s' := LoggedInGoesOn(next, pid);
    LeadsOn(s, next, s');
  }

  lemma FreshToken(tokens: set<Token>) returns (token: Token)
    ensures token != "" && token !in tokens
  {
    token := LongerThanAll(tokens);
  }

  lemma LookingGoesOn(s: System, pid: ScrapeId) returns (s': System)
    requires RangeDone(s) && pid in s.scrapes && s.scrapes[pid].stage.Looking?
    ensures GoesOn(s, s') && InUseBy(s', pid, s.scrapes[pid].target)
  {
    var c := AboveAll(s.clients.Keys);
    var e := Load(pid, c);
    HarmlessGoesOn(s, e);
    var next := Apply(s, e);
    s' := next;
    if next.scrapes[pid].stage.Created? {
      s' := CreatedGoesOn(next, pid);
      LeadsOn(s, next, s');
    }
  }

  /** A scrape not over yet can get hold of a client. */
  lemma ScrapeGetsClient(s: System, pid: ScrapeId) returns (s': System)
    requires RangeDone(s) && pid in s.scrapes && !s.scrapes[pid].stage.Over?
    ensures GoesOn(s, s') && InUseBy(s', pid, s.scrapes[pid].target)
  {
    match s.scrapes[pid].stage {
      case Looking => s' := LookingGoesOn(s, pid);
      case Created(_) => s' := CreatedGoesOn(s, pid);
      case LoggedIn(_) => s' := LoggedInGoesOn(s, pid);
      case Losing(_, _) => s' := LosingGoesOn(s, pid);
      case Using(_, _) =>
        s' := s;
        assert Via(s, [s], [], s);
    }
  }

  // ---------------------------------------------------------------- and its call logs in

  ghost predicate HoldsLive(s: System, target: Target, token: Token) {
    CachedToken(s, target, token) && token != "" && token in ServerOf(s, target).live
  }

  /** Client c, mapped to target, has a call at this point. */
  ghost predicate Calling(s: System, target: Target, c: ClientId, id: P.CallId, pc: P.Pc) {
    && target in s.cache && s.cache[target] == c && c in s.clients && s.clients[c].target == target
    && id in s.clients[c].auth.calls && s.clients[c].auth.calls[id].pc == pc
  }

  lemma CallBegins(s: System, pid: ScrapeId, target: Target) returns (s': System, c: ClientId, id: P.CallId)
    requires RangeDone(s) && InUseBy(s, pid, target)
    ensures GoesOn(s, s') && Calling(s', target, c, id, P.Starting)
  {
    assert ScrapeOk(s, pid);
    c := s.scrapes[pid].stage.c;
    assert s.clients[c].target == target;
    id := AboveAll(s.clients[c].auth.calls.Keys);
    var e := BeginCall(pid, id);
    HarmlessGoesOn(s, e);
    s' := Apply(s, e);
  }

  lemma CallLogsIn(s: System, target: Target, c: ClientId, id: P.CallId, pc: P.Pc) returns (s': System, token: Token)
    requires RangeDone(s) && Calling(s, target, c, id, pc) && (pc.Starting? || pc.Retrying?)
    requires s.clients[c].auth.token == ""
    ensures GoesOn(s, s') && HoldsLive(s', target, token)
  {
    token := FreshToken(ServerOf(s, target).issued);
    var e := CallStep(c, P.Ensure(id, P.Granted(token)));
    HarmlessGoesOn(s, e);
    s' := Apply(s, e);
  }

  /** The client caches a token its server does not accept any more. */
  ghost predicate CachesDead(s: System, target: Target, c: ClientId, token: Token) {
    c in s.clients && s.clients[c].auth.token == token != "" && token !in ServerOf(s, target).live
  }

  lemma DeadTokenIsSent(s: System, target: Target, c: ClientId, id: P.CallId, token: Token) returns (s': System)
    requires RangeDone(s) && Calling(s, target, c, id, P.Starting) && CachesDead(s, target, c, token)
    ensures GoesOn(s, s') && Calling(s', target, c, id, P.Sending(token)) && CachesDead(s', target, c, token)
  {
    var e := CallStep(c, P.Ensure(id, P.Granted("x")));
    HarmlessGoesOn(s, e);
    s' := Apply(s, e);
  }

  lemma DeadTokenIsRejected(s: System, target: Target, c: ClientId, id: P.CallId, token: Token) returns (s': System)
    requires RangeDone(s) && Calling(s, target, c, id, P.Sending(token)) && CachesDead(s, target, c, token)
    ensures GoesOn(s, s') && Calling(s', target, c, id, P.Rejected(token)) && CachesDead(s', target, c, token)
  {
    var e := CallStep(c, P.Data(id, P.Status(P.UNAUTHORIZED)));
    HarmlessGoesOn(s, e);
    s' := Apply(s, e);
  }

  lemma DeadTokenIsDropped(s: System, target: Target, c: ClientId, id: P.CallId, token: Token) returns (s': System)
    requires RangeDone(s) && Calling(s, target, c, id, P.Rejected(token)) && CachesDead(s, target, c, token)
    ensures GoesOn(s, s') && Calling(s', target, c, id, P.Retrying(token)) && s'.clients[c].auth.token == ""
  {
    var e := CallStep(c, P.Invalidate(id));
    HarmlessGoesOn(s, e);
    s' := Apply(s, e);
  }

  /** A dead token is found out by a 401, dropped and replaced. */
  lemma DeadTokenIsReplaced(s: System, target: Target, c: ClientId, id: P.CallId, dead: Token)
    returns (s': System, token: Token)
    requires RangeDone(s) && Calling(s, target, c, id, P.Starting) && CachesDead(s, target, c, dead)
    ensures GoesOn(s, s') && HoldsLive(s', target, token)
  {
    var s1 := DeadTokenIsSent(s, target, c, id, dead);
    var s2 := DeadTokenIsRejected(s1, target, c, id, dead);
    LeadsOn(s, s1, s2);
    var s3 := DeadTokenIsDropped(s2, target, c, id, dead);
    LeadsOn(s, s2, s3);
    s', token := CallLogsIn(s3, target, c, id, P.Retrying(dead));
    LeadsOn(s, s3, s');
  }

  /** A scrape with a client can leave it holding a live token. */
  lemma ScrapeLeavesToken(s: System, pid: ScrapeId, target: Target) returns (s': System, token: Token)
    requires RangeDone(s) && InUseBy(s, pid, target)
    ensures GoesOn(s, s') && HoldsLive(s', target, token)
  {
    var s1, c, id := CallBegins(s, pid, target);
    token := s1.clients[c].auth.token;
    if token == "" {
      s', token := CallLogsIn(s1, target, c, id, P.Starting);
      LeadsOn(s, s1, s');
    } else if token in ServerOf(s1, target).live {
      s' := s1;
    } else {
      s', token := DeadTokenIsReplaced(s1, target, c, id, token);
      LeadsOn(s, s1, s');
    }
  }

  // ---------------------------------------------------------------- main results

  /** s' is one way logoutAll, started in s, can end with every logout answered. */
  ghost predicate Completes(s: System, s': System) {
    Enabled(s, StartLogout) && LeadsTo(Apply(s, StartLogout), s') && s'.phase.Stopped?
  }

  /** Undrained, it leaks: from every reachable state in which the drain is given up with a scrape in
      flight, shutdown can complete with every logout answered and no incident, and yet the target
      of that scrape is left with a cached live token. */
  lemma UndrainedShutdownLeaks(ss: seq<System>, es: seq<Event>, n: nat, pid: ScrapeId)
    returns (s': System, token: Token)
    requires IsRun(ss, es) && n < |ss| && ss[n].phase == Draining
    requires pid in ss[n].scrapes && !ss[n].scrapes[pid].stage.Over?
    ensures Completes(ss[n], s') && s'.phase == Stopped(false, {}) && s'.incidents == ss[n].incidents
    ensures HoldsLive(s', ss[n].scrapes[pid].target, token)
  {
    var s, target := ss[n], ss[n].scrapes[pid].target;
    Invariant.SystemHolds(ss, es, n);
    var s0 := Apply(s, StartLogout);
    Invariant.StepKeepsSystem(s, StartLogout, s0);
    assert !AllOver(s);
    var s1 := VisitAll(s0);
    var s2 := ScrapeGetsClient(s1, pid);
    LeadsOn(s0, s1, s2);
    var s3;
    s3, token := ScrapeLeavesToken(s2, pid, target);
    LeadsOn(s0, s2, s3);
    OneStep(s3, EndRange);
    s' := Apply(s3, EndRange);
    LeadsOn(s0, s3, s');
  }

  /** No client caches a token, and what is still live is on the incident list. */
  ghost predicate LeavesNothing(s: System) {
    && (forall target :: target in s.cache ==> CachedToken(s, target, ""))
    && (forall target, token :: token in ServerOf(s, target).live ==> Logged(s, target, token))
  }

  lemma {:induction false} DrainedGoesOn(s: System, ss: seq<System>, es: seq<Event>, s': System, n: nat)
    requires SystemOk(s) && DrainedPhase(s.phase) && s.phase.failed == {}
    requires Via(s, ss, es, s') && n <= |es|
    ensures SystemOk(ss[n]) && DrainedPhase(ss[n].phase) && ss[n].phase.failed == {}
  {
    if n > 0 {
      DrainedGoesOn(s, ss, es, s', n - 1);
      var e := es[n - 1];
      assert Step(ss[n - 1], e, ss[n]) && (e.Visit? ==> e.answer.Answer?);
      Invariant.StepKeepsSystem(ss[n - 1], e, ss[n]);
      DrainedStep(ss[n - 1], e, ss[n]);
      AnsweredFailsNothing(ss[n - 1], e, ss[n]);
    }
  }

  lemma AnsweredFailsNothing(s: System, e: Event, s': System)
    requires Step(s, e, s') && (e.Visit? ==> e.answer.Answer?)
    ensures FailedTargets(s'.phase) <= FailedTargets(s.phase)
  {
  }

  lemma DrainedLeavesNothing(s: System, s': System)
    requires SystemOk(s) && AllOver(s) && Completes(s, s')
    ensures LeavesNothing(s')
  {
    var s0 := Apply(s, StartLogout);
    Invariant.StepKeepsSystem(s, StartLogout, s0);
    var ss, es :| Via(s0, ss, es, s');
    DrainedGoesOn(s0, ss, es, s', |es|);
    forall target, token | token in ServerOf(s', target).live ensures Logged(s', target, token) {
      assert Accounted(s', target, token);
    }
  }

  /** Draining is exactly what it takes: when the logouts begin, every way for them to complete with
      answers leaves nothing behind if and only if no scrape is in flight. */
  lemma NothingIsLeftIffDrained(ss: seq<System>, es: seq<Event>, n: nat)
    requires IsRun(ss, es) && n < |ss| && ss[n].phase == Draining
    ensures AllOver(ss[n]) <==> forall s' :: Completes(ss[n], s') ==> LeavesNothing(s')
  {
    Invariant.SystemHolds(ss, es, n);
    if AllOver(ss[n]) {
      forall s' | Completes(ss[n], s') ensures LeavesNothing(s') {
        DrainedLeavesNothing(ss[n], s');
      }
    } else {
      var pid :| pid in ss[n].scrapes && !ss[n].scrapes[pid].stage.Over?;
      var s', token := UndrainedShutdownLeaks(ss, es, n, pid);
      assert Completes(ss[n], s') && !LeavesNothing(s');
    }
  }

  /** The drain can be given up with a scrape in flight. */
  lemma DrainCanBeGivenUp() returns (ss: seq<System>, es: seq<Event>)
    ensures IsRun(ss, es) && ss[|es|].phase == Draining && !AllOver(ss[|es|])
  {
    es := [Accept(0, "t"), Signal];
    var s0 := System(map[], map[], map[], map[], Serving, []);
    var s1 := Apply(s0, es[0]);
    ss := [s0, s1, Apply(s1, es[1])];
    assert ss[2].scrapes[0].stage == Looking;
  }
}
