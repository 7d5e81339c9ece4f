/** Every event of ClientCache keeps its invariant. */
module ClientCacheInvariant {
  import opened Collections
  import opened ClientCache
  import P = AuthProtocol

  // ---------------------------------------------------------------- preservation: no client acts

  /** Accounts carry over when no live token appears and no holder of one goes away. */
  lemma KeepConserved(s: System, s': System)
    requires Conserved(s)
    requires forall target :: ServerOf(s', target).live <= ServerOf(s, target).live
    requires s.incidents <= s'.incidents
    requires forall target, token :: CachedToken(s, target, token) ==> CachedToken(s', target, token)
    requires forall pid, target, token :: CarriedToken(s, pid, target, token) ==>
               CarriedToken(s', pid, target, token) || CachedToken(s', target, token)
    ensures Conserved(s')
  {
    forall target, token | token in ServerOf(s', target).live ensures Accounted(s', target, token) {
      assert Accounted(s, target, token);
      if pid :| CarriedToken(s, pid, target, token) {
        assert CarriedToken(s', pid, target, token) || CachedToken(s', target, token);
      } else if !CachedToken(s, target, token) {
        var i :| 0 <= i < |s.incidents| && s.incidents[i].target == target && s.incidents[i].token == token;
        assert s'.incidents[i] == s.incidents[i];
      }
    }
  }

  lemma KeepPlaces(s: System, s': System)
    requires PlacesOk(s)
    requires s'.clients == s.clients && s'.cache == s.cache && s'.incidents == s.incidents
    requires forall pid, c :: HeldBy(s, pid, c) ==> HeldBy(s', pid, c) || (c in s'.clients && Released(s', c))
    ensures PlacesOk(s')
  {
    forall c | c in s'.clients ensures Placed(s', c) {
      assert Placed(s, c);
      if pid :| HeldBy(s, pid, c) {
        assert HeldBy(s', pid, c) || Released(s', c);
      }
    }
  }

  lemma KeepInUse(s: System, s': System)
    requires CallsInUse(s) && s'.clients == s.clients
    requires forall pid :: pid in s.scrapes && s.scrapes[pid].stage.Using? ==>
               pid in s'.scrapes && (s'.scrapes[pid] == s.scrapes[pid]
                   || CallsFinished(s, s.scrapes[pid].stage.c, s.scrapes[pid].stage.calls))
    ensures CallsInUse(s')
  {
    forall c, id | c in s'.clients && id in s'.clients[c].auth.calls && !s'.clients[c].auth.calls[id].pc.Finished?
      ensures InUse(s', c, id)
    {
      assert InUse(s, c, id);
      var pid :| pid in s.scrapes && s.scrapes[pid].stage.Using? && s.scrapes[pid].stage.c == c
          && id in s.scrapes[pid].stage.calls;
      assert pid in s'.scrapes && s'.scrapes[pid] == s.scrapes[pid];
    }
  }

  lemma KeepOwners(s: System, s': System)
    requires OwnersOk(s)
    requires forall pid, c :: HeldBy(s', pid, c) ==> HeldBy(s, pid, c)
    ensures OwnersOk(s')
  {
  }

  /** A scrape may move on without touching a client if it keeps the client and the token it
      answers for, has waited for its calls, and does not reopen a drained exporter. */
  ghost predicate QuietMove(s: System, pid: ScrapeId, next: Scrape) {
    var s' := s.(scrapes := s.scrapes[pid := next]);
    && ScrapeOk(s', pid)
    && (if pid in s.scrapes then
          var was := s.scrapes[pid];
          && next.target == was.target
          && Holds(next.stage) == Holds(was.stage)
          && (was.stage.LoggedIn? || was.stage.Losing? ==> next.stage.LoggedIn? || next.stage.Losing?)
          && (was.stage.Using? ==> CallsFinished(s, was.stage.c, was.stage.calls))
        else Holds(next.stage) == None)
    && (AllOver(s) ==> s.phase == Serving || next.stage.Over?)
  }

  lemma QuietMoveConserves(s: System, pid: ScrapeId, next: Scrape)
    requires Conserved(s) && QuietMove(s, pid, next)
    ensures Conserved(s.(scrapes := s.scrapes[pid := next]))
  {
    KeepConserved(s, s.(scrapes := s.scrapes[pid := next]));
  }

  lemma QuietMoveKeepsScrapes(s: System, pid: ScrapeId, next: Scrape)
    requires ScrapesOk(s) && QuietMove(s, pid, next)
    ensures ScrapesOk(s.(scrapes := s.scrapes[pid := next]))
  {
    var s' := s.(scrapes := s.scrapes[pid := next]);
    KeepOwners(s, s');
    forall p | p in s'.scrapes ensures ScrapeOk(s', p) {
      assert p == pid || ScrapeOk(s, p);
    }
  }

  lemma QuietMoveKeeps(s: System, pid: ScrapeId, next: Scrape)
    requires SystemOk(s) && QuietMove(s, pid, next)
    ensures SystemOk(s.(scrapes := s.scrapes[pid := next]))
  {
    var s' := s.(scrapes := s.scrapes[pid := next]);
    QuietMoveConserves(s, pid, next);
    QuietMoveKeepsScrapes(s, pid, next);
    KeepPlaces(s, s');
    KeepInUse(s, s');
    assert ClientsOk(s') by {
      forall c | c in s'.clients ensures ClientOk(s', c) { assert ClientOk(s, c); }
    }
  }

  lemma ScrapeEventKeeps(s: System, e: Event)
    requires SystemOk(s) && Enabled(s, e)
    requires e.Accept? || e.NewFails? || e.Finish?
             || (e.Load? && s.scrapes[e.pid].target in s.cache)
             || (e.LoadOrStore? && s.scrapes[e.pid].target in s.cache)
    ensures SystemOk(Apply(s, e))
  {
    var next := Apply(s, e).scrapes[e.pid];
    assert e.pid in s.scrapes ==> ScrapeOk(s, e.pid);
    assert QuietMove(s, e.pid, next);
    QuietMoveKeeps(s, e.pid, next);
  }

  lemma PhaseEventKeeps(s: System, e: Event)
    requires SystemOk(s) && Enabled(s, e) && (e.Signal? || e.StartLogout? || e.EndRange?)
    ensures SystemOk(Apply(s, e))
  {
    var s' := Apply(s, e);
    PhaseEventKeepsClients(s, e);
    PhaseEventKeepsScrapes(s, e);
    PhaseEventKeepsPhase(s, e);
    KeepPlaces(s, s');
    KeepConserved(s, s');
    KeepInUse(s, s');
  }

  lemma PhaseEventKeepsClients(s: System, e: Event)
    requires ClientsOk(s) && Enabled(s, e) && (e.Signal? || e.StartLogout? || e.EndRange?)
    ensures ClientsOk(Apply(s, e))
  {
    var s' := Apply(s, e);
    forall c | c in s'.clients ensures ClientOk(s', c) { assert ClientOk(s, c); }
  }

  lemma PhaseEventKeepsScrapes(s: System, e: Event)
    requires ScrapesOk(s) && Enabled(s, e) && (e.Signal? || e.StartLogout? || e.EndRange?)
    ensures ScrapesOk(Apply(s, e))
  {
    var s' := Apply(s, e);
    KeepOwners(s, s');
    forall pid | pid in s'.scrapes ensures ScrapeOk(s', pid) { assert ScrapeOk(s, pid); }
  }

  lemma PhaseEventKeepsPhase(s: System, e: Event)
    requires CacheOk(s) && PhaseOk(s) && Enabled(s, e) && (e.Signal? || e.StartLogout? || e.EndRange?)
    ensures CacheOk(Apply(s, e)) && PhaseOk(Apply(s, e))
  {
  }

  lemma ExpireKeepsClients(s: System, e: Event)
    requires ClientsOk(s) && Enabled(s, e) && e.Expire?
    ensures ClientsOk(Apply(s, e))
  {
    var s' := Apply(s, e);
    forall c | c in s'.clients ensures ClientOk(s', c) { assert ClientOk(s, c); }
  }

  lemma ExpireKeepsScrapes(s: System, e: Event)
    requires ScrapesOk(s) && Enabled(s, e) && e.Expire?
    ensures ScrapesOk(Apply(s, e))
  {
    var s' := Apply(s, e);
    KeepOwners(s, s');
    forall pid | pid in s'.scrapes ensures ScrapeOk(s', pid) { assert ScrapeOk(s, pid); }
  }

  lemma ExpireKeeps(s: System, e: Event)
    requires SystemOk(s) && Enabled(s, e) && e.Expire?
    ensures SystemOk(Apply(s, e))
  {
    var s' := Apply(s, e);
    ExpireKeepsClients(s, e);
    ExpireKeepsScrapes(s, e);
    KeepConserved(s, s');
    KeepPlaces(s, s');
    KeepInUse(s, s');
  }

  lemma LoadMissKeepsScrapes(s: System, e: Event)
    requires ScrapesOk(s)
    requires Enabled(s, e) && e.Load? && s.scrapes[e.pid].target !in s.cache
    ensures ScrapesOk(Apply(s, e))
  {
    var s' := Apply(s, e);
    forall pid | pid in s'.scrapes ensures ScrapeOk(s', pid) && (HeldBy(s', pid, e.c) ==> pid == e.pid) {
      assert ScrapeOk(s, pid);
    }
    forall p, q, c | HeldBy(s', p, c) && HeldBy(s', q, c) ensures p == q {
      assert c == e.c || (HeldBy(s, p, c) && HeldBy(s, q, c));
    }
  }

  lemma LoadMissKeepsPlaces(s: System, e: Event)
    requires PlacesOk(s) && CallsInUse(s) && Enabled(s, e) && e.Load? && s.scrapes[e.pid].target !in s.cache
    ensures PlacesOk(Apply(s, e)) && CallsInUse(Apply(s, e))
  {
    var s' := Apply(s, e);
    forall c | c in s'.clients ensures Placed(s', c) {
      if c == e.c {
        assert HeldBy(s', e.pid, c);
      } else {
        assert Placed(s, c);
        if pid :| HeldBy(s, pid, c) {
          assert HeldBy(s', pid, c);
        }
      }
    }
    forall c, id | c in s'.clients && id in s'.clients[c].auth.calls && !s'.clients[c].auth.calls[id].pc.Finished?
      ensures InUse(s', c, id)
    {
      assert InUse(s, c, id);
      var pid :| pid in s.scrapes && s.scrapes[pid].stage.Using? && s.scrapes[pid].stage.c == c
          && id in s.scrapes[pid].stage.calls;
      assert s'.scrapes[pid] == s.scrapes[pid];
    }
  }

  lemma LoadMissKeeps(s: System, e: Event)
    requires SystemOk(s)
    requires Enabled(s, e) && e.Load? && s.scrapes[e.pid].target !in s.cache
    ensures SystemOk(Apply(s, e))
  {
    LoadMissKeepsScrapes(s, e);
    LoadMissKeepsPlaces(s, e);
    LoadMissKeepsClients(s, e);
    LoadMissKeepsCache(s, e);
    KeepConserved(s, Apply(s, e));
  }

  lemma LoadMissKeepsClients(s: System, e: Event)
    requires ClientsOk(s) && CacheOk(s)
    requires Enabled(s, e) && e.Load? && s.scrapes[e.pid].target !in s.cache
    ensures ClientsOk(Apply(s, e))
  {
    var s' := Apply(s, e);
    forall c | c in s'.clients ensures ClientOk(s', c) {
      assert c != e.c ==> ClientOk(s, c);
    }
  }

  lemma LoadMissKeepsCache(s: System, e: Event)
    requires CacheOk(s) && PhaseOk(s)
    requires Enabled(s, e) && e.Load? && s.scrapes[e.pid].target !in s.cache
    ensures CacheOk(Apply(s, e)) && PhaseOk(Apply(s, e))
  {
  }

  lemma StoreKeepsScrapes(s: System, e: Event)
    requires ClientsOk(s) && CacheOk(s) && ScrapesOk(s) && PhaseOk(s)
    requires Enabled(s, e) && e.LoadOrStore? && s.scrapes[e.pid].target !in s.cache
    ensures ScrapesOk(Apply(s, e)) && CacheOk(Apply(s, e)) && PhaseOk(Apply(s, e))
  {
    var s' := Apply(s, e);
    var c := s.scrapes[e.pid].stage.c;
    assert ScrapeOk(s, e.pid) && HeldBy(s, e.pid, c);
    assert ClientOk(s, c);
    KeepOwners(s, s');
    forall pid | pid in s'.scrapes ensures ScrapeOk(s', pid) {
      assert ScrapeOk(s, pid);
      if pid != e.pid && Holds(s.scrapes[pid].stage).Some? {
        assert HeldBy(s, pid, s.scrapes[pid].stage.c);
        assert s.scrapes[pid].stage.c != c;
      }
    }
  }

  lemma StoreKeepsClients(s: System, e: Event)
    requires ClientsOk(s) && ScrapesOk(s)
    requires Enabled(s, e) && e.LoadOrStore? && s.scrapes[e.pid].target !in s.cache
    ensures ClientsOk(Apply(s, e))
  {
    var s' := Apply(s, e);
    assert ScrapeOk(s, e.pid);
    forall d | d in s'.clients ensures ClientOk(s', d) {
      assert ClientOk(s, d);
    }
  }

  lemma StoreKeepsPlaces(s: System, e: Event)
    requires PlacesOk(s) && ScrapesOk(s)
    requires Enabled(s, e) && e.LoadOrStore? && s.scrapes[e.pid].target !in s.cache
    ensures PlacesOk(Apply(s, e))
  {
    var s' := Apply(s, e);
    assert ScrapeOk(s, e.pid);
    forall d | d in s'.clients ensures Placed(s', d) {
      assert Placed(s, d);
      if pid :| HeldBy(s, pid, d) {
        assert HeldBy(s', pid, d) || Mapped(s', d);
      }
    }
  }

  lemma StoreConserves(s: System, e: Event)
    requires ScrapesOk(s) && Conserved(s) && Enabled(s, e) && e.LoadOrStore? && s.scrapes[e.pid].target !in s.cache
    ensures Conserved(Apply(s, e))
  {
    assert ScrapeOk(s, e.pid);
    KeepConserved(s, Apply(s, e));
  }

  lemma StoreKeeps(s: System, e: Event)
    requires SystemOk(s)
    requires Enabled(s, e) && e.LoadOrStore? && s.scrapes[e.pid].target !in s.cache
    ensures SystemOk(Apply(s, e))
  {
    StoreKeepsScrapes(s, e);
    StoreKeepsClients(s, e);
    StoreKeepsPlaces(s, e);
    StoreConserves(s, e);
    KeepInUse(s, Apply(s, e));
  }

  // ---------------------------------------------------------------- preservation: a client acts

  /** Who may take which action: only a creator logs in, on its own empty client; calls are made
      through the map; nobody changes the server behind a client's back. */
  ghost predicate Allowed(s: System, c: ClientId, act: P.Action)
    requires c in s.clients
  {
    && !act.Environment?
    && (act.Login? ==> s.clients[c].auth.token == "")
    && (act.Begin? || IsCallStep(act) ==> Mapped(s, c))
  }

  lemma ActKeepsView(v: P.State, act: P.Action, v': P.State)
    requires ViewOk(v) && P.Step(v, act, v') && P.Fresh(v, act) && Honest(v, act)
    requires !act.Environment? && (act.Login? ==> v.client.token == "")
    ensures ViewOk(v')
  {
    P.StepKeepsHistory(v, act, v');
    P.StepKeepsCounters(v, act, v');
    P.StepIsEnvironment(v, act, v');
    forall id | id in v'.client.calls && v'.client.calls[id].pc.Rejected?
      ensures v'.client.calls[id].pc.token !in v'.server.live
    {
      assert P.PcOk(v.client, v.client.calls[id].pc);
    }
  }

  lemma EnvironmentKeepsView(v: P.State, server: P.Server)
    requires ViewOk(v) && P.EnvironmentOk(v.server, server)
    ensures ViewOk(v.(server := server))
  {
    forall id | id in v.client.calls ensures P.PcOk(v.client, v.client.calls[id].pc) {
      assert P.PcOk(v.client, v.client.calls[id].pc);
    }
  }

  lemma DoKeepsOne(s: System, c: ClientId, act: P.Action, loser: bool)
    requires ClientsOk(s) && ActOk(s, c, act) && Allowed(s, c, act)
    ensures ClientOk(Do(s, c, act, loser), c)
  {
    var v, s' := View(s, c), Do(s, c, act, loser);
    assert ClientOk(s, c);
    ActKeepsView(v, act, P.Apply(v, act));
    assert View(s', c) == P.Apply(v, act);
  }

  lemma DoKeepsOther(s: System, c: ClientId, act: P.Action, loser: bool, d: ClientId)
    requires ClientsOk(s) && ActOk(s, c, act) && Allowed(s, c, act)
    requires d in s.clients && d != c
    ensures ClientOk(Do(s, c, act, loser), d)
  {
    assert ClientOk(s, c) && ClientOk(s, d);
    var after, s' := P.Apply(View(s, c), act), Do(s, c, act, loser);
    P.StepIsEnvironment(View(s, c), act, after);
    if s.clients[d].target == s.clients[c].target {
      EnvironmentKeepsView(View(s, d), after.server);
      assert View(s', d) == View(s, d).(server := after.server);
    } else {
      assert View(s', d) == View(s, d);
    }
  }

  lemma DoKeepsClients(s: System, c: ClientId, act: P.Action, loser: bool)
    requires ClientsOk(s) && ActOk(s, c, act) && Allowed(s, c, act)
    ensures ClientsOk(Do(s, c, act, loser))
  {
    var s' := Do(s, c, act, loser);
    assert ClientOk(s, c);
    P.StepIsEnvironment(View(s, c), act, P.Apply(View(s, c), act));
    forall d | d in s'.clients ensures ClientOk(s', d) {
      if d == c {
        DoKeepsOne(s, c, act, loser);
      } else {
        DoKeepsOther(s, c, act, loser, d);
      }
    }
  }

  ghost predicate TokenAt(s: System, c: ClientId, target: Target, token: Token) {
    c in s.clients && s.clients[c].target == target && s.clients[c].auth.token == token
  }

  /** What an action leaves live is reported, cached by the actor, or was there before and has not
      been dropped by the actor. */
  lemma DoAccounts(s: System, c: ClientId, act: P.Action, loser: bool, target: Target, token: Token)
    requires ClientsOk(s) && ActOk(s, c, act) && Allowed(s, c, act)
    requires token in ServerOf(Do(s, c, act, loser), target).live
    ensures var s' := Do(s, c, act, loser);
            || Logged(s', target, token)
            || TokenAt(s', c, target, token)
            || (token in ServerOf(s, target).live && !TokenAt(s, c, target, token))
  {
    var s' := Do(s, c, act, loser);
    assert ClientOk(s, c);
    var added := Incidents(s, c, act, loser);
    if added != [] {
      assert s'.incidents[|s.incidents|] == added[0];
    }
    if act.Invalidate? {
      assert P.PcOk(s.clients[c].auth, s.clients[c].auth.calls[act.id].pc);
    }
  }

  /** After client c has acted: same cache, and the scrapes answering for other clients are where
      they were. */
  ghost predicate ActedTo(s: System, c: ClientId, act: P.Action, loser: bool, s': System)
    requires c in s.clients && P.Enabled(View(s, c), act)
  {
    var did := Do(s, c, act, loser);
    && s'.servers == did.servers && s'.clients == did.clients && s'.incidents == did.incidents
    && s'.cache == s.cache
    && s'.scrapes.Keys == s.scrapes.Keys
    && forall pid :: pid in s.scrapes ==>
        StaysPut(s.scrapes[pid].stage, s'.scrapes[pid].stage, c) && s'.scrapes[pid].target == s.scrapes[pid].target
  }

  ghost predicate StaysPut(stage: Stage, stage': Stage, c: ClientId) {
    && (Holds(stage).Some? && stage.c != c ==> stage' == stage)
    && (stage.Using? ==> stage'.Using? && stage'.c == stage.c && stage.calls <= stage'.calls)
  }

  /** The token client c caches now is where a logout will find it, or reported. */
  ghost predicate TokenPlaced(s: System, c: ClientId)
    requires c in s.clients
  {
    var m := s.clients[c];
    || m.auth.token == "" || Mapped(s, c) || Logged(s, m.target, m.auth.token)
    || exists pid :: CarriedToken(s, pid, m.target, m.auth.token)
  }

  lemma LoggedGrows(s: System, s': System, target: Target, token: Token)
    requires Logged(s, target, token) && s.incidents <= s'.incidents
    ensures Logged(s', target, token)
  {
    var i :| 0 <= i < |s.incidents| && s.incidents[i].target == target && s.incidents[i].token == token;
    assert s'.incidents[i] == s.incidents[i];
  }

  lemma ActAccounts(s: System, c: ClientId, act: P.Action, loser: bool, s': System, target: Target, token: Token)
    requires ClientsOk(s) && CacheOk(s) && ScrapesOk(s)
    requires ActOk(s, c, act) && Allowed(s, c, act) && ActedTo(s, c, act, loser, s')
    requires Accounted(s, target, token) && !TokenAt(s, c, target, token)
    ensures Accounted(s', target, token)
  {
    if CachedToken(s, target, token) {
      assert s.cache[target] != c;
      assert CachedToken(s', target, token);
    } else if pid :| CarriedToken(s, pid, target, token) {
      assert ScrapeOk(s, pid);
      assert s.scrapes[pid].stage.c != c;
      assert CarriedToken(s', pid, target, token);
    } else {
      LoggedGrows(s, s', target, token);
    }
  }

  lemma ActConserves(s: System, c: ClientId, act: P.Action, loser: bool, s': System)
    requires ClientsOk(s) && CacheOk(s) && ScrapesOk(s) && Conserved(s)
    requires ActOk(s, c, act) && Allowed(s, c, act) && ActedTo(s, c, act, loser, s')
    requires TokenPlaced(s', c)
    ensures Conserved(s')
  {
    DoKeepsClients(s, c, act, loser);
    forall target, token | token in ServerOf(s', target).live ensures Accounted(s', target, token) {
      DoAccounts(s, c, act, loser, target, token);
      if Logged(Do(s, c, act, loser), target, token) {
        assert Logged(s', target, token);
      } else if TokenAt(s', c, target, token) {
        assert token != "";
      } else {
        ActAccounts(s, c, act, loser, s', target, token);
      }
    }
  }

  lemma ActKeepsPlaces(s: System, c: ClientId, act: P.Action, loser: bool, s': System)
    requires PlacesOk(s) && ActOk(s, c, act) && ActedTo(s, c, act, loser, s')
    requires Placed(s', c)
    ensures PlacesOk(s')
  {
    forall d | d in s'.clients ensures Placed(s', d) {
      if d != c {
        assert Placed(s, d);
        if pid :| HeldBy(s, pid, d) {
          assert HeldBy(s', pid, d);
        } else if Released(s, d) {
          if s.clients[d].auth.token != "" && s.clients[d].auth.tally.logins != 0 {
            LoggedGrows(s, s', s.clients[d].target, s.clients[d].auth.token);
          }
        }
      }
    }
  }

  /** Calls are never forgotten. */
  lemma CallsGrow(s: System, c: ClientId, act: P.Action)
    requires ActOk(s, c, act)
    ensures s.clients[c].auth.calls.Keys <= P.Apply(View(s, c), act).client.calls.Keys
    ensures s.clients[c].auth.tally.logins <= P.Apply(View(s, c), act).client.tally.logins
  {
  }

  lemma ActKeepsInUse(s: System, c: ClientId, act: P.Action, loser: bool, s': System)
    requires CallsInUse(s) && ActOk(s, c, act) && !act.Environment? && ActedTo(s, c, act, loser, s')
    requires act.Begin? ==> InUse(s', c, act.id)
    ensures CallsInUse(s')
  {
    forall d, id | d in s'.clients && id in s'.clients[d].auth.calls && !s'.clients[d].auth.calls[id].pc.Finished?
      ensures InUse(s', d, id)
    {
      if !(act.Begin? && d == c && id == act.id) {
        assert InUse(s, d, id);
        var pid :| pid in s.scrapes && s.scrapes[pid].stage.Using? && s.scrapes[pid].stage.c == d
            && id in s.scrapes[pid].stage.calls;
        assert StaysPut(s.scrapes[pid].stage, s'.scrapes[pid].stage, c);
      }
    }
  }

  /** An allowed action of one client keeps every client, place and account in order, provided the
      client and its token end up somewhere. */
  lemma ActKeeps(s: System, c: ClientId, act: P.Action, loser: bool, s': System)
    requires SystemOk(s) && ActOk(s, c, act) && Allowed(s, c, act) && ActedTo(s, c, act, loser, s')
    requires Placed(s', c) && TokenPlaced(s', c)
    requires act.Begin? ==> InUse(s', c, act.id)
    ensures ClientsOk(s') && PlacesOk(s') && Conserved(s') && CallsInUse(s')
  {
    ActConserves(s, c, act, loser, s');
    ActKeepsPlaces(s, c, act, loser, s');
    ActKeepsInUse(s, c, act, loser, s');
    DoKeepsClients(s, c, act, loser);
    forall d | d in s'.clients ensures ClientOk(s', d) {
      assert ClientOk(Do(s, c, act, loser), d);
    }
  }

  /** An action of a mapped client disturbs no scrape that did not take part in it. */
  lemma MappedActKeepsScrapes(s: System, c: ClientId, act: P.Action, s': System)
    requires CacheOk(s) && ScrapesOk(s) && ActOk(s, c, act) && ActedTo(s, c, act, false, s') && Mapped(s, c)
    requires s'.phase == s.phase || s'.phase.LoggingOut?
    requires act.Logout? ==> s'.phase.LoggingOut?
    requires forall pid :: pid in s.scrapes ==> s'.scrapes[pid] == s.scrapes[pid] || ScrapeOk(s', pid)
    requires OwnersOk(s')
    ensures ScrapesOk(s') && CacheOk(s')
  {
    ActKeepsCache(s, c, act, false, s');
    forall pid | pid in s'.scrapes ensures ScrapeOk(s', pid) {
      MappedIsNotHeld(s, c, pid);
      assert ScrapeOk(s, pid);
      if s'.scrapes[pid] == s.scrapes[pid] {
        ActKeepsScrape(s, c, act, false, s', pid);
      }
    }
  }

  /** Calls run on mapped clients only. */
  lemma CallersAreMapped(s: System, c: ClientId, act: P.Action)
    requires ClientsOk(s) && ActOk(s, c, act) && IsCallStep(act)
    ensures Allowed(s, c, act)
  {
    assert ClientOk(s, c);
  }

  lemma ActKeepsScrape(s: System, c: ClientId, act: P.Action, loser: bool, s': System, pid: ScrapeId)
    requires ActOk(s, c, act) && ActedTo(s, c, act, loser, s')
    requires pid in s.scrapes && ScrapeOk(s, pid) && s'.scrapes[pid] == s.scrapes[pid]
    requires !HeldBy(s, pid, c)
    ensures ScrapeOk(s', pid)
  {
    CallsGrow(s, c, act);
  }

  lemma ActKeepsCache(s: System, c: ClientId, act: P.Action, loser: bool, s': System)
    requires CacheOk(s) && ActOk(s, c, act) && ActedTo(s, c, act, loser, s')
    requires s'.phase == s.phase || s'.phase.LoggingOut?
    requires act.Logout? && Mapped(s, c) ==> s'.phase.LoggingOut?
    ensures CacheOk(s')
  {
    CallsGrow(s, c, act);
  }

  lemma MappedIsNotHeld(s: System, c: ClientId, pid: ScrapeId)
    requires ScrapesOk(s) && c in s.clients && Mapped(s, c)
    ensures !HeldBy(s, pid, c)
  {
    assert pid in s.scrapes ==> ScrapeOk(s, pid);
  }

  lemma CallStepKeeps(s: System, e: Event)
    requires SystemOk(s) && Enabled(s, e) && e.CallStep?
    ensures SystemOk(Apply(s, e))
  {
    var s' := Apply(s, e);
    assert InUse(s, e.c, e.act.id);
    CallersAreMapped(s, e.c, e.act);
    KeepOwners(s, s');
    MappedActKeepsScrapes(s, e.c, e.act, s');
    ActKeeps(s, e.c, e.act, false, s');
  }

  lemma BeginCallActs(s: System, e: Event)
    requires CacheOk(s) && ScrapesOk(s) && Enabled(s, e) && e.BeginCall?
    ensures var c := s.scrapes[e.pid].stage.c;
            && Mapped(s, c) && ActedTo(s, c, P.Begin(e.id), false, Apply(s, e))
            && InUse(Apply(s, e), c, e.id) && ScrapeOk(Apply(s, e), e.pid)
  {
    var s' := Apply(s, e);
    assert ScrapeOk(s, e.pid);
    assert s'.scrapes[e.pid].stage.Using?;
  }

  lemma BeginCallKeeps(s: System, e: Event)
    requires SystemOk(s) && Enabled(s, e) && e.BeginCall?
    ensures SystemOk(Apply(s, e))
  {
    var s' := Apply(s, e);
    var c, act := s.scrapes[e.pid].stage.c, P.Begin(e.id);
    BeginCallActs(s, e);
    KeepOwners(s, s');
    MappedActKeepsScrapes(s, c, act, s');
    ActKeeps(s, c, act, false, s');
  }

  lemma VisitLogsOut(s: System, e: Event)
    requires CacheOk(s) && PhaseOk(s) && Enabled(s, e) && e.Visit?
    ensures PhaseOk(Apply(s, e))
  {
    var s' := Apply(s, e);
    forall target | target in s'.phase.visited && s.phase.drained ensures LoggedOut(s', target, s'.phase.failed) {
      if target != e.target {
        assert LoggedOut(s, target, s.phase.failed);
        assert CachedToken(s, target, "") ==> s.cache[target] != s.cache[e.target];
      }
    }
  }

  lemma VisitKeeps(s: System, e: Event)
    requires SystemOk(s) && Enabled(s, e) && e.Visit?
    ensures SystemOk(Apply(s, e))
  {
    var s' := Apply(s, e);
    var c, act := s.cache[e.target], P.Logout(e.answer);
    assert Mapped(s, c);
    KeepOwners(s, s');
    MappedActKeepsScrapes(s, c, act, s');
    ActKeeps(s, c, act, false, s');
    VisitLogsOut(s, e);
  }

  /** A login or logout by a creator, on the client it holds. */
  ghost predicate CreatorAct(s: System, e: Event, c: ClientId, act: P.Action, loser: bool)
    requires Enabled(s, e)
  {
    || (e.Login? && c == s.scrapes[e.pid].stage.c && act == P.Login(e.reply) && !loser)
    || (e.LoserLogout? && c == s.scrapes[e.pid].stage.c && act == P.Logout(e.answer) && loser)
  }

  lemma CreatorActs(s: System, e: Event, c: ClientId, act: P.Action, loser: bool)
    requires ScrapesOk(s) && Enabled(s, e) && CreatorAct(s, e, c, act, loser)
    ensures ActedTo(s, c, act, loser, Apply(s, e)) && HeldBy(s, e.pid, c) && !Mapped(s, c)
  {
    assert ScrapeOk(s, e.pid);
  }

  lemma CreatorMoves(s: System, e: Event, c: ClientId, act: P.Action, loser: bool)
    requires CacheOk(s) && ScrapesOk(s) && PhaseOk(s) && Enabled(s, e) && CreatorAct(s, e, c, act, loser)
    ensures ScrapeOk(Apply(s, e), e.pid) && PhaseOk(Apply(s, e))
  {
    assert ScrapeOk(s, e.pid);
  }

  lemma CreatorActKeepsScrapes(s: System, e: Event, c: ClientId, act: P.Action, loser: bool)
    requires CacheOk(s) && ScrapesOk(s) && PhaseOk(s) && Enabled(s, e) && CreatorAct(s, e, c, act, loser)
    ensures ScrapesOk(Apply(s, e)) && CacheOk(Apply(s, e))
  {
    var s' := Apply(s, e);
    CreatorActs(s, e, c, act, loser);
    CreatorMoves(s, e, c, act, loser);
    ActKeepsCache(s, c, act, loser, s');
    KeepOwners(s, s');
    forall pid | pid in s'.scrapes ensures ScrapeOk(s', pid) {
      if pid != e.pid {
        assert ScrapeOk(s, pid) && !HeldBy(s, pid, c);
        ActKeepsScrape(s, c, act, loser, s', pid);
      }
    }
  }

  /** Where the creator's client stands afterwards. */
  lemma CreatorActPlaces(s: System, e: Event, c: ClientId, act: P.Action, loser: bool)
    requires ScrapesOk(s) && Enabled(s, e) && CreatorAct(s, e, c, act, loser)
    ensures Placed(Apply(s, e), c) && TokenPlaced(Apply(s, e), c) && Allowed(s, c, act)
  {
    var s' := Apply(s, e);
    assert ScrapeOk(s, e.pid);
    var m, m' := s.clients[c], s'.clients[c];
    if s'.incidents != s.incidents {
      assert s'.incidents[|s.incidents|] == Incidents(s, c, act, loser)[0];
    }
    if e.Login? && e.reply.Granted? {
      assert HeldBy(s', e.pid, c) && CarriedToken(s', e.pid, m.target, m'.auth.token);
    } else {
      assert m'.auth.token == "" || Logged(s', m.target, m'.auth.token);
      assert Released(s', c);
    }
  }

  lemma CreatorActKeeps(s: System, e: Event, c: ClientId, act: P.Action, loser: bool)
    requires SystemOk(s) && Enabled(s, e) && CreatorAct(s, e, c, act, loser)
    ensures SystemOk(Apply(s, e))
  {
    CreatorActs(s, e, c, act, loser);
    CreatorMoves(s, e, c, act, loser);
    CreatorActKeepsScrapes(s, e, c, act, loser);
    CreatorActPlaces(s, e, c, act, loser);
    ActKeeps(s, c, act, loser, Apply(s, e));
  }

  lemma LoadKeeps(s: System, e: Event)
    requires SystemOk(s) && Enabled(s, e) && e.Load?
    ensures SystemOk(Apply(s, e))
  {
    if s.scrapes[e.pid].target in s.cache { ScrapeEventKeeps(s, e); } else { LoadMissKeeps(s, e); }
  }

  lemma LoadOrStoreKeeps(s: System, e: Event)
    requires SystemOk(s) && Enabled(s, e) && e.LoadOrStore?
    ensures SystemOk(Apply(s, e))
  {
    if s.scrapes[e.pid].target in s.cache { ScrapeEventKeeps(s, e); } else { StoreKeeps(s, e); }
  }

  lemma CreatorEventKeeps(s: System, e: Event)
    requires SystemOk(s) && Enabled(s, e) && (e.Login? || e.LoserLogout?)
    ensures SystemOk(Apply(s, e))
  {
    var c := s.scrapes[e.pid].stage.c;
    if e.Login? {
      CreatorActKeeps(s, e, c, P.Login(e.reply), false);
    } else {
      CreatorActKeeps(s, e, c, P.Logout(e.answer), true);
    }
  }

  lemma ScrapeSideKeeps(s: System, e: Event)
    requires SystemOk(s) && Enabled(s, e)
    requires e.Accept? || e.NewFails? || e.Finish? || e.Load? || e.LoadOrStore?
    ensures SystemOk(Apply(s, e))
  {
    if e.Load? {
      LoadKeeps(s, e);
    } else if e.LoadOrStore? {
      LoadOrStoreKeeps(s, e);
    } else {
      ScrapeEventKeeps(s, e);
    }
  }

  lemma ClientSideKeeps(s: System, e: Event)
    requires SystemOk(s) && Enabled(s, e)
    requires e.Login? || e.LoserLogout? || e.BeginCall? || e.CallStep? || e.Visit?
    ensures SystemOk(Apply(s, e))
  {
    if e.BeginCall? {
      BeginCallKeeps(s, e);
    } else if e.CallStep? {
      CallStepKeeps(s, e);
    } else if e.Visit? {
      VisitKeeps(s, e);
    } else {
      CreatorEventKeeps(s, e);
    }
  }

  lemma OutsideKeeps(s: System, e: Event)
    requires SystemOk(s) && Enabled(s, e)
    requires e.Expire? || e.Signal? || e.StartLogout? || e.EndRange?
    ensures SystemOk(Apply(s, e))
  {
    if e.Expire? {
      ExpireKeeps(s, e);
    } else {
      PhaseEventKeeps(s, e);
    }
  }

  lemma StepKeepsSystem(s: System, e: Event, s': System)
    requires SystemOk(s) && Step(s, e, s')
    ensures SystemOk(s')
  {
    if e.Accept? || e.NewFails? || e.Finish? || e.Load? || e.LoadOrStore? {
      ScrapeSideKeeps(s, e);
    } else if e.Expire? || e.Signal? || e.StartLogout? || e.EndRange? {
      OutsideKeeps(s, e);
    } else {
      ClientSideKeeps(s, e);
    }
  }

  /** The invariant holds in every reachable state of the exporter. */
  lemma {:induction false} SystemHolds(ss: seq<System>, es: seq<Event>, n: nat)
    requires IsRun(ss, es) && n < |ss|
    ensures SystemOk(ss[n])
    decreases n
  {
    if n > 0 {
      SystemHolds(ss, es, n - 1);
      StepKeepsSystem(ss[n - 1], es[n - 1], ss[n]);
    }
  }
}
