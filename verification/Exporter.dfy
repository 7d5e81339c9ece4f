/**
 `getOrCreateClient` and `logoutAll` as the source writes them, over a map of AuthClient objects.
 ClientCache treats their races; here each method is tied to what it does to the map, to the
 tokens and to the wire.
 */
module Exporter {
  import opened Collections
  import opened AuthClient
  import M = ClientCache
  import P = AuthProtocol

  class Exporter {
    /** `sync.Map`: target to client. */
    var clients: map<string, Client>

    /** Targets do not share clients or connections. */
    ghost predicate Valid()
      reads this
    {
      forall a, b :: a in clients && b in clients && a != b ==>
        clients[a] != clients[b] && clients[a].wire != clients[b].wire
    }

    ghost predicate Unused(wire: Wire)
      reads this
    {
      forall t :: t in clients ==> clients[t].wire != wire
    }

    constructor ()
      ensures clients == map[] && Valid()
    {
      clients := map[];
    }

    /** `rival` is the client another scrape of the target stores while this one is logging in,
        null if none does.  The caller that finds a client stored logs its own one out. */
    method GetOrCreateClient(target: string, wire: Wire, rival: Client?) returns (r: Result<Client>)
      requires Valid() && Unused(wire) && (rival != null ==> Unused(rival.wire))
      modifies this, wire
      ensures Valid()
      ensures target in old(clients) ==>
                r == Ok(old(clients)[target]) && clients == old(clients) && wire.log == old(wire.log)
      ensures target !in old(clients) && target == "" ==>
                r == Err(EmptyTarget) && clients == old(clients) && wire.log == old(wire.log)
      ensures target !in old(clients) && target != "" ==>
                var (w, login) := LoginStep(wire.answer, World("", old(wire.log)));
                if login.Err? then
                  r == Err(login.error) && clients == old(clients) && wire.log == w.log
                else if rival != null then
                  r == Ok(rival) && clients == old(clients)[target := rival]
                  && wire.log == LogoutStep(wire.answer, w).0.log
                else
                  && r.Ok? && fresh(r.value) && r.value.authToken == w.token && r.value.wire == wire
                  && clients == old(clients)[target := r.value] && wire.log == w.log
    {
      if target in clients {
        return Ok(clients[target]);
      }
      if target == "" {
        return Err(EmptyTarget);
      }
      var c := new Client(target, wire);
      var login := c.Login();
      if login.Err? {
        return Err(login.error);
      }
      if rival != null {
        clients := clients[target := rival];
      }
      if target in clients {
        var _ := c.Logout();
        return Ok(clients[target]);
      }
      clients := clients[target := c];
      return Ok(c);
    }

    /** One logout attempt per cached client, best effort: afterwards a client caches its old token
        exactly if its logout failed without an answer, and nothing otherwise. */
    method LogoutAll() returns (failed: set<string>)
      requires Valid()
      modifies set t | t in clients :: clients[t]
      modifies set t | t in clients :: clients[t].wire
      ensures clients == old(clients)
      ensures failed <= clients.Keys
      ensures forall t :: t in clients ==>
                var c := clients[t];
                var (w, r) := LogoutStep(c.wire.answer, old(c.Now()));
                c.Now() == w && (t in failed <==> r.Err?)
    {
      failed := {};
      var todo := clients.Keys;
      while todo != {}
        invariant todo <= clients.Keys && failed <= clients.Keys - todo
        invariant forall t :: t in todo ==> clients[t].Now() == old(clients[t].Now())
        invariant forall t :: t in clients.Keys - todo ==>
                    var c := clients[t];
                    var (w, r) := LogoutStep(c.wire.answer, old(c.Now()));
                    c.Now() == w && (t in failed <==> r.Err?)
        decreases todo
      {
        var t :| t in todo;
        var r := clients[t].Logout();
        if r.Err? {
          failed := failed + {t};
        }
        todo := todo - {t};
      }
    }
  }

  /** A loser's net effect on the server: the token it was granted is the one it asks to log out,
      and it makes no other request. */
  lemma LoserReturnsItsOwnToken(net: Network, log: seq<Exchange>)
    requires LoginStep(net, World("", log)).1.Ok?
    ensures var w := LoginStep(net, World("", log)).0;
            var after := LogoutStep(net, w).0.log;
            && |after| == |log| + 2 && log <= after
            && after[|log|].request == LoginRequest && after[|log|].response.authHeader == w.token
            && after[|log| + 1].request == LogoutRequest(w.token) && w.token != ""
  {
  }

  /** A logged-out client holds nothing unless the request got no answer at all. */
  lemma LogoutKeepsTokenIffUnanswered(net: Network, w: World)
    ensures var (w', r) := LogoutStep(net, w);
            && (w'.token == w.token && w.token != "" <==> w.token != "" && r == Err(Transport))
            && (w'.token == "" || w'.token == w.token)
            && (w.token == "" ==> w' == w)
  {
  }

  // ---------------------------------------------------------------- the machine's scrapes do the same

  /** A map hit: the scrape has the stored client after one event, and nothing else has changed. */
  lemma HitIsGetOrCreate(s: M.System, pid: M.ScrapeId, c: M.ClientId)
    requires pid in s.scrapes && s.scrapes[pid].stage.Looking? && s.scrapes[pid].target in s.cache
    ensures M.Enabled(s, M.Load(pid, c))
    ensures M.Apply(s, M.Load(pid, c)) ==
            s.(scrapes := s.scrapes[pid := s.scrapes[pid].(stage := M.Using(s.cache[s.scrapes[pid].target], {}))])
  {
  }

  /** A miss: a new client logs in as `Login` does.  Refused, the scrape is over and the map as before;
      granted, the scrape holds the client with the token `Login` stored. */
  lemma MissIsGetOrCreate(net: Network, log: seq<Exchange>, s: M.System, pid: M.ScrapeId, c: M.ClientId)
    returns (s1: M.System, s2: M.System)
    requires pid in s.scrapes && s.scrapes[pid].stage.Looking? && s.scrapes[pid].target !in s.cache && c !in s.clients
    requires P.Carried(ReplyOf(Grant(net(log, LoginRequest)))) !! M.ServerOf(s, s.scrapes[pid].target).issued
    ensures M.Step(s, M.Load(pid, c), s1)
    ensures M.Step(s1, M.Login(pid, ReplyOf(Grant(net(log, LoginRequest)))), s2)
    ensures s2.cache == s.cache
    ensures var (w, login) := LoginStep(net, World("", log));
            if login.Err? then s2.scrapes[pid].stage == M.Over(None)
            else
              && s2.scrapes[pid].stage == M.LoggedIn(c)
              && c in s2.clients && s2.clients[c].auth.token == w.token && s2.clients[c].target == s.scrapes[pid].target
  {
    s1 := M.Apply(s, M.Load(pid, c));
    assert M.View(s1, c) == P.State(M.NEW_CLIENT, M.ServerOf(s, s.scrapes[pid].target));
    s2 := M.Apply(s1, M.Login(pid, ReplyOf(Grant(net(log, LoginRequest)))));
  }

  /** The winner stores its client and has it. */
  lemma WinIsGetOrCreate(s: M.System, pid: M.ScrapeId, c: M.ClientId)
    requires pid in s.scrapes && s.scrapes[pid].stage == M.LoggedIn(c) && s.scrapes[pid].target !in s.cache
    ensures M.Enabled(s, M.LoadOrStore(pid))
    ensures var s' := M.Apply(s, M.LoadOrStore(pid));
            && s'.cache == s.cache[s.scrapes[pid].target := c]
            && s'.scrapes[pid].stage == M.Using(c, {})
            && s'.clients == s.clients && s'.servers == s.servers && s'.incidents == s.incidents
  {
  }

  /** The loser logs its own client out as `Logout` does, and has the stored one whatever comes of it. */
  lemma LossIsGetOrCreate(net: Network, log: seq<Exchange>, s: M.System, pid: M.ScrapeId, c: M.ClientId)
    returns (s1: M.System, s2: M.System)
    requires M.ScrapesOk(s) && pid in s.scrapes && s.scrapes[pid].stage == M.LoggedIn(c)
        && s.scrapes[pid].target in s.cache
    ensures c in s.clients
    ensures M.Step(s, M.LoadOrStore(pid), s1)
    ensures M.Step(s1, M.LoserLogout(pid, LogoutReplyOf(net(log, LogoutRequest(s.clients[c].auth.token)))), s2)
    ensures s2.cache == s.cache && s2.scrapes[pid].stage == M.Using(s.cache[s.scrapes[pid].target], {})
    ensures c in s2.clients && s2.clients[c].auth.token == LogoutStep(net, World(s.clients[c].auth.token, log)).0.token
  {
    assert M.ScrapeOk(s, pid);
    s1 := M.Apply(s, M.LoadOrStore(pid));
    s2 := M.Apply(s1, M.LoserLogout(pid, LogoutReplyOf(net(log, LogoutRequest(s.clients[c].auth.token)))));
  }
}
