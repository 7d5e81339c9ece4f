/**
 The life of one scrape inside `getOrCreateClient`: what it may create, log in and log out, and how it
 ends.
 */
module ScrapeLife {
  import opened Collections
  import opened ClientCache
  import opened TokenConservation
  import Invariant = ClientCacheInvariant
  import P = AuthProtocol

  // ---------------------------------------------------------------- a known target

  /** Once a client is stored for a target, no client is created for it any more. */
  lemma {:induction false} NoClientAfterStore(ss: seq<System>, es: seq<Event>, i: nat, j: nat, target: Target,
      c: ClientId)
    requires IsRun(ss, es) && i <= j < |ss| && target in ss[i].cache
    requires c in ss[j].clients && ss[j].clients[c].target == target
    ensures c in ss[i].clients && ss[i].clients[c].target == target
    decreases j
  {
    if i < j {
      CacheEntriesStay(ss, es, i, j - 1, target);
      NoNewClient(ss[j - 1], es[j - 1], ss[j], target, c);
      NoClientAfterStore(ss, es, i, j - 1, target, c);
    }
  }

  lemma NoNewClient(s: System, e: Event, s': System, target: Target, c: ClientId)
    requires Step(s, e, s') && target in s.cache
    requires c in s'.clients && s'.clients[c].target == target
    ensures c in s.clients && s.clients[c].target == target
  {
  }

  /** A scrape that starts when its target is known takes the stored client, if it takes one at all; it
      creates none, fails in nothing and logs neither in nor out. */
  lemma {:induction false} LateScrapeTakesTheStored(ss: seq<System>, es: seq<Event>, i: nat, j: nat, pid: ScrapeId)
    requires IsRun(ss, es) && i <= j < |ss|
    requires pid !in ss[i].scrapes && pid in ss[j].scrapes && ss[j].scrapes[pid].target in ss[i].cache
    ensures var stage, stored := ss[j].scrapes[pid].stage, ss[i].cache[ss[j].scrapes[pid].target];
            stage.Looking? || (stage.Using? && stage.c == stored) || stage == Over(Some(stored))
    ensures forall k {:trigger es[k]} :: i <= k < j ==> !Logs(es[k], pid)
    decreases j
  {
    var target := ss[j].scrapes[pid].target;
    if i < j {
      CacheEntriesStay(ss, es, i, j - 1, target);
      assert Step(ss[j - 1], es[j - 1], ss[j]);
      if pid in ss[j - 1].scrapes {
        LateScrapeTakesTheStored(ss, es, i, j - 1, pid);
      } else {
        NothingBefore(ss, es, j - 1, pid);
      }
    }
  }

  /** The scrape logs its own client in or out. */
  predicate Logs(e: Event, pid: ScrapeId) { (e.Login? || e.LoserLogout?) && e.pid == pid }

  /** A scrape that has not been accepted has done nothing. */
  lemma {:induction false} NothingBefore(ss: seq<System>, es: seq<Event>, n: nat, pid: ScrapeId)
    requires IsRun(ss, es) && n < |ss| && pid !in ss[n].scrapes
    ensures forall k {:trigger es[k]} :: 0 <= k < n ==> !Logs(es[k], pid) && es[k] != NewFails(pid)
    decreases n
  {
    if n > 0 {
      assert Step(ss[n - 1], es[n - 1], ss[n]);
      NothingBefore(ss, es, n - 1, pid);
    }
  }

  // ---------------------------------------------------------------- its traffic

  function LoginsBy(es: seq<Event>, pid: ScrapeId): nat {
    if es == [] then 0
    else
      var last := es[|es| - 1];
      LoginsBy(es[..|es| - 1], pid) + (if last.Login? && last.pid == pid then 1 else 0)
  }

  function LogoutsBy(es: seq<Event>, pid: ScrapeId): nat {
    if es == [] then 0
    else
      var last := es[|es| - 1];
      LogoutsBy(es[..|es| - 1], pid) + (if last.LoserLogout? && last.pid == pid then 1 else 0)
  }

  /** Logins and loser logouts a scrape at this stage may have made. */
  ghost predicate TrafficOk(stage: Stage, logins: nat, logouts: nat) {
    match stage
    case Looking => logins == 0 && logouts == 0
    case Created(_) => logins == 0 && logouts == 0
    case LoggedIn(_) => logins == 1 && logouts == 0
    case Losing(_, _) => logins == 1 && logouts == 0
    case Using(_, _) => logouts <= logins <= 1
    case Over(_) => logouts <= logins <= 1
  }

  /** A scrape logs in at most once, whatever the answer, and logs out at most once, and then only what
      it logged in. */
  lemma {:induction false} OneLoginPerScrape(ss: seq<System>, es: seq<Event>, n: nat, pid: ScrapeId)
    requires IsRun(ss, es) && n < |ss|
    ensures LogoutsBy(es[..n], pid) <= LoginsBy(es[..n], pid) <= 1
    ensures pid !in ss[n].scrapes ==> LoginsBy(es[..n], pid) == 0
    ensures pid in ss[n].scrapes ==>
        TrafficOk(ss[n].scrapes[pid].stage, LoginsBy(es[..n], pid), LogoutsBy(es[..n], pid))
    decreases n
  {
    if n > 0 {
      OneLoginPerScrape(ss, es, n - 1, pid);
      assert es[..n][..n - 1] == es[..n - 1];
      assert Step(ss[n - 1], es[n - 1], ss[n]);
    }
  }

  // ---------------------------------------------------------------- its end

  /** Over is over. */
  lemma {:induction false} OverStays(ss: seq<System>, es: seq<Event>, i: nat, j: nat, pid: ScrapeId)
    requires IsRun(ss, es) && i <= j < |ss|
    requires pid in ss[i].scrapes && ss[i].scrapes[pid].stage.Over?
    ensures pid in ss[j].scrapes && ss[j].scrapes[pid] == ss[i].scrapes[pid]
    decreases j
  {
    if i < j {
      OverStays(ss, es, i, j - 1, pid);
      assert Step(ss[j - 1], es[j - 1], ss[j]);
    }
  }

  /** The scrape could not make a client, or its login was refused. */
  ghost predicate Fails(e: Event, pid: ScrapeId) {
    e == NewFails(pid) || (e.Login? && e.pid == pid && e.reply.Refused?)
  }

  /** A failure ends the scrape without a client and leaves the map alone. */
  lemma FailureEndsScrape(ss: seq<System>, es: seq<Event>, k: nat, n: nat, pid: ScrapeId)
    requires IsRun(ss, es) && k < n < |ss| && Fails(es[k], pid)
    ensures pid in ss[n].scrapes && ss[n].scrapes[pid].stage == Over(None)
    ensures ss[k + 1].cache == ss[k].cache
  {
    assert Step(ss[k], es[k], ss[k + 1]);
    OverStays(ss, es, k + 1, n, pid);
  }

  /** And nothing else does. */
  lemma {:induction false} OnlyFailureEndsEmpty(ss: seq<System>, es: seq<Event>, n: nat, pid: ScrapeId)
    requires IsRun(ss, es) && n < |ss|
    requires pid in ss[n].scrapes && ss[n].scrapes[pid].stage == Over(None)
    ensures exists k {:trigger es[k]} :: 0 <= k < n && Fails(es[k], pid)
    decreases n
  {
    if n > 0 {
      assert Step(ss[n - 1], es[n - 1], ss[n]);
      if pid in ss[n - 1].scrapes && ss[n - 1].scrapes[pid].stage == Over(None) {
        OnlyFailureEndsEmpty(ss, es, n - 1, pid);
        var k :| 0 <= k < n - 1 && Fails(es[k], pid);
        assert Fails(es[k], pid);
      } else {
        assert Fails(es[n - 1], pid);
      }
    }
  }

  /** A scrape that ended with a client ended with the stored one. */
  lemma EndsWithTheStored(ss: seq<System>, es: seq<Event>, n: nat, pid: ScrapeId)
    requires IsRun(ss, es) && n < |ss|
    requires pid in ss[n].scrapes && ss[n].scrapes[pid].stage.Over? && ss[n].scrapes[pid].stage.got.Some?
    ensures var scrape := ss[n].scrapes[pid];
            scrape.target in ss[n].cache && ss[n].cache[scrape.target] == scrape.stage.got.value
  {
    Invariant.SystemHolds(ss, es, n);
    assert ScrapeOk(ss[n], pid);
  }

  // ---------------------------------------------------------------- it never gets stuck

  /** An event of the scrape: one of its own, or a step of a call it waits for. */
  ghost predicate IsOwn(s: System, e: Event, pid: ScrapeId)
    requires pid in s.scrapes
  {
    var stage := s.scrapes[pid].stage;
    || ((e.Load? || e.Login? || e.LoadOrStore? || e.LoserLogout? || e.Finish?) && e.pid == pid)
    || (e.CallStep? && IsCallStep(e.act) && stage.Using? && e.c == stage.c && e.act.id in stage.calls)
  }

  /** The step a call is ready for, should the server not answer. */
  function ReadyStep(id: P.CallId, pc: P.Pc): P.Action {
    match pc
    case Starting => P.Ensure(id, P.Refused(None))
    case Retrying(_) => P.Ensure(id, P.Refused(None))
    case Rejected(_) => P.Invalidate(id)
    case _ => P.Data(id, P.Lost)
  }

  /** In every reachable state a scrape that is not over can go on by itself, whatever the others do. */
  lemma ScrapeNeverStuck(ss: seq<System>, es: seq<Event>, n: nat, pid: ScrapeId) returns (e: Event)
    requires IsRun(ss, es) && n < |ss|
    requires pid in ss[n].scrapes && !ss[n].scrapes[pid].stage.Over?
    ensures Enabled(ss[n], e) && IsOwn(ss[n], e, pid)
  {
    var s := ss[n];
    Invariant.SystemHolds(ss, es, n);
    assert ScrapeOk(s, pid);
    match s.scrapes[pid].stage {
      case Looking =>
        var c := AboveAll(s.clients.Keys);
        e := Load(pid, c);
      case Created(_) => e := Login(pid, P.Refused(None));
      case LoggedIn(_) => e := LoadOrStore(pid);
      case Losing(_, _) => e := LoserLogout(pid, P.NoAnswer(false));
      case Using(c, calls) =>
        if id :| id in calls && !s.clients[c].auth.calls[id].pc.Finished? {
          e := CallStep(c, ReadyStep(id, s.clients[c].auth.calls[id].pc));
        } else {
          e := Finish(pid);
        }
    }
  }
}
