/**
 The metering fan-out: one goroutine per namespace, a buffered channel as counting semaphore, a
 mutex around the shared slice, and a WaitGroup.  A run is any interleaving of the goroutines'
 steps; the append is split into its read and its write.
 */
module Metering {
  import opened Collections
  import opened AuthClient
  import opened Metrics

  // ---------------------------------------------------------------- one namespace

  const KB_TO_BYTES := 1000.0

  /** Decoded bodies; a number that is missing or unreadable is None. */
  datatype Quota = Quota(blockSize: Option<real>, notificationSize: Option<real>)
  datatype Billing = Billing(totalSize: Option<real>, totalObjects: Option<real>)

  /** A namespace has a quota if the API says so with a positive block size. */
  predicate HasQuota(quota: Result<Quota>) {
    quota.Ok? && quota.value.blockSize.Some? && quota.value.blockSize.value > 0.0
  }

  function QuotaBlock(ns: string, quota: Result<Quota>): seq<Metric> {
    if !HasQuota(quota) then []
    else
      Gauge("obs_metering_namespace_quota_bytes", [ns, "block"], quota.value.blockSize, GB_TO_BYTES)
      + Gauge("obs_metering_namespace_quota_bytes", [ns, "notification"], quota.value.notificationSize, GB_TO_BYTES)
  }

  function BillingBlock(ns: string, billing: Result<Billing>): seq<Metric> {
    if billing.Err? then []
    else
      Gauge("obs_metering_namespace_used_bytes", [ns], billing.value.totalSize, KB_TO_BYTES)
      + Gauge("obs_metering_namespace_objects", [ns], billing.value.totalObjects, 1.0)
  }

  /** The gauges of a namespace, reading by reading: the block quota in bytes if it is positive, with it
      the notification size in bytes, the used size in bytes, the object count; each once, and no other. */
  lemma NamespaceGauges(ns: string, quota: Result<Quota>, billing: Result<Billing>)
    ensures var metrics := QuotaBlock(ns, quota) + BillingBlock(ns, billing);
            && NoDup(metrics)
            && (forall m :: m in metrics <==>
                  || (&& quota.Ok? && quota.value.blockSize.Some? && quota.value.blockSize.value > 0.0
                      && m == Metric("obs_metering_namespace_quota_bytes", [ns, "block"],
                                     quota.value.blockSize.value * 1000000000.0))
                  || (&& quota.Ok? && quota.value.blockSize.Some? && quota.value.blockSize.value > 0.0
                      && quota.value.notificationSize.Some?
                      && m == Metric("obs_metering_namespace_quota_bytes", [ns, "notification"],
                                     quota.value.notificationSize.value * 1000000000.0))
                  || (&& billing.Ok? && billing.value.totalSize.Some?
                      && m == Metric("obs_metering_namespace_used_bytes", [ns], billing.value.totalSize.value * 1000.0))
                  || (&& billing.Ok? && billing.value.totalObjects.Some?
                      && m == Metric("obs_metering_namespace_objects", [ns], billing.value.totalObjects.value)))
  {
    QuotaGauges(ns, quota);
    BillingGauges(ns, billing);
    assert forall m :: m in QuotaBlock(ns, quota) ==> |m.labels| == 2;
    assert forall m :: m in BillingBlock(ns, billing) ==> |m.labels| == 1;
  }

  lemma QuotaGauges(ns: string, quota: Result<Quota>)
    ensures NoDup(QuotaBlock(ns, quota))
    ensures forall m :: m in QuotaBlock(ns, quota) <==>
              && quota.Ok? && quota.value.blockSize.Some? && quota.value.blockSize.value > 0.0
              && (|| m == Metric("obs_metering_namespace_quota_bytes", [ns, "block"],
                                 quota.value.blockSize.value * 1000000000.0)
                  || (quota.value.notificationSize.Some?
                      && m == Metric("obs_metering_namespace_quota_bytes", [ns, "notification"],
                                     quota.value.notificationSize.value * 1000000000.0)))
  {
    assert [ns, "block"][1] != [ns, "notification"][1];
  }

  lemma BillingGauges(ns: string, billing: Result<Billing>)
    ensures NoDup(BillingBlock(ns, billing))
    ensures forall m :: m in BillingBlock(ns, billing) <==>
              && billing.Ok?
              && (|| (billing.value.totalSize.Some?
                      && m == Metric("obs_metering_namespace_used_bytes", [ns], billing.value.totalSize.value * 1000.0))
                  || (billing.value.totalObjects.Some?
                      && m == Metric("obs_metering_namespace_objects", [ns], billing.value.totalObjects.value)))
  {
  }

  lemma NamespaceLabels(ns: string, quota: Result<Quota>, billing: Result<Billing>)
    ensures var metrics := QuotaBlock(ns, quota) + BillingBlock(ns, billing);
            && |metrics| <= 4
            && (forall m :: m in metrics ==> m.labels != [] && m.labels[0] == ns)
            && ((exists m :: m in metrics && m.labels == [ns, "block"]) <==> HasQuota(quota))
  {
    QuotaGauges(ns, quota);
    BillingGauges(ns, billing);
    assert HasQuota(quota) ==> QuotaBlock(ns, quota)[0].labels == [ns, "block"];
    assert forall m :: m in BillingBlock(ns, billing) ==> |m.labels| == 1;
  }

  method EmitQuota(ns: string, quota: Result<Quota>) returns (metrics: seq<Metric>)
    ensures metrics == QuotaBlock(ns, quota)
  {
    metrics := [];
    if quota.Ok? {
      var block := quota.value.blockSize;
      if block.Some? && block.value > 0.0 {
        metrics := metrics + [Metric("obs_metering_namespace_quota_bytes", [ns, "block"], block.value * GB_TO_BYTES)];
        var notification := quota.value.notificationSize;
        if notification.Some? {
          metrics := metrics
              + [Metric("obs_metering_namespace_quota_bytes", [ns, "notification"], notification.value * GB_TO_BYTES)];
        }
      }
    }
  }

  /** Best effort: each API contributes its own part or nothing, whatever the other does. */
  method MeteringNamespaceMetrics(ns: string, quota: Result<Quota>, billing: Result<Billing>)
    returns (metrics: seq<Metric>)
    ensures metrics == QuotaBlock(ns, quota) + BillingBlock(ns, billing)
    ensures |metrics| <= 4
    ensures (exists m :: m in metrics && m.labels == [ns, "block"]) <==> HasQuota(quota)
    ensures forall m :: m in metrics ==> m.labels != [] && m.labels[0] == ns
    ensures billing.Ok? && billing.value.totalSize.Some? ==>
              Metric("obs_metering_namespace_used_bytes", [ns], billing.value.totalSize.value * 1000.0) in metrics
    ensures billing.Ok? && billing.value.totalObjects.Some? ==>
              Metric("obs_metering_namespace_objects", [ns], billing.value.totalObjects.value) in metrics
  {
    metrics := EmitQuota(ns, quota);
    if billing.Ok? {
      if billing.value.totalSize.Some? {
        metrics := metrics
            + [Metric("obs_metering_namespace_used_bytes", [ns], billing.value.totalSize.value * KB_TO_BYTES)];
      }
      if billing.value.totalObjects.Some? {
        metrics := metrics + [Metric("obs_metering_namespace_objects", [ns], billing.value.totalObjects.value)];
      }
    }
    assert metrics == QuotaBlock(ns, quota) + BillingBlock(ns, billing);
    NamespaceLabels(ns, quota, billing);
    BillingGauges(ns, billing);
  }

  // ---------------------------------------------------------------- the goroutines

  /** `make(chan struct{}, concurrency)` after the clamp. */
  function Slots(concurrency: int): nat { if concurrency < 1 then 1 else concurrency }

  datatype Stage =
    | Queued                                           // about to send on the semaphore
    | Serving                                          // calls the two APIs
    | Fetched(local: seq<Metric>)                      // about to lock
    | Locked(local: seq<Metric>)
    | Copied(local: seq<Metric>, seen: seq<Metric>)    // has read the shared slice
    | Stored                                           // has written it, about to unlock
    | Unlocked                                         // about to receive from the semaphore
    | Leaving                                          // about to call wg.Done
    | Gone

  /** `blocks` and `order` are history: what each goroutine fetched, and who stored when. */
  datatype State = State(
    stages: seq<Stage>,
    sem: nat,
    mu: Option<nat>,
    wg: nat,
    metrics: seq<Metric>,
    returned: bool,
    blocks: map<nat, seq<Metric>>,
    order: seq<nat>
  )

  datatype Step =
    | Spawn
    | Acquire(i: nat)
    | Fetch(i: nat, local: seq<Metric>)
    | Lock(i: nat)
    | Copy(i: nat)
    | Store(i: nat)
    | Unlock(i: nat)
    | Release(i: nat)
    | Depart(i: nat)
    | WaitReturns

  predicate At(s: State, i: nat) { i < |s.stages| }

  /** n namespaces are listed; the semaphore has `slots` slots. */
  predicate Enabled(n: nat, slots: nat, s: State, a: Step) {
    match a
    case Spawn => |s.stages| < n
    case Acquire(i) => At(s, i) && s.stages[i].Queued? && s.sem < slots
    case Fetch(i, _) => At(s, i) && s.stages[i].Serving?
    case Lock(i) => At(s, i) && s.stages[i].Fetched? && s.mu == None
    case Copy(i) => At(s, i) && s.stages[i].Locked?
    case Store(i) => At(s, i) && s.stages[i].Copied?
    case Unlock(i) => At(s, i) && s.stages[i].Stored?
    case Release(i) => At(s, i) && s.stages[i].Unlocked? && s.sem > 0
    case Depart(i) => At(s, i) && s.stages[i].Leaving? && s.wg > 0
    case WaitReturns => |s.stages| == n && s.wg == 0 && !s.returned
  }

  function Apply(n: nat, slots: nat, s: State, a: Step): State
    requires Enabled(n, slots, s, a)
  {
    match a
    case Spawn => s.(stages := s.stages + [Queued], wg := s.wg + 1)
    case Acquire(i) => s.(stages := s.stages[i := Serving], sem := s.sem + 1)
    case Fetch(i, local) => s.(stages := s.stages[i := Fetched(local)], blocks := s.blocks[i := local])
    case Lock(i) => s.(stages := s.stages[i := Locked(s.stages[i].local)], mu := Some(i))
    case Copy(i) => s.(stages := s.stages[i := Copied(s.stages[i].local, s.metrics)])
    case Store(i) =>
      s.(stages := s.stages[i := Stored], metrics := s.stages[i].seen + s.stages[i].local, order := s.order + [i])
    case Unlock(i) => s.(stages := s.stages[i := Unlocked], mu := None)
    case Release(i) => s.(stages := s.stages[i := Leaving], sem := s.sem - 1)
    case Depart(i) => s.(stages := s.stages[i := Gone], wg := s.wg - 1)
    case WaitReturns => s.(returned := true)
  }

  ghost predicate IsRun(n: nat, slots: nat, ss: seq<State>, acts: seq<Step>) {
    && |ss| == |acts| + 1
    && ss[0] == State([], 0, None, 0, [], false, map[], [])
    && forall i {:trigger acts[i]} :: 0 <= i < |acts| ==>
         Enabled(n, slots, ss[i], acts[i]) && ss[i + 1] == Apply(n, slots, ss[i], acts[i])
  }

  // ---------------------------------------------------------------- invariant

  predicate HoldsSlot(stage: Stage) {
    !stage.Queued? && !stage.Leaving? && !stage.Gone?
  }

  predicate InMutex(stage: Stage) { stage.Locked? || stage.Copied? || stage.Stored? }

  predicate HasStored(stage: Stage) { stage.Stored? || stage.Unlocked? || stage.Leaving? || stage.Gone? }

  function Holders(stages: seq<Stage>): nat {
    if stages == [] then 0
    else Holders(stages[..|stages| - 1]) + (if HoldsSlot(stages[|stages| - 1]) then 1 else 0)
  }

  function Unfinished(stages: seq<Stage>): nat {
    if stages == [] then 0
    else Unfinished(stages[..|stages| - 1]) + (if stages[|stages| - 1].Gone? then 0 else 1)
  }

  function Joined(blocks: map<nat, seq<Metric>>, order: seq<nat>): seq<Metric> {
    FlatMap((i: nat) => if i in blocks then blocks[i] else [], order)
  }

  ghost predicate StageOk(s: State, i: nat)
    requires i < |s.stages|
  {
    var stage := s.stages[i];
    && (InMutex(stage) <==> s.mu == Some(i))
    && (HasStored(stage) <==> i in s.order)
    && (HasStored(stage) || stage.Fetched? || stage.Locked? || stage.Copied? <==> i in s.blocks)
    && (stage.Fetched? || stage.Locked? || stage.Copied? ==> s.blocks[i] == stage.local)
    && (stage.Copied? ==> stage.seen == s.metrics)
  }

  ghost predicate Ok(n: nat, slots: nat, s: State) {
    && |s.stages| <= n
    && s.sem == Holders(s.stages) && s.sem <= slots
    && s.wg == Unfinished(s.stages)
    && (forall i :: 0 <= i < |s.stages| ==> StageOk(s, i))
    && (s.mu.Some? ==> s.mu.value < |s.stages|)
    && (forall i :: i in s.blocks ==> i < |s.stages|)
    && NoDup(s.order) && (forall i :: i in s.order ==> i < |s.stages|)
    && s.metrics == Joined(s.blocks, s.order)
    && (s.returned ==> |s.stages| == n && s.wg == 0)
  }

  lemma {:induction false} CountsUpdate(stages: seq<Stage>, i: nat, stage: Stage)
    requires i < |stages|
    ensures Holders(stages[i := stage]) + (if HoldsSlot(stages[i]) then 1 else 0) ==
        Holders(stages) + (if HoldsSlot(stage) then 1 else 0)
    ensures Unfinished(stages[i := stage]) + (if stages[i].Gone? then 0 else 1) ==
        Unfinished(stages) + (if stage.Gone? then 0 else 1)
    ensures StageRanks(stages[i := stage]) + StageRank(stages[i]) == StageRanks(stages) + StageRank(stage)
  {
    var n, after := |stages| - 1, stages[i := stage];
    if i < n {
      CountsUpdate(stages[..n], i, stage);
      assert stages[..n][i := stage] == after[..n];
    } else {
      assert stages[..n] == after[..n];
    }
  }

  /** Blocks of goroutines that have not stored yet do not matter. */
  lemma {:induction false} JoinedIgnores(blocks: map<nat, seq<Metric>>, i: nat, local: seq<Metric>, order: seq<nat>)
    requires i !in order
    ensures Joined(blocks[i := local], order) == Joined(blocks, order)
  {
    if order != [] {
      var front := order[..|order| - 1];
      assert order[|order| - 1] in order;
      JoinedIgnores(blocks, i, local, front);
    }
  }

  lemma ActorKeeps(n: nat, slots: nat, s: State, a: Step)
    requires Ok(n, slots, s) && Enabled(n, slots, s, a) && !a.Spawn? && !a.WaitReturns?
    ensures StageOk(Apply(n, slots, s, a), a.i)
  {
    assert StageOk(s, a.i);
  }

  lemma OthersKeep(n: nat, slots: nat, s: State, a: Step, j: nat)
    requires Ok(n, slots, s) && Enabled(n, slots, s, a) && !a.Spawn? && !a.WaitReturns?
    requires j < |s.stages| && j != a.i
    ensures StageOk(Apply(n, slots, s, a), j)
  {
    assert StageOk(s, j) && StageOk(s, a.i);
  }

  /** The shared slice stays the blocks stored so far, in the order they were stored. */
  lemma SliceKeeps(n: nat, slots: nat, s: State, a: Step)
    requires Ok(n, slots, s) && Enabled(n, slots, s, a)
    ensures var s' := Apply(n, slots, s, a);
            && NoDup(s'.order) && (forall i :: i in s'.order ==> i < |s'.stages|)
            && s'.metrics == Joined(s'.blocks, s'.order)
  {
    var s' := Apply(n, slots, s, a);
    if a.Fetch? {
      assert StageOk(s, a.i);
      JoinedIgnores(s.blocks, a.i, a.local, s.order);
    } else if a.Store? {
      assert StageOk(s, a.i);
      assert s'.order[..|s.order|] == s.order;
    }
  }

  lemma CountsKeep(n: nat, slots: nat, s: State, a: Step)
    requires |s.stages| <= n && s.sem == Holders(s.stages) <= slots && s.wg == Unfinished(s.stages)
    requires s.returned ==> |s.stages| == n && s.wg == 0
    requires Enabled(n, slots, s, a)
    ensures var s' := Apply(n, slots, s, a);
            && |s'.stages| <= n && s'.sem == Holders(s'.stages) <= slots && s'.wg == Unfinished(s'.stages)
            && (s'.returned ==> |s'.stages| == n && s'.wg == 0)
  {
    var s' := Apply(n, slots, s, a);
    if a.Spawn? {
      assert s'.stages[..|s.stages|] == s.stages;
    } else if !a.WaitReturns? {
      CountsUpdate(s.stages, a.i, s'.stages[a.i]);
      if s.returned {
        NoneUnfinished(s.stages, a.i);
      }
    }
  }

  lemma StagesKeep(n: nat, slots: nat, s: State, a: Step, j: nat)
    requires Ok(n, slots, s) && Enabled(n, slots, s, a) && j < |Apply(n, slots, s, a).stages|
    ensures StageOk(Apply(n, slots, s, a), j)
  {
    if a.Spawn? || a.WaitReturns? {
      assert j < |s.stages| ==> StageOk(s, j);
    } else if j == a.i {
      ActorKeeps(n, slots, s, a);
    } else {
      OthersKeep(n, slots, s, a, j);
    }
  }

  lemma StepKeepsOk(n: nat, slots: nat, s: State, a: Step)
    requires Ok(n, slots, s) && Enabled(n, slots, s, a)
    ensures Ok(n, slots, Apply(n, slots, s, a))
  {
    var s' := Apply(n, slots, s, a);
    SliceKeeps(n, slots, s, a);
    CountsKeep(n, slots, s, a);
    forall j | 0 <= j < |s'.stages| ensures StageOk(s', j) {
      StagesKeep(n, slots, s, a, j);
    }
  }

  lemma {:induction false} OkHolds(n: nat, slots: nat, ss: seq<State>, acts: seq<Step>, k: nat)
    requires IsRun(n, slots, ss, acts) && k < |ss|
    ensures Ok(n, slots, ss[k])
    decreases k
  {
    if k > 0 {
      OkHolds(n, slots, ss, acts, k - 1);
      assert Enabled(n, slots, ss[k - 1], acts[k - 1]);
      StepKeepsOk(n, slots, ss[k - 1], acts[k - 1]);
    } else {
      assert Joined(ss[0].blocks, []) == [];
    }
  }

  // ---------------------------------------------------------------- main results

  function InService(stages: seq<Stage>): nat {
    if stages == [] then 0
    else InService(stages[..|stages| - 1]) + (if stages[|stages| - 1].Serving? then 1 else 0)
  }

  lemma {:induction false} ServiceNeedsSlot(stages: seq<Stage>)
    ensures InService(stages) <= Holders(stages)
  {
    if stages != [] {
      ServiceNeedsSlot(stages[..|stages| - 1]);
    }
  }

  /** In every reachable state the semaphore counts the goroutines that hold a slot, and at most
      max(1, concurrency) namespaces are in service. */
  lemma ConcurrencyBounded(n: nat, concurrency: int, ss: seq<State>, acts: seq<Step>, k: nat)
    requires IsRun(n, Slots(concurrency), ss, acts) && k < |ss|
    ensures ss[k].sem == Holders(ss[k].stages)
    ensures InService(ss[k].stages) <= ss[k].sem <= (if concurrency > 1 then concurrency else 1)
  {
    OkHolds(n, Slots(concurrency), ss, acts, k);
    ServiceNeedsSlot(ss[k].stages);
  }

  /** And the bound is reached: in every reachable state a waiting namespace may start if and only if
      fewer than max(1, concurrency) slots are held. */
  lemma FreeSlotIsUsable(n: nat, concurrency: int, ss: seq<State>, acts: seq<Step>, k: nat, i: nat)
    requires IsRun(n, Slots(concurrency), ss, acts) && k < |ss|
    requires i < |ss[k].stages| && ss[k].stages[i].Queued?
    ensures Enabled(n, Slots(concurrency), ss[k], Acquire(i)) <==>
              Holders(ss[k].stages) < if concurrency > 1 then concurrency else 1
  {
    OkHolds(n, Slots(concurrency), ss, acts, k);
  }

  lemma {:induction false} SomeHolder(stages: seq<Stage>) returns (i: nat)
    requires Holders(stages) > 0
    ensures i < |stages| && HoldsSlot(stages[i])
  {
    i := |stages| - 1;
    if !HoldsSlot(stages[i]) {
      i := SomeHolder(stages[..i]);
    }
  }

  lemma {:induction false} SomeUnfinished(stages: seq<Stage>) returns (i: nat)
    requires Unfinished(stages) > 0
    ensures i < |stages| && !stages[i].Gone?
  {
    i := |stages| - 1;
    if stages[i].Gone? {
      i := SomeUnfinished(stages[..i]);
    }
  }

  lemma {:induction false} HolderCounts(stages: seq<Stage>, i: nat)
    requires i < |stages|
    ensures HoldsSlot(stages[i]) ==> Holders(stages) > 0
    ensures !stages[i].Gone? ==> Unfinished(stages) > 0
  {
    if i < |stages| - 1 {
      HolderCounts(stages[..|stages| - 1], i);
    }
  }

  /** The step goroutine i is ready for. */
  function Next(i: nat, stage: Stage): Step {
    match stage
    case Queued => Acquire(i)
    case Serving => Fetch(i, [])
    case Fetched(_) => Lock(i)
    case Locked(_) => Copy(i)
    case Copied(_, _) => Store(i)
    case Stored => Unlock(i)
    case Unlocked => Release(i)
    case _ => Depart(i)
  }

  /** No reachable state before the return is stuck. */
  lemma NeverStuck(n: nat, concurrency: int, ss: seq<State>, acts: seq<Step>, k: nat)
    requires IsRun(n, Slots(concurrency), ss, acts) && k < |ss| && !ss[k].returned
    ensures exists a :: Enabled(n, Slots(concurrency), ss[k], a)
  {
    var slots, s := Slots(concurrency), ss[k];
    OkHolds(n, slots, ss, acts, k);
    if |s.stages| < n {
      assert Enabled(n, slots, s, Spawn);
    } else if s.wg == 0 {
      assert Enabled(n, slots, s, WaitReturns);
    } else {
      var i := SomeUnfinished(s.stages);
      if s.stages[i].Queued? && s.sem == slots {
        i := SomeHolder(s.stages);
      }
      if s.stages[i].Fetched? && s.mu.Some? {
        i := s.mu.value;
      }
      assert StageOk(s, i);
      HolderCounts(s.stages, i);
      assert Enabled(n, slots, s, Next(i, s.stages[i]));
    }
  }

  function StageRank(stage: Stage): nat {
    match stage
    case Queued => 8
    case Serving => 7
    case Fetched(_) => 6
    case Locked(_) => 5
    case Copied(_, _) => 4
    case Stored => 3
    case Unlocked => 2
    case Leaving => 1
    case Gone => 0
  }

  function StageRanks(stages: seq<Stage>): nat {
    if stages == [] then 0 else StageRanks(stages[..|stages| - 1]) + StageRank(stages[|stages| - 1])
  }

  /** Steps still to come. */
  function Remaining(n: nat, s: State): nat
    requires |s.stages| <= n
  {
    9 * (n - |s.stages|) + StageRanks(s.stages) + (if s.returned then 0 else 1)
  }

  lemma StepCounts(n: nat, slots: nat, s: State, a: Step)
    requires |s.stages| <= n && Enabled(n, slots, s, a)
    ensures var s' := Apply(n, slots, s, a); |s'.stages| <= n && Remaining(n, s') + 1 == Remaining(n, s)
  {
    var s' := Apply(n, slots, s, a);
    if a.Spawn? {
      assert s'.stages[..|s.stages|] == s.stages;
    } else if !a.WaitReturns? {
      CountsUpdate(s.stages, a.i, s'.stages[a.i]);
    }
  }

  /** Every step brings the return one step nearer: no run has more than 9n + 1 steps. */
  lemma {:induction false} EveryStepCounts(n: nat, slots: nat, ss: seq<State>, acts: seq<Step>, k: nat)
    requires IsRun(n, slots, ss, acts) && k < |ss|
    ensures |ss[k].stages| <= n && k + Remaining(n, ss[k]) == 9 * n + 1
    decreases k
  {
    if k > 0 {
      EveryStepCounts(n, slots, ss, acts, k - 1);
      assert Enabled(n, slots, ss[k - 1], acts[k - 1]);
      StepCounts(n, slots, ss[k - 1], acts[k - 1]);
    }
  }

  function Upto(n: nat): seq<nat> { if n == 0 then [] else Upto(n - 1) + [n - 1] }

  lemma {:induction false} UptoHas(n: nat)
    ensures |Upto(n)| == n && forall i :: i in Upto(n) <==> 0 <= i < n
  {
    if n > 0 {
      UptoHas(n - 1);
    }
  }

  /** A duplicate-free list of all numbers below n is a permutation of them. */
  lemma {:induction false} IsPermutation(order: seq<nat>, n: nat)
    requires NoDup(order) && forall i: nat :: i in order <==> i < n
    ensures multiset(order) == multiset(Upto(n))
  {
    UptoHas(n);
    NoDupCounts(order);
    UptoNoDup(n);
    NoDupCounts(Upto(n));
    forall x ensures multiset(order)[x] == multiset(Upto(n))[x] {
      assert x in order <==> x in Upto(n);
    }
  }

  lemma {:induction false} UptoNoDup(n: nat)
    ensures NoDup(Upto(n))
  {
    if n > 0 {
      UptoNoDup(n - 1);
      UptoHas(n - 1);
      assert forall i :: 0 <= i < n - 1 ==> Upto(n)[i] == Upto(n - 1)[i] && Upto(n - 1)[i] in Upto(n - 1);
    }
  }

  lemma {:induction false} NoDupCounts(s: seq<nat>)
    requires NoDup(s)
    ensures forall x :: multiset(s)[x] == if x in s then 1 else 0
  {
    if s != [] {
      var front, last := s[..|s| - 1], s[|s| - 1];
      NoDupCounts(front);
      assert s == front + [last];
      assert last !in front;
    }
  }

  lemma {:induction false} NoneUnfinished(stages: seq<Stage>, i: nat)
    requires Unfinished(stages) == 0 && i < |stages|
    ensures stages[i].Gone?
  {
    if i < |stages| - 1 {
      NoneUnfinished(stages[..|stages| - 1], i);
    }
  }

  lemma {:induction false} GoneHoldNothing(stages: seq<Stage>)
    requires forall i :: 0 <= i < |stages| ==> stages[i].Gone?
    ensures Holders(stages) == 0
  {
    if stages != [] {
      GoneHoldNothing(stages[..|stages| - 1]);
    }
  }

  /** When Wait has returned: the semaphore is empty, the mutex free, and the result consists of one
      whole block per listed namespace, in the order they were stored; so it is, up to order, the
      blocks taken in sequence. */
  lemma WaitCollectsEverything(n: nat, slots: nat, ss: seq<State>, acts: seq<Step>, k: nat)
    requires IsRun(n, slots, ss, acts) && k < |ss| && ss[k].returned
    ensures var s := ss[k];
            && s.sem == 0 && s.mu == None
            && (forall i: nat :: i < n ==> i in s.blocks)
            && multiset(s.order) == multiset(Upto(n))
            && s.metrics == Joined(s.blocks, s.order)
            && multiset(s.metrics) == multiset(Joined(s.blocks, Upto(n)))
  {
    var s := ss[k];
    OkHolds(n, slots, ss, acts, k);
    forall i: nat | i < n ensures s.stages[i].Gone? && i in s.order && i in s.blocks {
      NoneUnfinished(s.stages, i);
      assert StageOk(s, i);
    }
    GoneHoldNothing(s.stages);
    assert s.mu.Some? ==> StageOk(s, s.mu.value);
    IsPermutation(s.order, n);
    FlatMapReordered((i: nat) => if i in s.blocks then s.blocks[i] else [], s.order, Upto(n));
  }

  lemma {:induction false} BlocksAre(n: nat, slots: nat, ss: seq<State>, acts: seq<Step>, k: nat,
      block: nat -> seq<Metric>)
    requires IsRun(n, slots, ss, acts) && k < |ss|
    requires forall j :: 0 <= j < |acts| && acts[j].Fetch? ==> acts[j].local == block(acts[j].i)
    ensures forall i :: i in ss[k].blocks ==> ss[k].blocks[i] == block(i)
    decreases k
  {
    if k > 0 {
      BlocksAre(n, slots, ss, acts, k - 1, block);
      assert Enabled(n, slots, ss[k - 1], acts[k - 1]);
    }
  }

  lemma {:induction false} SameOn(f: nat -> seq<Metric>, g: nat -> seq<Metric>, s: seq<nat>)
    requires forall i :: i in s ==> f(i) == g(i)
    ensures FlatMap(f, s) == FlatMap(g, s)
  {
    if s != [] {
      assert s[|s| - 1] in s;
      SameOn(f, g, s[..|s| - 1]);
    }
  }

  /** Schedule independence: if each namespace yields the same block whenever it is served, every
      run returns what the sequential loop over the namespaces would, up to order. */
  lemma AgreesWithSequential(n: nat, slots: nat, ss: seq<State>, acts: seq<Step>, k: nat, block: nat -> seq<Metric>)
    requires IsRun(n, slots, ss, acts) && k < |ss| && ss[k].returned
    requires forall j :: 0 <= j < |acts| && acts[j].Fetch? ==> acts[j].local == block(acts[j].i)
    ensures multiset(ss[k].metrics) == multiset(FlatMap(block, Upto(n)))
  {
    var s := ss[k];
    WaitCollectsEverything(n, slots, ss, acts, k);
    BlocksAre(n, slots, ss, acts, k, block);
    UptoHas(n);
    SameOn((i: nat) => if i in s.blocks then s.blocks[i] else [], block, Upto(n));
  }
}
