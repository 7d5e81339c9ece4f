/**
 The same client at the grain of the source: `authMu` is taken, the field is read, a `/login`
 or `/logout` request travels and comes back while the mutex is held, the field is written,
 the mutex is released.  Data requests travel without the mutex.

 Every run of this machine is matched, state by state, by a run of AuthProtocol, in which a
 whole critical section is one action.
 */
module AuthLocks {
  import opened Collections
  import P = AuthProtocol

  type Token = P.Token
  type Tid = P.CallId

  /** The critical sections: `ensureLoggedIn` (first, or after a 401 on a token),
      `invalidateToken`, `Login` and `Logout`. */
  datatype Section =
    | FirstEnsure
    | SecondEnsure(rejected: Token)
    | Clearing(token: Token)
    | LoggingIn
    | LoggingOut

  /** Where a goroutine stands. */
  datatype Spot =
    | Waiting(sec: Section)                      // about to lock
    | Inside(sec: Section)                       // holds the mutex, field not read yet
    | LoginSent(sec: Section)                    // holds the mutex, /login on the wire
    | LoginBack(sec: Section, reply: P.LoginReply)  // holds the mutex, field not written yet
    | LogoutSent(token: Token)
    | LogoutBack(answer: P.LogoutReply)
    | Leaving(sec: Section, got: Token)          // about to unlock; "" stands for an error
    | FirstSend(token: Token)                    // data request on the wire, no mutex
    | SecondSend(rejected: Token, token: Token)
    | Halted(wasCall: bool)

  datatype State = State(field: Token, holder: Option<Tid>, spots: map<Tid, Spot>, server: P.Server)

  datatype Action =
    | Enter(tid: Tid, sec: Section)
    | Lock(tid: Tid)
    | Read(tid: Tid)
    | LoginAnswer(tid: Tid, reply: P.LoginReply)
    | LogoutAnswer(tid: Tid, answer: P.LogoutReply)
    | Write(tid: Tid)
    | Unlock(tid: Tid)
    | DataAnswer(tid: Tid, data: P.DataReply)
    | Outside(server: P.Server)

  predicate Critical(spot: Spot) {
    spot.Inside? || spot.LoginSent? || spot.LoginBack? || spot.LogoutSent? || spot.LogoutBack? || spot.Leaving?
  }

  predicate IsEnsure(sec: Section) { sec.FirstEnsure? || sec.SecondEnsure? }

  // ---------------------------------------------------------------- steps

  ghost predicate Enabled(s: State, a: Action) {
    match a
    case Outside(server') => P.EnvironmentOk(s.server, server')
    case Enter(tid, sec) => tid !in s.spots && (sec.FirstEnsure? || sec.LoggingIn? || sec.LoggingOut?)
    case _ =>
      a.tid in s.spots &&
      var spot := s.spots[a.tid];
      match a
      case Lock(_) => spot.Waiting? && s.holder == None
      case Read(_) => spot.Inside?
      case LoginAnswer(_, reply) => spot.LoginSent? && "" !in P.Carried(reply)
      case LogoutAnswer(_, answer) => spot.LogoutSent? && P.LogoutReplyOk(answer)
      case Write(_) => spot.LoginBack? || spot.LogoutBack?
      case Unlock(_) => spot.Leaving?
      case DataAnswer(_, _) => spot.FirstSend? || spot.SecondSend?
  }

  ghost predicate Fresh(s: State, a: Action) {
    a.LoginAnswer? ==> P.Carried(a.reply) !! s.server.issued
  }

  function AfterRead(s: State, sec: Section): (Token, Spot) {
    match sec
    case Clearing(t) => (P.AfterInvalidate(s.field, t), Leaving(sec, ""))
    case LoggingIn => (s.field, LoginSent(sec))
    case LoggingOut => (s.field, if s.field == "" then Leaving(sec, "") else LogoutSent(s.field))
    case _ => (s.field, if s.field == "" then LoginSent(sec) else Leaving(sec, s.field))
  }

  function AfterUnlock(sec: Section, got: Token): Spot {
    match sec
    case FirstEnsure => if got == "" then Halted(true) else FirstSend(got)
    case SecondEnsure(r) => if got == "" then Halted(true) else SecondSend(r, got)
    case Clearing(t) => Waiting(SecondEnsure(t))
    case _ => Halted(false)
  }

  function AfterData(spot: Spot, data: P.DataReply): Spot {
    if spot.FirstSend? && data == P.Status(P.UNAUTHORIZED) then Waiting(Clearing(spot.token)) else Halted(true)
  }

  function Apply(s: State, a: Action): State
    requires Enabled(s, a)
  {
    match a
    case Outside(server') => s.(server := server')
    case Enter(tid, sec) => s.(spots := s.spots[tid := Waiting(sec)])
    case Lock(tid) => s.(holder := Some(tid), spots := s.spots[tid := Inside(s.spots[tid].sec)])
    case Read(tid) =>
      var (field, spot) := AfterRead(s, s.spots[tid].sec);
      s.(field := field, spots := s.spots[tid := spot])
    case LoginAnswer(tid, reply) =>
      s.(server := P.Issue(s.server, reply), spots := s.spots[tid := LoginBack(s.spots[tid].sec, reply)])
    case LogoutAnswer(tid, answer) =>
      s.(server := P.Revoke(s.server, s.spots[tid].token, answer), spots := s.spots[tid := LogoutBack(answer)])
    case Write(tid) =>
      var spot := s.spots[tid];
      if spot.LogoutBack? then
        s.(field := P.AfterLogout(s.field, spot.answer), spots := s.spots[tid := Leaving(LoggingOut, "")])
      else
        var field := P.AfterLogin(s.field, spot.reply);
        s.(field := field,
           spots := s.spots[tid := Leaving(spot.sec, if spot.reply.Granted? then field else "")])
    case Unlock(tid) =>
      s.(holder := None, spots := s.spots[tid := AfterUnlock(s.spots[tid].sec, s.spots[tid].got)])
    case DataAnswer(tid, data) => s.(spots := s.spots[tid := AfterData(s.spots[tid], data)])
  }

  ghost predicate Init(s: State) {
    && s.field == "" && s.holder == None && s.spots == map[]
    && s.server.live <= s.server.issued && "" !in s.server.issued
  }

  ghost predicate Step(s: State, a: Action, s': State) { Enabled(s, a) && s' == Apply(s, a) }

  ghost predicate IsRun(ss: seq<State>, acts: seq<Action>) {
    && |ss| == |acts| + 1
    && Init(ss[0])
    && forall i {:trigger acts[i]} :: 0 <= i < |acts| ==> Step(ss[i], acts[i], ss[i + 1])
  }

  ghost predicate FreshRun(ss: seq<State>, acts: seq<Action>) {
    && IsRun(ss, acts)
    && forall i {:trigger acts[i]} :: 0 <= i < |acts| ==> Fresh(ss[i], acts[i])
  }

  // ---------------------------------------------------------------- mutual exclusion

  /** The mutex covers exactly the critical spots, and nobody else writes the field meanwhile. */
  ghost predicate Exclusive(s: State) {
    && (s.holder.Some? ==> s.holder.value in s.spots)
    && forall tid :: tid in s.spots ==> SpotOk(s, tid)
  }

  ghost predicate SpotOk(s: State, tid: Tid)
    requires tid in s.spots
  {
    var spot := s.spots[tid];
    && (Critical(spot) <==> s.holder == Some(tid))
    && match spot
       case LoginSent(sec) => (IsEnsure(sec) && s.field == "") || sec.LoggingIn?
       case LoginBack(sec, reply) => ((IsEnsure(sec) && s.field == "") || sec.LoggingIn?) && "" !in P.Carried(reply)
       case LogoutSent(t) => t == s.field && t != ""
       case LogoutBack(_) => s.field != ""
       case _ => true
  }

  lemma StepKeepsExclusive(s: State, a: Action, s': State)
    requires Exclusive(s) && Step(s, a, s')
    ensures Exclusive(s')
  {
    forall tid | tid in s'.spots ensures SpotOk(s', tid) {
      if tid in s.spots {
        assert SpotOk(s, tid);
      }
      if !a.Outside? && !a.Enter? {
        assert SpotOk(s, a.tid);
      }
    }
  }

  lemma {:induction false} ExclusiveHolds(ss: seq<State>, acts: seq<Action>, n: nat)
    requires IsRun(ss, acts) && n < |ss|
    ensures Exclusive(ss[n])
    decreases n
  {
    if n > 0 {
      ExclusiveHolds(ss, acts, n - 1);
      StepKeepsExclusive(ss[n - 1], acts[n - 1], ss[n]);
    }
  }

  predicate AuthOnWire(spot: Spot) { spot.LoginSent? || spot.LogoutSent? }

  /** At most one login or logout of a client is ever in flight. */
  lemma OneAuthRequestInFlight(ss: seq<State>, acts: seq<Action>, n: nat, p: Tid, q: Tid)
    requires IsRun(ss, acts) && n < |ss|
    requires p in ss[n].spots && q in ss[n].spots
    requires AuthOnWire(ss[n].spots[p]) && AuthOnWire(ss[n].spots[q])
    ensures p == q
  {
    ExclusiveHolds(ss, acts, n);
    assert SpotOk(ss[n], p) && SpotOk(ss[n], q);
  }

  // ---------------------------------------------------------------- progress

  function Actor(a: Action): Option<Tid> {
    if a.Outside? then None else Some(a.tid)
  }

  /** The action a goroutine is ready to take, given the mutex. */
  function Ready(tid: Tid, spot: Spot): Action {
    match spot
    case Waiting(_) => Lock(tid)
    case Inside(_) => Read(tid)
    case LoginSent(_) => LoginAnswer(tid, P.Refused(None))
    case LogoutSent(_) => LogoutAnswer(tid, P.NoAnswer(false))
    case LoginBack(_, _) => Write(tid)
    case LogoutBack(_) => Write(tid)
    case Leaving(_, _) => Unlock(tid)
    case _ => DataAnswer(tid, P.Lost)
  }

  /** No deadlock: while a goroutine is unfinished, one of the goroutines can act. */
  lemma NeverStuck(ss: seq<State>, acts: seq<Action>, n: nat, tid: Tid)
    requires IsRun(ss, acts) && n < |ss|
    requires tid in ss[n].spots && !ss[n].spots[tid].Halted?
    ensures exists a :: Enabled(ss[n], a) && !a.Enter? && Actor(a).Some?
  {
    ExclusiveHolds(ss, acts, n);
    var s := ss[n];
    assert SpotOk(s, tid);
    var who := if s.spots[tid].Waiting? && s.holder.Some? then s.holder.value else tid;
    assert SpotOk(s, who);
    var a := Ready(who, s.spots[who]);
    assert Enabled(s, a) && !a.Enter? && Actor(a).Some?;
  }

  function SectionRank(sec: Section): nat {
    match sec
    case FirstEnsure => 10
    case Clearing(_) => 6
    case SecondEnsure(_) => 1
    case _ => 0
  }

  /** An upper bound on the steps a goroutine still has to take. */
  function Rank(spot: Spot): nat {
    match spot
    case Waiting(sec) => SectionRank(sec) + (if sec.Clearing? then 3 else 5)
    case Inside(sec) => SectionRank(sec) + (if sec.Clearing? then 2 else 4)
    case LoginSent(sec) => SectionRank(sec) + 3
    case LoginBack(sec, _) => SectionRank(sec) + 2
    case LogoutSent(_) => 3
    case LogoutBack(_) => 2
    case Leaving(sec, _) => SectionRank(sec) + 1
    case FirstSend(_) => 10
    case SecondSend(_, _) => 1
    case Halted(_) => 0
  }

  function RankOf(s: State, tid: Tid): nat {
    if tid in s.spots then Rank(s.spots[tid]) else 16
  }

  function OwnSteps(acts: seq<Action>, tid: Tid): nat {
    if acts == [] then 0
    else OwnSteps(acts[..|acts| - 1], tid) + (if Actor(acts[|acts| - 1]) == Some(tid) then 1 else 0)
  }

  lemma StepLowersRank(s: State, a: Action, s': State, tid: Tid)
    requires Exclusive(s) && Step(s, a, s')
    ensures if Actor(a) == Some(tid) then RankOf(s', tid) < RankOf(s, tid) else RankOf(s', tid) == RankOf(s, tid)
  {
    if tid in s.spots {
      assert SpotOk(s, tid);
    }
  }

  /** Under every schedule a goroutine takes at most sixteen steps in all. */
  lemma {:induction false} StepsBounded(ss: seq<State>, acts: seq<Action>, n: nat, tid: Tid)
    requires IsRun(ss, acts) && n < |ss|
    ensures OwnSteps(acts[..n], tid) + RankOf(ss[n], tid) <= 16
    decreases n
  {
    if n > 0 {
      StepsBounded(ss, acts, n - 1, tid);
      ExclusiveHolds(ss, acts, n - 1);
      assert acts[..n][..n - 1] == acts[..n - 1];
      StepLowersRank(ss[n - 1], acts[n - 1], ss[n], tid);
    }
  }

  // ---------------------------------------------------------------- refinement

  predicate InCall(spot: Spot) {
    match spot
    case Waiting(sec) => !sec.LoggingIn? && !sec.LoggingOut?
    case Inside(sec) => !sec.LoggingIn? && !sec.LoggingOut?
    case LoginSent(sec) => IsEnsure(sec)
    case LoginBack(sec, _) => IsEnsure(sec)
    case Leaving(sec, _) => !sec.LoggingIn? && !sec.LoggingOut?
    case LogoutSent(_) => false
    case LogoutBack(_) => false
    case Halted(wasCall) => wasCall
    case _ => true
  }

  function PcBefore(sec: Section): P.Pc {
    match sec
    case Clearing(t) => P.Rejected(t)
    case SecondEnsure(r) => P.Retrying(r)
    case _ => P.Starting
  }

  function PcAfter(sec: Section, got: Token): P.Pc {
    if sec.Clearing? then P.Retrying(sec.token) else P.EnsuredPc(PcBefore(sec), got)
  }

  /** A section takes effect when `/login` or `/logout` answers, or when the field is read. */
  function AbsPc(spot: Spot): P.Pc {
    match spot
    case Waiting(sec) => PcBefore(sec)
    case Inside(sec) => PcBefore(sec)
    case LoginSent(sec) => PcBefore(sec)
    case LoginBack(sec, reply) => PcAfter(sec, P.AfterLogin("", reply))
    case Leaving(sec, got) => PcAfter(sec, got)
    case FirstSend(t) => P.Sending(t)
    case SecondSend(r, t) => P.Resending(r, t)
    case _ => P.Finished
  }

  function AbsToken(s: State): Token {
    if s.holder == None || s.holder.value !in s.spots then s.field
    else match s.spots[s.holder.value]
      case LoginBack(_, reply) => P.AfterLogin(s.field, reply)
      case LogoutBack(answer) => P.AfterLogout(s.field, answer)
      case _ => s.field
  }

  ghost predicate Matches(s: State, abs: P.State) {
    && abs.server == s.server
    && abs.client.token == AbsToken(s)
    && (forall tid :: tid in abs.client.calls <==> tid in s.spots && InCall(s.spots[tid]))
    && (forall tid :: tid in abs.client.calls ==> abs.client.calls[tid].pc == AbsPc(s.spots[tid]))
  }

  function AbsAction(s: State, a: Action): Option<P.Action>
    requires Enabled(s, a)
  {
    match a
    case Outside(server') => Some(P.Environment(server'))
    case Enter(tid, sec) => if sec.FirstEnsure? then Some(P.Begin(tid)) else None
    case Read(tid) =>
      var sec := s.spots[tid].sec;
      if sec.Clearing? then Some(P.Invalidate(tid))
      else if IsEnsure(sec) && s.field != "" then Some(P.Ensure(tid, P.Refused(None)))
      else None
    case LoginAnswer(tid, reply) =>
      if IsEnsure(s.spots[tid].sec) then Some(P.Ensure(tid, reply)) else Some(P.Login(reply))
    case LogoutAnswer(_, answer) => Some(P.Logout(answer))
    case DataAnswer(tid, data) => Some(P.Data(tid, data))
    case _ => None
  }

  /** The step is matched by its abstract action, or by standing still. */
  ghost predicate Refined(s: State, a: Action, abs: P.State)
    requires Enabled(s, a)
  {
    match AbsAction(s, a)
    case None => Matches(Apply(s, a), abs)
    case Some(b) =>
      P.Enabled(abs, b) && (Fresh(s, a) ==> P.Fresh(abs, b)) && Matches(Apply(s, a), P.Apply(abs, b))
  }

  lemma OutsideRefines(s: State, a: Action, abs: P.State)
    requires Exclusive(s) && Matches(s, abs) && Enabled(s, a) && (a.Outside? || a.Enter?)
    ensures Refined(s, a, abs)
  {
    if s.holder.Some? {
      assert SpotOk(s, s.holder.value);
    }
  }

  lemma LockRefines(s: State, a: Action, abs: P.State)
    requires Exclusive(s) && Matches(s, abs) && Enabled(s, a) && a.Lock?
    ensures Refined(s, a, abs)
  {
    assert SpotOk(s, a.tid);
  }

  lemma UnlockRefines(s: State, a: Action, abs: P.State)
    requires Exclusive(s) && Matches(s, abs) && Enabled(s, a) && a.Unlock?
    ensures Refined(s, a, abs)
  {
    assert SpotOk(s, a.tid);
  }

  lemma WriteRefines(s: State, a: Action, abs: P.State)
    requires Exclusive(s) && Matches(s, abs) && Enabled(s, a) && a.Write?
    ensures Refined(s, a, abs)
  {
    assert SpotOk(s, a.tid);
  }

  lemma ReadRefines(s: State, a: Action, abs: P.State)
    requires Exclusive(s) && Matches(s, abs) && Enabled(s, a) && a.Read?
    ensures Refined(s, a, abs)
  {
    assert SpotOk(s, a.tid);
  }

  lemma AuthAnswerRefines(s: State, a: Action, abs: P.State)
    requires Exclusive(s) && Matches(s, abs) && Enabled(s, a) && (a.LoginAnswer? || a.LogoutAnswer?)
    ensures Refined(s, a, abs)
  {
    assert SpotOk(s, a.tid);
  }

  lemma DataRefines(s: State, a: Action, abs: P.State)
    requires Exclusive(s) && Matches(s, abs) && Enabled(s, a) && a.DataAnswer?
    ensures Refined(s, a, abs)
  {
    assert SpotOk(s, a.tid);
    if s.holder.Some? {
      assert SpotOk(s, s.holder.value);
    }
  }

  lemma StepRefines(s: State, a: Action, abs: P.State)
    requires Exclusive(s) && Matches(s, abs) && Enabled(s, a)
    ensures Refined(s, a, abs)
  {
    match a {
      case Outside(_) => OutsideRefines(s, a, abs);
      case Enter(_, _) => OutsideRefines(s, a, abs);
      case Lock(_) => LockRefines(s, a, abs);
      case Unlock(_) => UnlockRefines(s, a, abs);
      case Write(_) => WriteRefines(s, a, abs);
      case Read(_) => ReadRefines(s, a, abs);
      case LoginAnswer(_, _) => AuthAnswerRefines(s, a, abs);
      case LogoutAnswer(_, _) => AuthAnswerRefines(s, a, abs);
      case DataAnswer(_, _) => DataRefines(s, a, abs);
    }
  }

  /** Fine state `i` is matched by abstract state `at[i]`, and time does not run backwards. */
  ghost predicate Simulates(ss: seq<State>, abss: seq<P.State>, at: seq<nat>) {
    && |at| == |ss|
    && (forall i :: 0 <= i < |ss| ==> at[i] < |abss| && Matches(ss[i], abss[at[i]]))
    && (forall i, j :: 0 <= i <= j < |at| ==> at[i] <= at[j])
  }

  lemma PrefixIsRun(ss: seq<State>, acts: seq<Action>)
    requires IsRun(ss, acts) && acts != []
    ensures IsRun(ss[..|acts|], acts[..|acts| - 1])
    ensures FreshRun(ss, acts) ==> FreshRun(ss[..|acts|], acts[..|acts| - 1])
  {
    var n := |acts| - 1;
    forall i | 0 <= i < n ensures Step(ss[..n + 1][i], acts[..n][i], ss[..n + 1][i + 1]) {
      assert Step(ss[i], acts[i], ss[i + 1]);
    }
    if FreshRun(ss, acts) {
      forall i | 0 <= i < n ensures Fresh(ss[..n + 1][i], acts[..n][i]) {
        assert Fresh(ss[i], acts[i]);
      }
    }
  }

  lemma ExtendSimulation(ss: seq<State>, before: seq<P.State>, atBefore: seq<nat>, abss: seq<P.State>)
    requires |ss| >= 2 && before != [] && before <= abss
    requires Simulates(ss[..|ss| - 1], before, atBefore)
    requires Matches(ss[|ss| - 1], abss[|abss| - 1])
    ensures Simulates(ss, abss, atBefore + [|abss| - 1])
  {
    var at, n := atBefore + [|abss| - 1], |ss| - 1;
    forall i | 0 <= i < |ss| ensures at[i] < |abss| && Matches(ss[i], abss[at[i]]) {
      if i < n {
        assert ss[..n][i] == ss[i] && Matches(ss[..n][i], before[atBefore[i]]);
      }
    }
  }

  /** Refinement: every run with explicit locking is matched by a run of atomic sections, and a
      server that is fresh in the one is fresh in the other. */
  lemma {:induction false} RunRefines(ss: seq<State>, acts: seq<Action>)
    returns (abss: seq<P.State>, absActs: seq<P.Action>, at: seq<nat>)
    requires IsRun(ss, acts)
    ensures P.IsRun(abss, absActs)
    ensures FreshRun(ss, acts) ==> P.FreshRun(abss, absActs)
    ensures Simulates(ss, abss, at) && at[|ss| - 1] == |abss| - 1
    decreases |acts|
  {
    if acts == [] {
      var start := P.State(P.Client("", map[], P.Tally(0, 0, 0, [], {}, {})), ss[0].server);
      return [start], [], [0];
    }
    PrefixIsRun(ss, acts);
    var before, beforeActs, atBefore := RunRefines(ss[..|acts|], acts[..|acts| - 1]);
    LastStepRefines(ss, acts, before, atBefore);
    abss, absActs := FollowStep(ss[|acts| - 1], acts[|acts| - 1], before, beforeActs);
    at := atBefore + [|abss| - 1];
    ExtendSimulation(ss, before, atBefore, abss);
  }

  lemma LastStepRefines(ss: seq<State>, acts: seq<Action>, before: seq<P.State>, atBefore: seq<nat>)
    requires IsRun(ss, acts) && acts != [] && before != []
    requires Simulates(ss[..|acts|], before, atBefore) && atBefore[|acts| - 1] == |before| - 1
    ensures Step(ss[|acts| - 1], acts[|acts| - 1], ss[|acts|])
    ensures FreshRun(ss, acts) ==> Fresh(ss[|acts| - 1], acts[|acts| - 1])
    ensures Refined(ss[|acts| - 1], acts[|acts| - 1], before[|before| - 1])
  {
    var n := |acts| - 1;
    assert Step(ss[n], acts[n], ss[n + 1]);
    ExclusiveHolds(ss, acts, n);
    assert ss[..n + 1][n] == ss[n] && Matches(ss[..n + 1][n], before[atBefore[n]]);
    StepRefines(ss[n], acts[n], before[|before| - 1]);
  }

  lemma FollowStep(s: State, a: Action, before: seq<P.State>, beforeActs: seq<P.Action>)
    returns (abss: seq<P.State>, absActs: seq<P.Action>)
    requires P.IsRun(before, beforeActs)
    requires Enabled(s, a) && Refined(s, a, before[|before| - 1])
    ensures P.IsRun(abss, absActs) && before <= abss
    ensures Matches(Apply(s, a), abss[|abss| - 1])
    ensures P.FreshRun(before, beforeActs) && Fresh(s, a) ==> P.FreshRun(abss, absActs)
  {
    var last, step := before[|before| - 1], AbsAction(s, a);
    if step == None {
      return before, beforeActs;
    }
    abss, absActs := before + [P.Apply(last, step.value)], beforeActs + [step.value];
    ExtendRun(before, beforeActs, step.value, abss);
  }

  lemma ExtendRun(ss: seq<P.State>, acts: seq<P.Action>, a: P.Action, longer: seq<P.State>)
    requires P.IsRun(ss, acts) && P.Enabled(ss[|acts|], a)
    requires longer == ss + [P.Apply(ss[|acts|], a)]
    ensures P.IsRun(longer, acts + [a])
    ensures P.FreshRun(ss, acts) && P.Fresh(ss[|acts|], a) ==> P.FreshRun(longer, acts + [a])
  {
    forall i | 0 <= i < |acts + [a]| ensures P.Step(longer[i], (acts + [a])[i], longer[i + 1]) {
      if i < |acts| {
        assert P.Step(ss[i], acts[i], ss[i + 1]);
      }
    }
  }

  // ---------------------------------------------------------------- what refinement carries over

  /** No resurrection, read off the field whenever the mutex is free. */
  lemma NoResurrection(ss: seq<State>, acts: seq<Action>, i: nat, j: nat, k: nat)
    requires FreshRun(ss, acts) && i < j < k < |ss|
    requires ss[i].holder == ss[j].holder == ss[k].holder == None
    requires ss[i].field != "" && ss[j].field != ss[i].field
    ensures ss[k].field != ss[i].field
  {
    var abss, absActs, at := RunRefines(ss, acts);
    assert Matches(ss[i], abss[at[i]]) && Matches(ss[j], abss[at[j]]) && Matches(ss[k], abss[at[k]]);
    assert at[i] <= at[j] <= at[k];
    if at[j] < at[k] {
      P.NoResurrection(abss, absActs, at[i], at[j], at[k]);
    }
  }

  /** With explicit locking, too, the retry never repeats the rejected token. */
  lemma RetryCarriesAnotherToken(ss: seq<State>, acts: seq<Action>, n: nat, tid: Tid)
    requires FreshRun(ss, acts) && n < |ss|
    requires tid in ss[n].spots && ss[n].spots[tid].SecondSend?
    ensures ss[n].spots[tid].token != ss[n].spots[tid].rejected
  {
    var abss, absActs, at := RunRefines(ss, acts);
    assert Matches(ss[n], abss[at[n]]);
    assert tid in abss[at[n]].client.calls;
    P.RetryCarriesAnotherToken(abss, absActs, at[n], tid);
  }
}
