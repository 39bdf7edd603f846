/** `ManagedRuntime`: the thread that launches, watches, replaces and stops the Go process. The lock
    sections are functions on the shared fields; the machine interleaves them with the callers,
    with exits of the child and with the clock. A `JobProcess` is reduced to spawn, poll and a
    `close` that returns once the child has exited. */
module Supervisor {
  import opened Options
  import opened FailureLimiter
  import opened Counting

  /** Children are numbered in the order they are spawned. */
  type Id = nat

  datatype RunState = STOPPED | STARTING | RUNNING | BACKOFF | RESTARTING | FAILED | STOPPING | CLOSED

  datatype Settings = Settings(limits: Limits, healthInterval: real, healthFailures: nat) {
    predicate Valid() {
      limits.Valid() && healthInterval > 0.0 && healthFailures >= 1
    }
  }

  /** What `_condition` protects. */
  datatype Shared = Shared(
    current: Option<Id>, state: RunState, users: nat, pinned: bool, wanted: bool, checkRequested: Option<Id>,
    failures: seq<real>, nextRetry: real, starts: nat, fatal: bool, stop: bool, started: bool)

  function NewRuntime(): Shared {
    Shared(None, STOPPED, 0, false, false, None, [], 0.0, 0, false, false, false)
  }

  // ---- lock sections of the callers -----------------------------------------------------------

  /** `acquire`: false stands for RuntimeUnavailable. */
  function AcquireSection(sh: Shared): (Shared, bool) {
    if sh.stop then (sh, false) else (sh.(users := sh.users + 1), true)
  }

  function ReleaseSection(sh: Shared): Shared {
    sh.(users := if sh.users == 0 then 0 else sh.users - 1)
  }

  datatype Answer = Ready(id: Id) | NotReady | Refused | Misconfigured

  /** `_request_ready`; `exited` is what `poll` says of the current child. */
  function RequestSection(sh: Shared, pin: bool, exited: bool): (Shared, Answer) {
    if sh.stop then (sh, Refused)
    else if sh.fatal then (sh, Misconfigured)
    else
      var next := sh.(wanted := true, pinned := sh.pinned || pin, started := true);
      (next, if sh.current.Some? && sh.state == RUNNING && !exited then Ready(sh.current.value) else NotReady)
  }

  function ReportSection(sh: Shared, id: Id): Shared {
    if sh.current == Some(id) && !sh.stop then sh.(checkRequested := Some(id)) else sh
  }

  /** `is_current`. */
  predicate CurrentSection(sh: Shared, id: Id, exited: bool) {
    !sh.stop && sh.current == Some(id) && !exited
  }

  function ShutdownSection(sh: Shared): Shared {
    sh.(stop := true, nextRetry := 0.0,
        state := if sh.state == CLOSED then CLOSED else if sh.started then STOPPING else CLOSED)
  }

  // ---- lock sections of the supervisor ----------------------------------------------------------

  datatype Decision = Watch(id: Id) | Wait | Launch

  function DecideSection(sh: Shared, now: real): (Shared, Decision) {
    if sh.current.Some? then (sh, Watch(sh.current.value))
    else if sh.fatal || !sh.wanted || (sh.users == 0 && !sh.pinned) then (sh, Wait)
    else if sh.nextRetry - now > 0.0 then (sh, Wait)
    else (sh.(state := if sh.starts == 0 then STARTING else RESTARTING), Launch)
  }

  function FailedSection(sh: Shared): Shared {
    sh.(fatal := true, state := FAILED)
  }

  /** `_record_failure`. */
  function RecordSection(sh: Shared, now: real, jitter: real, limits: Limits): Shared {
    var (kept, retry) := Record(sh.failures, now, jitter, limits);
    sh.(failures := kept, nextRetry := retry, state := BACKOFF)
  }

  /** The section after a launch: whether the child is published. */
  function PublishSection(sh: Shared, id: Id): (Shared, bool) {
    if sh.stop then (sh, false)
    else (sh.(current := Some(id), starts := sh.starts + 1, state := RUNNING, nextRetry := 0.0), true)
  }

  /** Take the request for a probe: whether it names this child, and whether anybody uses it. */
  function NoteSection(sh: Shared, id: Id): (Shared, bool, bool) {
    (sh.(checkRequested := None), sh.checkRequested == Some(id), sh.users > 0 || sh.pinned)
  }

  function RetireSection(sh: Shared): Shared {
    sh.(state := RESTARTING, current := None)
  }

  function LeaveSection(sh: Shared): Shared {
    sh.(current := None, state := if sh.stop then CLOSED else sh.state)
  }

  // ---- the machine --------------------------------------------------------------------------------

  datatype Pc =
    | NotStarted
    | Top                                   // at the loop test
    | Deciding                              // before the section that reads `_current`
    | Launching                             // in `_launch`, nothing spawned
    | Spawned(child: Id)                    // in `_launch`, in the start handshake
    | LaunchFailed(configuration: bool)
    | Launched(child: Id)                   // before the section that publishes
    | Cancelled(child: Id)                  // that section found `_stop` set
    | Published                             // before the health schedule is set
    | Monitoring                            // before `poll`
    | Polled(exited: bool)
    | Noted(exited: bool, check: bool, used: bool)
    | Probing
    | Judging(exited: bool)
    | Disposing
    | Disposed
    | Crashing                              // an exception on its way out of the loop
    | Ending                                // in the `finally` clause
    | Leaving                               // there, after the last `_dispose`
    | Ended

  datatype Probe = Probe(id: Id, ok: bool)

  /** History: recorded failures with the retry times they set, how many of them before shutdown,
      decisions to launch, published children, probes by the loop, children that were reported, how
      many reports were taken and how many probes came ahead of schedule. */
  datatype Trace = Trace(
    times: seq<real>, retryAt: seq<real>, counted: nat, launches: seq<real>,
    published: seq<Id>, probes: seq<Probe>, reported: set<Id>, taken: nat, early: nat)

  /** `local` is the variable `current` of `_supervise`; `unreaped` are the children not closed yet. */
  datatype State = State(
    sh: Shared, pc: Pc, local: Option<Id>, nextHealth: real, healthErrors: nat,
    now: real, spawned: nat, unreaped: set<Id>, exited: set<Id>, trace: Trace)

  datatype Action =
    | Loop | Decide | Spawn | SpawnFails | HandshakeOk | HandshakeFails(configuration: bool)
    | HandleLaunchFailure(jitter: real) | Publish | DisposeCancelled | Schedule
    | Poll | Note | Health | EndProbe(ok: bool) | Judge | Dispose | RecordExit(jitter: real)
    | Crash | MarkFatal | DisposeLast | Leave
    | Acquire | Release | Request(pin: bool) | Report(id: Id) | Shutdown
    | Tick(time: real) | Exit(id: Id)

  predicate Jitter(jitter: real) {
    0.0 <= jitter < 0.05
  }

  /** Past the section that read `_current`, with a child to watch. */
  predicate Watching(pc: Pc) {
    pc.Monitoring? || pc.Polled? || pc.Noted? || pc.Probing? || pc.Judging?
  }

  predicate Enabled(s: State, a: Action) {
    match a
    case Loop => s.pc == Top
    case Decide => s.pc == Deciding
    case Spawn => s.pc == Launching
    case SpawnFails => s.pc == Launching
    case HandshakeOk => s.pc.Spawned? && s.pc.child !in s.exited
    case HandshakeFails(_) => s.pc.Spawned?
    case HandleLaunchFailure(jitter) => s.pc.LaunchFailed? && Jitter(jitter)
    case Publish => s.pc.Launched?
    case DisposeCancelled => s.pc.Cancelled?
    case Schedule => s.pc == Published
    case Poll => s.pc == Monitoring
    case Note => s.pc.Polled? && s.local.Some?
    case Health => s.pc.Noted?
    case EndProbe(_) => s.pc == Probing && s.local.Some?
    case Judge => s.pc.Judging?
    case Dispose => s.pc == Disposing
    case RecordExit(jitter) => s.pc == Disposed && Jitter(jitter)
    case Crash => s.pc == Launching || s.pc.Spawned? || s.pc == Probing || s.pc == Disposing
    case MarkFatal => s.pc == Crashing
    case DisposeLast => s.pc == Ending
    case Leave => s.pc == Leaving
    case Tick(time) => time >= s.now
    case Exit(id) => id in s.unreaped
    case _ => true
  }

  /** `close` returns once the child has exited. */
  function Close(s: State, child: Id): State {
    s.(unreaped := s.unreaped - {child}, exited := s.exited + {child})
  }

  function CloseLocal(s: State): State {
    if s.local.Some? then Close(s, s.local.value) else s
  }

  predicate PollExited(s: State, child: Option<Id>) {
    child.Some? && child.value in s.exited
  }

  function NextDecide(s: State): State {
    var (sh, decision) := DecideSection(s.sh, s.now);
    var next := s.(sh := sh, local := sh.current);
    match decision
    case Watch(_) => next.(pc := Monitoring)
    case Wait => next.(pc := Top)
    case Launch => next.(pc := Launching, trace := s.trace.(launches := s.trace.launches + [s.now]))
  }

  function NextSpawn(s: State): State {
    s.(pc := Spawned(s.spawned), spawned := s.spawned + 1, unreaped := s.unreaped + {s.spawned})
  }

  function NextRecord(s: State, jitter: real, limits: Limits): State {
    var sh := RecordSection(s.sh, s.now, jitter, limits);
    s.(sh := sh, pc := Top, local := None,
       trace := s.trace.(times := s.trace.times + [s.now], retryAt := s.trace.retryAt + [sh.nextRetry],
                         counted := if s.sh.stop then s.trace.counted else s.trace.counted + 1))
  }

  function NextPublish(s: State, child: Id): State {
    var (sh, done) := PublishSection(s.sh, child);
    if done then s.(sh := sh, pc := Published, local := Some(child), trace := s.trace.(published := s.trace.published + [child]))
    else s.(sh := sh, pc := Cancelled(child))
  }

  function NextNote(s: State, exited: bool, child: Id): State {
    var (sh, check, used) := NoteSection(s.sh, child);
    s.(sh := sh, pc := Noted(exited, check, used))
  }

  function NextHealth(s: State, exited: bool, check: bool, used: bool): State {
    if !exited && used && (check || s.now >= s.nextHealth) then
      s.(pc := Probing, trace := s.trace.(early := if s.now >= s.nextHealth then s.trace.early else s.trace.early + 1))
    else s.(pc := Judging(exited))
  }

  function NextEndProbe(s: State, ok: bool, child: Id, settings: Settings): State {
    s.(pc := Judging(false), healthErrors := if ok then 0 else s.healthErrors + 1,
       nextHealth := s.now + settings.healthInterval, trace := s.trace.(probes := s.trace.probes + [Probe(child, ok)]))
  }

  function NextJudge(s: State, exited: bool, settings: Settings): State {
    if exited || s.healthErrors >= settings.healthFailures then s.(sh := RetireSection(s.sh), pc := Disposing)
    else s.(pc := Top)
  }

  /** An exception that is no `Exception`; `_launch` closes its child before it lets it through. */
  function NextCrash(s: State): State {
    if s.pc.Spawned? then Close(s, s.pc.child).(pc := Crashing) else s.(pc := Crashing)
  }

  function NextRequest(s: State, pin: bool): State {
    var (sh, _) := RequestSection(s.sh, pin, PollExited(s, s.sh.current));
    s.(sh := sh, pc := if sh.started && s.pc == NotStarted then Top else s.pc)
  }

  function NextReport(s: State, id: Id): State {
    s.(sh := ReportSection(s.sh, id),
       trace := if s.sh.current == Some(id) && !s.sh.stop
                then s.trace.(reported := s.trace.reported + {id}, taken := s.trace.taken + 1) else s.trace)
  }

  function Next(s: State, a: Action, settings: Settings): State
    requires Enabled(s, a)
  {
    match a
    case Loop => s.(pc := if s.sh.stop then Ending else Deciding)
    case Decide => NextDecide(s)
    case Spawn => NextSpawn(s)
    case SpawnFails => s.(pc := LaunchFailed(true))
    case HandshakeOk => s.(pc := Launched(s.pc.child))
    case HandshakeFails(configuration) => Close(s, s.pc.child).(pc := LaunchFailed(configuration))
    case HandleLaunchFailure(jitter) =>
      if s.pc.configuration then s.(sh := FailedSection(s.sh), pc := Top) else NextRecord(s, jitter, settings.limits)
    case Publish => NextPublish(s, s.pc.child)
    case DisposeCancelled => Close(s, s.pc.child).(pc := Ending)
    case Schedule => s.(pc := Top, nextHealth := s.now + settings.healthInterval, healthErrors := 0)
    case Poll => s.(pc := Polled(PollExited(s, s.local)))
    case Note => NextNote(s, s.pc.exited, s.local.value)
    case Health => NextHealth(s, s.pc.exited, s.pc.check, s.pc.used)
    case EndProbe(ok) => NextEndProbe(s, ok, s.local.value, settings)
    case Judge => NextJudge(s, s.pc.exited, settings)
    case Dispose => CloseLocal(s).(pc := Disposed)
    case RecordExit(jitter) => NextRecord(s, jitter, settings.limits)
    case Crash => NextCrash(s)
    case MarkFatal => s.(sh := FailedSection(s.sh), pc := Ending)
    case DisposeLast => CloseLocal(s).(pc := Leaving)
    case Leave => s.(sh := LeaveSection(s.sh), pc := Ended)
    case Acquire => s.(sh := AcquireSection(s.sh).0)
    case Release => s.(sh := ReleaseSection(s.sh))
    case Request(pin) => NextRequest(s, pin)
    case Report(id) => NextReport(s, id)
    case Shutdown => s.(sh := ShutdownSection(s.sh))
    case Tick(time) => s.(now := time)
    case Exit(id) => s.(exited := s.exited + {id})
  }

  predicate Init(s: State) {
    && s.sh == NewRuntime() && s.pc == NotStarted && s.local == None && s.healthErrors == 0
    && s.spawned == 0 && s.unreaped == {} && s.exited == {} && s.trace == Trace([], [], 0, [], [], [], {}, 0, 0)
  }

  // ---- the invariant --------------------------------------------------------------------------------

  predicate OnLaunchPath(pc: Pc) {
    pc == Launching || pc.Spawned? || pc.LaunchFailed? || pc.Launched? || pc.Cancelled?
  }

  /** The loop variable and `_current`. */
  predicate LocalFits(s: State) {
    && (OnLaunchPath(s.pc) ==> s.local == None && s.sh.current == None)
    && (s.pc == NotStarted ==> s.local == None)
    && (s.pc == NotStarted || s.pc == Top || s.pc == Deciding ==> s.local == s.sh.current)
    && (s.pc == Published || Watching(s.pc) ==> s.local.Some? && s.sh.current == s.local)
    && (s.pc == Disposing || s.pc == Disposed ==> s.local.Some? && s.sh.current == None)
    && (s.pc == Crashing || s.pc == Ending || s.pc == Leaving ==> s.sh.current == None || s.sh.current == s.local)
    && (s.pc == Ended ==> s.sh.current == None)
  }

  /** The children the loop still has to close. */
  function Owned(pc: Pc, local: Option<Id>): set<Id> {
    if pc.Spawned? || pc.Launched? || pc.Cancelled? then {pc.child}
    else if pc == Disposed || pc == Leaving || pc == Ended || local == None then {}
    else {local.value}
  }

  predicate ChildrenFit(s: State) {
    && s.unreaped == Owned(s.pc, s.local)
    && (forall id :: id in s.unreaped + s.exited ==> id < s.spawned)
    && forall id :: 0 <= id < s.spawned ==> id in s.unreaped || id in s.exited
  }

  predicate FlagsFit(s: State) {
    && (s.sh.started <==> s.pc != NotStarted)
    && (s.sh.fatal ==> !OnLaunchPath(s.pc))
    && (s.sh.state == RUNNING ==> s.sh.current.Some? && !s.sh.stop && !s.sh.fatal)
    && (s.pc == Ending || s.pc == Leaving || s.pc == Ended ==> s.sh.stop || s.sh.fatal)
    && (s.sh.current.Some? ==> |s.trace.published| > 0 && s.trace.published[|s.trace.published| - 1] == s.sh.current.value)
    && (s.pc.Cancelled? ==> s.sh.stop)
    && (s.sh.current.Some? && !s.sh.stop && !s.sh.fatal ==> s.sh.state == RUNNING)
  }

  /** Between a recorded failure and the next decision to launch. */
  predicate Idle(s: State) {
    (s.pc == NotStarted || s.pc == Top || s.pc == Deciding) && s.local == None && !s.sh.fatal
  }

  /** Every time in the list has come. */
  predicate Past(times: seq<real>, now: real) {
    |times| > 0 ==> times[|times| - 1] <= now
  }

  /** From a decision to launch until its failure is recorded. */
  predicate Flying(s: State) {
    || OnLaunchPath(s.pc)
    || (s.local.Some? && (s.pc == Top || s.pc == Deciding || s.pc == Published || Watching(s.pc) || s.pc == Disposing || s.pc == Disposed))
  }

  ghost predicate LimiterFits(s: State, limits: Limits) {
    && IsTail(s.sh.failures, s.trace.times, limits.restartWindow)
    && Paced(s.trace.times, s.trace.retryAt, s.trace.counted, limits)
    && Scheduled(s.trace.times, s.trace.retryAt, limits)
    && (!s.sh.stop ==> s.trace.counted == |s.trace.times|)
    && Past(s.trace.times, s.now)
  }

  predicate PaceFits(s: State) {
    && (!s.sh.stop && 0 < |s.trace.times| == |s.trace.retryAt| ==>
          var last := s.trace.retryAt[|s.trace.retryAt| - 1];
          (Idle(s) ==> s.sh.nextRetry == last) && (Flying(s) ==> s.now >= last))
    && (|s.trace.times| == 0 ==> s.sh.nextRetry == 0.0)
  }

  /** Decisions to launch and recorded failures take turns. */
  predicate Alternate(launches: seq<real>, times: seq<real>) {
    && |times| <= |launches| <= |times| + 1
    && (forall i :: 0 <= i < |times| ==> launches[i] <= times[i])
    && forall i :: 0 < i < |launches| ==> times[i - 1] <= launches[i]
  }

  predicate LaunchesFit(s: State) {
    && Alternate(s.trace.launches, s.trace.times)
    && (Idle(s) ==> |s.trace.launches| == |s.trace.times|)
    && (Flying(s) ==> |s.trace.launches| == |s.trace.times| + 1)
    && Past(s.trace.launches, s.now)
  }

  /** The last `n` probes were all of this child and all failed. */
  predicate AllFailed(probes: seq<Probe>, n: nat, child: Id) {
    n <= |probes| && forall k :: |probes| - n <= k < |probes| ==> probes[k] == Probe(child, false)
  }

  /** And there are no more of that kind. */
  predicate FailsExactly(probes: seq<Probe>, n: nat, child: Id) {
    AllFailed(probes, n, child) && (n < |probes| ==> probes[|probes| - n - 1] != Probe(child, false))
  }

  /** Only published children are probed, so the one just published was not. */
  predicate ProbesFit(s: State) {
    && (s.local.Some? ==> s.local.value < s.spawned)
    && (s.pc.Spawned? || s.pc.Launched? || s.pc.Cancelled? ==> s.pc.child + 1 == s.spawned)
    && forall k :: 0 <= k < |s.trace.probes| ==>
         && s.trace.probes[k].id < (if s.pc.Spawned? || s.pc.Launched? || s.pc.Cancelled? then s.pc.child else s.spawned)
         && !(s.pc == Published && s.local == Some(s.trace.probes[k].id))
  }

  predicate HealthFits(s: State) {
    && (s.local.Some? && (s.pc == Top || s.pc == Deciding || Watching(s.pc)) ==> FailsExactly(s.trace.probes, s.healthErrors, s.local.value))
    && (s.sh.checkRequested.Some? ==> s.sh.checkRequested.value in s.trace.reported)
    && (s.pc.Noted? && s.pc.check && s.local.Some? ==> s.local.value in s.trace.reported)
    && ((s.pc.Polled? || s.pc.Noted? || s.pc.Judging?) && s.pc.exited ==> PollExited(s, s.local))
  }

  /** Published children are older than the one being launched, so none is published twice. */
  predicate PublishedFit(s: State) {
    && (s.pc.Spawned? || s.pc.Launched? || s.pc.Cancelled? ==> s.pc.child + 1 == s.spawned)
    && forall k :: 0 <= k < |s.trace.published| ==>
         s.trace.published[k] < if s.pc.Spawned? || s.pc.Launched? || s.pc.Cancelled? then s.pc.child else s.spawned
  }

  /** A report is good for one early probe: it is pending, noted, or used up. */
  predicate ReportsFit(s: State) {
    s.trace.early + Bit(s.pc.Noted? && s.pc.check) + Bit(s.sh.checkRequested.Some?) <= s.trace.taken
  }

  ghost predicate Inv(s: State, settings: Settings) {
    && LocalFits(s) && ChildrenFit(s) && FlagsFit(s) && LimiterFits(s, settings.limits) && PaceFits(s)
    && LaunchesFit(s) && HealthFits(s) && ProbesFit(s) && ReportsFit(s) && PublishedFit(s)
  }

  lemma InitInv(s: State, settings: Settings)
    requires Init(s)
    ensures Inv(s, settings)
  {
    hide *;
    InitChildren(s);
    InitHistory(s, settings.limits);
    InitFlags(s);
    InitParts(s, settings);
  }

  lemma InitParts(s: State, settings: Settings)
    requires LocalFits(s) && ChildrenFit(s) && FlagsFit(s) && LimiterFits(s, settings.limits) && PaceFits(s)
    requires LaunchesFit(s) && HealthFits(s) && ProbesFit(s) && ReportsFit(s) && PublishedFit(s)
    ensures Inv(s, settings)
  {
    hide LocalFits, ChildrenFit, FlagsFit, LimiterFits, PaceFits, LaunchesFit, HealthFits, ProbesFit, ReportsFit, PublishedFit;
  }

  lemma InitFlags(s: State)
    requires Init(s)
    ensures LocalFits(s) && FlagsFit(s) && PaceFits(s) && HealthFits(s) && ProbesFit(s) && ReportsFit(s) && PublishedFit(s)
  {
  }

  lemma InitChildren(s: State)
    requires Init(s)
    ensures ChildrenFit(s)
  {
    assert forall id :: id !in s.unreaped + s.exited;
  }

  lemma InitHistory(s: State, limits: Limits)
    requires Init(s)
    ensures LimiterFits(s, limits) && LaunchesFit(s)
  {
    NothingScheduled(limits);
    hide Scheduled;
  }

  // ---- every step keeps it ----------------------------------------------------------------------------

  /** Steps of the callers, the child and the clock. */
  predicate Outside(a: Action) {
    a.Acquire? || a.Release? || a.Request? || a.Report? || a.Shutdown? || a.Tick? || a.Exit?
  }

  lemma LocalKeptOutside(s: State, a: Action, settings: Settings)
    requires Outside(a)
    requires LocalFits(s) && Enabled(s, a)
    ensures LocalFits(Next(s, a, settings))
  {
    hide Record;
  }

  lemma LocalKeptInside(s: State, a: Action, settings: Settings)
    requires !Outside(a)
    requires LocalFits(s) && Enabled(s, a)
    ensures LocalFits(Next(s, a, settings))
  {
    hide Record;
  }

  lemma LocalKept(s: State, a: Action, settings: Settings)
    requires LocalFits(s) && Enabled(s, a)
    ensures LocalFits(Next(s, a, settings))
  {
    hide *;
    if Outside(a) {
      LocalKeptOutside(s, a, settings);
    } else {
      LocalKeptInside(s, a, settings);
    }
  }

  lemma FlagsKeptOutside(s: State, a: Action, settings: Settings)
    requires Outside(a)
    requires LocalFits(s) && FlagsFit(s) && Enabled(s, a)
    ensures FlagsFit(Next(s, a, settings))
  {
    hide Record;
  }

  lemma FlagsKeptInside(s: State, a: Action, settings: Settings)
    requires !Outside(a)
    requires LocalFits(s) && FlagsFit(s) && Enabled(s, a)
    ensures FlagsFit(Next(s, a, settings))
  {
    hide Record;
  }

  lemma FlagsKept(s: State, a: Action, settings: Settings)
    requires LocalFits(s) && FlagsFit(s) && Enabled(s, a)
    ensures FlagsFit(Next(s, a, settings))
  {
    hide *;
    if Outside(a) {
      FlagsKeptOutside(s, a, settings);
    } else {
      FlagsKeptInside(s, a, settings);
    }
  }

  /** Steps that spawn a child, close one or see one exit. */
  predicate TouchesChildren(a: Action) {
    a.Spawn? || a.HandshakeFails? || a.DisposeCancelled? || a.Dispose? || a.Crash? || a.DisposeLast? || a.Exit?
  }

  lemma OthersLeaveChildren(s: State, a: Action, settings: Settings)
    requires LocalFits(s) && ChildrenFit(s) && Enabled(s, a) && !TouchesChildren(a)
    ensures ChildrenFit(Next(s, a, settings))
  {
    hide Record;
    var next := Next(s, a, settings);
    assert next.unreaped == s.unreaped && next.exited == s.exited && next.spawned == s.spawned;
    assert Owned(next.pc, next.local) == Owned(s.pc, s.local);
  }

  /** Closing the one child there is leaves none. */
  lemma ClosedFits(s: State, child: Id, pc: Pc)
    requires ChildrenFit(s) && s.unreaped == {child} && Owned(pc, s.local) == {}
    ensures ChildrenFit(Close(s, child).(pc := pc))
  {
    var none: set<Id> := {};
    assert (forall id :: id !in {child} - {child}) ==> {child} - {child} == none;
    hide Owned;
    assert child in s.unreaped + s.exited;
    forall id | id in s.exited + {child}
      ensures id < s.spawned
    {
      assert id in s.unreaped + s.exited;
    }
  }

  lemma SpawnedFits(s: State)
    requires ChildrenFit(s) && s.unreaped == {}
    ensures ChildrenFit(NextSpawn(s))
  {
    var none: set<Id> := {};
    assert (forall id :: id in none + {s.spawned} <==> id in {s.spawned}) ==> none + {s.spawned} == {s.spawned};
    forall id | id in {s.spawned} + s.exited
      ensures id < s.spawned + 1
    {
      assert id == s.spawned || id in s.unreaped + s.exited;
    }
  }

  lemma ChildrenKept(s: State, a: Action, settings: Settings)
    requires LocalFits(s) && ChildrenFit(s) && Enabled(s, a)
    ensures ChildrenFit(Next(s, a, settings))
  {
    if !TouchesChildren(a) {
      OthersLeaveChildren(s, a, settings);
    } else {
      match a
      case Spawn => SpawnedFits(s);
      case HandshakeFails(configuration) => ClosedFits(s, s.pc.child, LaunchFailed(configuration));
      case DisposeCancelled => ClosedFits(s, s.pc.child, Ending);
      case Dispose => ClosedFits(s, s.local.value, Disposed);
      case Crash => if s.pc.Spawned? { ClosedFits(s, s.pc.child, Crashing); }
      case DisposeLast => if s.local.Some? { ClosedFits(s, s.local.value, Leaving); }
      case Exit(id) =>
        forall other | other in s.unreaped + (s.exited + {id})
          ensures other < s.spawned
        {
          assert other in s.unreaped + s.exited;
        }
    }
  }

  lemma HealthKeptOutside(s: State, a: Action, settings: Settings)
    requires Outside(a)
    requires LocalFits(s) && HealthFits(s) && ProbesFit(s) && Enabled(s, a)
    ensures HealthFits(Next(s, a, settings))
  {
    hide Record;
  }

  lemma HealthKeptInside(s: State, a: Action, settings: Settings)
    requires !Outside(a) && !a.EndProbe? && a != Schedule
    requires LocalFits(s) && HealthFits(s) && ProbesFit(s) && Enabled(s, a)
    ensures HealthFits(Next(s, a, settings))
  {
    hide Record, FailsExactly, ProbesFit;
  }

  lemma HealthAfterProbe(s: State, ok: bool, settings: Settings)
    requires LocalFits(s) && HealthFits(s) && s.pc == Probing && s.local.Some?
    ensures HealthFits(NextEndProbe(s, ok, s.local.value, settings))
  {
  }

  lemma HealthAfterPublication(s: State, settings: Settings)
    requires LocalFits(s) && HealthFits(s) && ProbesFit(s) && s.pc == Published
    ensures HealthFits(s.(pc := Top, nextHealth := s.now + settings.healthInterval, healthErrors := 0))
  {
  }

  lemma HealthKept(s: State, a: Action, settings: Settings)
    requires LocalFits(s) && HealthFits(s) && ProbesFit(s) && Enabled(s, a)
    ensures HealthFits(Next(s, a, settings))
  {
    hide LocalFits, HealthFits, ProbesFit, Outside, NextEndProbe, NextRecord, NextPublish, NextNote, NextHealth, NextJudge, NextDecide, NextRequest,
      NextReport, NextCrash;
    if Outside(a) {
      HealthKeptOutside(s, a, settings);
    } else if a.EndProbe? {
      HealthAfterProbe(s, a.ok, settings);
    } else if a == Schedule {
      HealthAfterPublication(s, settings);
    } else {
      HealthKeptInside(s, a, settings);
    }
  }

  lemma ProbesKept(s: State, a: Action, settings: Settings)
    requires LocalFits(s) && ProbesFit(s) && Enabled(s, a)
    ensures ProbesFit(Next(s, a, settings))
  {
    hide *;
    if Outside(a) {
      ProbesKeptOutside(s, a, settings);
    } else {
      ProbesKeptInside(s, a, settings);
    }
  }

  lemma ProbesKeptOutside(s: State, a: Action, settings: Settings)
    requires Outside(a)
    requires LocalFits(s) && ProbesFit(s) && Enabled(s, a)
    ensures ProbesFit(Next(s, a, settings))
  {
    hide Record;
  }

  lemma ProbesKeptInside(s: State, a: Action, settings: Settings)
    requires !Outside(a)
    requires LocalFits(s) && ProbesFit(s) && Enabled(s, a)
    ensures ProbesFit(Next(s, a, settings))
  {
    hide Record;
  }

  lemma ReportsKept(s: State, a: Action, settings: Settings)
    requires ReportsFit(s) && Enabled(s, a)
    ensures ReportsFit(Next(s, a, settings))
  {
    hide Record;
  }

  lemma PublishedKept(s: State, a: Action, settings: Settings)
    requires PublishedFit(s) && Enabled(s, a)
    ensures PublishedFit(Next(s, a, settings))
  {
    hide Record;
  }

  predicate Records(s: State, a: Action) {
    a.RecordExit? || (a.HandleLaunchFailure? && s.pc.LaunchFailed? && !s.pc.configuration)
  }

  /** What a step that records nothing does to the history of failures. */
  predicate Quiet(s: State, next: State) {
    && next.sh.failures == s.sh.failures && next.now >= s.now && (s.sh.stop ==> next.sh.stop)
    && next.trace.times == s.trace.times && next.trace.retryAt == s.trace.retryAt && next.trace.counted == s.trace.counted
  }

  lemma QuietOutside(s: State, a: Action, settings: Settings)
    requires Enabled(s, a) && Outside(a)
    ensures Quiet(s, Next(s, a, settings))
  {
    hide Record;
  }

  lemma QuietInside(s: State, a: Action, settings: Settings)
    requires Enabled(s, a) && !Records(s, a) && !Outside(a)
    ensures Quiet(s, Next(s, a, settings))
  {
    hide Record;
  }

  lemma QuietStep(s: State, a: Action, settings: Settings)
    requires Enabled(s, a) && !Records(s, a)
    ensures Quiet(s, Next(s, a, settings))
  {
    hide Next, Enabled;
    if Outside(a) {
      QuietOutside(s, a, settings);
    } else {
      QuietInside(s, a, settings);
    }
  }

  lemma LimiterKept(s: State, a: Action, settings: Settings)
    requires settings.Valid() && Enabled(s, a) && LocalFits(s) && LimiterFits(s, settings.limits) && PaceFits(s)
    ensures LimiterFits(Next(s, a, settings), settings.limits)
  {
    if Records(s, a) {
      RecordKept(s, a.jitter, settings.limits);
    } else {
      QuietStep(s, a, settings);
      hide Next, Enabled, Paced, Scheduled, IsTail, PaceFits, LocalFits;
    }
  }

  lemma RecordKept(s: State, jitter: real, limits: Limits)
    requires limits.Valid() && Jitter(jitter) && Flying(s) && LimiterFits(s, limits) && PaceFits(s)
    ensures LimiterFits(NextRecord(s, jitter, limits), limits)
  {
    var times, now := s.trace.times, s.now;
    hide PaceFits, Flying, Paced, IsTail, NonDecreasing, Scheduled;
    OneMoreTime(s, limits);
    ScheduledStep(s.sh.failures, times, s.trace.retryAt, now, jitter, limits);
    PacedStep(s.sh.failures, times, s.trace.retryAt, s.trace.counted, now, jitter, limits, s.sh.stop);
    hide Record;
  }

  lemma OneMoreTime(s: State, limits: Limits)
    requires LimiterFits(s, limits) && PaceFits(s) && Flying(s)
    ensures var times := s.trace.times;
            && NonDecreasing(times + [s.now]) && |s.trace.retryAt| == |times|
            && (!s.sh.stop && |times| > 0 ==> s.now >= s.trace.retryAt[|times| - 1])
  {
    hide Flying, IsTail, Scheduled;
  }

  lemma PaceKeptOutside(s: State, a: Action, settings: Settings)
    requires Outside(a)
    requires settings.Valid() && Enabled(s, a) && LocalFits(s) && PaceFits(s) && |s.trace.times| == |s.trace.retryAt|
    ensures PaceFits(Next(s, a, settings))
  {
    hide Record;
  }

  lemma PaceKeptInside(s: State, a: Action, settings: Settings)
    requires !Outside(a)
    requires settings.Valid() && Enabled(s, a) && LocalFits(s) && PaceFits(s) && |s.trace.times| == |s.trace.retryAt|
    ensures PaceFits(Next(s, a, settings))
  {
    hide Record;
  }

  lemma PaceKept(s: State, a: Action, settings: Settings)
    requires settings.Valid() && Enabled(s, a) && LocalFits(s) && PaceFits(s) && |s.trace.times| == |s.trace.retryAt|
    ensures PaceFits(Next(s, a, settings))
  {
    hide *;
    if Outside(a) {
      PaceKeptOutside(s, a, settings);
    } else {
      PaceKeptInside(s, a, settings);
    }
  }

  lemma AlternateLaunch(launches: seq<real>, times: seq<real>, now: real)
    requires Alternate(launches, times) && |launches| == |times| && Past(times, now)
    ensures Alternate(launches + [now], times) && Past(launches + [now], now)
  {
  }

  lemma AlternateFailure(launches: seq<real>, times: seq<real>, now: real)
    requires Alternate(launches, times) && |launches| == |times| + 1 && Past(launches, now)
    ensures Alternate(launches, times + [now]) && Past(times + [now], now)
  {
  }

  /** Only a record ends a flight and only a decision starts one. */
  predicate SamePhase(s: State, next: State) {
    (Idle(next) ==> Idle(s)) && (Flying(next) ==> Flying(s)) && next.trace.launches == s.trace.launches
  }

  lemma PhaseOutside(s: State, a: Action, settings: Settings)
    requires Enabled(s, a) && Outside(a) && LocalFits(s)
    ensures SamePhase(s, Next(s, a, settings))
  {
    hide Record;
  }

  lemma PhaseInside(s: State, a: Action, settings: Settings)
    requires Enabled(s, a) && !Outside(a) && !Records(s, a) && a != Decide && LocalFits(s)
    ensures SamePhase(s, Next(s, a, settings))
  {
    hide Record;
  }

  lemma LaunchesAfterRecord(s: State, jitter: real, limits: Limits)
    requires LaunchesFit(s) && Flying(s)
    ensures LaunchesFit(NextRecord(s, jitter, limits))
  {
    AlternateFailure(s.trace.launches, s.trace.times, s.now);
    hide Record, Alternate;
  }

  lemma LaunchesAfterDecide(s: State)
    requires LocalFits(s) && LaunchesFit(s) && Past(s.trace.times, s.now) && s.pc == Deciding
    ensures LaunchesFit(NextDecide(s))
  {
    if Idle(s) {
      AlternateLaunch(s.trace.launches, s.trace.times, s.now);
    }
    hide Alternate;
  }

  lemma LaunchesKept(s: State, a: Action, settings: Settings)
    requires settings.Valid() && Enabled(s, a) && LocalFits(s) && LaunchesFit(s) && Past(s.trace.times, s.now)
    ensures LaunchesFit(Next(s, a, settings))
  {
    if Records(s, a) {
      hide LaunchesFit, Record;
      LaunchesAfterRecord(s, a.jitter, settings.limits);
    } else if a == Decide {
      hide LaunchesFit, NextDecide;
      LaunchesAfterDecide(s);
    } else {
      QuietStep(s, a, settings);
      if Outside(a) { PhaseOutside(s, a, settings); } else { PhaseInside(s, a, settings); }
      hide Next, Enabled, Alternate, LocalFits, Idle, Flying;
    }
  }

  lemma StepKeeps(s: State, a: Action, settings: Settings)
    requires settings.Valid() && Inv(s, settings) && Enabled(s, a)
    ensures Inv(Next(s, a, settings), settings)
  {
    assert |s.trace.times| == |s.trace.retryAt|;
    hide Next, Enabled, LocalFits, FlagsFit, ChildrenFit, PaceFits, LaunchesFit, HealthFits, ProbesFit, ReportsFit, PublishedFit, Paced, Scheduled,
      IsTail, Past;
    LocalKept(s, a, settings);
    FlagsKept(s, a, settings);
    ChildrenKept(s, a, settings);
    LimiterKept(s, a, settings);
    PaceKept(s, a, settings);
    LaunchesKept(s, a, settings);
    HealthKept(s, a, settings);
    ProbesKept(s, a, settings);
    ReportsKept(s, a, settings);
    PublishedKept(s, a, settings);
  }

  // ---- runs -------------------------------------------------------------------------------------------

  predicate IsStep(s: State, a: Action, next: State, settings: Settings) {
    Enabled(s, a) && next == Next(s, a, settings)
  }

  predicate IsRun(states: seq<State>, actions: seq<Action>, settings: Settings) {
    && settings.Valid() && |states| == |actions| + 1 && Init(states[0])
    && forall n :: 0 <= n < |actions| ==> IsStep(states[n], actions[n], states[n + 1], settings)
  }

  lemma {:induction false} RunInv(states: seq<State>, actions: seq<Action>, settings: Settings, n: nat)
    requires IsRun(states, actions, settings) && n < |states|
    ensures Inv(states[n], settings)
  {
    hide Inv, Init, Enabled, Next;
    if n == 0 {
      InitInv(states[0], settings);
    } else {
      RunInv(states, actions, settings, n - 1);
      assert IsStep(states[n - 1], actions[n - 1], states[n], settings);
      StepKeeps(states[n - 1], actions[n - 1], settings);
    }
  }

  /** At most one child is not closed; none is once the loop has ended; nothing is launched after a
      fatal error; RUNNING means an open, published child and neither shutdown nor a fatal error. */
  predicate Safe(s: State) {
    && |s.unreaped| <= 1
    && (s.pc == Ended ==> s.unreaped == {} && forall id :: 0 <= id < s.spawned ==> id in s.exited)
    && (s.sh.fatal ==> !OnLaunchPath(s.pc))
    && (s.sh.state == RUNNING ==> s.sh.current.Some? && s.unreaped == {s.sh.current.value} && !s.sh.stop && !s.sh.fatal)
  }

  lemma SupervisorSafety(states: seq<State>, actions: seq<Action>, settings: Settings, n: nat)
    requires IsRun(states, actions, settings) && n < |states|
    ensures Safe(states[n])
  {
    RunInv(states, actions, settings, n);
    hide IsRun, LimiterFits, PaceFits, LaunchesFit, HealthFits;
  }

  /** What `ensure` hands out is the current, running, published child that nobody has closed. */
  lemma RequestReturnsLive(states: seq<State>, actions: seq<Action>, settings: Settings, n: nat, pin: bool, id: Id)
    requires IsRun(states, actions, settings) && n < |states|
    requires RequestSection(states[n].sh, pin, PollExited(states[n], states[n].sh.current)).1 == Ready(id)
    ensures var s := states[n];
            && s.sh.current == Some(id) && s.sh.state == RUNNING && !s.sh.stop && !s.sh.fatal
            && s.unreaped == {id} && id !in s.exited
            && |s.trace.published| > 0 && s.trace.published[|s.trace.published| - 1] == id
  {
    SupervisorSafety(states, actions, settings, n);
    RunInv(states, actions, settings, n);
    hide IsRun, LimiterFits, PaceFits, LaunchesFit, HealthFits, ChildrenFit, LocalFits;
  }

  /** What `is_current` answers about a child. */
  predicate IsCurrent(s: State, id: Id) {
    CurrentSection(s.sh, id, id in s.exited)
  }

  /** Yes means: the last published child, open and running, so a DELETE sent to it can arrive. */
  lemma CurrentIsOpen(states: seq<State>, actions: seq<Action>, settings: Settings, n: nat, id: Id)
    requires IsRun(states, actions, settings) && n < |states| && IsCurrent(states[n], id)
    ensures var s := states[n];
            s.unreaped == {id} && id !in s.exited && |s.trace.published| > 0 && s.trace.published[|s.trace.published| - 1] == id
  {
    RunInv(states, actions, settings, n);
    hide IsRun, LimiterFits, PaceFits, LaunchesFit, HealthFits;
  }

  /** What one step does to the flags, to the current child and to the published ones. */
  predicate StepFacts(s: State, a: Action, next: State)
    requires Enabled(s, a)
  {
    && (next.sh.stop <==> s.sh.stop || a == Shutdown)
    && (next.sh.fatal <==> s.sh.fatal || a == MarkFatal || (a.HandleLaunchFailure? && s.pc.configuration))
    && (next.sh.wanted <==> s.sh.wanted || (a.Request? && !s.sh.stop && !s.sh.fatal))
    && (if a == Publish && !s.sh.stop then next.sh.current == Some(s.pc.child) && next.trace.published == s.trace.published + [s.pc.child]
        else (next.sh.current == s.sh.current || next.sh.current == None) && next.trace.published == s.trace.published)
    && s.exited <= next.exited
  }

  lemma FactsOutside(s: State, a: Action, settings: Settings)
    requires Enabled(s, a) && Outside(a)
    ensures StepFacts(s, a, Next(s, a, settings))
  {
    hide Record;
  }

  lemma FactsInside(s: State, a: Action, settings: Settings)
    requires Enabled(s, a) && !Outside(a)
    ensures StepFacts(s, a, Next(s, a, settings))
  {
    hide Record;
  }

  lemma FactsOf(s: State, a: Action, settings: Settings)
    requires Enabled(s, a)
    ensures StepFacts(s, a, Next(s, a, settings))
  {
    hide *;
    if Outside(a) {
      FactsOutside(s, a, settings);
    } else {
      FactsInside(s, a, settings);
    }
  }

  lemma NotCurrentStep(s: State, a: Action, settings: Settings, id: Id)
    requires Enabled(s, a) && PublishedFit(s) && id in s.trace.published && !IsCurrent(s, id)
    ensures var next := Next(s, a, settings); id in next.trace.published && !IsCurrent(next, id)
  {
    FactsOf(s, a, settings);
    assert a == Publish ==> s.pc.Launched?;
    hide Next, Enabled;
  }

  lemma RunPublished(states: seq<State>, actions: seq<Action>, settings: Settings, n: nat)
    requires IsRun(states, actions, settings) && n < |states|
    ensures PublishedFit(states[n])
  {
    RunInv(states, actions, settings, n);
    hide IsRun, LocalFits, FlagsFit, ChildrenFit, LimiterFits, PaceFits, LaunchesFit, HealthFits, ProbesFit, ReportsFit, PublishedFit;
  }

  /** No is final for a child that was published: it never becomes current again, so the pool may
      forget its session without a DELETE. */
  lemma {:induction false} NotCurrentIsFinal(states: seq<State>, actions: seq<Action>, settings: Settings, i: nat, j: nat, id: Id)
    requires IsRun(states, actions, settings) && i <= j < |states|
    requires id in states[i].trace.published && !IsCurrent(states[i], id)
    ensures id in states[j].trace.published && !IsCurrent(states[j], id)
    decreases j
  {
    hide Init, Enabled, Next, PublishedFit, IsCurrent;
    if i < j {
      NotCurrentIsFinal(states, actions, settings, i, j - 1, id);
      assert IsStep(states[j - 1], actions[j - 1], states[j], settings);
      RunPublished(states, actions, settings, j - 1);
      NotCurrentStep(states[j - 1], actions[j - 1], settings, id);
    }
  }

  lemma StopStep(s: State, a: Action, settings: Settings)
    requires Enabled(s, a) && s.sh.stop
    ensures var next := Next(s, a, settings);
            && next.sh.stop && next.trace.published == s.trace.published
            && (next.sh.current == s.sh.current || next.sh.current == None)
  {
    FactsOf(s, a, settings);
    hide Next, Enabled;
  }

  /** Nothing is published once shutdown took the lock. */
  lemma {:induction false} NothingPublishedAfterStop(states: seq<State>, actions: seq<Action>, settings: Settings, i: nat, j: nat)
    requires IsRun(states, actions, settings) && i <= j < |states| && states[i].sh.stop
    ensures states[j].sh.stop && states[j].trace.published == states[i].trace.published
    ensures states[j].sh.current == states[i].sh.current || states[j].sh.current == None
    decreases j
  {
    hide Init, Enabled, Next;
    if i < j {
      NothingPublishedAfterStop(states, actions, settings, i, j - 1);
      assert IsStep(states[j - 1], actions[j - 1], states[j], settings);
      StopStep(states[j - 1], actions[j - 1], settings);
    }
  }

  lemma FatalStep(s: State, a: Action, settings: Settings)
    requires Enabled(s, a) && FlagsFit(s) && s.sh.fatal
    ensures var next := Next(s, a, settings);
            next.sh.fatal && next.spawned == s.spawned && next.trace.launches == s.trace.launches && next.trace.published == s.trace.published
  {
    hide Record;
  }

  lemma RunFlags(states: seq<State>, actions: seq<Action>, settings: Settings, n: nat)
    requires IsRun(states, actions, settings) && n < |states|
    ensures FlagsFit(states[n])
  {
    RunInv(states, actions, settings, n);
    hide IsRun, LocalFits, FlagsFit, ChildrenFit, LimiterFits, PaceFits, LaunchesFit, HealthFits;
  }

  /** No launch, no child and no publication follows a fatal error. */
  lemma {:induction false} NothingLaunchedAfterFatal(states: seq<State>, actions: seq<Action>, settings: Settings, i: nat, j: nat)
    requires IsRun(states, actions, settings) && i <= j < |states| && states[i].sh.fatal
    ensures states[j].sh.fatal && states[j].spawned == states[i].spawned
    ensures states[j].trace.launches == states[i].trace.launches && states[j].trace.published == states[i].trace.published
    decreases j
  {
    hide Init, Enabled, Next, FlagsFit;
    if i < j {
      NothingLaunchedAfterFatal(states, actions, settings, i, j - 1);
      assert IsStep(states[j - 1], actions[j - 1], states[j], settings);
      RunFlags(states, actions, settings, j - 1);
      FatalStep(states[j - 1], actions[j - 1], settings);
    }
  }

  /** A published child is withdrawn only if it exited, if its last `health_failures` probes all
      failed with no success between, or by the loop on its way out. */
  lemma ReplacementJustified(states: seq<State>, actions: seq<Action>, settings: Settings, n: nat, id: Id)
    requires IsRun(states, actions, settings) && n < |actions|
    requires states[n].sh.current == Some(id) && states[n + 1].sh.current != Some(id)
    ensures id in states[n].exited || AllFailed(states[n].trace.probes, settings.healthFailures, id)
            || (states[n].pc == Leaving && (states[n].sh.stop || states[n].sh.fatal))
  {
    RunInv(states, actions, settings, n);
    assert IsStep(states[n], actions[n], states[n + 1], settings);
    Withdrawn(states[n], actions[n], settings, id);
  }

  lemma Withdrawn(s: State, a: Action, settings: Settings, id: Id)
    requires Enabled(s, a) && LocalFits(s) && FlagsFit(s) && HealthFits(s)
    requires s.sh.current == Some(id) && Next(s, a, settings).sh.current != Some(id)
    ensures id in s.exited || AllFailed(s.trace.probes, settings.healthFailures, id) || (s.pc == Leaving && (s.sh.stop || s.sh.fatal))
  {
    hide Record;
  }

  lemma ReportedStep(s: State, a: Action, settings: Settings, id: Id)
    requires Enabled(s, a) && id !in s.trace.reported
    ensures id in Next(s, a, settings).trace.reported ==> a == Report(id) && s.sh.current == Some(id) && !s.sh.stop
  {
    hide Record;
  }

  predicate ReportedAt(states: seq<State>, actions: seq<Action>, m: nat, id: Id) {
    m < |actions| && m < |states| && actions[m] == Report(id) && states[m].sh.current == Some(id) && !states[m].sh.stop
  }

  lemma {:induction false} ReportWasAccepted(states: seq<State>, actions: seq<Action>, settings: Settings, n: nat, id: Id) returns (m: nat)
    requires IsRun(states, actions, settings) && n < |states| && id in states[n].trace.reported
    ensures m < n && ReportedAt(states, actions, m, id)
    decreases n
  {
    hide Enabled, Next;
    if n > 0 {
      assert IsStep(states[n - 1], actions[n - 1], states[n], settings);
      if id in states[n - 1].trace.reported {
        m := ReportWasAccepted(states, actions, settings, n - 1, id);
      } else {
        ReportedStep(states[n - 1], actions[n - 1], settings, id);
        m := n - 1;
      }
    }
  }

  /** A probe ahead of schedule has a report that named this very child while it was current. */
  lemma EarlyProbeJustified(states: seq<State>, actions: seq<Action>, settings: Settings, n: nat) returns (m: nat)
    requires IsRun(states, actions, settings) && n < |actions|
    requires actions[n] == Health && states[n + 1].pc == Probing && states[n].now < states[n].nextHealth
    ensures states[n].local.Some? && states[n].sh.current == states[n].local
    ensures m < n && ReportedAt(states, actions, m, states[n].local.value)
  {
    RunInv(states, actions, settings, n);
    assert IsStep(states[n], actions[n], states[n + 1], settings);
    var child := states[n].local.value;
    assert child in states[n].trace.reported;
    hide Inv, Next, Enabled;
    m := ReportWasAccepted(states, actions, settings, n, child);
  }

  /** And no report is good for two of them. */
  lemma EarlyProbesAreReports(states: seq<State>, actions: seq<Action>, settings: Settings, n: nat)
    requires IsRun(states, actions, settings) && n < |states|
    ensures states[n].trace.early <= states[n].trace.taken
  {
    RunInv(states, actions, settings, n);
    hide IsRun, LocalFits, FlagsFit, ChildrenFit, LimiterFits, PaceFits, LaunchesFit, HealthFits;
  }

  lemma HistoryInv(states: seq<State>, actions: seq<Action>, settings: Settings, n: nat)
    requires IsRun(states, actions, settings) && n < |states|
    ensures var s := states[n];
            && settings.limits.Valid() && Paced(s.trace.times, s.trace.retryAt, s.trace.counted, settings.limits)
            && s.trace.counted <= |s.trace.times| && (!s.sh.stop ==> s.trace.counted == |s.trace.times|)
            && Alternate(s.trace.launches, s.trace.times)
  {
    RunInv(states, actions, settings, n);
    assert settings.Valid();
    hide IsRun, LocalFits, FlagsFit, ChildrenFit, PaceFits, HealthFits, IsTail, Idle, Flying, Alternate;
  }

  /** The crash-storm bound in every run: k failures recorded before shutdown, less than a window
      apart, satisfy (k - restart_limit) * cooldown < restart_window. */
  lemma FailureStorm(states: seq<State>, actions: seq<Action>, settings: Settings, n: nat, a: nat, b: nat)
    requires IsRun(states, actions, settings) && n < |states| && a <= b < states[n].trace.counted <= |states[n].trace.times|
    requires states[n].trace.times[b] - states[n].trace.times[a] < settings.limits.restartWindow
    ensures Times(b - a + 1 - settings.limits.restartLimit, settings.limits.cooldown) < settings.limits.restartWindow
  {
    hide *;
    HistoryInv(states, actions, settings, n);
    CrashStormBound(states[n].trace.times, states[n].trace.retryAt, states[n].trace.counted, settings.limits, a, b);
  }

  /** Launches are at most one more than the failures between them. */
  lemma LaunchStorm(states: seq<State>, actions: seq<Action>, settings: Settings, n: nat, a: nat, b: nat)
    requires IsRun(states, actions, settings) && n < |states| && a <= b < |states[n].trace.launches|
    requires !states[n].sh.stop
    requires states[n].trace.launches[b] - states[n].trace.launches[a] < settings.limits.restartWindow
    ensures Times(b - a - settings.limits.restartLimit, settings.limits.cooldown) < settings.limits.restartWindow
  {
    hide IsRun, Paced, Times;
    HistoryInv(states, actions, settings, n);
    LaunchesBetween(states[n].trace, settings.limits, a, b);
  }

  lemma LaunchesBetween(t: Trace, limits: Limits, a: nat, b: nat)
    requires limits.Valid() && Paced(t.times, t.retryAt, t.counted, limits) && t.counted == |t.times|
    requires Alternate(t.launches, t.times) && a <= b < |t.launches|
    requires t.launches[b] - t.launches[a] < limits.restartWindow
    ensures Times(b - a - limits.restartLimit, limits.cooldown) < limits.restartWindow
  {
    hide Paced, Times;
    if a < b {
      assert t.launches[a] <= t.times[a] && t.times[b - 1] <= t.launches[b];
      CrashStormBound(t.times, t.retryAt, t.counted, limits, a, b - 1);
    } else {
      NegativeProduct(0 - limits.restartLimit, limits.cooldown);
    }
  }

  // ---- what the loop decides, from the run alone ----------------------------------------------------------

  /** What one step adds to the history. */
  lemma HistoryStep(s: State, a: Action, settings: Settings)
    requires Enabled(s, a)
    ensures var t, u := s.trace, Next(s, a, settings).trace;
            && u.probes == t.probes + (if a.EndProbe? then [Probe(s.local.value, a.ok)] else [])
            && u.times == t.times + (if a.RecordExit? || (a.HandleLaunchFailure? && !s.pc.configuration) then [s.now] else [])
  {
    hide Record;
    var t := s.trace;
    assert t.probes + [] == t.probes && t.times + [] == t.times;
  }

  /** Between a poll of the child and the judgement that follows. */
  predicate AfterPoll(pc: Pc) {
    pc.Polled? || pc.Noted? || pc.Probing? || pc.Judging?
  }

  predicate SawExit(pc: Pc) {
    match pc
    case Polled(exited) => exited
    case Noted(exited, _, _) => exited
    case Judging(exited) => exited
    case _ => false
  }

  lemma PollStep(s: State, a: Action, settings: Settings)
    requires Enabled(s, a) && AfterPoll(Next(s, a, settings).pc)
    ensures var next := Next(s, a, settings);
            && next.local == s.local
            && if a == Poll then SawExit(next.pc) <==> s.local.Some? && s.local.value in s.exited
               else AfterPoll(s.pc) && (SawExit(next.pc) <==> SawExit(s.pc))
  {
    hide Record;
  }

  /** Step `m` is the last poll before state `n`. */
  predicate LastPoll(actions: seq<Action>, m: nat, n: nat) {
    m < n <= |actions| && actions[m] == Poll && forall i :: m < i < n ==> actions[i] != Poll
  }

  lemma {:induction false} PollBefore(states: seq<State>, actions: seq<Action>, settings: Settings, n: nat) returns (m: nat)
    requires IsRun(states, actions, settings) && n < |states| && AfterPoll(states[n].pc)
    ensures LastPoll(actions, m, n) && states[n].local == states[m].local
    ensures SawExit(states[n].pc) <==> states[m].local.Some? && states[m].local.value in states[m].exited
  {
    assert n > 0;
    hide Enabled, Next, AfterPoll, SawExit;
    assert IsStep(states[n - 1], actions[n - 1], states[n], settings);
    PollStep(states[n - 1], actions[n - 1], settings);
    if actions[n - 1] == Poll {
      m := n - 1;
    } else {
      m := PollBefore(states, actions, settings, n - 1);
    }
  }

  /** A judgement withdraws the current child if and only if the last poll found it exited, or its
      last `health_failures` probes failed with no success between; and the count that it compares is
      that of the failed probes since the last success or since the publication. */
  lemma WithdrawnIff(states: seq<State>, actions: seq<Action>, settings: Settings, n: nat) returns (m: nat)
    requires IsRun(states, actions, settings) && n < |actions| && actions[n] == Judge
    ensures states[n].local.Some? && states[n].sh.current == states[n].local
    ensures LastPoll(actions, m, n)
    ensures var s, next, child := states[n], states[n + 1], states[n].local.value;
            var withdrawn := child in states[m].exited || AllFailed(s.trace.probes, settings.healthFailures, child);
            && next.sh == (if withdrawn then s.sh.(current := None, state := RESTARTING) else s.sh)
            && next.pc == (if withdrawn then Disposing else Top)
            && FailsExactly(s.trace.probes, s.healthErrors, child)
  {
    assert |states| == |actions| + 1;
    hide *;
    RunParts(states, actions, settings, n);
    RunStep(states, actions, settings, n);
    JudgeNeedsChild(states[n]);
    m := PollBefore(states, actions, settings, n);
    JudgeStep(states[n], settings);
    FailedCount(states[n].trace.probes, states[n].healthErrors, settings.healthFailures, states[n].local.value);
  }

  lemma RunStep(states: seq<State>, actions: seq<Action>, settings: Settings, n: nat)
    requires IsRun(states, actions, settings) && n < |actions|
    ensures Enabled(states[n], actions[n]) && states[n + 1] == Next(states[n], actions[n], settings)
  {
    assert IsStep(states[n], actions[n], states[n + 1], settings);
    hide Enabled, Next;
  }

  lemma RunParts(states: seq<State>, actions: seq<Action>, settings: Settings, n: nat)
    requires IsRun(states, actions, settings) && n < |states|
    ensures var s := states[n]; LocalFits(s) && ChildrenFit(s) && FlagsFit(s) && HealthFits(s) && PublishedFit(s) && PaceFits(s)
  {
    RunInv(states, actions, settings, n);
    hide IsRun, LocalFits, FlagsFit, ChildrenFit, LimiterFits, PaceFits, LaunchesFit, HealthFits, ProbesFit, ReportsFit, PublishedFit;
  }

  lemma JudgeNeedsChild(s: State)
    requires Enabled(s, Judge) && LocalFits(s) && HealthFits(s)
    ensures s.local.Some? && s.sh.current == s.local && AfterPoll(s.pc)
    ensures FailsExactly(s.trace.probes, s.healthErrors, s.local.value)
  {
  }

  lemma JudgeStep(s: State, settings: Settings)
    requires Enabled(s, Judge)
    ensures var next := Next(s, Judge, settings);
            var withdrawn := SawExit(s.pc) || s.healthErrors >= settings.healthFailures;
            && next.sh == (if withdrawn then s.sh.(current := None, state := RESTARTING) else s.sh)
            && next.pc == (if withdrawn then Disposing else Top)
  {
    hide Record;
  }

  lemma FailedCount(probes: seq<Probe>, n: nat, limit: nat, child: Id)
    requires FailsExactly(probes, n, child)
    ensures AllFailed(probes, limit, child) <==> n >= limit
  {
  }

  /** A withdrawn child is closed before the loop next reads `_current`, and stays closed. */
  lemma WithdrawnIsClosed(states: seq<State>, actions: seq<Action>, settings: Settings, n: nat, k: nat, id: Id)
    requires IsRun(states, actions, settings) && n < k < |states| && states[k].pc == Deciding
    requires states[n].sh.current == Some(id) && states[n + 1].sh.current != Some(id)
    ensures id !in states[k].unreaped && id in states[k].exited
  {
    assert |states| == |actions| + 1;
    hide *;
    RunParts(states, actions, settings, n);
    RunParts(states, actions, settings, k);
    RunStep(states, actions, settings, n);
    CurrentPublished(states[n], actions[n], settings, id);
    WithdrawnStays(states, actions, settings, n + 1, k, id);
    DecidingClosed(states[k], id);
  }

  lemma CurrentPublished(s: State, a: Action, settings: Settings, id: Id)
    requires Enabled(s, a) && FlagsFit(s) && s.sh.current == Some(id)
    ensures id in Next(s, a, settings).trace.published
  {
    FactsOf(s, a, settings);
    hide Next, Enabled;
  }

  lemma WithdrawnStep(s: State, a: Action, settings: Settings, id: Id)
    requires Enabled(s, a) && PublishedFit(s) && id in s.trace.published && s.sh.current != Some(id)
    ensures var next := Next(s, a, settings); id in next.trace.published && next.sh.current != Some(id)
  {
    FactsOf(s, a, settings);
    assert a == Publish ==> s.pc.Launched?;
    hide Next, Enabled;
  }

  lemma {:induction false} WithdrawnStays(states: seq<State>, actions: seq<Action>, settings: Settings, i: nat, j: nat, id: Id)
    requires IsRun(states, actions, settings) && i <= j < |states|
    requires id in states[i].trace.published && states[i].sh.current != Some(id)
    ensures id in states[j].trace.published && states[j].sh.current != Some(id)
    decreases j
  {
    assert |states| == |actions| + 1;
    hide *;
    if i < j {
      WithdrawnStays(states, actions, settings, i, j - 1, id);
      RunStep(states, actions, settings, j - 1);
      RunPublished(states, actions, settings, j - 1);
      WithdrawnStep(states[j - 1], actions[j - 1], settings, id);
    }
  }

  lemma DecidingClosed(s: State, id: Id)
    requires LocalFits(s) && ChildrenFit(s) && PublishedFit(s) && s.pc == Deciding
    requires id in s.trace.published && s.sh.current != Some(id)
    ensures id !in s.unreaped && id in s.exited
  {
  }

  /** At its test the loop ends exactly if shutdown has been asked for. */
  lemma LoopIff(states: seq<State>, actions: seq<Action>, settings: Settings, n: nat)
    requires IsRun(states, actions, settings) && n < |actions| && actions[n] == Loop
    ensures states[n + 1] == states[n].(pc := if states[n].sh.stop then Ending else Deciding)
  {
    RunStep(states, actions, settings, n);
    hide IsRun;
  }

  // ---- probes --------------------------------------------------------------------------------------------

  lemma NoteStep(s: State, a: Action, settings: Settings)
    requires Enabled(s, a) && Next(s, a, settings).pc.Noted?
    ensures var next := Next(s, a, settings);
            if a == Note then
              && next.pc.check == (s.sh.checkRequested == s.local) && next.pc.used == (s.sh.users > 0 || s.sh.pinned)
              && next.local == s.local && s.local.Some?
            else next.pc == s.pc && next.local == s.local
  {
    hide Record;
  }

  /** Step `q` is the last one that took the request for a probe before state `n`. */
  predicate LastNote(actions: seq<Action>, q: nat, n: nat) {
    q < n <= |actions| && actions[q] == Note && forall i :: q < i < n ==> actions[i] != Note
  }

  lemma {:induction false} NoteBefore(states: seq<State>, actions: seq<Action>, settings: Settings, n: nat) returns (q: nat)
    requires IsRun(states, actions, settings) && n < |states| && states[n].pc.Noted?
    ensures LastNote(actions, q, n) && states[n].local == states[q].local && states[q].local.Some?
    ensures states[n].pc.check == (states[q].sh.checkRequested == states[q].local)
    ensures states[n].pc.used == (states[q].sh.users > 0 || states[q].sh.pinned)
  {
    assert n > 0 && |states| == |actions| + 1;
    hide *;
    RunStep(states, actions, settings, n - 1);
    NoteStep(states[n - 1], actions[n - 1], settings);
    if actions[n - 1] == Note {
      q := n - 1;
      LastIsNote(actions, q);
    } else {
      q := NoteBefore(states, actions, settings, n - 1);
      StillNoted(actions, q, n - 1);
    }
  }

  lemma LastIsNote(actions: seq<Action>, q: nat)
    requires q < |actions| && actions[q] == Note
    ensures LastNote(actions, q, q + 1)
  {
  }

  lemma StillNoted(actions: seq<Action>, q: nat, n: nat)
    requires LastNote(actions, q, n) && n < |actions| && actions[n] != Note
    ensures LastNote(actions, q, n + 1)
  {
  }

  /** A child is published and the loop has set the time of its next probe. */
  predicate OnSchedule(s: State) {
    s.local.Some? && (s.pc == Top || s.pc == Deciding || Watching(s.pc))
  }

  lemma ScheduleStep(s: State, a: Action, settings: Settings)
    requires Enabled(s, a) && LocalFits(s) && OnSchedule(Next(s, a, settings))
    ensures var next := Next(s, a, settings);
            if a == Schedule || a.EndProbe? then next.nextHealth == s.now + settings.healthInterval
            else OnSchedule(s) && next.nextHealth == s.nextHealth
  {
    hide Record;
  }

  /** Step `d` is the last publication or the last end of a probe before state `n`. */
  predicate LastScheduled(actions: seq<Action>, d: nat, n: nat) {
    && d < n <= |actions| && (actions[d] == Schedule || actions[d].EndProbe?)
    && forall i :: d < i < n ==> actions[i] != Schedule && !actions[i].EndProbe?
  }

  lemma {:induction false} ScheduledBefore(states: seq<State>, actions: seq<Action>, settings: Settings, n: nat) returns (d: nat)
    requires IsRun(states, actions, settings) && n < |states| && OnSchedule(states[n])
    ensures LastScheduled(actions, d, n) && states[n].nextHealth == states[d].now + settings.healthInterval
  {
    assert n > 0 && |states| == |actions| + 1;
    hide *;
    RunStep(states, actions, settings, n - 1);
    RunParts(states, actions, settings, n - 1);
    ScheduleStep(states[n - 1], actions[n - 1], settings);
    if actions[n - 1] == Schedule || actions[n - 1].EndProbe? {
      d := n - 1;
      LastIsScheduled(actions, d);
    } else {
      d := ScheduledBefore(states, actions, settings, n - 1);
      StillScheduled(actions, d, n - 1);
    }
  }

  lemma LastIsScheduled(actions: seq<Action>, d: nat)
    requires d < |actions| && (actions[d] == Schedule || actions[d].EndProbe?)
    ensures LastScheduled(actions, d, d + 1)
  {
  }

  lemma StillScheduled(actions: seq<Action>, d: nat, n: nat)
    requires LastScheduled(actions, d, n) && n < |actions| && actions[n] != Schedule && !actions[n].EndProbe?
    ensures LastScheduled(actions, d, n + 1)
  {
  }

  lemma HealthStep(s: State, settings: Settings)
    requires Enabled(s, Health) && LocalFits(s)
    ensures s.local.Some? && s.sh.current == s.local && AfterPoll(s.pc) && OnSchedule(s)
    ensures var next := Next(s, Health, settings);
            next.pc == Probing <==> !SawExit(s.pc) && s.pc.used && (s.pc.check || s.now >= s.nextHealth)
  {
    hide Record;
  }

  /** The loop probes the current child if and only if the last poll found it running, somebody used the
      runtime or it was pinned when the request for a probe was taken, and that request named this
      child or a health interval has gone by since its publication or its last probe. */
  lemma ProbedIff(states: seq<State>, actions: seq<Action>, settings: Settings, n: nat) returns (m: nat, q: nat, d: nat)
    requires IsRun(states, actions, settings) && n < |actions| && actions[n] == Health
    ensures states[n].local.Some? && states[n].sh.current == states[n].local
    ensures LastPoll(actions, m, n) && LastNote(actions, q, n) && LastScheduled(actions, d, n)
    ensures var s, child := states[n], states[n].local.value;
            states[n + 1].pc == Probing <==>
            && child !in states[m].exited
            && (states[q].sh.users > 0 || states[q].sh.pinned)
            && (states[q].sh.checkRequested == Some(child) || s.now >= states[d].now + settings.healthInterval)
  {
    assert |states| == |actions| + 1;
    hide *;
    RunParts(states, actions, settings, n);
    RunStep(states, actions, settings, n);
    HealthStep(states[n], settings);
    HealthIsNoted(states[n]);
    m := PollBefore(states, actions, settings, n);
    q := NoteBefore(states, actions, settings, n);
    d := ScheduledBefore(states, actions, settings, n);
  }

  lemma HealthIsNoted(s: State)
    requires Enabled(s, Health)
    ensures s.pc.Noted?
  {
  }

  // ---- launches and answers --------------------------------------------------------------------------------

  /** Somebody has asked for a process. */
  ghost predicate Asked(states: seq<State>, actions: seq<Action>, n: nat) {
    exists m :: 0 <= m < n && m < |states| && m < |actions| && actions[m].Request? && !states[m].sh.stop && !states[m].sh.fatal
  }

  lemma WantedStep(s: State, a: Action, settings: Settings)
    requires Enabled(s, a)
    ensures Next(s, a, settings).sh.wanted <==> s.sh.wanted || (a.Request? && !s.sh.stop && !s.sh.fatal)
  {
    FactsOf(s, a, settings);
    hide Next, Enabled;
  }

  lemma {:induction false} WantedIff(states: seq<State>, actions: seq<Action>, settings: Settings, n: nat)
    requires IsRun(states, actions, settings) && n < |states|
    ensures states[n].sh.wanted <==> Asked(states, actions, n)
  {
    hide Enabled, Next;
    if n > 0 {
      WantedIff(states, actions, settings, n - 1);
      assert IsStep(states[n - 1], actions[n - 1], states[n], settings);
      WantedStep(states[n - 1], actions[n - 1], settings);
    }
  }

  /** The time before which nothing is launched: none before the first failure. */
  function NextAllowed(t: Trace): real {
    if |t.retryAt| == 0 then 0.0 else t.retryAt[|t.retryAt| - 1]
  }

  lemma DecideStep(s: State, settings: Settings)
    requires Enabled(s, Decide) && LocalFits(s) && PaceFits(s) && !s.sh.stop && |s.trace.times| == |s.trace.retryAt|
    ensures var next := Next(s, Decide, settings);
            && (next.pc == Monitoring <==> s.sh.current.Some?)
            && (next.pc == Launching <==>
                  && s.sh.current == None && !s.sh.fatal && s.sh.wanted && (s.sh.users > 0 || s.sh.pinned)
                  && s.now >= NextAllowed(s.trace))
            && (next.pc == Monitoring || next.pc == Launching || (next.pc == Top && next.sh == s.sh))
            && (next.pc == Launching ==> next.trace.launches == s.trace.launches + [s.now])
  {
    hide Record;
  }

  /** Before shutdown the loop launches if and only if there is no current child and no fatal error,
      somebody has asked for a process, it is used or pinned, and the waiting time set by the last
      failure is over. */
  lemma LaunchedIff(states: seq<State>, actions: seq<Action>, settings: Settings, n: nat)
    requires IsRun(states, actions, settings) && n < |actions| && actions[n] == Decide && !states[n].sh.stop
    ensures var s, next := states[n], states[n + 1];
            && (next.pc == Monitoring <==> s.sh.current.Some?)
            && (next.pc == Launching <==>
                  && s.sh.current == None && !s.sh.fatal && Asked(states, actions, n) && (s.sh.users > 0 || s.sh.pinned)
                  && s.now >= NextAllowed(s.trace))
            && (next.pc == Launching ==> next.trace.launches == s.trace.launches + [s.now])
  {
    assert |states| == |actions| + 1;
    hide *;
    RunParts(states, actions, settings, n);
    RunStep(states, actions, settings, n);
    HistoryInv(states, actions, settings, n);
    PacedLengths(states[n].trace, settings.limits);
    WantedIff(states, actions, settings, n);
    DecideStep(states[n], settings);
  }

  lemma PacedLengths(t: Trace, limits: Limits)
    requires Paced(t.times, t.retryAt, t.counted, limits)
    ensures |t.times| == |t.retryAt|
  {
  }

  /** Every waiting time in a run is that of the schedule, for the failures recorded in the window. */
  lemma WaitingTimes(states: seq<State>, actions: seq<Action>, settings: Settings, n: nat)
    requires IsRun(states, actions, settings) && n < |states|
    ensures Scheduled(states[n].trace.times, states[n].trace.retryAt, settings.limits)
  {
    RunInv(states, actions, settings, n);
    hide IsRun, LocalFits, FlagsFit, ChildrenFit, PaceFits, LaunchesFit, HealthFits, ProbesFit, ReportsFit, PublishedFit, Scheduled, Paced, IsTail;
  }

  /** The answer of `_request_ready`: a child exactly if there is a current one that has not exited,
      with neither shutdown nor a fatal error. */
  lemma AnswerIff(states: seq<State>, actions: seq<Action>, settings: Settings, n: nat, pin: bool)
    requires IsRun(states, actions, settings) && n < |states|
    ensures var sh := states[n].sh;
            RequestSection(sh, pin, PollExited(states[n], sh.current)).1 ==
            if sh.stop then Refused
            else if sh.fatal then Misconfigured
            else if sh.current.Some? && sh.current.value !in states[n].exited then Ready(sh.current.value)
            else NotReady
  {
    RunParts(states, actions, settings, n);
    hide IsRun, LocalFits, ChildrenFit, HealthFits, PublishedFit, PaceFits;
  }

  // ---- the class ----------------------------------------------------------------------------------------

  class ManagedRuntime {
    const settings: Settings
    var current: Option<Id>
    var state: RunState
    var users: nat
    var pinned: bool
    var wanted: bool
    var checkRequested: Option<Id>
    var failures: seq<real>
    var nextRetry: real
    var starts: nat
    var fatal: bool
    var stop: bool
    var started: bool

    function Fields(): Shared
      reads this
    {
      Shared(current, state, users, pinned, wanted, checkRequested, failures, nextRetry, starts, fatal, stop, started)
    }

    constructor (settings: Settings)
      requires settings.Valid()
      ensures this.settings == settings && Fields() == NewRuntime()
    {
      this.settings := settings;
      current, state, users, pinned, wanted := None, STOPPED, 0, false, false;
      checkRequested, failures, nextRetry, starts := None, [], 0.0, 0;
      fatal, stop, started := false, false, false;
    }

    method Acquire() returns (ok: bool)
      modifies this
      ensures (Fields(), ok) == AcquireSection(old(Fields()))
      ensures ok == !old(stop) && Fields() == old(Fields()).(users := if ok then old(users) + 1 else old(users))
    {
      if stop {
        return false;
      }
      users := users + 1;
      return true;
    }

    method Release()
      modifies this
      ensures Fields() == ReleaseSection(old(Fields()))
      ensures Fields() == old(Fields()).(users := if old(users) == 0 then 0 else old(users) - 1)
    {
      if users > 0 {
        users := users - 1;
      }
    }

    method RequestReady(pin: bool, exited: bool) returns (answer: Answer)
      modifies this
      ensures (Fields(), answer) == RequestSection(old(Fields()), pin, exited)
      ensures answer == Refused <==> old(stop)
      ensures answer == Misconfigured <==> old(fatal && !stop)
      ensures answer.Ready? <==> old(!stop && !fatal && current.Some? && state == RUNNING) && !exited
      ensures answer.Ready? ==> old(current) == Some(answer.id)
      ensures old(stop || fatal) ==> Fields() == old(Fields())
      ensures !old(stop || fatal) ==> Fields() == old(Fields()).(wanted := true, pinned := old(pinned) || pin, started := true)
    {
      if stop {
        return Refused;
      }
      if fatal {
        return Misconfigured;
      }
      wanted := true;
      pinned := pinned || pin;
      if !started {
        started := true;
      }
      if current.Some? && state == RUNNING && !exited {
        return Ready(current.value);
      }
      return NotReady;
    }

    method ReportFault(id: Id)
      modifies this
      ensures Fields() == ReportSection(old(Fields()), id)
      ensures Fields() == old(Fields()).(checkRequested := checkRequested)
      ensures checkRequested == if old(current) == Some(id) && !old(stop) then Some(id) else old(checkRequested)
    {
      if current == Some(id) && !stop {
        checkRequested := Some(id);
      }
    }

    method IsCurrent(id: Id, exited: bool) returns (r: bool)
      ensures r == CurrentSection(Fields(), id, exited)
      ensures r ==> current == Some(id) && !stop && !exited
      ensures !r ==> current != Some(id) || stop || exited
    {
      r := !stop && current == Some(id) && !exited;
    }

    method Decide(now: real) returns (decision: Decision)
      modifies this
      ensures (Fields(), decision) == DecideSection(old(Fields()), now)
      ensures decision.Watch? <==> old(current).Some?
      ensures decision.Watch? ==> old(current) == Some(decision.id)
      ensures decision == Launch <==> old(current == None && !fatal && wanted && (users > 0 || pinned)) && now >= old(nextRetry)
      ensures Fields() == old(Fields()).(state := state)
      ensures state == if decision != Launch then old(state) else if old(starts) == 0 then STARTING else RESTARTING
    {
      if current.Some? {
        return Watch(current.value);
      }
      if fatal || !wanted || (users == 0 && !pinned) {
        return Wait;
      }
      var delay := nextRetry - now;
      if delay > 0.0 {
        return Wait;
      }
      state := if starts == 0 then STARTING else RESTARTING;
      return Launch;
    }

    /** `_record_failure`: drop the failures that left the window, add this one, set the delay. */
    method RecordFailure(now: real, jitter: real)
      modifies this
      ensures Fields() == RecordSection(old(Fields()), now, jitter, settings.limits)
      ensures Fields() == old(Fields()).(failures := failures, nextRetry := nextRetry, state := BACKOFF)
      ensures 1 <= |failures| <= |old(failures)| + 1
      ensures var gone := |old(failures)| + 1 - |failures|;
              && failures == old(failures)[gone..] + [now]
              && (forall k :: 0 <= k < gone ==> now - old(failures)[k] >= settings.limits.restartWindow)
              && (gone < |old(failures)| ==> now - old(failures)[gone] < settings.limits.restartWindow)
      ensures nextRetry == now + Backoff(|failures|, settings.limits) + jitter
    {
      var window := settings.limits.restartWindow;
      while |failures| > 0 && now - failures[0] >= window
        invariant Fields() == old(Fields()).(failures := failures)
        invariant DropOld(failures, now, window) == DropOld(old(failures), now, window)
        decreases |failures|
      {
        failures := failures[1..];
      }
      failures := failures + [now];
      nextRetry := now + Delay(|failures|, settings.limits) + jitter;
      state := BACKOFF;
      DropsOnly(old(failures), now, window);
      DropsAll(old(failures), now, window);
      DelayIsSchedule(|failures|, settings.limits);
    }

    method Publish(candidate: Id) returns (done: bool)
      modifies this
      ensures (Fields(), done) == PublishSection(old(Fields()), candidate)
      ensures done == !old(stop) && (!done ==> Fields() == old(Fields()))
      ensures done ==> Fields() == old(Fields()).(current := Some(candidate), starts := old(starts) + 1, state := RUNNING, nextRetry := 0.0)
    {
      done := !stop;
      if done {
        current, starts, state, nextRetry := Some(candidate), starts + 1, RUNNING, 0.0;
      }
    }

    method NoteRequests(id: Id) returns (check: bool, used: bool)
      modifies this
      ensures (Fields(), check, used) == NoteSection(old(Fields()), id)
      ensures check == (old(checkRequested) == Some(id)) && used == old(users > 0 || pinned)
      ensures Fields() == old(Fields()).(checkRequested := None)
    {
      check := checkRequested == Some(id);
      checkRequested := None;
      used := users > 0 || pinned;
    }

    /** The section of the loop that withdraws the current child. */
    method Retire()
      modifies this
      ensures Fields() == RetireSection(old(Fields()))
      ensures Fields() == old(Fields()).(state := RESTARTING, current := None)
    {
      state := RESTARTING;
      current := None;
    }

    /** The sections that end in a fatal error: a launch that is misconfigured, or the loop itself. */
    method Fail()
      modifies this
      ensures Fields() == FailedSection(old(Fields()))
      ensures Fields() == old(Fields()).(fatal := true, state := FAILED)
    {
      fatal := true;
      state := FAILED;
    }

    /** The last section of the loop. */
    method Leave()
      modifies this
      ensures Fields() == LeaveSection(old(Fields()))
      ensures Fields() == old(Fields()).(current := None, state := if old(stop) then CLOSED else old(state))
    {
      current := None;
      if stop {
        state := CLOSED;
      }
    }

    method Shutdown()
      modifies this
      ensures Fields() == ShutdownSection(old(Fields()))
      ensures Fields() == old(Fields()).(stop := true, nextRetry := 0.0, state := state)
      ensures state == CLOSED <==> old(state == CLOSED || !started)
      ensures state != CLOSED ==> state == STOPPING
    {
      stop := true;
      nextRetry := 0.0;
      if state != CLOSED {
        state := if started then STOPPING else CLOSED;
      }
    }
  }
}
