/** The session of the sync `_GoTransport`: requests take a snapshot of the published session, a
    lost session is rebuilt by one thread for all that hold the same generation, and `close` deletes
    what is published last. Lock sections are functions on the shared fields. */
module SyncSession {
  import opened Options
  import opened Counting

  type Id = nat
  type Tid = nat

  /** What `_condition` protects. `failed` is `_failed_generation` and `_rebuild_error`, which are
      set and cleared together. */
  datatype Shared = Shared(
    active: int, closing: bool, closed: bool, clientId: Option<Id>, generation: nat, rebuilding: bool, failed: Option<nat>)

  // ---- lock sections ----------------------------------------------------------------------------

  /** The session a request starts with, or the exception of a closed transport. */
  datatype Start = Snapshot(clientId: Option<Id>, generation: nat) | Refused

  function BeginSection(sh: Shared): (Shared, Start) {
    if sh.closing || sh.closed then (sh, Refused)
    else (sh.(active := sh.active + 1), Snapshot(sh.clientId, sh.generation))
  }

  function EndSection(sh: Shared): Shared {
    sh.(active := sh.active - 1)
  }

  datatype Turn = Wait | Use(clientId: Option<Id>) | CachedError | TransportClosed | Create

  /** The first section of `_rebuild`, once per wakeup. */
  function RebuildSection(sh: Shared, generation: nat): (Shared, Turn) {
    if sh.rebuilding && sh.generation == generation then (sh, Wait)
    else if sh.generation != generation then (sh, Use(sh.clientId))
    else if sh.failed == Some(generation) then (sh, CachedError)
    else if sh.closing || sh.closed then (sh, TransportClosed)
    else (sh.(rebuilding := true), Create)
  }

  /** Its section after a failed creation; `ordinary` is `isinstance(exc, Exception)`. */
  function FailSection(sh: Shared, generation: nat, ordinary: bool): Shared {
    sh.(failed := if ordinary then Some(generation) else sh.failed, rebuilding := false)
  }

  function PublishSection(sh: Shared, id: Id): Shared {
    sh.(clientId := Some(id), generation := sh.generation + 1, failed := None, rebuilding := false)
  }

  datatype Closing = First | Join | Already

  function CloseSection(sh: Shared): (Shared, Closing) {
    if sh.closed then (sh, Already) else if sh.closing then (sh, Join) else (sh.(closing := true), First)
  }

  // ---- the machine --------------------------------------------------------------------------------

  /** `used` and `again` are the generations whose session the first and the second POST name; `named`
      is the id in the first one. */
  datatype Pc =
    | Sending(used: nat, clientId: Option<Id>)
    | AtRebuild(used: nat, named: Option<Id>)
    | Creating(used: nat, named: Option<Id>)
    | Resending(used: nat, again: nat, clientId: Option<Id>)
    | Finishing
    | Done
    | CloseWaiting
    | Deleting(last: Option<Id>)
    | Deleted
    | CloseJoining                  // `close` waits for the thread that closes
    | CloseDone

  predicate IsActive(pc: Pc) {
    pc.Sending? || pc.AtRebuild? || pc.Creating? || pc.Resending? || pc.Finishing?
  }

  predicate IsCloser(pc: Pc) {
    pc.CloseWaiting? || pc.Deleting? || pc.Deleted?
  }

  /** History: the session of every generation, attempts to create one and the attempts that ended in
      an interrupt, both by generation; the threads that rebuild and close; ids given to DELETE; and
      whether the pool took the id away because the instance is gone. */
  datatype State = State(
    sh: Shared, threads: map<Tid, Pc>, published: seq<Id>, attempts: seq<nat>, aborts: seq<nat>,
    creator: Option<Tid>, closer: Option<Tid>, deletes: seq<Id>, forgotten: bool)

  datatype Action =
    | Begin
    | Reply(notFound: bool)         // the first POST came back
    | Enter                         // the first section of `_rebuild`
    | Created(id: Id)
    | CreateFails(ordinary: bool)
    | Resent
    | Leave
    | Forget                        // `_close_entry` of the pool clears `_client_id`
    | Close
    | Quiesce                       // `close` sees `_active` at zero
    | Delete
    | FinishClose
    | Joined                        // `close` sees `_closed`

  function At(s: State, t: Tid): Pc {
    if t in s.threads then s.threads[t] else Done
  }

  function Go(s: State, t: Tid, pc: Pc): State {
    s.(threads := s.threads[t := pc])
  }

  /** The pool forgets the session of a transport that nobody holds and that it closes next, so no
      request follows (`ManagedPool.ClosedUnused`). */
  predicate Enabled(s: State, t: Tid, a: Action) {
    match a
    case Begin => t !in s.threads && !s.forgotten
    case Reply(_) => At(s, t).Sending?
    case Enter => At(s, t).AtRebuild?
    case Created(_) => At(s, t).Creating?
    case CreateFails(_) => At(s, t).Creating?
    case Resent => At(s, t).Resending?
    case Leave => At(s, t).Finishing?
    case Forget => t !in s.threads && s.sh.active == 0 && s.closer == None
    case Close => t !in s.threads
    case Quiesce => At(s, t).CloseWaiting? && s.sh.active == 0
    case Delete => At(s, t).Deleting?
    case FinishClose => At(s, t).Deleted?
    case Joined => At(s, t).CloseJoining? && s.sh.closed
  }

  predicate Shape(s: State) {
    |s.attempts| == |s.aborts| == |s.published| == s.sh.generation + 1
  }

  function NextBegin(s: State, t: Tid): State {
    var (sh, start) := BeginSection(s.sh);
    match start
    case Refused => Go(s, t, Done)
    case Snapshot(clientId, generation) => Go(s.(sh := sh), t, Sending(generation, clientId))
  }

  function NextEnter(s: State, t: Tid, used: nat, named: Option<Id>): State
    requires Shape(s)
  {
    var (sh, turn) := RebuildSection(s.sh, used);
    match turn
    case Wait => s
    case Use(clientId) => Go(s, t, Resending(used, s.sh.generation, clientId))
    case Create =>
      var g := s.sh.generation;
      Go(s.(sh := sh, creator := Some(t), attempts := s.attempts[g := s.attempts[g] + 1]), t, Creating(used, named))
    case _ => Go(s, t, Finishing)
  }

  function NextCreated(s: State, t: Tid, used: nat, id: Id): State {
    var sh := PublishSection(s.sh, id);
    Go(s.(sh := sh, creator := None, published := s.published + [id], attempts := s.attempts + [0], aborts := s.aborts + [0]),
       t, Resending(used, sh.generation, Some(id)))
  }

  function NextCreateFails(s: State, t: Tid, used: nat, ordinary: bool): State
    requires Shape(s)
  {
    var g := s.sh.generation;
    Go(s.(sh := FailSection(s.sh, used, ordinary), creator := None,
          aborts := if ordinary then s.aborts else s.aborts[g := s.aborts[g] + 1]), t, Finishing)
  }

  function NextClose(s: State, t: Tid): State {
    var (sh, closing) := CloseSection(s.sh);
    match closing
    case First => Go(s.(sh := sh, closer := Some(t)), t, CloseWaiting)
    case Join => Go(s, t, CloseJoining)
    case Already => Go(s, t, CloseDone)
  }

  /** `managed` says that the transport belongs to an instance: then nothing is rebuilt here, and the
      pool may forget the session. */
  function Next(s: State, t: Tid, a: Action, managed: bool): State
    requires Shape(s) && Enabled(s, t, a)
  {
    var pc := At(s, t);
    match a
    case Begin => NextBegin(s, t)
    case Reply(notFound) => Go(s, t, if notFound && !managed then AtRebuild(pc.used, pc.clientId) else Finishing)
    case Enter => NextEnter(s, t, pc.used, pc.named)
    case Created(id) => NextCreated(s, t, pc.used, id)
    case CreateFails(ordinary) => NextCreateFails(s, t, pc.used, ordinary)
    case Resent => Go(s, t, Finishing)
    case Leave => Go(s.(sh := EndSection(s.sh)), t, Done)
    case Forget => if managed then Go(s.(sh := s.sh.(clientId := None), forgotten := true), t, Done) else Go(s, t, Done)
    case Close => NextClose(s, t)
    case Quiesce => Go(s, t, Deleting(s.sh.clientId))
    case Delete => Go(s.(deletes := if pc.last.Some? then s.deletes + [pc.last.value] else s.deletes), t, Deleted)
    case FinishClose => Go(s.(sh := s.sh.(closed := true)), t, CloseDone)
    case Joined => Go(s, t, CloseDone)
  }

  /** After the constructor, which created the first session. */
  predicate Init(s: State) {
    && |s.published| == 1 && s.sh == Shared(0, false, false, Some(s.published[0]), 0, false, None)
    && s.threads == map[] && s.attempts == [0] && s.aborts == [0] && s.creator == None && s.closer == None && s.deletes == [] && !s.forgotten
  }

  // ---- the invariant --------------------------------------------------------------------------------

  predicate Published(s: State, generation: nat, clientId: Option<Id>) {
    generation < |s.published| && clientId == Some(s.published[generation])
  }

  /** What `close` has to send to DELETE. */
  function LastSession(s: State): seq<Id>
    requires |s.published| > 0
  {
    if s.forgotten then [] else [s.published[|s.published| - 1]]
  }

  predicate ThreadFits(s: State, t: Tid, pc: Pc)
    requires Shape(s)
  {
    match pc
    case Sending(used, clientId) => Published(s, used, clientId)
    case AtRebuild(used, named) => Published(s, used, named)
    case Creating(used, named) => used == s.sh.generation && s.creator == Some(t) && Published(s, used, named)
    case Resending(used, again, clientId) => used < again && Published(s, again, clientId)
    case CloseWaiting => s.closer == Some(t) && s.deletes == [] && !s.sh.closed
    case Deleting(last) => s.closer == Some(t) && s.deletes == [] && !s.sh.closed && s.sh.active == 0 && last == s.sh.clientId
    case Deleted => s.closer == Some(t) && !s.sh.closed && s.sh.active == 0 && s.deletes == LastSession(s)
    case CloseJoining => s.sh.closing
    case CloseDone => s.sh.closed
    case _ => true
  }

  predicate ThreadsFit(s: State)
    requires Shape(s)
  {
    forall t :: t in s.threads ==> ThreadFits(s, t, s.threads[t])
  }

  predicate SessionFits(s: State)
    requires Shape(s)
  {
    && (if s.forgotten then s.sh.clientId == None && s.sh.active == 0 else Published(s, s.sh.generation, s.sh.clientId))
    && (s.sh.rebuilding <==> s.creator.Some?)
    && (s.creator.Some? ==> s.creator.value in s.threads && s.threads[s.creator.value].Creating?)
    && (s.sh.failed.Some? ==> s.sh.failed.value == s.sh.generation)
  }

  /** Every attempt of a generation but one was interrupted; the exception, if there is one, is
      running, failed, or published the next generation. */
  predicate AttemptsFit(s: State)
    requires Shape(s)
  {
    var g := s.sh.generation;
    && (forall k :: 0 <= k < g ==> s.attempts[k] == s.aborts[k] + 1)
    && s.attempts[g] == s.aborts[g] + Bit(s.sh.rebuilding) + Bit(s.sh.failed.Some?)
    && !(s.sh.rebuilding && s.sh.failed.Some?)
  }

  predicate ActiveCounted(s: State) {
    s.sh.active == Count(s.threads, IsActive)
  }

  predicate ClosingFits(s: State)
    requires Shape(s)
  {
    && (s.sh.closing <==> s.closer.Some?) && (s.sh.closed ==> s.sh.closing)
    && (s.closer == None ==> s.deletes == [])
    && (s.closer.Some? && !s.sh.closed ==> s.closer.value in s.threads && IsCloser(s.threads[s.closer.value]))
    && (s.sh.closed ==> s.sh.active == 0 && s.deletes == LastSession(s))
  }

  predicate Inv(s: State) {
    Shape(s) && ThreadsFit(s) && SessionFits(s) && AttemptsFit(s) && ActiveCounted(s) && ClosingFits(s)
  }

  lemma InitInv(s: State)
    requires Init(s)
    ensures Inv(s)
  {
  }

  // ---- every step keeps it ----------------------------------------------------------------------------

  lemma ActiveKept(s: State, t: Tid, a: Action, managed: bool)
    requires Shape(s) && ActiveCounted(s) && Enabled(s, t, a)
    ensures ActiveCounted(Next(s, t, a, managed))
  {
    Moved(s.threads, t, At(Next(s, t, a, managed), t), IsActive);
    hide Count, Shape;
  }

  lemma ActiveThread(s: State, t: Tid)
    requires ActiveCounted(s) && t in s.threads && IsActive(s.threads[t])
    ensures s.sh.active > 0
  {
    Member(s.threads, t, IsActive);
  }

  /** Steps of the two POSTs and of `_rebuild`; the others begin, end or close. */
  predicate Rebuilds(a: Action) {
    a.Reply? || a.Enter? || a.Created? || a.CreateFails? || a.Resent?
  }

  lemma MoverFitsRebuilding(s: State, t: Tid, a: Action, managed: bool)
    requires Rebuilds(a)
    requires Shape(s) && SessionFits(s) && ClosingFits(s) && Enabled(s, t, a)
    requires t in s.threads ==> ThreadFits(s, t, s.threads[t])
    requires t in s.threads && IsActive(s.threads[t]) ==> s.sh.active > 0
    ensures var next := Next(s, t, a, managed); Shape(next) && ThreadFits(next, t, At(next, t))
  {
  }

  lemma MoverFitsPassing(s: State, t: Tid, a: Action, managed: bool)
    requires !Rebuilds(a)
    requires Shape(s) && SessionFits(s) && ClosingFits(s) && Enabled(s, t, a)
    requires t in s.threads ==> ThreadFits(s, t, s.threads[t])
    requires t in s.threads && IsActive(s.threads[t]) ==> s.sh.active > 0
    ensures var next := Next(s, t, a, managed); Shape(next) && ThreadFits(next, t, At(next, t))
  {
  }

  lemma MoverFits(s: State, t: Tid, a: Action, managed: bool)
    requires Shape(s) && SessionFits(s) && ClosingFits(s) && Enabled(s, t, a)
    requires t in s.threads ==> ThreadFits(s, t, s.threads[t])
    requires t in s.threads && IsActive(s.threads[t]) ==> s.sh.active > 0
    ensures var next := Next(s, t, a, managed); Shape(next) && ThreadFits(next, t, At(next, t))
  {
    hide *;
    if Rebuilds(a) {
      MoverFitsRebuilding(s, t, a, managed);
    } else {
      MoverFitsPassing(s, t, a, managed);
    }
  }

  lemma OtherFitsRebuilding(s: State, t: Tid, a: Action, managed: bool, u: Tid)
    requires Rebuilds(a)
    requires Shape(s) && SessionFits(s) && ClosingFits(s) && Enabled(s, t, a)
    requires t in s.threads ==> ThreadFits(s, t, s.threads[t])
    requires u in s.threads && u != t && ThreadFits(s, u, s.threads[u])
    requires t in s.threads && IsActive(s.threads[t]) ==> s.sh.active > 0
    ensures var next := Next(s, t, a, managed); Shape(next) && ThreadFits(next, u, s.threads[u])
  {
  }

  lemma OtherFitsPassing(s: State, t: Tid, a: Action, managed: bool, u: Tid)
    requires !Rebuilds(a)
    requires Shape(s) && SessionFits(s) && ClosingFits(s) && Enabled(s, t, a)
    requires t in s.threads ==> ThreadFits(s, t, s.threads[t])
    requires u in s.threads && u != t && ThreadFits(s, u, s.threads[u])
    requires t in s.threads && IsActive(s.threads[t]) ==> s.sh.active > 0
    ensures var next := Next(s, t, a, managed); Shape(next) && ThreadFits(next, u, s.threads[u])
  {
  }

  lemma OtherFits(s: State, t: Tid, a: Action, managed: bool, u: Tid)
    requires Shape(s) && SessionFits(s) && ClosingFits(s) && Enabled(s, t, a)
    requires t in s.threads ==> ThreadFits(s, t, s.threads[t])
    requires u in s.threads && u != t && ThreadFits(s, u, s.threads[u])
    requires t in s.threads && IsActive(s.threads[t]) ==> s.sh.active > 0
    ensures var next := Next(s, t, a, managed); Shape(next) && ThreadFits(next, u, s.threads[u])
  {
    hide *;
    if Rebuilds(a) {
      OtherFitsRebuilding(s, t, a, managed, u);
    } else {
      OtherFitsPassing(s, t, a, managed, u);
    }
  }

  lemma ThreadsKept(s: State, t: Tid, a: Action, managed: bool)
    requires Inv(s) && Enabled(s, t, a)
    ensures var next := Next(s, t, a, managed); Shape(next) && ThreadsFit(next)
  {
    if t in s.threads && IsActive(s.threads[t]) {
      ActiveThread(s, t);
    }
    assert forall u :: u in s.threads ==> ThreadFits(s, u, s.threads[u]);
    MoverFits(s, t, a, managed);
    OnlyMover(s, t, a, managed);
    forall u | u in s.threads && u != t
      ensures ThreadFits(Next(s, t, a, managed), u, s.threads[u])
    {
      OtherFits(s, t, a, managed, u);
    }
    hide ThreadFits, Next, Enabled, Count, SessionFits, AttemptsFit, ClosingFits;
  }

  /** A step moves one thread. */
  lemma OnlyMover(s: State, t: Tid, a: Action, managed: bool)
    requires Shape(s) && Enabled(s, t, a)
    ensures var next := Next(s, t, a, managed); t in next.threads && next.threads == s.threads[t := At(next, t)]
  {
  }

  lemma SessionKeptRebuilding(s: State, t: Tid, a: Action, managed: bool)
    requires Rebuilds(a)
    requires Shape(s) && SessionFits(s) && AttemptsFit(s) && Enabled(s, t, a)
    requires t in s.threads ==> ThreadFits(s, t, s.threads[t])
    requires t in s.threads && IsActive(s.threads[t]) ==> s.sh.active > 0
    ensures var next := Next(s, t, a, managed); Shape(next) && SessionFits(next) && AttemptsFit(next)
  {
  }

  lemma SessionKeptPassing(s: State, t: Tid, a: Action, managed: bool)
    requires !Rebuilds(a)
    requires Shape(s) && SessionFits(s) && AttemptsFit(s) && Enabled(s, t, a)
    requires t in s.threads ==> ThreadFits(s, t, s.threads[t])
    requires t in s.threads && IsActive(s.threads[t]) ==> s.sh.active > 0
    ensures var next := Next(s, t, a, managed); Shape(next) && SessionFits(next) && AttemptsFit(next)
  {
  }

  lemma SessionKept(s: State, t: Tid, a: Action, managed: bool)
    requires Shape(s) && SessionFits(s) && AttemptsFit(s) && Enabled(s, t, a)
    requires t in s.threads ==> ThreadFits(s, t, s.threads[t])
    requires t in s.threads && IsActive(s.threads[t]) ==> s.sh.active > 0
    ensures var next := Next(s, t, a, managed); Shape(next) && SessionFits(next) && AttemptsFit(next)
  {
    hide *;
    if Rebuilds(a) {
      SessionKeptRebuilding(s, t, a, managed);
    } else {
      SessionKeptPassing(s, t, a, managed);
    }
  }

  lemma ClosingKeptRebuilding(s: State, t: Tid, a: Action, managed: bool)
    requires Rebuilds(a)
    requires Shape(s) && SessionFits(s) && ClosingFits(s) && Enabled(s, t, a)
    requires t in s.threads ==> ThreadFits(s, t, s.threads[t])
    requires t in s.threads && IsActive(s.threads[t]) ==> s.sh.active > 0
    ensures var next := Next(s, t, a, managed); Shape(next) && ClosingFits(next)
  {
  }

  lemma ClosingKeptPassing(s: State, t: Tid, a: Action, managed: bool)
    requires !Rebuilds(a)
    requires Shape(s) && SessionFits(s) && ClosingFits(s) && Enabled(s, t, a)
    requires t in s.threads ==> ThreadFits(s, t, s.threads[t])
    requires t in s.threads && IsActive(s.threads[t]) ==> s.sh.active > 0
    ensures var next := Next(s, t, a, managed); Shape(next) && ClosingFits(next)
  {
  }

  lemma ClosingKept(s: State, t: Tid, a: Action, managed: bool)
    requires Shape(s) && SessionFits(s) && ClosingFits(s) && Enabled(s, t, a)
    requires t in s.threads ==> ThreadFits(s, t, s.threads[t])
    requires t in s.threads && IsActive(s.threads[t]) ==> s.sh.active > 0
    ensures var next := Next(s, t, a, managed); Shape(next) && ClosingFits(next)
  {
    hide *;
    if Rebuilds(a) {
      ClosingKeptRebuilding(s, t, a, managed);
    } else {
      ClosingKeptPassing(s, t, a, managed);
    }
  }

  lemma StepKeeps(s: State, t: Tid, a: Action, managed: bool)
    requires Inv(s) && Enabled(s, t, a)
    ensures Inv(Next(s, t, a, managed))
  {
    if t in s.threads && IsActive(s.threads[t]) {
      ActiveThread(s, t);
    }
    assert t in s.threads ==> ThreadFits(s, t, s.threads[t]);
    hide Next, Enabled, ThreadsFit, ThreadFits, SessionFits, AttemptsFit, ClosingFits, ActiveCounted;
    ThreadsKept(s, t, a, managed);
    SessionKept(s, t, a, managed);
    ActiveKept(s, t, a, managed);
    ClosingKept(s, t, a, managed);
  }

  // ---- runs -------------------------------------------------------------------------------------------

  predicate IsStep(s: State, t: Tid, a: Action, next: State, managed: bool) {
    Shape(s) && Enabled(s, t, a) && next == Next(s, t, a, managed)
  }

  predicate IsRun(states: seq<State>, steps: seq<(Tid, Action)>, managed: bool) {
    && |states| == |steps| + 1 && Init(states[0])
    && forall n :: 0 <= n < |steps| ==> IsStep(states[n], steps[n].0, steps[n].1, states[n + 1], managed)
  }

  lemma {:induction false} RunInv(states: seq<State>, steps: seq<(Tid, Action)>, managed: bool, n: nat)
    requires IsRun(states, steps, managed) && n < |states|
    ensures Inv(states[n])
  {
    hide Inv, Init, Enabled, Next;
    if n == 0 {
      InitInv(states[0]);
    } else {
      RunInv(states, steps, managed, n - 1);
      assert IsStep(states[n - 1], steps[n - 1].0, steps[n - 1].1, states[n], managed);
      StepKeeps(states[n - 1], steps[n - 1].0, steps[n - 1].1, managed);
    }
  }

  predicate Safe(s: State) {
    // one attempt for every generation, and one more for every attempt that was interrupted; exactly
    // so once the generation has ended; in the current one, the attempt that runs or failed for good
    && |s.attempts| == |s.aborts| == |s.published|
    && (forall g :: 0 <= g < |s.attempts| ==> s.attempts[g] <= 1 + s.aborts[g])
    && (forall g :: 0 <= g < |s.attempts| - 1 ==> s.attempts[g] == 1 + s.aborts[g])
    && |s.attempts| == s.sh.generation + 1
    && s.attempts[s.sh.generation] == s.aborts[s.sh.generation] + Bit(s.sh.rebuilding) + Bit(s.sh.failed.Some?)
    // no two threads create at the same time
    && (forall t, u :: t in s.threads && u in s.threads && s.threads[t].Creating? && s.threads[u].Creating? ==> t == u)
    // a snapshot is a pair that was published together, and a resubmission uses a later one
    && (forall t :: t in s.threads && s.threads[t].Sending? ==> Published(s, s.threads[t].used, s.threads[t].clientId))
    && (forall t :: t in s.threads && s.threads[t].Resending? ==>
          s.threads[t].used < s.threads[t].again && Published(s, s.threads[t].again, s.threads[t].clientId))
    // a closed transport has no request left, and deleted the session published last, once, unless
    // the pool had made it forget that session
    && (s.sh.closed ==> s.sh.active == 0 && |s.published| > 0 && s.deletes == LastSession(s))
    // and whoever comes back from `close` finds it closed
    && (forall t :: t in s.threads && s.threads[t].CloseDone? ==> s.sh.closed)
  }

  lemma SessionSafety(states: seq<State>, steps: seq<(Tid, Action)>, managed: bool, n: nat)
    requires IsRun(states, steps, managed) && n < |states|
    ensures Safe(states[n]) && (!managed ==> !states[n].forgotten)
  {
    RunInv(states, steps, managed, n);
    InvSafe(states[n]);
    OnlyManagedForgets(states, steps, managed, n);
  }

  lemma {:induction false} OnlyManagedForgets(states: seq<State>, steps: seq<(Tid, Action)>, managed: bool, n: nat)
    requires IsRun(states, steps, managed) && n < |states|
    ensures !managed ==> !states[n].forgotten
    decreases n
  {
    hide Enabled, Next;
    if n > 0 {
      OnlyManagedForgets(states, steps, managed, n - 1);
      assert IsStep(states[n - 1], steps[n - 1].0, steps[n - 1].1, states[n], managed);
      ForgetStep(states[n - 1], steps[n - 1].0, steps[n - 1].1, managed);
    }
  }

  lemma ForgetStep(s: State, t: Tid, a: Action, managed: bool)
    requires Shape(s) && Enabled(s, t, a)
    ensures Next(s, t, a, managed).forgotten ==> s.forgotten || managed
  {
  }

  lemma InvSafe(s: State)
    requires Inv(s)
    ensures Safe(s)
  {
    forall t | t in s.threads
      ensures ThreadFits(s, t, s.threads[t])
    {
    }
    hide Count, ThreadsFit, Enabled;
  }

  predicate IsRebuilding(pc: Pc) {
    pc.AtRebuild? || pc.Creating?
  }

  /** A rebuild is entered after a refused POST and carries what that POST named. */
  lemma RebuildStep(s: State, u: Tid, a: Action, managed: bool, t: Tid)
    requires Shape(s) && Enabled(s, u, a) && IsRebuilding(At(Next(s, u, a, managed), t))
    ensures var pc := At(Next(s, u, a, managed), t);
            || (IsRebuilding(At(s, t)) && At(s, t).used == pc.used && At(s, t).named == pc.named)
            || (u == t && a == Reply(true) && At(s, t) == Sending(pc.used, pc.named))
  {
  }

  lemma {:induction false} CameFromRefusal(states: seq<State>, steps: seq<(Tid, Action)>, managed: bool, n: nat, t: Tid)
    returns (m: nat)
    requires IsRun(states, steps, managed) && n < |states| && IsRebuilding(At(states[n], t))
    ensures m < n && steps[m] == (t, Reply(true))
    ensures At(states[m], t) == Sending(At(states[n], t).used, At(states[n], t).named)
    decreases n
  {
    hide Enabled, Next;
    assert n > 0;
    assert IsStep(states[n - 1], steps[n - 1].0, steps[n - 1].1, states[n], managed);
    RebuildStep(states[n - 1], steps[n - 1].0, steps[n - 1].1, managed, t);
    if IsRebuilding(At(states[n - 1], t)) {
      m := CameFromRefusal(states, steps, managed, n - 1, t);
    } else {
      m := n - 1;
    }
  }

  /** A rebuild of a generation is entered only by a request whose POST named the session published
      for that generation, and it creates only while that generation is the current one. */
  lemma RebuildNamesItsSession(states: seq<State>, steps: seq<(Tid, Action)>, managed: bool, n: nat, t: Tid)
    requires IsRun(states, steps, managed) && n < |states| && IsRebuilding(At(states[n], t))
    ensures Published(states[n], At(states[n], t).used, At(states[n], t).named)
    ensures At(states[n], t).Creating? ==> At(states[n], t).used == states[n].sh.generation
  {
    RunInv(states, steps, managed, n);
    assert ThreadFits(states[n], t, states[n].threads[t]);
    hide IsRun, ThreadsFit, Count;
  }

  /** A step publishes nothing, or ends the creation of the current generation. */
  lemma PublishStep(s: State, u: Tid, a: Action, managed: bool)
    requires Shape(s) && Enabled(s, u, a)
    ensures var next := Next(s, u, a, managed);
            || (next.published == s.published && next.sh.generation == s.sh.generation)
            || (At(s, u).Creating? && |next.published| == |s.published| + 1 && next.sh.generation == s.sh.generation + 1
                && forall g :: 0 <= g < |s.published| ==> next.published[g] == s.published[g])
  {
  }

  /** No session is replaced unless a POST that named it was refused with CLIENT_NOT_FOUND. */
  lemma {:induction false} ReplacedWasRefused(states: seq<State>, steps: seq<(Tid, Action)>, managed: bool, n: nat, g: nat)
    returns (m: nat, t: Tid)
    requires IsRun(states, steps, managed) && n < |states| && g < states[n].sh.generation
    ensures g < |states[n].published| && m < n && steps[m] == (t, Reply(true))
    ensures At(states[m], t) == Sending(g, Some(states[n].published[g]))
    decreases n
  {
    hide Enabled, Next, Inv, IsRebuilding;
    assert n > 0;
    var s, u := states[n - 1], steps[n - 1].0;
    assert IsStep(s, u, steps[n - 1].1, states[n], managed);
    PublishStep(s, u, steps[n - 1].1, managed);
    if g < s.sh.generation {
      m, t := ReplacedWasRefused(states, steps, managed, n - 1, g);
    } else {
      assert IsRebuilding(At(s, u)) by {
        CreatingRebuilds(At(s, u));
      }
      RebuildNamesItsSession(states, steps, managed, n - 1, u);
      m := CameFromRefusal(states, steps, managed, n - 1, u);
      t := u;
    }
  }

  lemma CreatingRebuilds(pc: Pc)
    ensures pc.Creating? ==> IsRebuilding(pc)
  {
  }

  /** Nobody creates a session once one creation of the generation failed, or once all is closed. */
  lemma NobodyCreates(s: State, t: Tid)
    requires Inv(s) && (s.sh.failed.Some? || s.sh.closed)
    ensures !At(s, t).Creating?
  {
    assert t in s.threads ==> ThreadFits(s, t, s.threads[t]);
    if At(s, t).Creating? {
      ActiveThread(s, t);
    }
    hide Count;
  }

  lemma FailedStep(s: State, t: Tid, a: Action, managed: bool)
    requires Inv(s) && Enabled(s, t, a) && s.sh.failed.Some?
    ensures var next := Next(s, t, a, managed);
            next.sh.failed == s.sh.failed && next.published == s.published && next.attempts == s.attempts
  {
    NobodyCreates(s, t);
    hide Count, ThreadsFit;
  }

  /** An ordinary failure is final: the generation never ends and no session is created again. What a
      later request gets instead says `RebuildTurn`. */
  lemma {:induction false} FailureIsFinal(states: seq<State>, steps: seq<(Tid, Action)>, managed: bool, i: nat, j: nat)
    requires IsRun(states, steps, managed) && i <= j < |states| && states[i].sh.failed.Some?
    ensures states[j].sh.failed == states[i].sh.failed
    ensures states[j].published == states[i].published && states[j].attempts == states[i].attempts
    decreases j
  {
    hide Init, Enabled, Next, Inv;
    if i < j {
      FailureIsFinal(states, steps, managed, i, j - 1);
      RunInv(states, steps, managed, j - 1);
      assert IsStep(states[j - 1], steps[j - 1].0, steps[j - 1].1, states[j], managed);
      FailedStep(states[j - 1], steps[j - 1].0, steps[j - 1].1, managed);
    }
  }

  /** Some creation of the run failed in the ordinary way. */
  predicate HasFailed(steps: seq<(Tid, Action)>, n: nat) {
    exists m :: 0 <= m < n && m < |steps| && IsFailure(steps[m].1)
  }

  predicate IsFailure(a: Action) {
    a == CreateFails(true)
  }

  lemma FailureStep(s: State, t: Tid, a: Action, managed: bool)
    requires Inv(s) && Enabled(s, t, a)
    ensures Next(s, t, a, managed).sh.failed.Some? <==> s.sh.failed.Some? || IsFailure(a)
  {
    if s.sh.failed.Some? {
      FailedStep(s, t, a, managed);
    }
    hide Inv;
  }

  /** An error is stored exactly if a creation has failed, at any earlier time. */
  lemma {:induction false} FailureIsStored(states: seq<State>, steps: seq<(Tid, Action)>, managed: bool, n: nat)
    requires IsRun(states, steps, managed) && n < |states|
    ensures states[n].sh.failed.Some? <==> HasFailed(steps, n)
    decreases n
  {
    hide Enabled, Next, Inv, IsFailure;
    if n > 0 {
      FailureIsStored(states, steps, managed, n - 1);
      RunInv(states, steps, managed, n - 1);
      assert IsStep(states[n - 1], steps[n - 1].0, steps[n - 1].1, states[n], managed);
      FailureStep(states[n - 1], steps[n - 1].0, steps[n - 1].1, managed);
    }
  }

  /** When a lost session is rebuilt: a request that arrives at the rebuild of the current generation,
      while nobody rebuilds it, creates a session if and only if no creation has ever failed in the
      ordinary way, and otherwise gets the stored error. */
  lemma RebuildTurn(states: seq<State>, steps: seq<(Tid, Action)>, managed: bool, n: nat, t: Tid)
    requires IsRun(states, steps, managed) && n < |states| && At(states[n], t).AtRebuild?
    requires At(states[n], t).used == states[n].sh.generation && !states[n].sh.rebuilding
    ensures var sh := states[n].sh; var turn := RebuildSection(sh, At(states[n], t).used).1;
            && (turn == CachedError <==> HasFailed(steps, n))
            && (turn == Create <==> !HasFailed(steps, n) && !sh.closing && !sh.closed)
  {
    FailureIsStored(states, steps, managed, n);
    RunInv(states, steps, managed, n);
    hide IsRun, HasFailed, ThreadsFit, AttemptsFit, ActiveCounted;
  }

  /** A run that gets there with one request. */
  lemma OneFailureIsEnough() returns (states: seq<State>, steps: seq<(Tid, Action)>)
    ensures IsRun(states, steps, false) && HasFailed(steps, |steps|)
    ensures var last := states[|states| - 1]; last.sh.failed == Some(0) && last.sh.generation == 0 && last.published == [7]
  {
    steps := [(0, Begin), (0, Reply(true)), (0, Enter), (0, CreateFails(true))];
    var s0 := State(Shared(0, false, false, Some(7), 0, false, None), map[], [7], [0], [0], None, None, [], false);
    var s1 := Next(s0, 0, Begin, false);
    var s2 := Next(s1, 0, Reply(true), false);
    var s3 := Next(s2, 0, Enter, false);
    var s4 := Next(s3, 0, CreateFails(true), false);
    states := [s0, s1, s2, s3, s4];
    assert IsFailure(steps[3].1);
  }

  lemma ClosedStep(s: State, t: Tid, a: Action, managed: bool)
    requires Inv(s) && Enabled(s, t, a) && s.sh.closed
    ensures var next := Next(s, t, a, managed); next.sh.closed && next.published == s.published
  {
    NobodyCreates(s, t);
    hide Count, ThreadsFit;
  }

  /** So the session that `close` deleted stays the last one. */
  lemma {:induction false} NothingPublishedAfterClose(states: seq<State>, steps: seq<(Tid, Action)>, managed: bool, i: nat, j: nat)
    requires IsRun(states, steps, managed) && i <= j < |states| && states[i].sh.closed
    ensures states[j].sh.closed && states[j].published == states[i].published
    decreases j
  {
    hide Init, Enabled, Next, Inv;
    if i < j {
      NothingPublishedAfterClose(states, steps, managed, i, j - 1);
      RunInv(states, steps, managed, j - 1);
      assert IsStep(states[j - 1], steps[j - 1].0, steps[j - 1].1, states[j], managed);
      ClosedStep(states[j - 1], steps[j - 1].0, steps[j - 1].1, managed);
    }
  }

  /** The interrupts are needed in the bound: after one, the same generation is attempted again. */
  lemma InterruptAllowsSecondAttempt() returns (states: seq<State>, steps: seq<(Tid, Action)>)
    ensures IsRun(states, steps, false)
    ensures var last := states[|states| - 1]; last.sh.generation == 0 && last.attempts == [2] && last.aborts == [1]
  {
    steps := [(0, Begin), (1, Begin), (0, Reply(true)), (1, Reply(true)), (0, Enter), (0, CreateFails(false)), (1, Enter)];
    hide ThreadFits, Count;
    var s0 := State(Shared(0, false, false, Some(7), 0, false, None), map[], [7], [0], [0], None, None, [], false);
    var s1 := Next(s0, 0, Begin, false);
    var s2 := Next(s1, 1, Begin, false);
    var s3 := Next(s2, 0, Reply(true), false);
    var s4 := Next(s3, 1, Reply(true), false);
    var s5 := Next(s4, 0, Enter, false);
    var s6 := Next(s5, 0, CreateFails(false), false);
    var s7 := Next(s6, 1, Enter, false);
    states := [s0, s1, s2, s3, s4, s5, s6, s7];
  }

  // ---- what a step does, from the run alone -------------------------------------------------------------

  /** A request starts with the session published last, unless `close` has begun. */
  lemma BeginIff(states: seq<State>, steps: seq<(Tid, Action)>, managed: bool, n: nat)
    requires IsRun(states, steps, managed) && n < |steps| && steps[n].1 == Begin
    ensures |states[n].published| == states[n].sh.generation + 1
    ensures var s, t, g := states[n], steps[n].0, states[n].sh.generation;
            if s.sh.closing then states[n + 1] == s.(threads := s.threads[t := Done])
            else states[n + 1] == s.(sh := s.sh.(active := s.sh.active + 1), threads := s.threads[t := Sending(g, Some(s.published[g]))])
  {
    RunInv(states, steps, managed, n);
    assert IsStep(states[n], steps[n].0, steps[n].1, states[n + 1], managed);
    hide IsRun, ThreadsFit, AttemptsFit, ActiveCounted;
  }

  /** A refused POST of an external transport goes to the rebuild; any other reply ends the request. */
  lemma ReplyIff(states: seq<State>, steps: seq<(Tid, Action)>, managed: bool, n: nat)
    requires IsRun(states, steps, managed) && n < |steps| && steps[n].1.Reply?
    ensures var s, t, pc := states[n], steps[n].0, At(states[n], steps[n].0);
            && pc.Sending?
            && states[n + 1] == s.(threads := s.threads[t := if steps[n].1.notFound && !managed then AtRebuild(pc.used, pc.clientId)
                                                             else Finishing])
  {
    assert IsStep(states[n], steps[n].0, steps[n].1, states[n + 1], managed);
    hide IsRun;
  }

  /** A request at the rebuild finds the session of its generation replaced and takes the one published
      last; or somebody is creating and it waits; or a creation has failed, or `close` has begun, and
      it ends; or it creates a session itself. */
  lemma EnterIff(states: seq<State>, steps: seq<(Tid, Action)>, managed: bool, n: nat)
    requires IsRun(states, steps, managed) && n < |steps| && steps[n].1 == Enter
    ensures |states[n].published| == |states[n].attempts| == states[n].sh.generation + 1
    ensures var s, t, g := states[n], steps[n].0, states[n].sh.generation; var pc := At(s, t);
            && pc.AtRebuild? && pc.used <= g
            && states[n + 1] ==
               if pc.used < g then s.(threads := s.threads[t := Resending(pc.used, g, Some(s.published[g]))])
               else if SomebodyCreates(s) then s
               else if HasFailed(steps, n) || s.sh.closing then s.(threads := s.threads[t := Finishing])
               else s.(sh := s.sh.(rebuilding := true), creator := Some(t), attempts := s.attempts[g := s.attempts[g] + 1],
                       threads := s.threads[t := Creating(pc.used, pc.named)])
  {
    var s, t := states[n], steps[n].0;
    RunInv(states, steps, managed, n);
    FailureIsStored(states, steps, managed, n);
    assert IsStep(s, t, steps[n].1, states[n + 1], managed);
    assert ThreadFits(s, t, s.threads[t]);
    ActiveThread(s, t);
    RebuildingMeansCreating(s);
    hide IsRun, HasFailed, ThreadsFit, AttemptsFit, ActiveCounted, SomebodyCreates;
  }

  predicate SomebodyCreates(s: State) {
    exists u :: u in s.threads && s.threads[u].Creating?
  }

  lemma RebuildingMeansCreating(s: State)
    requires Inv(s)
    ensures s.sh.rebuilding <==> SomebodyCreates(s)
  {
    forall u | u in s.threads && s.threads[u].Creating?
      ensures s.sh.rebuilding
    {
      assert ThreadFits(s, u, s.threads[u]);
    }
    hide ThreadsFit, ActiveCounted, AttemptsFit;
  }

  /** The end of a creation: the new session becomes the one of the next generation, and its creator
      sends to it. */
  lemma CreatedIff(states: seq<State>, steps: seq<(Tid, Action)>, managed: bool, n: nat)
    requires IsRun(states, steps, managed) && n < |steps| && steps[n].1.Created?
    ensures var s, next, t, id := states[n], states[n + 1], steps[n].0, steps[n].1.id;
            && At(s, t).Creating? && At(s, t).used == s.sh.generation
            && next.sh == s.sh.(clientId := Some(id), generation := s.sh.generation + 1, failed := None, rebuilding := false)
            && next.published == s.published + [id]
            && next.threads == s.threads[t := Resending(s.sh.generation, s.sh.generation + 1, Some(id))]
  {
    RunInv(states, steps, managed, n);
    assert IsStep(states[n], steps[n].0, steps[n].1, states[n + 1], managed);
    assert ThreadFits(states[n], steps[n].0, At(states[n], steps[n].0));
    hide IsRun, ThreadsFit, AttemptsFit, ActiveCounted;
  }

  // ---- the class ----------------------------------------------------------------------------------------

  class GoTransport {
    var active: int
    var closing: bool
    var closed: bool
    var clientId: Option<Id>
    var generation: nat
    var rebuilding: bool
    var failed: Option<nat>

    function Fields(): Shared
      reads this
    {
      Shared(active, closing, closed, clientId, generation, rebuilding, failed)
    }

    constructor (created: Id)
      ensures Fields() == Shared(0, false, false, Some(created), 0, false, None)
    {
      active, closing, closed, clientId := 0, false, false, Some(created);
      generation, rebuilding, failed := 0, false, None;
    }

    method Begin() returns (start: Start)
      modifies this
      ensures (Fields(), start) == BeginSection(old(Fields()))
      ensures old(closing || closed) ==> start == Refused && Fields() == old(Fields())
      ensures !old(closing || closed) ==> start == Snapshot(old(clientId), old(generation))
      ensures !old(closing || closed) ==> Fields() == old(Fields()).(active := old(active) + 1)
    {
      if closing || closed {
        return Refused;
      }
      active := active + 1;
      return Snapshot(clientId, generation);
    }

    method End()
      modifies this
      ensures Fields() == EndSection(old(Fields()))
      ensures Fields() == old(Fields()).(active := old(active) - 1)
    {
      active := active - 1;
    }

    method EnterRebuild(used: nat) returns (turn: Turn)
      modifies this
      ensures (Fields(), turn) == RebuildSection(old(Fields()), used)
      ensures old(generation) != used ==> turn == Use(old(clientId))
      ensures old(generation) == used && old(rebuilding) ==> turn == Wait
      ensures old(generation) == used && !old(rebuilding) ==>
                turn == if old(failed) == Some(used) then CachedError else if old(closing || closed) then TransportClosed else Create
      ensures Fields() == if turn == Create then old(Fields()).(rebuilding := true) else old(Fields())
    {
      if rebuilding && generation == used {
        return Wait;
      }
      if generation != used {
        return Use(clientId);
      }
      if failed == Some(used) {
        return CachedError;
      }
      if closing || closed {
        return TransportClosed;
      }
      rebuilding := true;
      return Create;
    }

    method RebuildFailed(used: nat, ordinary: bool)
      modifies this
      ensures Fields() == FailSection(old(Fields()), used, ordinary)
      ensures Fields() == old(Fields()).(rebuilding := false, failed := if ordinary then Some(used) else old(failed))
    {
      if ordinary {
        failed := Some(used);
      }
      rebuilding := false;
    }

    method Publish(id: Id)
      modifies this
      ensures Fields() == PublishSection(old(Fields()), id)
      ensures Fields() == old(Fields()).(clientId := Some(id), generation := old(generation) + 1, failed := None, rebuilding := false)
    {
      clientId := Some(id);
      generation := generation + 1;
      failed := None;
      rebuilding := false;
    }

    method EnterClose() returns (role: Closing)
      modifies this
      ensures (Fields(), role) == CloseSection(old(Fields()))
      ensures role == if old(closed) then Already else if old(closing) then Join else First
      ensures Fields() == if role == First then old(Fields()).(closing := true) else old(Fields())
    {
      if closed {
        return Already;
      }
      if closing {
        return Join;
      }
      closing := true;
      return First;
    }
  }
}
