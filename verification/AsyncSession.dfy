/** The session of `_AsyncGoTransport`: the first request starts a task that creates the session, and
    requests that may be cancelled at every `await` share it. `_session_lock` serialises the
    sections below and stays held while `_rebuild` creates a session; the task itself is shielded.
    Tasks are numbered in the order they are started. */
module AsyncSession {
  import opened Options
  import opened Sequences
  import opened Counting

  type Id = nat
  type Tid = nat
  type TaskId = nat

  /** `Storing` is a task whose session exists but whose id is not stored yet. */
  datatype Task = Running | Storing(id: Id) | Succeeded(id: Id) | Failed

  predicate IsDone(task: Task) {
    task.Succeeded? || task.Failed?
  }

  datatype Shared = Shared(
    clientId: Option<Id>, generation: nat, attempt: Option<TaskId>, waiters: int, failed: Option<nat>,
    active: int, closing: bool, closed: bool)

  // ---- lock sections ----------------------------------------------------------------------------

  datatype Session = Have(clientId: Id, generation: nat) | Refused | Await(task: TaskId)

  /** The first section of `_ensure_session`. `done` is `_session_attempt.done()`; `nextTask` names the
      task if one is started. */
  function EnsureSection(sh: Shared, done: bool, nextTask: TaskId): (Shared, Session) {
    if sh.clientId.Some? then (sh, Have(sh.clientId.value, sh.generation))
    else if sh.closing || sh.closed then (sh, Refused)
    else
      var kept := if sh.attempt.Some? && done && sh.waiters == 0 then None else sh.attempt;
      var task := if kept.Some? then kept.value else nextTask;
      (sh.(attempt := Some(task), waiters := sh.waiters + 1), Await(task))
  }

  /** Its section after an exception; `done` is `attempt.done()`. */
  function CleanSection(sh: Shared, done: bool): Shared {
    var waiters := sh.waiters - 1;
    sh.(waiters := waiters, attempt := if done && waiters == 0 then None else sh.attempt)
  }

  /** Its section after the shared task succeeded: the generation that goes with the id. */
  function JoinSection(sh: Shared): (Shared, nat) {
    var waiters := sh.waiters - 1;
    (sh.(waiters := waiters, attempt := if waiters == 0 then None else sh.attempt), sh.generation)
  }

  datatype Turn = Use(clientId: Option<Id>) | CachedError | TransportClosed | Create

  /** `_rebuild` up to the creation. */
  function RebuildSection(sh: Shared, generation: nat): Turn {
    if sh.generation != generation then Use(sh.clientId)
    else if sh.failed == Some(generation) then CachedError
    else if sh.closing || sh.closed then TransportClosed
    else Create
  }

  function PublishSection(sh: Shared, id: Id): Shared {
    sh.(clientId := Some(id), generation := sh.generation + 1, failed := None)
  }

  /** The second section of `aclose`: drop the awaited attempt. */
  function SettleSection(sh: Shared, attempt: Option<TaskId>, done: bool): Shared {
    if attempt.Some? && attempt == sh.attempt && done && sh.waiters == 0 then sh.(attempt := None) else sh
  }

  // ---- the machine --------------------------------------------------------------------------------

  /** `used` and `again` are the generations that go with the two POSTs, `clientId` and `named` the id
      in the first one. `late` is history: the request got its pair from the shared task when
      something had been rebuilt already. */
  datatype Pc =
    | AtEnsure
    | Awaiting(task: TaskId)                 // at the shielded task
    | Cleaning(task: TaskId)                 // it raised, or the request was cancelled
    | Joining(task: TaskId, id: Id)          // it returned
    | Sending(clientId: Id, used: nat, late: bool)
    | AtRebuild(used: nat, named: Id, late: bool)
    | Rebuilding(used: nat, named: Id, late: bool)  // holding `_session_lock`
    | Resending(used: nat, again: nat, other: Option<Id>)
    | Finishing
    | Done
    | CloseWaiting
    | CloseTaking
    | CloseAwaiting(task: TaskId)
    | CloseReading(attempt: Option<TaskId>)
    | Deleting(last: Option<Id>)
    | Deleted
    | CloseJoining                           // waiting for the `aclose` that began first
    | CloseDone

  predicate IsWaiter(pc: Pc) {
    pc.Awaiting? || pc.Cleaning? || pc.Joining?
  }

  predicate IsActive(pc: Pc) {
    IsWaiter(pc) || pc.AtEnsure? || pc.Sending? || pc.AtRebuild? || pc.Rebuilding? || pc.Resending? || pc.Finishing?
  }

  predicate IsCloser(pc: Pc) {
    pc.CloseWaiting? || pc.CloseTaking? || pc.CloseAwaiting? || pc.CloseReading? || pc.Deleting? || pc.Deleted?
  }

  /** `lock` is the request that holds `_session_lock` across its creation. `leaks` counts requests
      that were cancelled while they waited for the lock to leave `waiters`. */
  datatype State = State(
    sh: Shared, threads: map<Tid, Pc>, tasks: seq<Task>, lock: Option<Tid>, leaks: nat,
    published: seq<Id>, closer: Option<Tid>, deletes: seq<Id>)

  datatype Action =
    | Begin
    | Ensure
    | Cancel                        // CancelledError at the `await` the request is at
    | Resume                        // the shared task is done
    | Clean
    | Join
    | Reply(notFound: bool)
    | Rebuild
    | Rebuilt(id: Id)
    | RebuildFails(ordinary: bool)
    | Resent
    | Leave
    | TaskCreates(k: TaskId, id: Id)
    | TaskFails(k: TaskId)
    | TaskStores(k: TaskId)
    | Close
    | Quiesce
    | TakeAttempt
    | AttemptAwaited
    | Settle
    | Delete
    | FinishClose
    | Joined                        // `aclose` sees `_closed`

  function At(s: State, t: Tid): Pc {
    if t in s.threads then s.threads[t] else Done
  }

  function Go(s: State, t: Tid, pc: Pc): State {
    s.(threads := s.threads[t := pc])
  }

  predicate AttemptDone(s: State, task: TaskId) {
    task < |s.tasks| && IsDone(s.tasks[task])
  }

  predicate CurrentDone(s: State) {
    s.sh.attempt.Some? && AttemptDone(s, s.sh.attempt.value)
  }

  predicate Enabled(s: State, t: Tid, a: Action) {
    var pc := At(s, t);
    match a
    case Begin => t !in s.threads
    case Ensure => pc.AtEnsure? && s.lock == None
    case Cancel => pc.AtEnsure? || IsWaiter(pc) || pc.AtRebuild?
    case Resume => pc.Awaiting? && AttemptDone(s, pc.task)
    case Clean => pc.Cleaning? && s.lock == None
    case Join => pc.Joining? && s.lock == None
    case Reply(_) => pc.Sending?
    case Rebuild => pc.AtRebuild? && s.lock == None
    case Rebuilt(_) => pc.Rebuilding?
    case RebuildFails(_) => pc.Rebuilding?
    case Resent => pc.Resending?
    case Leave => pc.Finishing?
    case TaskCreates(k, _) => k < |s.tasks| && s.tasks[k].Running?
    case TaskFails(k) => k < |s.tasks| && s.tasks[k].Running?
    case TaskStores(k) => k < |s.tasks| && s.tasks[k].Storing? && s.lock == None
    case Close => t !in s.threads
    case Quiesce => pc.CloseWaiting? && s.sh.active == 0
    case TakeAttempt => pc.CloseTaking? && s.lock == None
    case AttemptAwaited => pc.CloseAwaiting? && AttemptDone(s, pc.task)
    case Settle => pc.CloseReading? && s.lock == None
    case Delete => pc.Deleting?
    case FinishClose => pc.Deleted?
    case Joined => pc.CloseJoining? && s.sh.closed
  }

  function NextEnsure(s: State, t: Tid): State {
    var (sh, session) := EnsureSection(s.sh, CurrentDone(s), |s.tasks|);
    match session
    case Have(clientId, generation) => Go(s, t, Sending(clientId, generation, false))
    case Refused => Go(s, t, Finishing)
    case Await(task) =>
      Go(s.(sh := sh, tasks := if task == |s.tasks| then s.tasks + [Running] else s.tasks), t, Awaiting(task))
  }

  /** A waiter that is cancelled at the task still has to leave; one cancelled while it leaves never does. */
  function NextCancel(s: State, t: Tid, pc: Pc): State {
    match pc
    case Awaiting(task) => Go(s, t, Cleaning(task))
    case Cleaning(_) => Go(s.(leaks := s.leaks + 1), t, Finishing)
    case Joining(_, _) => Go(s.(leaks := s.leaks + 1), t, Finishing)
    case _ => Go(s, t, Finishing)
  }

  function NextResume(s: State, t: Tid, task: TaskId): State
    requires task < |s.tasks|
  {
    match s.tasks[task]
    case Succeeded(id) => Go(s, t, Joining(task, id))
    case _ => Go(s, t, Cleaning(task))
  }

  function NextJoin(s: State, t: Tid, id: Id): State {
    var (sh, generation) := JoinSection(s.sh);
    Go(s.(sh := sh), t, Sending(id, generation, generation > 0))
  }

  function NextRebuild(s: State, t: Tid, used: nat, named: Id, late: bool): State {
    match RebuildSection(s.sh, used)
    case Use(clientId) => Go(s, t, Resending(used, s.sh.generation, clientId))
    case Create => Go(s.(lock := Some(t)), t, Rebuilding(used, named, late))
    case _ => Go(s, t, Finishing)
  }

  function NextRebuilt(s: State, t: Tid, used: nat, id: Id): State {
    var sh := PublishSection(s.sh, id);
    Go(s.(sh := sh, lock := None, published := s.published + [id]), t, Resending(used, sh.generation, Some(id)))
  }

  function SetTask(s: State, k: TaskId, task: Task): State
    requires k < |s.tasks|
  {
    s.(tasks := s.tasks[k := task])
  }

  function NextStore(s: State, k: TaskId, id: Id): State
    requires k < |s.tasks|
  {
    SetTask(s, k, Succeeded(id)).(sh := s.sh.(clientId := Some(id)), published := s.published + [id])
  }

  function NextClose(s: State, t: Tid): State {
    if s.sh.closed then Go(s, t, CloseDone)
    else if s.sh.closing then Go(s, t, CloseJoining)
    else Go(s.(sh := s.sh.(closing := true), closer := Some(t)), t, CloseWaiting)
  }

  function Next(s: State, t: Tid, a: Action): State
    requires Enabled(s, t, a)
  {
    var pc := At(s, t);
    match a
    case Begin =>
      if s.sh.closing || s.sh.closed then Go(s, t, Done) else Go(s.(sh := s.sh.(active := s.sh.active + 1)), t, AtEnsure)
    case Ensure => NextEnsure(s, t)
    case Cancel => NextCancel(s, t, pc)
    case Resume => NextResume(s, t, pc.task)
    case Clean => Go(s.(sh := CleanSection(s.sh, AttemptDone(s, pc.task))), t, Finishing)
    case Join => NextJoin(s, t, pc.id)
    case Reply(notFound) => Go(s, t, if notFound then AtRebuild(pc.used, pc.clientId, pc.late) else Finishing)
    case Rebuild => NextRebuild(s, t, pc.used, pc.named, pc.late)
    case Rebuilt(id) => NextRebuilt(s, t, pc.used, id)
    case RebuildFails(ordinary) =>
      Go(s.(sh := s.sh.(failed := if ordinary then Some(pc.used) else s.sh.failed), lock := None), t, Finishing)
    case Resent => Go(s, t, Finishing)
    case Leave => Go(s.(sh := s.sh.(active := s.sh.active - 1)), t, Done)
    case TaskCreates(k, id) => SetTask(s, k, Storing(id))
    case TaskFails(k) => SetTask(s, k, Failed)
    case TaskStores(k) => NextStore(s, k, s.tasks[k].id)
    case Close => NextClose(s, t)
    case Quiesce => Go(s, t, CloseTaking)
    case TakeAttempt => Go(s, t, if s.sh.attempt.Some? then CloseAwaiting(s.sh.attempt.value) else CloseReading(None))
    case AttemptAwaited => Go(s, t, CloseReading(Some(pc.task)))
    case Settle => Go(s.(sh := SettleSection(s.sh, pc.attempt, CurrentDone(s))), t, Deleting(s.sh.clientId))
    case Delete => Go(s.(deletes := if pc.last.Some? then s.deletes + [pc.last.value] else s.deletes), t, Deleted)
    case FinishClose => Go(s.(sh := s.sh.(closed := true)), t, CloseDone)
    case Joined => Go(s, t, CloseDone)
  }

  predicate Init(s: State) {
    && s.sh == Shared(None, 0, None, 0, None, 0, false, false) && s.threads == map[] && s.tasks == []
    && s.lock == None && s.leaks == 0 && s.published == [] && s.closer == None && s.deletes == []
  }

  // ---- the invariant --------------------------------------------------------------------------------

  /** Only the last task may be unfinished or successful, and an unfinished one is the current attempt. */
  predicate TasksFit(s: State) {
    && (forall k :: 0 <= k < |s.tasks| - 1 ==> s.tasks[k] == Failed)
    && (s.sh.attempt.Some? ==> |s.tasks| > 0 && s.sh.attempt.value == |s.tasks| - 1)
    && (|s.tasks| > 0 && !IsDone(s.tasks[|s.tasks| - 1]) ==> s.sh.attempt.Some?)
  }

  /** The published sessions: the first is what the one successful task created. */
  predicate SessionFits(s: State) {
    && (s.sh.clientId == None <==> s.published == [])
    && (s.published == [] ==> s.sh.generation == 0 && (|s.tasks| > 0 ==> !s.tasks[|s.tasks| - 1].Succeeded?))
    && (s.published != [] ==>
          && |s.published| == s.sh.generation + 1 && s.sh.clientId == Some(s.published[s.sh.generation])
          && |s.tasks| > 0 && s.tasks[|s.tasks| - 1] == Succeeded(s.published[0]))
    && (s.lock.Some? ==> s.lock.value in s.threads && s.threads[s.lock.value].Rebuilding?)
  }

  predicate WaitersCounted(s: State) {
    s.sh.waiters == Count(s.threads, IsWaiter) + s.leaks
  }

  predicate ActiveCounted(s: State) {
    s.sh.active == Count(s.threads, IsActive)
  }

  /** No thread can change the session any more. */
  predicate Quiet(s: State) {
    s.sh.active == 0 && !s.sh.closed
  }

  predicate TasksDone(s: State) {
    |s.tasks| > 0 ==> IsDone(s.tasks[|s.tasks| - 1])
  }

  function LastPublished(s: State): seq<Id> {
    if s.published == [] then [] else [s.published[|s.published| - 1]]
  }

  /** The id that goes with generation `used`: its own, or that of generation 0 if the pair is late. */
  predicate PairFits(s: State, id: Id, used: nat, late: bool) {
    used < |s.published| && id == s.published[if late then 0 else used] && (late ==> used > 0)
  }

  predicate ThreadFits(s: State, t: Tid, pc: Pc) {
    && (IsWaiter(pc) ==> s.sh.attempt == Some(pc.task))
    && (match pc
        case Joining(task, id) => task < |s.tasks| && s.tasks[task] == Succeeded(id)
        case Sending(clientId, used, late) => PairFits(s, clientId, used, late)
        case AtRebuild(used, named, late) => PairFits(s, named, used, late)
        case Rebuilding(used, named, late) => s.lock == Some(t) && used == s.sh.generation && PairFits(s, named, used, late)
        case Resending(used, again, clientId) => used < again < |s.published| && clientId == Some(s.published[again])
        case CloseWaiting => s.closer == Some(t) && s.deletes == [] && !s.sh.closed
        case CloseTaking => s.closer == Some(t) && s.deletes == [] && Quiet(s)
        case CloseAwaiting(task) => s.closer == Some(t) && s.deletes == [] && Quiet(s) && s.sh.attempt == Some(task)
        case CloseReading(attempt) => s.closer == Some(t) && s.deletes == [] && Quiet(s) && TasksDone(s)
        case Deleting(last) => s.closer == Some(t) && s.deletes == [] && Quiet(s) && TasksDone(s) && last == s.sh.clientId
        case Deleted => s.closer == Some(t) && s.deletes == LastPublished(s) && Quiet(s) && TasksDone(s)
        case CloseJoining => s.sh.closing
        case CloseDone => s.sh.closed
        case _ => true)
  }

  predicate ThreadsFit(s: State) {
    forall t :: t in s.threads ==> ThreadFits(s, t, s.threads[t])
  }

  predicate ClosingFits(s: State) {
    && (s.sh.closing <==> s.closer.Some?) && (s.sh.closed ==> s.sh.closing)
    && (s.closer == None ==> s.deletes == [])
    && (s.sh.closed ==> s.sh.active == 0 && TasksDone(s) && s.deletes == LastPublished(s))
  }

  predicate Inv(s: State) {
    TasksFit(s) && SessionFits(s) && WaitersCounted(s) && ActiveCounted(s) && ThreadsFit(s) && ClosingFits(s)
  }

  lemma InitInv(s: State)
    requires Init(s)
    ensures Inv(s)
  {
  }

  // ---- every step keeps it ----------------------------------------------------------------------------

  /** Steps of a request until it has a session and after that, of the create task, and of `aclose`. */
  predicate Waits(a: Action) {
    a.Begin? || a.Ensure? || a.Cancel? || a.Resume? || a.Clean? || a.Join?
  }

  predicate OfClose(a: Action) {
    a.Close? || a.Quiesce?
  }

  predicate OfTask(a: Action) {
    a.TaskCreates? || a.TaskFails? || a.TaskStores?
  }

  predicate Works(a: Action) {
    a.Reply? || a.Rebuild? || a.Rebuilt? || a.RebuildFails? || a.Resent? || a.Leave?
  }

  /** What the counts say about the thread that moves. */
  predicate Counted(s: State, t: Tid) {
    && (t in s.threads && IsActive(s.threads[t]) ==> s.sh.active > 0)
    && (t in s.threads && IsWaiter(s.threads[t]) ==> s.sh.waiters > s.leaks)
  }

  lemma CountsSay(s: State, t: Tid)
    requires WaitersCounted(s) && ActiveCounted(s)
    ensures Counted(s, t)
  {
    if t in s.threads && IsActive(s.threads[t]) {
      Member(s.threads, t, IsActive);
    }
    if t in s.threads && IsWaiter(s.threads[t]) {
      Member(s.threads, t, IsWaiter);
    }
  }

  /** Two threads that wait make the count at least two more than the leaks. */
  lemma TwoWait(s: State, t: Tid, u: Tid)
    requires WaitersCounted(s) && t != u && t in s.threads && u in s.threads && IsWaiter(s.threads[t]) && IsWaiter(s.threads[u])
    ensures s.sh.waiters > s.leaks + 1
  {
    var all := Where(s.threads, IsWaiter);
    assert t in all && u in all - {t};
    assert |all| == |all - {t}| + 1;
  }

  lemma TasksKeptWaiting(s: State, t: Tid, a: Action)
    requires Waits(a) && a != Ensure
    requires TasksFit(s) && SessionFits(s) && Counted(s, t) && Enabled(s, t, a) && (t in s.threads ==> ThreadFits(s, t, s.threads[t]))
    requires ClosingFits(s)
    ensures TasksFit(Next(s, t, a)) && SessionFits(Next(s, t, a))
  {
  }

  lemma TasksKeptStarting(s: State, t: Tid, a: Action)
    requires a == Ensure
    requires TasksFit(s) && SessionFits(s) && Counted(s, t) && Enabled(s, t, a) && (t in s.threads ==> ThreadFits(s, t, s.threads[t]))
    requires ClosingFits(s)
    ensures TasksFit(Next(s, t, a)) && SessionFits(Next(s, t, a))
  {
  }

  lemma TasksKeptWorking(s: State, t: Tid, a: Action)
    requires Works(a)
    requires TasksFit(s) && SessionFits(s) && Counted(s, t) && Enabled(s, t, a) && (t in s.threads ==> ThreadFits(s, t, s.threads[t]))
    requires ClosingFits(s)
    ensures TasksFit(Next(s, t, a)) && SessionFits(Next(s, t, a))
  {
  }

  lemma TasksKeptEnding(s: State, t: Tid, a: Action)
    requires !Waits(a) && !Works(a)
    requires TasksFit(s) && SessionFits(s) && Counted(s, t) && Enabled(s, t, a) && (t in s.threads ==> ThreadFits(s, t, s.threads[t]))
    requires ClosingFits(s)
    ensures TasksFit(Next(s, t, a)) && SessionFits(Next(s, t, a))
  {
  }

  lemma TasksKept(s: State, t: Tid, a: Action)
    requires TasksFit(s) && SessionFits(s) && Counted(s, t) && Enabled(s, t, a) && (t in s.threads ==> ThreadFits(s, t, s.threads[t]))
    requires ClosingFits(s)
    ensures TasksFit(Next(s, t, a)) && SessionFits(Next(s, t, a))
  {
    hide *;
    if a == Ensure {
      TasksKeptStarting(s, t, a);
    } else if Waits(a) {
      TasksKeptWaiting(s, t, a);
    } else if Works(a) {
      TasksKeptWorking(s, t, a);
    } else {
      TasksKeptEnding(s, t, a);
    }
  }

  lemma WaitersKept(s: State, t: Tid, a: Action)
    requires WaitersCounted(s) && Enabled(s, t, a)
    ensures WaitersCounted(Next(s, t, a))
  {
    hide *;
    if Works(a) {
      WaitersKeptWorking(s, t, a);
    } else {
      WaitersKeptPassing(s, t, a);
    }
  }

  lemma WaitersKeptWorking(s: State, t: Tid, a: Action)
    requires Works(a) && WaitersCounted(s) && Enabled(s, t, a)
    ensures WaitersCounted(Next(s, t, a))
  {
    Moved(s.threads, t, At(Next(s, t, a), t), IsWaiter);
    hide Count;
  }

  lemma WaitersKeptPassing(s: State, t: Tid, a: Action)
    requires !Works(a) && WaitersCounted(s) && Enabled(s, t, a)
    ensures WaitersCounted(Next(s, t, a))
  {
    Moved(s.threads, t, At(Next(s, t, a), t), IsWaiter);
    hide Count;
  }

  lemma ActiveKept(s: State, t: Tid, a: Action)
    requires ActiveCounted(s) && Enabled(s, t, a)
    ensures ActiveCounted(Next(s, t, a))
  {
    hide *;
    if Works(a) {
      ActiveKeptWorking(s, t, a);
    } else {
      ActiveKeptPassing(s, t, a);
    }
  }

  lemma ActiveKeptWorking(s: State, t: Tid, a: Action)
    requires Works(a) && ActiveCounted(s) && Enabled(s, t, a)
    ensures ActiveCounted(Next(s, t, a))
  {
    Moved(s.threads, t, At(Next(s, t, a), t), IsActive);
    hide Count;
  }

  lemma ActiveKeptPassing(s: State, t: Tid, a: Action)
    requires !Works(a) && ActiveCounted(s) && Enabled(s, t, a)
    ensures ActiveCounted(Next(s, t, a))
  {
    Moved(s.threads, t, At(Next(s, t, a), t), IsActive);
    hide Count;
  }

  lemma ClosingKeptWaiting(s: State, t: Tid, a: Action)
    requires Waits(a)
    requires TasksFit(s) && SessionFits(s) && ClosingFits(s) && Counted(s, t) && Enabled(s, t, a)
    requires t in s.threads ==> ThreadFits(s, t, s.threads[t])
    ensures ClosingFits(Next(s, t, a))
  {
  }

  lemma ClosingKeptWorking(s: State, t: Tid, a: Action)
    requires Works(a)
    requires TasksFit(s) && SessionFits(s) && ClosingFits(s) && Counted(s, t) && Enabled(s, t, a)
    requires t in s.threads ==> ThreadFits(s, t, s.threads[t])
    ensures ClosingFits(Next(s, t, a))
  {
  }

  lemma ClosingKeptEnding(s: State, t: Tid, a: Action)
    requires !Waits(a) && !Works(a)
    requires TasksFit(s) && SessionFits(s) && ClosingFits(s) && Counted(s, t) && Enabled(s, t, a)
    requires t in s.threads ==> ThreadFits(s, t, s.threads[t])
    ensures ClosingFits(Next(s, t, a))
  {
  }

  lemma ClosingKept(s: State, t: Tid, a: Action)
    requires TasksFit(s) && SessionFits(s) && ClosingFits(s) && Counted(s, t) && Enabled(s, t, a)
    requires t in s.threads ==> ThreadFits(s, t, s.threads[t])
    ensures ClosingFits(Next(s, t, a))
  {
    hide *;
    if Waits(a) {
      ClosingKeptWaiting(s, t, a);
    } else if Works(a) {
      ClosingKeptWorking(s, t, a);
    } else {
      ClosingKeptEnding(s, t, a);
    }
  }

  lemma MoverFitsWaiting(s: State, t: Tid, a: Action)
    requires Waits(a)
    requires TasksFit(s) && SessionFits(s) && ClosingFits(s) && Counted(s, t) && Enabled(s, t, a)
    requires t in s.threads ==> ThreadFits(s, t, s.threads[t])
    ensures var next := Next(s, t, a); t in next.threads ==> ThreadFits(next, t, next.threads[t])
  {
  }

  lemma MoverFitsWorking(s: State, t: Tid, a: Action)
    requires Works(a)
    requires TasksFit(s) && SessionFits(s) && ClosingFits(s) && Counted(s, t) && Enabled(s, t, a)
    requires t in s.threads ==> ThreadFits(s, t, s.threads[t])
    ensures var next := Next(s, t, a); t in next.threads ==> ThreadFits(next, t, next.threads[t])
  {
  }

  lemma MoverFitsStoring(s: State, t: Tid, a: Action)
    requires OfTask(a)
    requires TasksFit(s) && SessionFits(s) && ClosingFits(s) && Counted(s, t) && Enabled(s, t, a)
    requires t in s.threads ==> ThreadFits(s, t, s.threads[t])
    ensures var next := Next(s, t, a); t in next.threads ==> ThreadFits(next, t, next.threads[t])
  {
  }

  lemma MoverFitsClosing(s: State, t: Tid, a: Action)
    requires OfClose(a)
    requires TasksFit(s) && SessionFits(s) && ClosingFits(s) && Counted(s, t) && Enabled(s, t, a)
    requires t in s.threads ==> ThreadFits(s, t, s.threads[t])
    ensures var next := Next(s, t, a); t in next.threads ==> ThreadFits(next, t, next.threads[t])
  {
  }

  lemma MoverFitsAwaited(s: State, t: Tid, a: Action)
    requires a == TakeAttempt || a == AttemptAwaited
    requires TasksFit(s) && SessionFits(s) && ClosingFits(s) && Counted(s, t) && Enabled(s, t, a)
    requires t in s.threads ==> ThreadFits(s, t, s.threads[t])
    ensures var next := Next(s, t, a); t in next.threads ==> ThreadFits(next, t, next.threads[t])
  {
  }

  lemma MoverFitsEnding(s: State, t: Tid, a: Action)
    requires !Waits(a) && !Works(a) && !OfTask(a) && !OfClose(a) && a != TakeAttempt && a != AttemptAwaited
    requires TasksFit(s) && SessionFits(s) && ClosingFits(s) && Counted(s, t) && Enabled(s, t, a)
    requires t in s.threads ==> ThreadFits(s, t, s.threads[t])
    ensures var next := Next(s, t, a); t in next.threads ==> ThreadFits(next, t, next.threads[t])
  {
  }

  lemma MoverFits(s: State, t: Tid, a: Action)
    requires TasksFit(s) && SessionFits(s) && ClosingFits(s) && Counted(s, t) && Enabled(s, t, a)
    requires t in s.threads ==> ThreadFits(s, t, s.threads[t])
    ensures var next := Next(s, t, a); t in next.threads ==> ThreadFits(next, t, next.threads[t])
  {
    hide *;
    if Waits(a) {
      MoverFitsWaiting(s, t, a);
    } else if Works(a) {
      MoverFitsWorking(s, t, a);
    } else if OfTask(a) {
      MoverFitsStoring(s, t, a);
    } else if OfClose(a) {
      MoverFitsClosing(s, t, a);
    } else if a == TakeAttempt || a == AttemptAwaited {
      MoverFitsAwaited(s, t, a);
    } else {
      MoverFitsEnding(s, t, a);
    }
  }

  lemma OtherFitsWaiting(s: State, t: Tid, a: Action, u: Tid)
    requires Waits(a)
    requires TasksFit(s) && SessionFits(s) && ClosingFits(s) && Counted(s, t) && Counted(s, u) && Enabled(s, t, a)
    requires t in s.threads ==> ThreadFits(s, t, s.threads[t])
    requires u in s.threads && u != t && ThreadFits(s, u, s.threads[u])
    requires t in s.threads && IsWaiter(s.threads[t]) && IsWaiter(s.threads[u]) ==> s.sh.waiters > s.leaks + 1
    ensures ThreadFits(Next(s, t, a), u, s.threads[u])
  {
  }

  lemma OtherFitsWorking(s: State, t: Tid, a: Action, u: Tid)
    requires Works(a)
    requires TasksFit(s) && SessionFits(s) && ClosingFits(s) && Counted(s, t) && Counted(s, u) && Enabled(s, t, a)
    requires t in s.threads ==> ThreadFits(s, t, s.threads[t])
    requires u in s.threads && u != t && ThreadFits(s, u, s.threads[u])
    requires t in s.threads && IsWaiter(s.threads[t]) && IsWaiter(s.threads[u]) ==> s.sh.waiters > s.leaks + 1
    ensures ThreadFits(Next(s, t, a), u, s.threads[u])
  {
  }

  lemma OtherFitsEnding(s: State, t: Tid, a: Action, u: Tid)
    requires !Waits(a) && !Works(a)
    requires TasksFit(s) && SessionFits(s) && ClosingFits(s) && Counted(s, t) && Counted(s, u) && Enabled(s, t, a)
    requires t in s.threads ==> ThreadFits(s, t, s.threads[t])
    requires u in s.threads && u != t && ThreadFits(s, u, s.threads[u])
    requires t in s.threads && IsWaiter(s.threads[t]) && IsWaiter(s.threads[u]) ==> s.sh.waiters > s.leaks + 1
    ensures ThreadFits(Next(s, t, a), u, s.threads[u])
  {
  }

  lemma OtherFits(s: State, t: Tid, a: Action, u: Tid)
    requires TasksFit(s) && SessionFits(s) && ClosingFits(s) && Counted(s, t) && Counted(s, u) && Enabled(s, t, a)
    requires t in s.threads ==> ThreadFits(s, t, s.threads[t])
    requires u in s.threads && u != t && ThreadFits(s, u, s.threads[u])
    requires t in s.threads && IsWaiter(s.threads[t]) && IsWaiter(s.threads[u]) ==> s.sh.waiters > s.leaks + 1
    ensures ThreadFits(Next(s, t, a), u, s.threads[u])
  {
    hide *;
    if Waits(a) {
      OtherFitsWaiting(s, t, a, u);
    } else if Works(a) {
      OtherFitsWorking(s, t, a, u);
    } else {
      OtherFitsEnding(s, t, a, u);
    }
  }

  /** A step moves at most one thread. */
  lemma OnlyMover(s: State, t: Tid, a: Action)
    requires Enabled(s, t, a)
    ensures forall u :: u in Next(s, t, a).threads && u != t ==> u in s.threads && Next(s, t, a).threads[u] == s.threads[u]
  {
  }

  lemma ThreadsKept(s: State, t: Tid, a: Action)
    requires Inv(s) && Enabled(s, t, a)
    ensures ThreadsFit(Next(s, t, a))
  {
    var next := Next(s, t, a);
    assert forall u :: u in s.threads ==> ThreadFits(s, u, s.threads[u]);
    hide ThreadFits, Next, Enabled, SessionFits, TasksFit, ClosingFits, WaitersCounted, ActiveCounted, Counted;
    OnlyMover(s, t, a);
    CountsSay(s, t);
    MoverFits(s, t, a);
    forall u | u in next.threads && u != t
      ensures ThreadFits(next, u, next.threads[u])
    {
      CountsSay(s, u);
      if t in s.threads && IsWaiter(s.threads[t]) && IsWaiter(s.threads[u]) {
        TwoWait(s, t, u);
      }
      OtherFits(s, t, a, u);
    }
  }

  lemma StepKeeps(s: State, t: Tid, a: Action)
    requires Inv(s) && Enabled(s, t, a)
    ensures Inv(Next(s, t, a))
  {
    assert t in s.threads ==> ThreadFits(s, t, s.threads[t]);
    hide Next, Enabled, ThreadsFit, ThreadFits, SessionFits, TasksFit, ClosingFits, WaitersCounted, ActiveCounted, Counted;
    CountsSay(s, t);
    ThreadsKept(s, t, a);
    TasksKept(s, t, a);
    WaitersKept(s, t, a);
    ActiveKept(s, t, a);
    ClosingKept(s, t, a);
  }

  // ---- runs -------------------------------------------------------------------------------------------

  predicate IsStep(s: State, t: Tid, a: Action, next: State) {
    Enabled(s, t, a) && next == Next(s, t, a)
  }

  predicate IsRun(states: seq<State>, steps: seq<(Tid, Action)>) {
    && |states| == |steps| + 1 && Init(states[0])
    && forall n :: 0 <= n < |steps| ==> IsStep(states[n], steps[n].0, steps[n].1, states[n + 1])
  }

  lemma {:induction false} RunInv(states: seq<State>, steps: seq<(Tid, Action)>, n: nat)
    requires IsRun(states, steps) && n < |states|
    ensures Inv(states[n])
  {
    hide Inv, Init, Enabled, Next;
    if n == 0 {
      InitInv(states[0]);
    } else {
      RunInv(states, steps, n - 1);
      assert IsStep(states[n - 1], steps[n - 1].0, steps[n - 1].1, states[n]);
      StepKeeps(states[n - 1], steps[n - 1].0, steps[n - 1].1);
    }
  }

  predicate Safe(s: State) {
    // at most one create task is unfinished, and at most one ever creates a session
    && (forall j, k :: 0 <= j < |s.tasks| && 0 <= k < |s.tasks| && s.tasks[j] != Failed && s.tasks[k] != Failed ==> j == k)
    // `waiters` counts the requests that wait, and each of them waits for the current attempt
    && s.sh.waiters == Count(s.threads, IsWaiter) + s.leaks
    && (forall t :: t in s.threads && IsWaiter(s.threads[t]) ==> s.sh.attempt == Some(s.threads[t].task))
    // a resubmission uses a later generation, with the session published for it
    && (forall t :: t in s.threads && s.threads[t].Resending? ==>
          s.threads[t].used < s.threads[t].again < |s.published| && s.threads[t].other == Some(s.published[s.threads[t].again]))
    // whoever comes back from `aclose` finds it closed
    && (forall t :: t in s.threads && s.threads[t].CloseDone? ==> s.sh.closed)
    // after `aclose` no task is left, and the last published session was deleted; it is the one of the
    // first task if nothing was rebuilt, whoever waited for that task
    && (s.sh.closed ==>
          && s.sh.active == 0 && (forall k :: 0 <= k < |s.tasks| ==> IsDone(s.tasks[k]))
          && s.deletes == LastPublished(s)
          && forall k :: 0 <= k < |s.tasks| && s.tasks[k].Succeeded? ==>
               s.published != [] && s.published[0] == s.tasks[k].id && (s.sh.generation == 0 ==> s.deletes == [s.tasks[k].id]))
  }

  lemma InvSafe(s: State)
    requires Inv(s)
    ensures Safe(s)
  {
    assert forall t :: t in s.threads ==> ThreadFits(s, t, s.threads[t]);
    hide Count, ThreadsFit;
  }

  lemma SessionSafety(states: seq<State>, steps: seq<(Tid, Action)>, n: nat)
    requires IsRun(states, steps) && n < |states|
    ensures Safe(states[n])
  {
    RunInv(states, steps, n);
    InvSafe(states[n]);
  }

  /** The pair that a waiter takes has the id of generation 0. With no id given twice, it was published
      as a pair if and only if nothing has been rebuilt yet. */
  lemma JoinedPair(states: seq<State>, steps: seq<(Tid, Action)>, n: nat, t: Tid)
    requires IsRun(states, steps) && n < |states| && At(states[n], t).Joining?
    ensures var s := states[n]; var (_, generation) := JoinSection(s.sh);
            && generation < |s.published| && At(s, t).id == s.published[0]
            && (Distinct(s.published) ==> (s.published[generation] == At(s, t).id <==> generation == 0))
  {
    RunInv(states, steps, n);
    assert ThreadFits(states[n], t, states[n].threads[t]);
    hide Count, ThreadsFit, IsRun;
  }

  // ---- the pair a request sends, and what a rebuild follows from -------------------------------------------

  /** The request has an id and a generation and has not been answered for good. */
  predicate HasPair(pc: Pc) {
    pc.Sending? || pc.AtRebuild? || pc.Rebuilding?
  }

  function PairId(pc: Pc): Id
    requires HasPair(pc)
  {
    if pc.Sending? then pc.clientId else pc.named
  }

  /** It left the shared task, and something had been rebuilt by then. */
  ghost predicate JoinedLate(states: seq<State>, steps: seq<(Tid, Action)>, n: nat, t: Tid) {
    exists m :: 0 <= m < n && IsLateJoin(states, steps, m, t)
  }

  predicate IsLateJoin(states: seq<State>, steps: seq<(Tid, Action)>, m: nat, t: Tid) {
    m < |steps| && m < |states| && steps[m] == (t, Join) && states[m].sh.generation > 0
  }

  /** Before the request has a pair. */
  predicate IsEarly(s: State, t: Tid) {
    t !in s.threads || s.threads[t].AtEnsure? || IsWaiter(s.threads[t])
  }

  lemma EarlyStep(s: State, u: Tid, a: Action, t: Tid)
    requires Enabled(s, u, a) && IsEarly(Next(s, u, a), t)
    ensures IsEarly(s, t) && (u, a) != (t, Join)
  {
  }

  lemma {:induction false} NoJoinWhenEarly(states: seq<State>, steps: seq<(Tid, Action)>, n: nat, t: Tid)
    requires IsRun(states, steps) && n < |states| && IsEarly(states[n], t)
    ensures forall m :: 0 <= m < n ==> steps[m] != (t, Join)
    decreases n
  {
    hide Enabled, Next, IsEarly;
    if n > 0 {
      assert IsStep(states[n - 1], steps[n - 1].0, steps[n - 1].1, states[n]);
      EarlyStep(states[n - 1], steps[n - 1].0, steps[n - 1].1, t);
      NoJoinWhenEarly(states, steps, n - 1, t);
    }
  }

  lemma PairStep(s: State, u: Tid, a: Action, t: Tid)
    requires Enabled(s, u, a) && HasPair(At(Next(s, u, a), t))
    ensures var pc := At(Next(s, u, a), t);
            || (HasPair(At(s, t)) && (u, a) != (t, Join) && At(s, t).late == pc.late && PairId(At(s, t)) == PairId(pc) && At(s, t).used == pc.used)
            || (IsEarly(s, t) && u == t && pc.late == (a == Join && s.sh.generation > 0))
  {
  }

  /** The flag in the program counter says just that. */
  lemma {:induction false} LateMeansJoinedLate(states: seq<State>, steps: seq<(Tid, Action)>, n: nat, t: Tid)
    requires IsRun(states, steps) && n < |states| && HasPair(At(states[n], t))
    ensures At(states[n], t).late <==> JoinedLate(states, steps, n, t)
    decreases n
  {
    hide Enabled, Next, IsEarly, Init;
    assert n > 0 by {
      NobodyAtStart(states[0], t);
    }
    var s, u, a := states[n - 1], steps[n - 1].0, steps[n - 1].1;
    assert IsStep(s, u, a, states[n]);
    PairStep(s, u, a, t);
    if HasPair(At(s, t)) && (u, a) != (t, Join) && At(s, t).late == At(states[n], t).late {
      LateMeansJoinedLate(states, steps, n - 1, t);
      assert !IsLateJoin(states, steps, n - 1, t);
    } else {
      NoJoinWhenEarly(states, steps, n - 1, t);
      assert IsLateJoin(states, steps, n - 1, t) <==> At(states[n], t).late;
    }
  }

  lemma NobodyAtStart(s: State, t: Tid)
    requires Init(s)
    ensures !HasPair(At(s, t))
  {
  }

  /** The pair that a request sends and rebuilds with: its id is the one published for its generation,
      or the first one. With no id given twice, it is its own if and only if the request did not
      join late. So a rebuild of a generation is entered by a request whose POST named another
      session exactly in that case. */
  lemma PairOfRequest(states: seq<State>, steps: seq<(Tid, Action)>, n: nat, t: Tid)
    requires IsRun(states, steps) && n < |states| && HasPair(At(states[n], t))
    ensures var s, pc := states[n], At(states[n], t);
            && pc.used < |s.published| && PairId(pc) in {s.published[pc.used], s.published[0]}
            && (pc.Rebuilding? ==> pc.used == s.sh.generation)
            && (Distinct(s.published) ==> (PairId(pc) == s.published[pc.used] <==> !JoinedLate(states, steps, n, t)))
  {
    LateMeansJoinedLate(states, steps, n, t);
    RunInv(states, steps, n);
    assert ThreadFits(states[n], t, states[n].threads[t]);
    hide IsRun, ThreadsFit, Count, JoinedLate;
  }

  lemma {:induction false} CameFromRefusal(states: seq<State>, steps: seq<(Tid, Action)>, n: nat, t: Tid) returns (m: nat)
    requires IsRun(states, steps) && n < |states| && (At(states[n], t).AtRebuild? || At(states[n], t).Rebuilding?)
    ensures m < n && steps[m] == (t, Reply(true))
    ensures var pc := At(states[n], t); At(states[m], t) == Sending(pc.named, pc.used, pc.late)
    decreases n
  {
    hide Enabled, Next;
    assert n > 0;
    assert IsStep(states[n - 1], steps[n - 1].0, steps[n - 1].1, states[n]);
    RefusalStep(states[n - 1], steps[n - 1].0, steps[n - 1].1, t);
    if At(states[n - 1], t).Sending? {
      m := n - 1;
    } else {
      m := CameFromRefusal(states, steps, n - 1, t);
    }
  }

  lemma RefusalStep(s: State, u: Tid, a: Action, t: Tid)
    requires Enabled(s, u, a) && (At(Next(s, u, a), t).AtRebuild? || At(Next(s, u, a), t).Rebuilding?)
    ensures var was, pc := At(s, t), At(Next(s, u, a), t);
            || ((was.AtRebuild? || was.Rebuilding?) && was.named == pc.named && was.used == pc.used && was.late == pc.late)
            || (u == t && a == Reply(true) && was == Sending(pc.named, pc.used, pc.late))
  {
  }

  /** A step publishes nothing new of a later generation, or ends a rebuild. */
  lemma PublishStep(s: State, u: Tid, a: Action)
    requires Enabled(s, u, a) && TasksFit(s) && SessionFits(s)
    ensures var next := Next(s, u, a);
            && |s.published| <= |next.published| && (forall g :: 0 <= g < |s.published| ==> next.published[g] == s.published[g])
            && (next.sh.generation == s.sh.generation || (At(s, u).Rebuilding? && next.sh.generation == s.sh.generation + 1))
  {
    hide *;
    if Works(a) {
      PublishStepWorking(s, u, a);
    } else {
      PublishStepPassing(s, u, a);
    }
  }

  lemma PublishStepWorking(s: State, u: Tid, a: Action)
    requires Works(a)
    requires Enabled(s, u, a) && TasksFit(s) && SessionFits(s)
    ensures var next := Next(s, u, a);
            && |s.published| <= |next.published| && (forall g :: 0 <= g < |s.published| ==> next.published[g] == s.published[g])
            && (next.sh.generation == s.sh.generation || (At(s, u).Rebuilding? && next.sh.generation == s.sh.generation + 1))
  {
  }

  lemma PublishStepPassing(s: State, u: Tid, a: Action)
    requires !Works(a)
    requires Enabled(s, u, a) && TasksFit(s) && SessionFits(s)
    ensures var next := Next(s, u, a);
            && |s.published| <= |next.published| && (forall g :: 0 <= g < |s.published| ==> next.published[g] == s.published[g])
            && (next.sh.generation == s.sh.generation || (At(s, u).Rebuilding? && next.sh.generation == s.sh.generation + 1))
  {
  }

  /** No session is replaced unless a POST of its generation was refused. That POST named the session,
      or, if its request joined late, the first one. */
  lemma {:induction false} ReplacedWasRefused(states: seq<State>, steps: seq<(Tid, Action)>, n: nat, g: nat)
    returns (m: nat, t: Tid)
    requires IsRun(states, steps) && n < |states| && g < states[n].sh.generation
    ensures g < |states[n].published| && m < n && steps[m] == (t, Reply(true))
    ensures At(states[m], t).Sending? && At(states[m], t).used == g
    ensures At(states[m], t).clientId == states[n].published[if At(states[m], t).late then 0 else g]
    ensures At(states[m], t).late <==> JoinedLate(states, steps, m, t)
    decreases n
  {
    hide Enabled, Next, Inv, JoinedLate;
    assert n > 0;
    var s, u := states[n - 1], steps[n - 1].0;
    assert IsStep(s, u, steps[n - 1].1, states[n]);
    RunInv(states, steps, n - 1);
    SessionParts(s, u);
    PublishStep(s, u, steps[n - 1].1);
    if g < s.sh.generation {
      m, t := ReplacedWasRefused(states, steps, n - 1, g);
    } else {
      m := CameFromRefusal(states, steps, n - 1, u);
      t := u;
      LateMeansJoinedLate(states, steps, m, t);
    }
  }

  lemma SessionParts(s: State, u: Tid)
    requires Inv(s)
    ensures TasksFit(s) && SessionFits(s)
    ensures At(s, u).Rebuilding? ==>
              At(s, u).used == s.sh.generation && PairFits(s, At(s, u).named, At(s, u).used, At(s, u).late)
  {
    assert u in s.threads ==> ThreadFits(s, u, s.threads[u]);
    hide ThreadsFit, Count;
  }

  // ---- runs that show it ----------------------------------------------------------------------------------

  /** Every refused POST named this id. */
  predicate OnlyRefused(states: seq<State>, steps: seq<(Tid, Action)>, id: Id) {
    |states| == |steps| + 1 &&
    forall m :: 0 <= m < |steps| && steps[m].1 == Reply(true) ==> Names(states[m], steps[m].0, id)
  }

  predicate Names(s: State, t: Tid, id: Id) {
    At(s, t).Sending? && At(s, t).clientId == id
  }

  /** One more step of a run in which only POSTs for the session 7 are refused. */
  lemma Extended(states: seq<State>, steps: seq<(Tid, Action)>, last: State, t: Tid, a: Action)
    returns (longer: seq<State>, all: seq<(Tid, Action)>, next: State)
    requires IsRun(states, steps) && states[|states| - 1] == last && Enabled(last, t, a)
    requires OnlyRefused(states, steps, 7) && (a == Reply(true) ==> Names(last, t, 7))
    ensures IsRun(longer, all) && next == Next(last, t, a) && longer[|longer| - 1] == next && OnlyRefused(longer, all, 7)
  {
    hide Enabled, Next, Init, Names;
    next := Next(last, t, a);
    longer, all := states + [next], steps + [(t, a)];
  }

  lemma FirstAttempt() returns (states: seq<State>, steps: seq<(Tid, Action)>, last: State)
    ensures IsRun(states, steps) && states[|states| - 1] == last && OnlyRefused(states, steps, 7)
    ensures last == State(Shared(None, 0, Some(0), 1, None, 1, false, false), map[0 := Awaiting(0)], [Running], None, 0, [], None, [])
  {
    last := State(Shared(None, 0, None, 0, None, 0, false, false), map[], [], None, 0, [], None, []);
    states, steps := [last], [];
    assert IsRun(states, steps) && OnlyRefused(states, steps, 7);
    hide IsRun, OnlyRefused;
    states, steps, last := Extended(states, steps, last, 0, Begin);
    states, steps, last := Extended(states, steps, last, 0, Ensure);
  }

  /** A waiter whose task is done, in a run where nobody else has come yet. */
  lemma LoneWaiter() returns (states: seq<State>, steps: seq<(Tid, Action)>, last: State)
    ensures IsRun(states, steps) && states[|states| - 1] == last && OnlyRefused(states, steps, 7)
    ensures last == State(Shared(Some(7), 0, Some(0), 1, None, 1, false, false), map[0 := Joining(0, 7)], [Succeeded(7)], None, 0, [7], None, [])
  {
    hide IsRun, OnlyRefused;
    states, steps, last := FirstAttempt();
    states, steps, last := Extended(states, steps, last, 0, TaskCreates(0, 7));
    states, steps, last := Extended(states, steps, last, 0, TaskStores(0));
    states, steps, last := Extended(states, steps, last, 0, Resume);
  }

  /** A request can leave the shared task with the id of generation 0 and the number of generation 1. */
  lemma JoinedPairCanBeStale() returns (states: seq<State>, steps: seq<(Tid, Action)>, last: State)
    ensures IsRun(states, steps) && states[|states| - 1] == last && OnlyRefused(states, steps, 7)
    ensures last == State(Shared(Some(8), 1, None, 0, None, 2, false, false),
                          map[0 := Sending(7, 1, true), 1 := Resending(0, 1, Some(8))], [Succeeded(7)], None, 0, [7, 8], None, [])
  {
    hide IsRun, OnlyRefused;
    states, steps, last := LoneWaiter();
    states, steps, last := Extended(states, steps, last, 1, Begin);
    states, steps, last := Extended(states, steps, last, 1, Ensure);
    states, steps, last := Extended(states, steps, last, 1, Reply(true));
    states, steps, last := Extended(states, steps, last, 1, Rebuild);
    states, steps, last := Extended(states, steps, last, 1, Rebuilt(8));
    states, steps, last := Extended(states, steps, last, 0, Join);
  }

  /** That request is refused for the session 7 and rebuilds once more. */
  lemma StaleRequestRebuilds() returns (states: seq<State>, steps: seq<(Tid, Action)>, last: State)
    ensures IsRun(states, steps) && states[|states| - 1] == last && OnlyRefused(states, steps, 7)
    ensures last == State(Shared(Some(9), 2, None, 0, None, 0, false, false),
                          map[0 := Done, 1 := Done], [Succeeded(7)], None, 0, [7, 8, 9], None, [])
  {
    hide IsRun, OnlyRefused;
    states, steps, last := JoinedPairCanBeStale();
    states, steps, last := Extended(states, steps, last, 1, Resent);
    states, steps, last := Extended(states, steps, last, 1, Leave);
    states, steps, last := Extended(states, steps, last, 0, Reply(true));
    states, steps, last := Extended(states, steps, last, 0, Rebuild);
    states, steps, last := Extended(states, steps, last, 0, Rebuilt(9));
    states, steps, last := Extended(states, steps, last, 0, Resent);
    states, steps, last := Extended(states, steps, last, 0, Leave);
  }

  lemma ThenCloses() returns (states: seq<State>, steps: seq<(Tid, Action)>, last: State)
    ensures IsRun(states, steps) && states[|states| - 1] == last && OnlyRefused(states, steps, 7)
    ensures last == State(Shared(Some(9), 2, None, 0, None, 0, true, false),
                          map[0 := Done, 1 := Done, 2 := CloseReading(None)], [Succeeded(7)], None, 0, [7, 8, 9], Some(2), [])
  {
    hide IsRun, OnlyRefused;
    states, steps, last := StaleRequestRebuilds();
    states, steps, last := Extended(states, steps, last, 2, Close);
    states, steps, last := Extended(states, steps, last, 2, Quiesce);
    states, steps, last := Extended(states, steps, last, 2, TakeAttempt);
  }

  /** So a session can be replaced and never deleted although no POST that named it was refused. */
  lemma SessionLostToLateJoin() returns (states: seq<State>, steps: seq<(Tid, Action)>, last: State)
    ensures IsRun(states, steps) && states[|states| - 1] == last && OnlyRefused(states, steps, 7)
    ensures last.sh.closed && last.published == [7, 8, 9] && last.deletes == [9]
  {
    hide IsRun, OnlyRefused;
    states, steps, last := ThenCloses();
    states, steps, last := Extended(states, steps, last, 2, Settle);
    states, steps, last := Extended(states, steps, last, 2, Delete);
    states, steps, last := Extended(states, steps, last, 2, FinishClose);
  }

  // ---- a failed rebuild -------------------------------------------------------------------------------------

  /** A stored error belongs to the current generation, and nobody rebuilds. */
  predicate FailedFits(s: State) {
    s.sh.failed.Some? ==> s.sh.failed.value == s.sh.generation && s.lock == None && s.published != []
  }

  /** Some rebuild of the run failed in the ordinary way. */
  predicate HasFailed(steps: seq<(Tid, Action)>, n: nat) {
    exists m :: 0 <= m < n && m < |steps| && IsFailure(steps[m].1)
  }

  predicate IsFailure(a: Action) {
    a == RebuildFails(true)
  }

  lemma FailureStepWaiting(s: State, t: Tid, a: Action)
    requires Waits(a)
    requires TasksFit(s) && SessionFits(s) && FailedFits(s) && Enabled(s, t, a) && (t in s.threads ==> ThreadFits(s, t, s.threads[t]))
    ensures var next := Next(s, t, a);
            && FailedFits(next) && (next.sh.failed.Some? <==> s.sh.failed.Some? || IsFailure(a))
            && (s.sh.failed.Some? ==> next.sh.failed == s.sh.failed && next.published == s.published)
  {
  }

  lemma FailureStepWorking(s: State, t: Tid, a: Action)
    requires Works(a)
    requires TasksFit(s) && SessionFits(s) && FailedFits(s) && Enabled(s, t, a) && (t in s.threads ==> ThreadFits(s, t, s.threads[t]))
    ensures var next := Next(s, t, a);
            && FailedFits(next) && (next.sh.failed.Some? <==> s.sh.failed.Some? || IsFailure(a))
            && (s.sh.failed.Some? ==> next.sh.failed == s.sh.failed && next.published == s.published)
  {
  }

  lemma FailureStepEnding(s: State, t: Tid, a: Action)
    requires !Waits(a) && !Works(a)
    requires TasksFit(s) && SessionFits(s) && FailedFits(s) && Enabled(s, t, a) && (t in s.threads ==> ThreadFits(s, t, s.threads[t]))
    ensures var next := Next(s, t, a);
            && FailedFits(next) && (next.sh.failed.Some? <==> s.sh.failed.Some? || IsFailure(a))
            && (s.sh.failed.Some? ==> next.sh.failed == s.sh.failed && next.published == s.published)
  {
  }

  lemma FailureStep(s: State, t: Tid, a: Action)
    requires TasksFit(s) && SessionFits(s) && FailedFits(s) && Enabled(s, t, a) && (t in s.threads ==> ThreadFits(s, t, s.threads[t]))
    ensures var next := Next(s, t, a);
            && FailedFits(next) && (next.sh.failed.Some? <==> s.sh.failed.Some? || IsFailure(a))
            && (s.sh.failed.Some? ==> next.sh.failed == s.sh.failed && next.published == s.published)
  {
    hide *;
    if Waits(a) {
      FailureStepWaiting(s, t, a);
    } else if Works(a) {
      FailureStepWorking(s, t, a);
    } else {
      FailureStepEnding(s, t, a);
    }
  }

  lemma FailureParts(s: State, t: Tid)
    requires Inv(s)
    ensures TasksFit(s) && SessionFits(s) && (t in s.threads ==> ThreadFits(s, t, s.threads[t]))
  {
  }

  /** An error is stored exactly if a rebuild has failed, at any earlier time. */
  lemma {:induction false} FailureIsStored(states: seq<State>, steps: seq<(Tid, Action)>, n: nat)
    requires IsRun(states, steps) && n < |states|
    ensures FailedFits(states[n]) && (states[n].sh.failed.Some? <==> HasFailed(steps, n))
    decreases n
  {
    hide Enabled, Next, Inv, IsFailure;
    if n > 0 {
      FailureIsStored(states, steps, n - 1);
      hide FailedFits;
      RunInv(states, steps, n - 1);
      assert IsStep(states[n - 1], steps[n - 1].0, steps[n - 1].1, states[n]);
      FailureParts(states[n - 1], steps[n - 1].0);
      FailureStep(states[n - 1], steps[n - 1].0, steps[n - 1].1);
    }
  }

  /** It is final: the generation never ends and no session is created again. */
  lemma {:induction false} FailureIsFinal(states: seq<State>, steps: seq<(Tid, Action)>, i: nat, j: nat)
    requires IsRun(states, steps) && i <= j < |states| && states[i].sh.failed.Some?
    ensures states[j].sh.failed == states[i].sh.failed && states[j].published == states[i].published
    ensures states[j].sh.generation == states[i].sh.generation
    decreases j
  {
    hide Enabled, Next, Inv, IsFailure;
    FailureIsStored(states, steps, i);
    FailureIsStored(states, steps, j);
    if i < j {
      FailureIsFinal(states, steps, i, j - 1);
      FailureIsStored(states, steps, j - 1);
      RunInv(states, steps, j - 1);
      assert IsStep(states[j - 1], steps[j - 1].0, steps[j - 1].1, states[j]);
      FailureParts(states[j - 1], steps[j - 1].0);
      FailureStep(states[j - 1], steps[j - 1].0, steps[j - 1].1);
    }
  }

  /** When a lost session is rebuilt: a request that comes to the rebuild of the current generation
      creates a session if and only if no rebuild has ever failed in the ordinary way, and otherwise
      gets the stored error. */
  lemma RebuildTurn(states: seq<State>, steps: seq<(Tid, Action)>, n: nat, t: Tid)
    requires IsRun(states, steps) && n < |states| && At(states[n], t).AtRebuild? && At(states[n], t).used == states[n].sh.generation
    ensures var sh := states[n].sh; var turn := RebuildSection(sh, At(states[n], t).used);
            && (turn == CachedError <==> HasFailed(steps, n))
            && (turn == Create <==> !HasFailed(steps, n) && !sh.closing && !sh.closed)
  {
    FailureIsStored(states, steps, n);
    hide IsRun, HasFailed;
  }

  /** A run that gets there with one request. */
  lemma OneFailureIsEnough() returns (states: seq<State>, steps: seq<(Tid, Action)>, last: State)
    ensures IsRun(states, steps) && states[|states| - 1] == last && HasFailed(steps, |steps|)
    ensures last.sh.failed == Some(0) && last.sh.generation == 0 && last.published == [7]
  {
    hide IsRun, OnlyRefused, HasFailed;
    states, steps, last := LoneWaiter();
    states, steps, last := Extended(states, steps, last, 0, Join);
    states, steps, last := Extended(states, steps, last, 0, Reply(true));
    states, steps, last := Extended(states, steps, last, 0, Rebuild);
    states, steps, last := Extended(states, steps, last, 0, RebuildFails(true));
    RunLength(states, steps);
    FailureIsStored(states, steps, |steps|);
  }

  lemma RunLength(states: seq<State>, steps: seq<(Tid, Action)>)
    requires IsRun(states, steps)
    ensures |states| == |steps| + 1
  {
  }

  // ---- a failed first attempt --------------------------------------------------------------------------------

  /** The session could not be created, and nobody has replaced the attempt. */
  predicate AttemptFailed(s: State) {
    s.sh.clientId == None && s.sh.attempt.Some? && s.sh.attempt.value < |s.tasks| && s.tasks[s.sh.attempt.value] == Failed
  }

  /** The next request starts a new attempt exactly if nobody waits for the failed one and nobody
      leaked. */
  lemma FailedAttemptIsReplaced(states: seq<State>, steps: seq<(Tid, Action)>, n: nat)
    requires IsRun(states, steps) && n < |states| && AttemptFailed(states[n]) && !states[n].sh.closing
    ensures var s := states[n];
            EnsureSection(s.sh, CurrentDone(s), |s.tasks|).1 == Await(|s.tasks|) <==>
            s.leaks == 0 && forall t :: t in s.threads ==> !IsWaiter(s.threads[t])
  {
    RunInv(states, steps, n);
    var s := states[n];
    hide IsRun, ThreadsFit;
    if Count(s.threads, IsWaiter) == 0 {
      NoMember(s.threads, IsWaiter);
    } else {
      var t := SomeMember(s.threads, IsWaiter);
    }
  }

  /** With a leak it is never replaced: every later request gets the failed attempt. */
  lemma {:induction false} LeakKeepsFailedAttempt(states: seq<State>, steps: seq<(Tid, Action)>, i: nat, j: nat)
    requires IsRun(states, steps) && i <= j < |states| && AttemptFailed(states[i]) && states[i].leaks > 0
    ensures AttemptFailed(states[j]) && states[j].leaks > 0
    ensures states[j].sh.attempt == states[i].sh.attempt && states[j].tasks == states[i].tasks
    decreases j
  {
    hide Init, Enabled, Next, Inv, AttemptFailed;
    if i < j {
      LeakKeepsFailedAttempt(states, steps, i, j - 1);
      RunInv(states, steps, j - 1);
      assert IsStep(states[j - 1], steps[j - 1].0, steps[j - 1].1, states[j]);
      LeakedStep(states[j - 1], steps[j - 1].0, steps[j - 1].1);
    }
  }

  /** A run of the machine that gets there: a request is cancelled at the free lock, where asyncio does
      not suspend it (see `NoLeakBeforeSession`). */
  lemma UnsuspendedCancelLeaks() returns (states: seq<State>, steps: seq<(Tid, Action)>, last: State)
    ensures IsRun(states, steps) && states[|states| - 1] == last && AttemptFailed(last) && last.leaks == 1
    ensures !CancelsSuspended(states, steps)
  {
    hide IsRun, OnlyRefused;
    states, steps, last := FirstAttempt();
    states, steps, last := Extended(states, steps, last, 0, TaskFails(0));
    states, steps, last := Extended(states, steps, last, 0, Resume);
    states, steps, last := Extended(states, steps, last, 0, Cancel);
    if CancelsSuspended(states, steps) {
      NoLeakBeforeSession(states, steps, |states| - 1);
    }
  }

  lemma LeakedStep(s: State, t: Tid, a: Action)
    requires Inv(s) && Enabled(s, t, a) && AttemptFailed(s) && s.leaks > 0
    ensures var next := Next(s, t, a);
            AttemptFailed(next) && next.leaks > 0 && next.sh.attempt == s.sh.attempt && next.tasks == s.tasks
  {
    hide Inv, Count;
    LeakedParts(s, t);
  }

  lemma LeakedParts(s: State, t: Tid)
    requires Inv(s)
    ensures TasksFit(s) && SessionFits(s) && ClosingFits(s) && Counted(s, t) && s.sh.waiters >= s.leaks
    ensures t in s.threads ==> ThreadFits(s, t, s.threads[t])
  {
    CountsSay(s, t);
    hide Count, ThreadFits, TasksFit, SessionFits, ClosingFits, ActiveCounted, Counted;
  }

  /** The places where a request waits for `_session_lock`. */
  predicate AtLock(pc: Pc) {
    pc.AtEnsure? || pc.Cleaning? || pc.Joining? || pc.AtRebuild?
  }

  predicate LockWasHeld(states: seq<State>, n: nat) {
    exists m :: 0 <= m <= n && m < |states| && states[m].lock.Some?
  }

  /** A cancellation can only hit a request that is suspended, and waiting for the lock suspends one
      only if somebody has held the lock across an `await`. */
  predicate CancelsSuspended(states: seq<State>, steps: seq<(Tid, Action)>) {
    |states| == |steps| + 1 &&
    forall n :: 0 <= n < |steps| && steps[n].1 == Cancel && AtLock(At(states[n], steps[n].0)) ==> LockWasHeld(states, n)
  }

  lemma LockNeedsSession(s: State)
    requires Inv(s) && s.lock.Some?
    ensures s.published != []
  {
    assert ThreadFits(s, s.lock.value, s.threads[s.lock.value]);
    hide ThreadsFit, Count;
  }

  lemma {:induction false} PublishedGrows(states: seq<State>, steps: seq<(Tid, Action)>, m: nat, n: nat)
    requires IsRun(states, steps) && m <= n < |states|
    ensures |states[m].published| <= |states[n].published|
    decreases n
  {
    hide Enabled, Next;
    if m < n {
      PublishedGrows(states, steps, m, n - 1);
      assert IsStep(states[n - 1], steps[n - 1].0, steps[n - 1].1, states[n]);
      GrowsStep(states[n - 1], steps[n - 1].0, steps[n - 1].1);
    }
  }

  lemma GrowsStep(s: State, u: Tid, a: Action)
    requires Enabled(s, u, a)
    ensures |s.published| <= |Next(s, u, a).published|
  {
  }

  /** Only a rebuild holds the lock across an `await`, and it has a session to rebuild. */
  lemma HeldLockMeansSession(states: seq<State>, steps: seq<(Tid, Action)>, n: nat)
    requires IsRun(states, steps) && n < |states| && LockWasHeld(states, n)
    ensures states[n].published != []
  {
    hide Inv, IsRun;
    var m :| 0 <= m <= n && m < |states| && states[m].lock.Some?;
    RunInv(states, steps, m);
    LockNeedsSession(states[m]);
    PublishedGrows(states, steps, m, n);
  }

  lemma CancelStep(s: State, t: Tid, a: Action)
    requires Enabled(s, t, a)
    ensures var next := Next(s, t, a);
            && (next.published == [] ==> s.published == [])
            && (next.leaks != s.leaks ==> a == Cancel && AtLock(At(s, t)))
  {
  }

  /** Then no leak meets a failed first attempt: whoever leaked was suspended, so the lock was held, so
      there was a session. */
  lemma {:induction false} NoLeakBeforeSession(states: seq<State>, steps: seq<(Tid, Action)>, n: nat)
    requires IsRun(states, steps) && CancelsSuspended(states, steps) && n < |states|
    ensures states[n].leaks > 0 ==> states[n].published != []
    ensures AttemptFailed(states[n]) ==> states[n].leaks == 0
  {
    hide Enabled, Next, Inv, LockWasHeld;
    if n > 0 {
      NoLeakBeforeSession(states, steps, n - 1);
      assert IsStep(states[n - 1], steps[n - 1].0, steps[n - 1].1, states[n]);
      if steps[n - 1].1 == Cancel && AtLock(At(states[n - 1], steps[n - 1].0)) {
        HeldLockMeansSession(states, steps, n - 1);
      }
      CancelStep(states[n - 1], steps[n - 1].0, steps[n - 1].1);
    }
    RunInv(states, steps, n);
    UnpublishedFits(states[n]);
  }

  lemma UnpublishedFits(s: State)
    requires Inv(s)
    ensures s.sh.clientId == None <==> s.published == []
  {
  }

  // ---- what a step does, from the run alone -------------------------------------------------------------

  lemma StepAt(states: seq<State>, steps: seq<(Tid, Action)>, n: nat)
    requires IsRun(states, steps) && n < |steps|
    ensures Enabled(states[n], steps[n].0, steps[n].1) && states[n + 1] == Next(states[n], steps[n].0, steps[n].1)
    ensures TasksFit(states[n]) && SessionFits(states[n]) && ClosingFits(states[n]) && Counted(states[n], steps[n].0)
    ensures steps[n].0 in states[n].threads ==> ThreadFits(states[n], steps[n].0, states[n].threads[steps[n].0])
  {
    assert IsStep(states[n], steps[n].0, steps[n].1, states[n + 1]);
    RunInv(states, steps, n);
    CountsSay(states[n], steps[n].0);
    hide Enabled, Next, IsRun, TasksFit, SessionFits, ClosingFits, Counted, ThreadFits, WaitersCounted, ActiveCounted;
  }

  /** A request at the start takes the session published last; without one it waits for the create task,
      which is a new one if there was none, or if it has failed and nobody waits for it. */
  predicate StartsSession(s: State, next: State, t: Tid) {
    if s.published != [] then
      && |s.published| == s.sh.generation + 1
      && next == s.(threads := s.threads[t := Sending(s.published[s.sh.generation], s.sh.generation, false)])
    else if s.sh.closing then next == s.(threads := s.threads[t := Finishing])
    else
      var anew := s.sh.attempt == None || (|s.tasks| > 0 && s.tasks[|s.tasks| - 1] == Failed && s.sh.waiters == 0);
      var task := if anew then |s.tasks| else s.sh.attempt.value;
      && (s.sh.attempt.Some? ==> s.sh.attempt.value == |s.tasks| - 1)
      && next.tasks == (if anew then s.tasks + [Running] else s.tasks)
      && next.threads == s.threads[t := Awaiting(task)]
      && next.sh == s.sh.(attempt := Some(task), waiters := s.sh.waiters + 1)
  }

  lemma EnsureIff(states: seq<State>, steps: seq<(Tid, Action)>, n: nat)
    requires IsRun(states, steps) && n < |steps| && steps[n].1 == Ensure
    ensures StartsSession(states[n], states[n + 1], steps[n].0)
  {
    StepAt(states, steps, n);
    EnsureStep(states[n], steps[n].0);
    hide IsRun, Enabled, Next, TasksFit, SessionFits, ClosingFits, Counted, ThreadFits, StartsSession;
  }

  lemma EnsureStep(s: State, t: Tid)
    requires TasksFit(s) && SessionFits(s) && ClosingFits(s) && Enabled(s, t, Ensure)
    ensures StartsSession(s, Next(s, t, Ensure), t)
  {
  }

  /** A waiter that comes back takes the id of the first session, whatever was rebuilt meanwhile, and the
      generation it finds. */
  lemma JoinIff(states: seq<State>, steps: seq<(Tid, Action)>, n: nat)
    requires IsRun(states, steps) && n < |steps| && steps[n].1 == Join
    ensures states[n].published != []
    ensures var s, next, t, left := states[n], states[n + 1], steps[n].0, states[n].sh.waiters - 1;
            && next.threads == s.threads[t := Sending(s.published[0], s.sh.generation, s.sh.generation > 0)]
            && next.sh == s.sh.(waiters := left, attempt := if left == 0 then None else s.sh.attempt)
  {
    StepAt(states, steps, n);
    hide IsRun, Counted;
  }

  /** A refused POST goes to the rebuild with the pair that it named; any other reply ends the request. */
  lemma ReplyIff(states: seq<State>, steps: seq<(Tid, Action)>, n: nat)
    requires IsRun(states, steps) && n < |steps| && steps[n].1.Reply?
    ensures var s, t, pc := states[n], steps[n].0, At(states[n], steps[n].0);
            && pc.Sending?
            && states[n + 1] == s.(threads := s.threads[t := if steps[n].1.notFound then AtRebuild(pc.used, pc.clientId, pc.late) else Finishing])
  {
    StepAt(states, steps, n);
    hide IsRun, Counted, TasksFit, SessionFits, ClosingFits, ThreadFits;
  }

  /** A request at the rebuild finds its generation replaced and takes the session published last; or a
      rebuild has failed, or `aclose` has begun, and it ends; or it creates a session itself, holding
      the lock. */
  lemma EnterIff(states: seq<State>, steps: seq<(Tid, Action)>, n: nat)
    requires IsRun(states, steps) && n < |steps| && steps[n].1 == Rebuild
    ensures |states[n].published| == states[n].sh.generation + 1
    ensures var s, t, g := states[n], steps[n].0, states[n].sh.generation; var pc := At(s, t);
            && pc.AtRebuild? && pc.used <= g
            && states[n + 1] ==
               if pc.used < g then s.(threads := s.threads[t := Resending(pc.used, g, Some(s.published[g]))])
               else if HasFailed(steps, n) || s.sh.closing then s.(threads := s.threads[t := Finishing])
               else s.(lock := Some(t), threads := s.threads[t := Rebuilding(pc.used, pc.named, pc.late)])
  {
    StepAt(states, steps, n);
    FailureIsStored(states, steps, n);
    hide IsRun, Counted, TasksFit, HasFailed;
  }

  /** The end of a rebuild: the new session becomes the one of the next generation. */
  lemma RebuiltIff(states: seq<State>, steps: seq<(Tid, Action)>, n: nat)
    requires IsRun(states, steps) && n < |steps| && steps[n].1.Rebuilt?
    ensures var s, next, t, id := states[n], states[n + 1], steps[n].0, steps[n].1.id;
            && At(s, t).Rebuilding? && At(s, t).used == s.sh.generation
            && next.sh == s.sh.(clientId := Some(id), generation := s.sh.generation + 1, failed := None)
            && next.published == s.published + [id] && next.lock == None
            && next.threads == s.threads[t := Resending(s.sh.generation, s.sh.generation + 1, Some(id))]
  {
    StepAt(states, steps, n);
    hide IsRun, Counted, TasksFit, SessionFits, ClosingFits;
  }

  // ---- the class ----------------------------------------------------------------------------------------

  class AsyncGoTransport {
    var clientId: Option<Id>
    var generation: nat
    var attempt: Option<TaskId>
    var waiters: int
    var failed: Option<nat>
    var active: int
    var closing: bool
    var closed: bool

    function Fields(): Shared
      reads this
    {
      Shared(clientId, generation, attempt, waiters, failed, active, closing, closed)
    }

    constructor ()
      ensures Fields() == Shared(None, 0, None, 0, None, 0, false, false)
    {
      clientId, generation, attempt, waiters := None, 0, None, 0;
      failed, active, closing, closed := None, 0, false, false;
    }

    method EnsureSession(done: bool, nextTask: TaskId) returns (session: Session)
      modifies this
      ensures (Fields(), session) == EnsureSection(old(Fields()), done, nextTask)
      ensures old(clientId).Some? ==> session == Have(old(clientId).value, old(generation))
      ensures old(clientId) == None && old(closing || closed) ==> session == Refused
      ensures !session.Await? ==> Fields() == old(Fields())
      ensures old(clientId == None && !closing && !closed) ==>
                var anew := old(attempt == None || (done && waiters == 0));
                && session == Await(if anew then nextTask else old(attempt).value)
                && Fields() == old(Fields()).(attempt := Some(session.task), waiters := old(waiters) + 1)
    {
      if clientId.Some? {
        return Have(clientId.value, generation);
      }
      if closing || closed {
        return Refused;
      }
      if attempt.Some? && done && waiters == 0 {
        attempt := None;
      }
      if attempt == None {
        attempt := Some(nextTask);
      }
      waiters := waiters + 1;
      return Await(attempt.value);
    }

    method LeaveAttempt(done: bool)
      modifies this
      ensures Fields() == CleanSection(old(Fields()), done)
      ensures waiters == old(waiters) - 1 && Fields() == old(Fields()).(waiters := waiters, attempt := attempt)
      ensures attempt == if done && waiters == 0 then None else old(attempt)
    {
      waiters := waiters - 1;
      if done && waiters == 0 {
        attempt := None;
      }
    }

    method JoinAttempt() returns (current: nat)
      modifies this
      ensures (Fields(), current) == JoinSection(old(Fields()))
      ensures current == old(generation) && waiters == old(waiters) - 1
      ensures Fields() == old(Fields()).(waiters := waiters, attempt := attempt)
      ensures attempt == if waiters == 0 then None else old(attempt)
    {
      waiters := waiters - 1;
      if waiters == 0 {
        attempt := None;
      }
      return generation;
    }

    method EnterRebuild(used: nat) returns (turn: Turn)
      ensures turn == RebuildSection(Fields(), used)
      ensures turn.Use? <==> generation != used
      ensures turn.Use? ==> turn.clientId == clientId
      ensures turn == CachedError <==> generation == used && failed == Some(used)
      ensures turn == TransportClosed <==> generation == used && failed != Some(used) && (closing || closed)
    {
      if generation != used {
        return Use(clientId);
      }
      if failed == Some(used) {
        return CachedError;
      }
      return if closing || closed then TransportClosed else Create;
    }

    method Publish(id: Id)
      modifies this
      ensures Fields() == PublishSection(old(Fields()), id)
      ensures Fields() == old(Fields()).(clientId := Some(id), generation := old(generation) + 1, failed := None)
    {
      clientId := Some(id);
      generation := generation + 1;
      failed := None;
    }

    method Settle(awaited: Option<TaskId>, done: bool) returns (last: Option<Id>)
      modifies this
      ensures Fields() == SettleSection(old(Fields()), awaited, done) && last == old(clientId)
      ensures Fields() == old(Fields()).(attempt := attempt)
      ensures attempt == if awaited.Some? && awaited == old(attempt) && done && waiters == 0 then None else old(attempt)
    {
      if awaited.Some? && awaited == attempt && done && waiters == 0 {
        attempt := None;
      }
      return clientId;
    }
  }
}
