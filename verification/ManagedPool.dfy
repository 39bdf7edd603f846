/** `_ManagedState` and the sync managed transport: one built transport per runtime instance, shared
    by request threads and retired by whoever leaves it last. The lock sections are functions on
    the shared fields; the machine interleaves the sections of any number of threads. */
module ManagedPool {
  import opened Counting
  import opened Options
  import opened Sequences
  import opened ManagedCall

  type Instance = int
  type EntryId = nat
  type Tid = nat

  /** The `ready` future of an entry. */
  datatype Ready = Pending | Built | Failed(outcome: Outcome)

  datatype Entry = Entry(instance: Instance, users: int, ready: Ready)

  /** The fields of `_ManagedState`. Entries are compared by identity, so the dictionary maps to
      places in `table`. */
  datatype Shared = Shared(entries: map<Instance, EntryId>, table: seq<Entry>, active: int, closing: bool, closed: bool)

  // ---- lock sections -------------------------------------------------------------------------------

  predicate Mapped(sh: Shared, e: EntryId)
    requires e < |sh.table|
  {
    var i := sh.table[e].instance;
    i in sh.entries && sh.entries[i] == e
  }

  function AddUsers(sh: Shared, e: EntryId, n: int): Shared
    requires e < |sh.table|
  {
    sh.(table := sh.table[e := sh.table[e].(users := sh.table[e].users + n)])
  }

  function Unmap(sh: Shared, e: EntryId): Shared
    requires e < |sh.table|
  {
    sh.(entries := sh.entries - {sh.table[e].instance})
  }

  /** The first section of `_checkout`: the entry, and whether the caller must build it. */
  function CheckoutSection(sh: Shared, instance: Instance): (Shared, EntryId, bool)
    requires instance in sh.entries ==> sh.entries[instance] < |sh.table|
  {
    if instance in sh.entries then (AddUsers(sh, sh.entries[instance], 1), sh.entries[instance], false)
    else
      var e := |sh.table|;
      (sh.(entries := sh.entries[instance := e], table := sh.table + [Entry(instance, 1, Pending)]), e, true)
  }

  /** The section of `_checkout` after a failed build. */
  function FailSection(sh: Shared, e: EntryId): Shared
    requires e < |sh.table|
  {
    var less := AddUsers(sh, e, -1);
    if Mapped(sh, e) then Unmap(less, e) else less
  }

  /** `_release_entry`: the result says that the caller must close the entry. */
  function ReleaseSection(sh: Shared, e: EntryId, invalidate: bool): (Shared, bool)
    requires e < |sh.table|
  {
    var less := AddUsers(sh, e, -1);
    var next := if invalidate && Mapped(sh, e) then Unmap(less, e) else less;
    (next, next.table[e].users == 0 && !Mapped(next, e))
  }

  /** The entries that `_prune` takes out: mapped under another instance and without users. */
  predicate Unused(sh: Shared, e: EntryId, instance: Instance)
    requires e < |sh.table|
  {
    Mapped(sh, e) && sh.table[e].instance != instance && sh.table[e].users == 0
  }

  function PruneSection(sh: Shared, instance: Instance): Shared
    requires forall i :: i in sh.entries ==> sh.entries[i] < |sh.table|
  {
    sh.(entries := map i | i in sh.entries && (i == instance || sh.table[sh.entries[i]].users != 0) :: sh.entries[i])
  }

  /** The list it returns, in whatever order the dictionary has. */
  ghost predicate PrunedList(sh: Shared, instance: Instance, queue: seq<EntryId>) {
    && Distinct(queue)
    && (forall e :: e in queue ==> e < |sh.table| && Unused(sh, e, instance))
    && forall e :: 0 <= e < |sh.table| && Unused(sh, e, instance) ==> e in queue
  }

  /** The list taken by `close` once `_active` is zero. */
  ghost predicate SweptList(sh: Shared, queue: seq<EntryId>) {
    && Distinct(queue)
    && (forall e :: e in queue ==> e < |sh.table| && Mapped(sh, e))
    && forall e :: 0 <= e < |sh.table| && Mapped(sh, e) ==> e in queue
  }

  // ---- threads -----------------------------------------------------------------------------------------

  datatype Pc =
    | Fetching(call: Call)                                     // before `ensure` of an attempt
    | Pruned(call: Call, instance: Instance, queue: seq<EntryId>)  // closing what `_prune` returned
    | Creating(call: Call, entry: EntryId)                         // in the factory
    | Waiting(call: Call, entry: EntryId)                          // at `ready.result()`
    | Failing(call: Call, entry: EntryId, outcome: Outcome)        // it raised
    | Using(call: Call, entry: EntryId)                            // in the transport
    | Releasing(call: Call, entry: EntryId, verdict: Verdict)      // in the `finally` clause
    | Retiring(call: Call, entry: EntryId, verdict: Verdict)       // closing its own entry
    | Finishing(call: Call, outcome: Outcome)
    | Done(call: Call, outcome: Outcome)
    | CloseWaiting                                             // `close`, waiting for `_active`
    | Sweeping(queue: seq<EntryId>)
    | CloseDone

  function Held(pc: Pc): Option<EntryId> {
    match pc
    case Creating(_, e) => Some(e)
    case Waiting(_, e) => Some(e)
    case Failing(_, e, _) => Some(e)
    case Using(_, e) => Some(e)
    case Releasing(_, e, _) => Some(e)
    case _ => None
  }

  function Queue(pc: Pc): seq<EntryId> {
    match pc
    case Pruned(_, _, queue) => queue
    case Retiring(_, e, _) => [e]
    case Sweeping(queue) => queue
    case _ => []
  }

  predicate IsActive(pc: Pc) {
    !pc.Done? && !IsCloser(pc)
  }

  predicate IsCloser(pc: Pc) {
    pc.CloseWaiting? || pc.Sweeping? || pc.CloseDone?
  }

  /** Where control goes once the attempt is judged and the `finally` clause is through. */
  function After(call: Call, verdict: Verdict): Pc {
    match verdict
    case Retry(_) => Fetching(call.(attempt := call.attempt + 1))
    case Finish(outcome) => Finishing(call, outcome)
  }

  /** History kept beside the program: who must close an entry, how often it was closed, and which
      thread created it. */
  datatype Owner = Mapping | Users | Queued(tid: Tid) | Gone

  datatype State = State(
    shared: Shared, threads: map<Tid, Pc>, owner: seq<Owner>, closes: seq<nat>, creator: seq<Tid>, closer: Option<Tid>)

  datatype Action =
    | Begin
    | EnsureFails(ensured: Ensured)
    | EnsureAndPrune(instance: Instance, queue: seq<EntryId>)
    | CloseNext
    | Checkout
    | Build(ready: Ready)
    | Await
    | Fail
    | Request(budget: bool, delivery: Delivery)
    | Release
    | Retire
    | Leave
    | EnterClose
    | Sweep(queue: seq<EntryId>)
    | FinishClose

  function Go(s: State, t: Tid, pc: Pc): State {
    s.(threads := s.threads[t := pc])
  }

  /** One entry closed: `_close_entry`. */
  function CloseEntry(s: State, e: EntryId): State
    requires e < |s.owner| && e < |s.closes|
  {
    s.(owner := s.owner[e := Gone], closes := s.closes[e := s.closes[e] + 1])
  }

  function Hand(owner: seq<Owner>, queue: seq<EntryId>, t: Tid): (r: seq<Owner>)
    ensures |r| == |owner|
    ensures forall e :: 0 <= e < |owner| ==> r[e] == if e in queue then Queued(t) else owner[e]
  {
    seq(|owner|, e requires 0 <= e < |owner| => if e in queue then Queued(t) else owner[e])
  }

  /** Ids in range; what the machine needs to be defined at all. */
  predicate Shape(s: State) {
    && |s.owner| == |s.closes| == |s.creator| == |s.shared.table|
    && (forall i :: i in s.shared.entries ==>
          s.shared.entries[i] < |s.shared.table| && s.shared.table[s.shared.entries[i]].instance == i)
    && forall t :: t in s.threads ==> InRange(s.threads[t], |s.shared.table|)
  }

  predicate InRange(pc: Pc, n: nat) {
    (Held(pc).Some? ==> Held(pc).value < n) && forall i :: 0 <= i < |Queue(pc)| ==> Queue(pc)[i] < n
  }

  ghost predicate Enabled(s: State, t: Tid, a: Action, retries: nat)
    requires Shape(s)
  {
    match a
    case Begin => t !in s.threads && !s.shared.closing && !s.shared.closed
    case EnsureFails(ensured) => At(s, t).Fetching? && ensured != Ensured.Instance
    case EnsureAndPrune(instance, queue) => At(s, t).Fetching? && PrunedList(s.shared, instance, queue)
    case CloseNext => (At(s, t).Pruned? || At(s, t).Sweeping?) && At(s, t).queue != []
    case Checkout => At(s, t).Pruned? && At(s, t).queue == []
    case Build(ready) => At(s, t).Creating? && ready != Pending && (ready.Failed? ==> ready.outcome != Response)
    case Await => At(s, t).Waiting? && s.shared.table[At(s, t).entry].ready != Pending
    case Fail => At(s, t).Failing?
    case Request(_, delivery) => At(s, t).Using? && PossibleDelivery(delivery, retries)
    case Release => At(s, t).Releasing?
    case Retire => At(s, t).Retiring?
    case Leave => At(s, t).Finishing?
    case EnterClose => t !in s.threads && !s.shared.closing && !s.shared.closed
    case Sweep(queue) => At(s, t).CloseWaiting? && s.shared.active == 0 && SweptList(s.shared, queue)
    case FinishClose => At(s, t).Sweeping? && At(s, t).queue == []
  }

  /** The thread's program counter; a thread that does not exist does nothing. */
  function At(s: State, t: Tid): Pc {
    if t in s.threads then s.threads[t] else CloseDone
  }

  function NextCheckout(s: State, t: Tid, call: Call, instance: Instance): State
    requires Shape(s)
  {
    var (next, e, creator) := CheckoutSection(s.shared, instance);
    if creator then
      Go(s.(shared := next, owner := s.owner + [Mapping], closes := s.closes + [0], creator := s.creator + [t]),
         t, Creating(call, e))
    else Go(s.(shared := next), t, Waiting(call, e))
  }

  function NextFail(s: State, t: Tid, call: Call, e: EntryId, outcome: Outcome): State
    requires Shape(s) && e < |s.shared.table|
  {
    var owner := if Mapped(s.shared, e) then s.owner[e := Users] else s.owner;
    Go(s.(shared := FailSection(s.shared, e), owner := owner), t, After(call, Judge(call.attempt, outcome)))
  }

  function NextRelease(s: State, t: Tid, call: Call, e: EntryId, verdict: Verdict): State
    requires Shape(s) && e < |s.shared.table|
  {
    var (next, retire) := ReleaseSection(s.shared, e, verdict == Retry(true));
    var owner := if retire then s.owner[e := Queued(t)]
                 else if Mapped(s.shared, e) && !Mapped(next, e) then s.owner[e := Users] else s.owner;
    Go(s.(shared := next, owner := owner), t, if retire then Retiring(call, e, verdict) else After(call, verdict))
  }

  function Next(s: State, t: Tid, a: Action): State
    requires Shape(s)
  {
    var sh, pc := s.shared, At(s, t);
    match a
    case Begin => Go(s.(shared := sh.(active := sh.active + 1)), t, Fetching(Call(0, 0, 0)))
    case EnsureFails(ensured) =>
      if pc.Fetching? && ensured != Ensured.Instance then Go(s, t, Finishing(pc.call, EnsureOutcome(ensured))) else s
    case EnsureAndPrune(instance, queue) =>
      if pc.Fetching? then
        Go(s.(shared := PruneSection(sh, instance), owner := Hand(s.owner, queue, t)), t, Pruned(pc.call, instance, queue))
      else s
    case CloseNext =>
      if pc.Pruned? && pc.queue != [] then
        assert Queue(pc)[0] < |s.owner|;
        Go(CloseEntry(s, pc.queue[0]), t, Pruned(pc.call, pc.instance, pc.queue[1..]))
      else if pc.Sweeping? && pc.queue != [] then
        assert Queue(pc)[0] < |s.owner|;
        Go(CloseEntry(s, pc.queue[0]), t, Sweeping(pc.queue[1..]))
      else s
    case Checkout => if pc.Pruned? then NextCheckout(s, t, pc.call, pc.instance) else s
    case Build(ready) =>
      if !pc.Creating? then s else
      Go(s.(shared := sh.(table := sh.table[pc.entry := sh.table[pc.entry].(ready := ready)])), t, Waiting(pc.call, pc.entry))
    case Await =>
      if !pc.Waiting? then s else
      (match sh.table[pc.entry].ready
       case Failed(outcome) => Go(s, t, Failing(pc.call, pc.entry, outcome))
       case _ => Go(s, t, Using(pc.call, pc.entry)))
    case Fail => if pc.Failing? then NextFail(s, t, pc.call, pc.entry, pc.outcome) else s
    case Request(budget, delivery) =>
      if !pc.Using? then s else
      var post := Submit(true, budget, delivery);
      var call := pc.call.(submitted := pc.call.submitted + post.submitted, executed := pc.call.executed + post.executed);
      Go(s, t, Releasing(call, pc.entry, Judge(pc.call.attempt, post.outcome)))
    case Release => if pc.Releasing? then NextRelease(s, t, pc.call, pc.entry, pc.verdict) else s
    case Retire =>
      if pc.Retiring? then
        assert Queue(pc)[0] < |s.owner|;
        Go(CloseEntry(s, pc.entry), t, After(pc.call, pc.verdict))
      else s
    case Leave =>
      if pc.Finishing? then Go(s.(shared := sh.(active := sh.active - 1)), t, Done(pc.call, pc.outcome)) else s
    case EnterClose => Go(s.(shared := sh.(closing := true), closer := Some(t)), t, CloseWaiting)
    case Sweep(queue) =>
      if pc.CloseWaiting? then Go(s.(shared := sh.(entries := map[]), owner := Hand(s.owner, queue, t)), t, Sweeping(queue)) else s
    case FinishClose => if pc.Sweeping? then Go(s.(shared := sh.(closed := true)), t, CloseDone) else s
  }

  // ---- invariant ---------------------------------------------------------------------------------------------

  function Holding(e: EntryId): Pc -> bool {
    (pc: Pc) => Held(pc) == Some(e)
  }

  function Holders(threads: map<Tid, Pc>, e: EntryId): set<Tid> {
    Where(threads, Holding(e))
  }

  /** `users` counts the threads that hold the entry. */
  predicate UsersCounted(s: State) {
    forall e :: 0 <= e < |s.shared.table| ==> s.shared.table[e].users == |Holders(s.threads, e)|
  }

  predicate ActiveCounted(s: State) {
    s.shared.active == Count(s.threads, IsActive)
  }

  /** The future of an entry fits the threads that hold it. */
  predicate ReadyFits(s: State)
    requires Shape(s)
  {
    forall t :: t in s.threads ==>
      var pc := s.threads[t];
      && (pc.Creating? ==> s.shared.table[pc.entry].ready == Pending && s.creator[pc.entry] == t)
      && (pc.Failing? ==> s.shared.table[pc.entry].ready.Failed?)
      && (pc.Using? || pc.Releasing? ==> s.shared.table[pc.entry].ready == Built)
  }

  /** What the owner of an entry says about it. */
  predicate EntryFits(sh: Shared, e: EntryId, owner: Owner, closes: nat)
    requires e < |sh.table|
  {
    var entry := sh.table[e];
    && (owner == Mapping <==> Mapped(sh, e))
    && (entry.ready == Pending ==> owner == Mapping)
    && (owner == Mapping && entry.users == 0 ==> entry.ready == Built)
    && (owner == Users && entry.ready == Built ==> entry.users > 0)
    && (owner.Queued? || owner == Gone ==> entry.ready == Built && entry.users == 0)
    && closes == (if owner == Gone then 1 else 0)
  }

  predicate EntriesFit(s: State)
    requires Shape(s)
  {
    forall e :: 0 <= e < |s.owner| ==> EntryFits(s.shared, e, s.owner[e], s.closes[e])
  }

  /** An entry waits to be closed in the list of its owner and in no other list. */
  predicate QueuesFit(s: State)
    requires Shape(s)
  {
    && (forall e :: 0 <= e < |s.owner| && s.owner[e].Queued? ==> s.owner[e].tid in s.threads && e in Queue(s.threads[s.owner[e].tid]))
    && forall t :: t in s.threads ==> QueueOwned(s, t, Queue(s.threads[t]))
  }

  predicate QueueOwned(s: State, t: Tid, queue: seq<EntryId>) {
    Distinct(queue) && forall e :: e in queue ==> 0 <= e < |s.owner| && s.owner[e] == Queued(t)
  }

  /** One thread closes; from its sweep on nothing is mapped and nobody is active. */
  predicate ClosingFits(s: State) {
    && (s.shared.closing <==> s.closer.Some?)
    && (forall t :: t in s.threads && IsCloser(s.threads[t]) ==> s.closer == Some(t))
    && (s.closer.Some? ==> s.closer.value in s.threads && IsCloser(s.threads[s.closer.value]))
    && (s.closer.Some? && !s.threads[s.closer.value].CloseWaiting? ==> s.shared.active == 0 && s.shared.entries == map[])
    && (s.shared.closed <==> s.closer.Some? && s.threads[s.closer.value].CloseDone?)
  }

  /** The counts of a call, by the place it is at. */
  predicate CallFits(pc: Pc, retries: nat) {
    match pc
    case Fetching(call) => Fresh(call)
    case Pruned(call, _, _) => Fresh(call)
    case Creating(call, _) => Fresh(call)
    case Waiting(call, _) => Fresh(call)
    case Failing(call, _, _) => Fresh(call)
    case Using(call, _) => Fresh(call)
    case Releasing(call, _, verdict) => Judged(call, verdict, retries)
    case Retiring(call, _, verdict) => Judged(call, verdict, retries)
    case Finishing(call, outcome) => AtMostOnce(CallResult(outcome, call.submitted, call.executed), retries)
    case Done(call, outcome) => AtMostOnce(CallResult(outcome, call.submitted, call.executed), retries)
    case _ => true
  }

  predicate Fresh(call: Call) {
    call.attempt <= 1 && call.submitted <= call.attempt && call.executed == 0
  }

  predicate Judged(call: Call, verdict: Verdict, retries: nat) {
    match verdict
    case Retry(_) => call.attempt == 0 && call.submitted <= 1 && call.executed == 0
    case Finish(outcome) => AtMostOnce(CallResult(outcome, call.submitted, call.executed), retries)
  }

  predicate CallsFit(s: State, retries: nat) {
    forall t :: t in s.threads ==> CallFits(s.threads[t], retries)
  }

  predicate Inv(s: State, retries: nat) {
    Shape(s) && UsersCounted(s) && ActiveCounted(s) && ReadyFits(s) && EntriesFit(s) && QueuesFit(s) && ClosingFits(s) && CallsFit(s, retries)
  }

  /** Right after the constructor: no entry, or the one it checked out and released. */
  predicate Init(s: State) {
    && s.threads == map[] && s.closer == None && s.shared.active == 0 && !s.shared.closing && !s.shared.closed
    && |s.owner| == |s.closes| == |s.creator| == |s.shared.table| <= 1
    && (|s.shared.table| == 0 ==> s.shared.entries == map[])
    && (|s.shared.table| == 1 ==>
          && s.shared.table[0].users == 0 && s.shared.table[0].ready == Built
          && s.shared.entries == map[s.shared.table[0].instance := 0] && s.owner[0] == Mapping && s.closes[0] == 0)
  }

  lemma InitInv(s: State, retries: nat)
    requires Init(s)
    ensures Inv(s, retries)
  {
  }

  // ---- every step keeps the invariant ---------------------------------------------------------------------------

  /** The two counts after one thread moved, from the change to the numbers. */
  lemma CountsKept(s: State, next: State, t: Tid, pc: Pc)
    requires Shape(s) && UsersCounted(s) && ActiveCounted(s)
    requires next.threads == s.threads[t := pc] && |s.shared.table| <= |next.shared.table|
    requires forall e :: 0 <= e < |s.shared.table| ==>
               next.shared.table[e].users ==
               s.shared.table[e].users + Bit(Held(pc) == Some(e)) - Bit(t in s.threads && Held(s.threads[t]) == Some(e))
    requires forall e :: |s.shared.table| <= e < |next.shared.table| ==>
               next.shared.table[e].users == Bit(Held(pc) == Some(e)) && !(t in s.threads && Held(s.threads[t]) == Some(e))
    requires next.shared.active == s.shared.active + Bit(IsActive(pc)) - Bit(t in s.threads && IsActive(s.threads[t]))
    ensures UsersCounted(next) && ActiveCounted(next)
  {
    hide Held, IsActive, Queue, InRange;
    Moved(s.threads, t, pc, IsActive);
    forall e | 0 <= e < |next.shared.table|
      ensures next.shared.table[e].users == |Holders(next.threads, e)|
    {
      Moved(s.threads, t, pc, Holding(e));
      if e >= |s.shared.table| {
        NobodyHolds(s, e);
      }
    }
  }

  lemma NobodyHolds(s: State, e: EntryId)
    requires Shape(s) && e >= |s.shared.table|
    ensures Holders(s.threads, e) == {}
  {
    hide Held, Queue;
    assert forall t :: t in s.threads ==> InRange(s.threads[t], |s.shared.table|);
  }

  lemma ReadyKept(s: State, next: State, t: Tid, pc: Pc)
    requires Shape(s) && Shape(next) && ReadyFits(s) && next.threads == s.threads[t := pc]
    requires |s.shared.table| <= |next.shared.table| && InRange(pc, |next.shared.table|)
    requires forall e :: 0 <= e < |s.creator| ==>
               && next.creator[e] == s.creator[e]
               && (next.shared.table[e].ready == s.shared.table[e].ready || (s.shared.table[e].ready == Pending && s.creator[e] == t))
    requires pc.Creating? ==> next.shared.table[pc.entry].ready == Pending && next.creator[pc.entry] == t
    requires pc.Failing? ==> next.shared.table[pc.entry].ready.Failed?
    requires pc.Using? || pc.Releasing? ==> next.shared.table[pc.entry].ready == Built
    ensures ReadyFits(next)
  {
    hide Queue;
    assert forall u :: u in s.threads ==> InRange(s.threads[u], |s.shared.table|);
  }

  lemma QueuesKept(s: State, next: State, t: Tid, pc: Pc)
    requires Shape(s) && Shape(next) && QueuesFit(s) && next.threads == s.threads[t := pc]
    requires |s.owner| <= |next.owner| && Distinct(Queue(pc))
    requires forall e :: 0 <= e < |next.owner| ==>
               && (next.owner[e] == Queued(t) <==> e in Queue(pc))
               && (next.owner[e].Queued? && next.owner[e].tid != t ==> e < |s.owner| && s.owner[e] == next.owner[e])
    requires forall e :: 0 <= e < |s.owner| && s.owner[e].Queued? && s.owner[e].tid != t ==> next.owner[e] == s.owner[e]
    requires forall e :: e in Queue(pc) ==> e < |next.owner|
    ensures QueuesFit(next)
  {
    hide Queue, Held, InRange;
  }

  lemma ActiveThread(s: State, t: Tid)
    requires ActiveCounted(s) && t in s.threads && IsActive(s.threads[t])
    ensures s.shared.active > 0
  {
    Member(s.threads, t, IsActive);
  }

  lemma ClosingKept(s: State, next: State, t: Tid, pc: Pc)
    requires ActiveCounted(s) && ClosingFits(s) && next.threads == s.threads[t := pc] && !IsCloser(pc)
    requires t !in s.threads ==> !s.shared.closing
    requires t in s.threads ==> IsActive(s.threads[t])
    requires next.closer == s.closer && next.shared.closing == s.shared.closing && next.shared.closed == s.shared.closed
    ensures ClosingFits(next)
  {
    if t in s.threads {
      ActiveThread(s, t);
    }
  }

  /** The parts of the invariant that follow from the thread that moved; a request thread. */
  lemma RequestThread(s: State, next: State, t: Tid, pc: Pc, retries: nat)
    requires Inv(s, retries) && t in s.threads && IsActive(s.threads[t])
    requires next.threads == s.threads[t := pc] && !IsCloser(pc) && CallFits(pc, retries)
    requires next.closer == s.closer && next.shared.closing == s.shared.closing && next.shared.closed == s.shared.closed
    ensures ClosingFits(next) && CallsFit(next, retries)
  {
    ClosingKept(s, next, t, pc);
    hide *;
    CallsKept(s, next, t, pc, retries);
  }

  lemma CallsKept(s: State, next: State, t: Tid, pc: Pc, retries: nat)
    requires CallsFit(s, retries) && next.threads == s.threads[t := pc] && CallFits(pc, retries)
    ensures CallsFit(next, retries)
  {
    hide CallFits;
  }

  /** A thread changes place without touching anything shared. */
  lemma LocalMove(s: State, t: Tid, pc: Pc, retries: nat)
    requires Inv(s, retries) && t in s.threads && InRange(pc, |s.shared.table|) && CallFits(pc, retries)
    requires Held(pc) == Held(s.threads[t]) && Queue(pc) == Queue(s.threads[t])
    requires IsActive(pc) && IsActive(s.threads[t]) && !pc.Creating?
    requires pc.Failing? ==> s.shared.table[pc.entry].ready.Failed?
    requires pc.Using? || pc.Releasing? ==> s.shared.table[pc.entry].ready == Built
    ensures Inv(Go(s, t, pc), retries)
  {
    hide CallFits, Held, Queue, InRange, EntryFits, Distinct, Mapped;
    var next := Go(s, t, pc);
    CountsKept(s, next, t, pc);
    assert Shape(next);
    ReadyKept(s, next, t, pc);
    assert QueueOwned(s, t, Queue(pc));
    QueuesKept(s, next, t, pc);
    RequestThread(s, next, t, pc, retries);
  }

  lemma EnsureFailsKeeps(s: State, t: Tid, ensured: Ensured, retries: nat)
    requires Inv(s, retries) && Enabled(s, t, EnsureFails(ensured), retries)
    ensures Inv(Next(s, t, EnsureFails(ensured)), retries)
  {
    var pc := Finishing(At(s, t).call, EnsureOutcome(ensured));
    assert CallFits(At(s, t), retries);
    hide EntryFits, Distinct, Mapped, PrunedList, SweptList, PossibleDelivery;
    LocalMove(s, t, pc, retries);
  }

  lemma AwaitKeeps(s: State, t: Tid, retries: nat)
    requires Inv(s, retries) && Enabled(s, t, Await, retries)
    ensures Inv(Next(s, t, Await), retries)
  {
    var pc := Next(s, t, Await).threads[t];
    LocalMove(s, t, pc, retries);
  }

  /** The judgement of a POST made by a call that has executed nothing so far. */
  lemma JudgedPost(call: Call, budget: bool, delivery: Delivery, retries: nat)
    requires Fresh(call) && PossibleDelivery(delivery, retries)
    ensures var post := Submit(true, budget, delivery);
            Judged(call.(submitted := call.submitted + post.submitted, executed := call.executed + post.executed),
                   Judge(call.attempt, post.outcome), retries)
  {
    PostCounts(true, budget, delivery, retries);
    hide Submit;
  }

  lemma RequestKeeps(s: State, t: Tid, budget: bool, delivery: Delivery, retries: nat)
    requires Inv(s, retries) && Enabled(s, t, Request(budget, delivery), retries)
    ensures Inv(Next(s, t, Request(budget, delivery)), retries)
  {
    hide Submit, Judge, EntryFits, PossibleDelivery, Distinct, Mapped, UsersCounted, ActiveCounted, EntriesFit, QueuesFit, ClosingFits,
      Fresh, PruneSection, PrunedList, SweptList, CheckoutSection, FailSection, ReleaseSection, After;
    var pc := At(s, t);
    assert Fresh(pc.call) by {
      assert CallFits(pc, retries);
    }
    JudgedPost(pc.call, budget, delivery, retries);
    assert s.shared.table[pc.entry].ready == Built;
    hide CallsFit;
    LocalMove(s, t, Next(s, t, Request(budget, delivery)).threads[t], retries);
  }

  lemma EntriesSame(s: State, next: State)
    requires Shape(s) && Shape(next) && EntriesFit(s)
    requires next.shared.entries == s.shared.entries && next.shared.table == s.shared.table
    requires next.owner == s.owner && next.closes == s.closes
    ensures EntriesFit(next)
  {
    forall e | 0 <= e < |next.owner|
      ensures EntryFits(next.shared, e, next.owner[e], next.closes[e])
    {
      assert EntryFits(s.shared, e, s.owner[e], s.closes[e]);
    }
  }

  lemma BeginKeeps(s: State, t: Tid, retries: nat)
    requires Inv(s, retries) && Enabled(s, t, Begin, retries)
    ensures Inv(Next(s, t, Begin), retries)
  {
    hide PruneSection, PrunedList, SweptList, Submit, Judge, CheckoutSection, FailSection, ReleaseSection, PossibleDelivery;
    var next, pc := Next(s, t, Begin), Fetching(Call(0, 0, 0));
    EntriesSame(s, next);
    hide EntryFits, Mapped;
    CountsKept(s, next, t, pc);
    ReadyKept(s, next, t, pc);
    NoQueue(s, t);
    QueuesKept(s, next, t, pc);
    ClosingKept(s, next, t, pc);
    CallsKept(s, next, t, pc, retries);
  }

  /** A thread that does not exist or holds no list owns no entry. */
  lemma NoQueue(s: State, t: Tid)
    requires Shape(s) && QueuesFit(s) && (t in s.threads ==> Queue(s.threads[t]) == [])
    ensures forall e :: 0 <= e < |s.owner| ==> s.owner[e] != Queued(t)
  {
    hide Queue;
  }

  lemma LeaveKeeps(s: State, t: Tid, retries: nat)
    requires Inv(s, retries) && Enabled(s, t, Leave, retries)
    ensures Inv(Next(s, t, Leave), retries)
  {
    hide PruneSection, PrunedList, SweptList, Submit, Judge, CheckoutSection, FailSection, ReleaseSection, PossibleDelivery;
    hide EntryFits, Mapped, AtMostOnce, EntriesFit, UsersCounted, ActiveCounted, CallsFit, ClosingFits, QueuesFit;
    var next, pc := Next(s, t, Leave), Done(At(s, t).call, At(s, t).outcome);
    CallAt(s, t, retries);
    EntriesSame(s, next);
    CountsKept(s, next, t, pc);
    ReadyKept(s, next, t, pc);
    NoQueue(s, t);
    QueuesKept(s, next, t, pc);
    RequestThread(s, next, t, pc, retries);
  }

  lemma BuildKeeps(s: State, t: Tid, ready: Ready, retries: nat)
    requires Inv(s, retries) && Enabled(s, t, Build(ready), retries)
    ensures Inv(Next(s, t, Build(ready)), retries)
  {
    hide PruneSection, PrunedList, SweptList, Submit, Judge, CheckoutSection, FailSection, ReleaseSection, PossibleDelivery;
    hide EntryFits, Mapped, EntriesFit, UsersCounted, ActiveCounted, CallsFit, ClosingFits, QueuesFit;
    var was := At(s, t);
    var next, pc := Next(s, t, Build(ready)), Waiting(was.call, was.entry);
    CallAt(s, t, retries);
    CountsKept(s, next, t, pc);
    HeldHasUser(s, t, was.entry);
    EntryStays(s, was.entry, ready, next);
    ReadyKept(s, next, t, pc);
    NoQueue(s, t);
    QueuesKept(s, next, t, pc);
    RequestThread(s, next, t, pc, retries);
  }

  lemma HeldHasUser(s: State, t: Tid, e: EntryId)
    requires Shape(s) && UsersCounted(s) && t in s.threads && Held(s.threads[t]) == Some(e)
    ensures e < |s.shared.table| && s.shared.table[e].users > 0
  {
    assert InRange(s.threads[t], |s.shared.table|);
    assert t in Holders(s.threads, e);
  }

  /** Resolving the future of an entry that has a user changes nothing else about the entries. */
  lemma EntryStays(s: State, e: EntryId, ready: Ready, next: State)
    requires Shape(s) && Shape(next) && EntriesFit(s) && e < |s.shared.table| && s.shared.table[e].users > 0
    requires s.shared.table[e].ready == Pending && ready != Pending
    requires next.shared == s.shared.(table := s.shared.table[e := s.shared.table[e].(ready := ready)])
    requires next.owner == s.owner && next.closes == s.closes
    ensures EntriesFit(next)
  {
    assert EntryFits(s.shared, e, s.owner[e], s.closes[e]);
    forall x | 0 <= x < |next.owner|
      ensures EntryFits(next.shared, x, next.owner[x], next.closes[x])
    {
      assert EntryFits(s.shared, x, s.owner[x], s.closes[x]);
      assert Mapped(next.shared, x) == Mapped(s.shared, x);
    }
  }

  lemma EnsureAndPruneKeeps(s: State, t: Tid, instance: Instance, queue: seq<EntryId>, retries: nat)
    requires Inv(s, retries) && Enabled(s, t, EnsureAndPrune(instance, queue), retries)
    ensures Inv(Next(s, t, EnsureAndPrune(instance, queue)), retries)
  {
    var next, pc := Next(s, t, EnsureAndPrune(instance, queue)), Pruned(At(s, t).call, instance, queue);
    assert InRange(pc, |s.shared.table|) by {
      assert forall i :: 0 <= i < |queue| ==> queue[i] in queue;
    }
    PrunedEntries(s, t, instance, queue, next);
    hide EntryFits, Mapped, Unused, Distinct, PruneSection;
    assert forall i :: 0 <= i < |queue| ==> queue[i] in queue;
    CountsKept(s, next, t, pc);
    ReadyKept(s, next, t, pc);
    NoQueue(s, t);
    QueuesKept(s, next, t, pc);
    assert CallFits(s.threads[t], retries);
    RequestThread(s, next, t, pc, retries);
  }

  lemma PrunedEntries(s: State, t: Tid, instance: Instance, queue: seq<EntryId>, next: State)
    requires Shape(s) && EntriesFit(s) && PrunedList(s.shared, instance, queue)
    requires |next.owner| == |s.owner| && next.closes == s.closes && next.creator == s.creator
    requires next.shared == PruneSection(s.shared, instance) && next.owner == Hand(s.owner, queue, t)
    requires forall u :: u in next.threads ==> InRange(next.threads[u], |s.shared.table|)
    ensures Shape(next) && EntriesFit(next)
    ensures forall e :: e in queue ==> s.owner[e] == Mapping
  {
    hide Held, Queue, Distinct;
    forall e | 0 <= e < |next.owner|
      ensures EntryFits(next.shared, e, next.owner[e], next.closes[e])
      ensures e in queue ==> s.owner[e] == Mapping
    {
      assert EntryFits(s.shared, e, s.owner[e], s.closes[e]);
      assert Mapped(next.shared, e) <==> Mapped(s.shared, e) && !Unused(s.shared, e, instance);
    }
  }

  /** Closing the first entry of a list. */
  lemma CloseFirst(s: State, t: Tid, pc: Pc)
    requires Shape(s) && EntriesFit(s) && QueuesFit(s) && t in s.threads
    requires Queue(s.threads[t]) != [] && Queue(pc) == Queue(s.threads[t])[1..] && InRange(pc, |s.shared.table|)
    ensures Queue(s.threads[t])[0] < |s.shared.table|
    ensures var e := Queue(s.threads[t])[0];
            var next := Go(CloseEntry(s, e), t, pc);
            && Shape(next) && EntriesFit(next) && QueuesFit(next)
            && s.owner[e] == Queued(t) && s.shared.table[e].users == 0 && s.shared.table[e].ready == Built
  {
    hide Queue, InRange, Held;
    var queue := Queue(s.threads[t]);
    var e := queue[0];
    assert QueueOwned(s, t, queue);
    assert e in queue;
    var next := Go(CloseEntry(s, e), t, pc);
    assert EntryFits(s.shared, e, s.owner[e], s.closes[e]);
    forall x | 0 <= x < |next.owner|
      ensures EntryFits(next.shared, x, next.owner[x], next.closes[x])
    {
      assert EntryFits(s.shared, x, s.owner[x], s.closes[x]);
    }
    TailOwned(queue);
    hide EntryFits;
    assert forall x :: x in queue <==> x == e || x in queue[1..];
    QueuesKept(s, next, t, pc);
  }

  lemma TailOwned(queue: seq<EntryId>)
    requires Distinct(queue) && queue != []
    ensures Distinct(queue[1..]) && queue[0] !in queue[1..]
  {
  }

  /** A request thread closes the first entry of its list and goes on without it. */
  lemma RequestCloses(s: State, t: Tid, pc: Pc, retries: nat)
    requires Inv(s, retries) && t in s.threads && IsActive(s.threads[t]) && IsActive(pc)
    requires Queue(s.threads[t]) != [] && Queue(pc) == Queue(s.threads[t])[1..] && InRange(pc, |s.shared.table|)
    requires Held(s.threads[t]) == None && Held(pc) == None && CallFits(pc, retries)
    ensures Queue(s.threads[t])[0] < |s.shared.table|
    ensures Inv(Go(CloseEntry(s, Queue(s.threads[t])[0]), t, pc), retries)
  {
    CloseFirst(s, t, pc);
    var next := Go(CloseEntry(s, Queue(s.threads[t])[0]), t, pc);
    hide EntryFits, Queue, InRange, CallFits, Distinct, Mapped;
    CountsKept(s, next, t, pc);
    ReadyKept(s, next, t, pc);
    RequestThread(s, next, t, pc, retries);
  }

  lemma RetireKeeps(s: State, t: Tid, retries: nat)
    requires Inv(s, retries) && Enabled(s, t, Retire, retries)
    ensures Inv(Next(s, t, Retire), retries)
  {
    hide EntryFits, Distinct, Mapped, AtMostOnce;
    var was := s.threads[t];
    assert CallFits(was, retries);
    RequestCloses(s, t, After(was.call, was.verdict), retries);
  }

  lemma CloseNextKeeps(s: State, t: Tid, retries: nat)
    requires Inv(s, retries) && Enabled(s, t, CloseNext, retries)
    ensures Inv(Next(s, t, CloseNext), retries)
  {
    hide EntryFits, Distinct, Mapped, AtMostOnce;
    var was := s.threads[t];
    assert CallFits(was, retries) && InRange(was, |s.shared.table|);
    if was.Pruned? {
      var pc := Pruned(was.call, was.instance, was.queue[1..]);
      assert forall i :: 0 <= i < |pc.queue| ==> pc.queue[i] == was.queue[i + 1] && Queue(was)[i + 1] == was.queue[i + 1];
      RequestCloses(s, t, pc, retries);
    } else {
      var pc := Sweeping(was.queue[1..]);
      assert forall i :: 0 <= i < |pc.queue| ==> pc.queue[i] == was.queue[i + 1] && Queue(was)[i + 1] == was.queue[i + 1];
      SweeperCloses(s, t, pc, retries);
    }
  }

  lemma SweeperCloses(s: State, t: Tid, pc: Pc, retries: nat)
    requires Inv(s, retries) && t in s.threads && s.threads[t].Sweeping? && s.threads[t].queue != []
    requires pc == Sweeping(s.threads[t].queue[1..]) && InRange(pc, |s.shared.table|)
    ensures s.threads[t].queue[0] < |s.shared.table|
    ensures Inv(Go(CloseEntry(s, s.threads[t].queue[0]), t, pc), retries)
  {
    CloseFirst(s, t, pc);
    var next := Go(CloseEntry(s, s.threads[t].queue[0]), t, pc);
    hide EntryFits, InRange, Distinct, Mapped;
    CountsKept(s, next, t, pc);
    ReadyKept(s, next, t, pc);
    CallsKept(s, next, t, pc, retries);
  }

  lemma CallAt(s: State, t: Tid, retries: nat)
    requires Inv(s, retries) && t in s.threads
    ensures CallFits(s.threads[t], retries) && InRange(s.threads[t], |s.shared.table|)
    ensures s.threads[t].Failing? ==> s.shared.table[s.threads[t].entry].ready.Failed?
    ensures s.threads[t].Releasing? ==> s.shared.table[s.threads[t].entry].ready == Built
  {
    hide CallFits, Queue, EntryFits;
  }

  lemma NoNegativeUsers(s: State)
    requires UsersCounted(s)
    ensures forall e :: 0 <= e < |s.shared.table| ==> s.shared.table[e].users >= 0
  {
  }

  /** The parts together, for a request thread that had no list to close. */
  lemma Assemble(s: State, next: State, t: Tid, pc: Pc, retries: nat)
    requires Inv(s, retries) && Shape(next) && EntriesFit(next) && t in s.threads && IsActive(s.threads[t]) && IsActive(pc)
    requires Queue(s.threads[t]) == [] && Distinct(Queue(pc)) && CallFits(pc, retries) && InRange(pc, |next.shared.table|)
    requires next.threads == s.threads[t := pc] && |s.shared.table| <= |next.shared.table|
    requires next.closer == s.closer && next.shared.closing == s.shared.closing && next.shared.closed == s.shared.closed
    requires next.shared.active == s.shared.active
    requires forall e :: 0 <= e < |s.shared.table| ==>
               && next.shared.table[e].users ==
                  s.shared.table[e].users + Bit(Held(pc) == Some(e)) - Bit(Held(s.threads[t]) == Some(e))
               && next.shared.table[e].ready == s.shared.table[e].ready && next.creator[e] == s.creator[e]
               && (next.owner[e] == s.owner[e] || next.owner[e] == Users || next.owner[e] == Queued(t))
               && (s.owner[e].Queued? ==> next.owner[e] == s.owner[e])
    requires forall e :: |s.shared.table| <= e < |next.shared.table| ==>
               next.shared.table[e].users == Bit(Held(pc) == Some(e)) && Held(s.threads[t]) != Some(e) && next.owner[e] == Mapping
    requires pc.Creating? ==> next.shared.table[pc.entry].ready == Pending && next.creator[pc.entry] == t
    requires !pc.Failing? && !pc.Using? && !pc.Releasing?
    requires forall e :: 0 <= e < |next.owner| ==> (next.owner[e] == Queued(t) <==> e in Queue(pc))
    ensures Inv(next, retries)
  {
    hide EntryFits, CallFits, Held, Distinct, Mapped;
    CountsKept(s, next, t, pc);
    ReadyKept(s, next, t, pc);
    NoQueue(s, t);
    QueuesKept(s, next, t, pc);
    RequestThread(s, next, t, pc, retries);
  }

  lemma CheckoutKeeps(s: State, t: Tid, call: Call, instance: Instance, retries: nat)
    requires Inv(s, retries) && t in s.threads && s.threads[t] == Pruned(call, instance, [])
    ensures Inv(NextCheckout(s, t, call, instance), retries)
  {
    hide UsersCounted, ActiveCounted, ReadyFits, EntriesFit, QueuesFit, ClosingFits, CallsFit, EntryFits;
    var next := NextCheckout(s, t, call, instance);
    CallAt(s, t, retries);
    NoNegativeUsers(s);
    NoQueue(s, t);
    if instance in s.shared.entries {
      var e := s.shared.entries[instance];
      UserJoins(s, e, next);
      Assemble(s, next, t, Waiting(call, e), retries);
    } else {
      EntryAdded(s, instance, t, next);
      Assemble(s, next, t, Creating(call, |s.shared.table|), retries);
    }
  }

  /** One more user of a mapped entry. */
  lemma UserJoins(s: State, e: EntryId, next: State)
    requires Shape(s) && EntriesFit(s) && e < |s.shared.table| && Mapped(s.shared, e)
    requires forall x :: 0 <= x < |s.shared.table| ==> s.shared.table[x].users >= 0
    requires next == s.(shared := AddUsers(s.shared, e, 1), threads := next.threads) && Shape(next)
    ensures EntriesFit(next)
  {
    hide Held, Queue, InRange;
    forall x | 0 <= x < |next.owner|
      ensures EntryFits(next.shared, x, next.owner[x], next.closes[x])
    {
      assert EntryFits(s.shared, x, s.owner[x], s.closes[x]);
    }
  }

  /** A new entry under an instance that had none. */
  lemma EntryAdded(s: State, instance: Instance, t: Tid, next: State)
    requires Shape(s) && EntriesFit(s) && instance !in s.shared.entries && Shape(next)
    requires next.shared == CheckoutSection(s.shared, instance).0
    requires next.owner == s.owner + [Mapping] && next.closes == s.closes + [0]
    ensures EntriesFit(next)
  {
    hide Held, Queue, InRange;
    forall x | 0 <= x < |next.owner|
      ensures EntryFits(next.shared, x, next.owner[x], next.closes[x])
    {
      if x < |s.owner| {
        assert EntryFits(s.shared, x, s.owner[x], s.closes[x]);
        assert Mapped(next.shared, x) == Mapped(s.shared, x);
      }
    }
  }

  lemma FailKeeps(s: State, t: Tid, call: Call, e: EntryId, outcome: Outcome, retries: nat)
    requires Inv(s, retries) && t in s.threads && s.threads[t] == Failing(call, e, outcome)
    ensures e < |s.shared.table| && Inv(NextFail(s, t, call, e, outcome), retries)
  {
    hide UsersCounted, ActiveCounted, ReadyFits, EntriesFit, QueuesFit, ClosingFits, CallsFit, EntryFits, Judge, AtMostOnce;
    CallAt(s, t, retries);
    var next := NextFail(s, t, call, e, outcome);
    FailedPc(call, outcome, retries);
    HeldHasUser(s, t, e);
    NoQueue(s, t);
    OwnerOfUsed(s, e);
    hide After;
    UserLeaves(s, e, true, next.owner[e], next);
    Assemble(s, next, t, After(call, Judge(call.attempt, outcome)), retries);
  }

  lemma FailedPc(call: Call, outcome: Outcome, retries: nat)
    requires Fresh(call)
    ensures var pc := After(call, Judge(call.attempt, outcome));
            CallFits(pc, retries) && Held(pc) == None && Queue(pc) == [] && IsActive(pc) && !IsCloser(pc) && !pc.Creating?
  {
  }

  /** An entry with users is owned by the dictionary or by its users. */
  lemma OwnerOfUsed(s: State, e: EntryId)
    requires Shape(s) && EntriesFit(s) && e < |s.shared.table| && s.shared.table[e].users > 0
    ensures s.owner[e] == if Mapped(s.shared, e) then Mapping else Users
  {
    assert EntryFits(s.shared, e, s.owner[e], s.closes[e]);
  }

  /** One user less, with or without taking the entry out of the dictionary. */
  lemma UserLeaves(s: State, e: EntryId, unmap: bool, owner: Owner, next: State)
    requires Shape(s) && EntriesFit(s) && e < |s.shared.table| && s.shared.table[e].users > 0 && Shape(next)
    requires s.shared.table[e].ready != Pending && (s.shared.table[e].ready.Failed? ==> unmap)
    requires var less := AddUsers(s.shared, e, -1);
             next.shared == if unmap && Mapped(s.shared, e) then Unmap(less, e) else less
    requires next.owner == s.owner[e := owner] && next.closes == s.closes
    requires owner == if s.shared.table[e].users == 1 && s.shared.table[e].ready == Built && !Mapped(next.shared, e) then owner
                      else if unmap && Mapped(s.shared, e) then Users else s.owner[e]
    requires s.shared.table[e].users == 1 && s.shared.table[e].ready == Built && !Mapped(next.shared, e) ==> owner.Queued?
    ensures EntriesFit(next)
  {
    hide Held, Queue, InRange;
    forall x | 0 <= x < |next.owner|
      ensures EntryFits(next.shared, x, next.owner[x], next.closes[x])
    {
      assert EntryFits(s.shared, x, s.owner[x], s.closes[x]);
      assert x != e ==> Mapped(next.shared, x) == Mapped(s.shared, x);
    }
  }

  lemma ReleaseKeeps(s: State, t: Tid, call: Call, e: EntryId, verdict: Verdict, retries: nat)
    requires Inv(s, retries) && t in s.threads && s.threads[t] == Releasing(call, e, verdict)
    ensures e < |s.shared.table| && Inv(NextRelease(s, t, call, e, verdict), retries)
  {
    hide UsersCounted, ActiveCounted, ReadyFits, EntriesFit, QueuesFit, ClosingFits, CallsFit, EntryFits, After, Judged,
      CheckoutSection, FailSection, PruneSection, PrunedList, SweptList, Submit, Judge, AtMostOnce;
    CallAt(s, t, retries);
    var next := NextRelease(s, t, call, e, verdict);
    ReleasedPc(call, e, verdict, retries);
    HeldHasUser(s, t, e);
    NoQueue(s, t);
    OwnerOfUsed(s, e);
    UserLeaves(s, e, verdict == Retry(true), next.owner[e], next);
    Assemble(s, next, t, next.threads[t], retries);
  }

  lemma ReleasedPc(call: Call, e: EntryId, verdict: Verdict, retries: nat)
    requires Judged(call, verdict, retries)
    ensures CallFits(After(call, verdict), retries) && CallFits(Retiring(call, e, verdict), retries)
    ensures var pc := After(call, verdict);
            Held(pc) == None && Queue(pc) == [] && IsActive(pc) && !IsCloser(pc) && !pc.Creating?
  {
  }

  lemma EnterCloseKeeps(s: State, t: Tid, retries: nat)
    requires Inv(s, retries) && Enabled(s, t, EnterClose, retries)
    ensures Inv(Next(s, t, EnterClose), retries)
  {
    hide PruneSection, PrunedList, SweptList, Submit, Judge, CheckoutSection, FailSection, ReleaseSection, PossibleDelivery;
    var next, pc := Next(s, t, EnterClose), CloseWaiting;
    EntriesSame(s, next);
    hide EntryFits, Mapped;
    CountsKept(s, next, t, pc);
    ReadyKept(s, next, t, pc);
    NoQueue(s, t);
    QueuesKept(s, next, t, pc);
    CallsKept(s, next, t, pc, retries);
  }

  lemma NobodyActive(s: State, e: EntryId)
    requires Shape(s) && UsersCounted(s) && ActiveCounted(s) && s.shared.active == 0 && e < |s.shared.table|
    ensures s.shared.table[e].users == 0
  {
    NoMember(s.threads, IsActive);
    assert Holders(s.threads, e) == {};
  }

  lemma SweepKeeps(s: State, t: Tid, queue: seq<EntryId>, retries: nat)
    requires Inv(s, retries) && Enabled(s, t, Sweep(queue), retries)
    ensures Inv(Next(s, t, Sweep(queue)), retries)
  {
    hide EntryFits, Mapped, Distinct, ClosingFits, UsersCounted, EntriesFit, CallsFit, QueuesFit, ReadyFits, ActiveCounted, PruneSection,
      PrunedList, Submit, Judge, After, CheckoutSection, FailSection, ReleaseSection;
    var next, pc := Next(s, t, Sweep(queue)), Sweeping(queue);
    SweptEntries(s, t, queue, next);
    SweepClosing(s, t, queue, next);
    assert forall i :: 0 <= i < |queue| ==> queue[i] in queue;
    NoQueue(s, t);
    CountsKept(s, next, t, pc);
    ReadyKept(s, next, t, pc);
    QueuesKept(s, next, t, pc);
    CallsKept(s, next, t, pc, retries);
  }

  lemma SweepClosing(s: State, t: Tid, queue: seq<EntryId>, next: State)
    requires ClosingFits(s) && s.shared.active == 0 && t in s.threads && s.threads[t].CloseWaiting?
    requires next == s.(shared := s.shared.(entries := map[]), owner := Hand(s.owner, queue, t), threads := s.threads[t := Sweeping(queue)])
    ensures ClosingFits(next)
  {
  }

  lemma SweptEntries(s: State, t: Tid, queue: seq<EntryId>, next: State)
    requires Shape(s) && UsersCounted(s) && ActiveCounted(s) && EntriesFit(s) && s.shared.active == 0 && SweptList(s.shared, queue)
    requires next == s.(shared := s.shared.(entries := map[]), owner := Hand(s.owner, queue, t), threads := s.threads[t := Sweeping(queue)])
    ensures Shape(next) && EntriesFit(next)
    ensures forall e :: e in queue ==> s.owner[e] == Mapping
  {
    assert forall i :: 0 <= i < |queue| ==> queue[i] in queue;
    hide Distinct, Holders, Count;
    forall e | 0 <= e < |next.owner|
      ensures EntryFits(next.shared, e, next.owner[e], next.closes[e])
      ensures e in queue ==> s.owner[e] == Mapping
    {
      assert EntryFits(s.shared, e, s.owner[e], s.closes[e]);
      NobodyActive(s, e);
    }
  }

  lemma FinishCloseKeeps(s: State, t: Tid, retries: nat)
    requires Inv(s, retries) && Enabled(s, t, FinishClose, retries)
    ensures Inv(Next(s, t, FinishClose), retries)
  {
    hide PruneSection, PrunedList, SweptList, Submit, Judge, CheckoutSection, FailSection, ReleaseSection, PossibleDelivery;
    var next, pc := Next(s, t, FinishClose), CloseDone;
    EntriesSame(s, next);
    hide EntryFits, Mapped;
    CountsKept(s, next, t, pc);
    ReadyKept(s, next, t, pc);
    NoQueue(s, t);
    QueuesKept(s, next, t, pc);
    CallsKept(s, next, t, pc, retries);
  }

  /** Every step of every thread keeps the invariant. */
  lemma StepKeeps(s: State, t: Tid, a: Action, retries: nat)
    requires Inv(s, retries) && Enabled(s, t, a, retries)
    ensures Inv(Next(s, t, a), retries)
  {
    hide Inv, NextCheckout, NextFail, NextRelease, PrunedList, SweptList, Submit, Judge, After, PruneSection, Hand, PossibleDelivery;
    match a
    case Begin => BeginKeeps(s, t, retries);
    case EnsureFails(ensured) => EnsureFailsKeeps(s, t, ensured, retries);
    case EnsureAndPrune(instance, queue) => EnsureAndPruneKeeps(s, t, instance, queue, retries);
    case CloseNext => CloseNextKeeps(s, t, retries);
    case Checkout => CheckoutKeeps(s, t, s.threads[t].call, s.threads[t].instance, retries);
    case Build(ready) => BuildKeeps(s, t, ready, retries);
    case Await => AwaitKeeps(s, t, retries);
    case Fail => FailKeeps(s, t, s.threads[t].call, s.threads[t].entry, s.threads[t].outcome, retries);
    case Request(budget, delivery) => RequestKeeps(s, t, budget, delivery, retries);
    case Release => ReleaseKeeps(s, t, s.threads[t].call, s.threads[t].entry, s.threads[t].verdict, retries);
    case Retire => RetireKeeps(s, t, retries);
    case Leave => LeaveKeeps(s, t, retries);
    case EnterClose => EnterCloseKeeps(s, t, retries);
    case Sweep(queue) => SweepKeeps(s, t, queue, retries);
    case FinishClose => FinishCloseKeeps(s, t, retries);
  }

  // ---- runs -----------------------------------------------------------------------------------------------------------

  /** Any interleaving: from an initial state, one enabled section of some thread after the other. */
  ghost predicate IsRun(states: seq<State>, steps: seq<(Tid, Action)>, retries: nat) {
    && |states| == |steps| + 1
    && Init(states[0])
    && forall i :: 0 <= i < |steps| ==> IsStep(states[i], steps[i].0, steps[i].1, states[i + 1], retries)
  }

  ghost predicate IsStep(s: State, t: Tid, a: Action, next: State, retries: nat) {
    Shape(s) && Enabled(s, t, a, retries) && next == Next(s, t, a)
  }

  lemma {:induction false} RunInv(states: seq<State>, steps: seq<(Tid, Action)>, retries: nat, n: nat)
    requires IsRun(states, steps, retries) && n < |states|
    ensures Inv(states[n], retries)
  {
    hide Inv, Init, Enabled, Next;
    if n == 0 {
      InitInv(states[0], retries);
    } else {
      RunInv(states, steps, retries, n - 1);
      assert IsStep(states[n - 1], steps[n - 1].0, steps[n - 1].1, states[n], retries);
      StepKeeps(states[n - 1], steps[n - 1].0, steps[n - 1].1, retries);
    }
  }

  /** What the invariant says to the outside. */
  predicate Safe(s: State, retries: nat)
    requires Shape(s)
  {
    // a transport is closed at most once, only if it was built, and nobody holds it then or later
    && (forall e :: 0 <= e < |s.closes| ==> s.closes[e] <= 1)
    && (forall e :: 0 <= e < |s.closes| && s.closes[e] == 1 ==> s.shared.table[e].ready == Built && Holders(s.threads, e) == {})
    // a mapped entry without users was built, so the test in `close` skips nothing
    && (forall e :: 0 <= e < |s.closes| && Mapped(s.shared, e) && s.shared.table[e].users == 0 ==> s.shared.table[e].ready == Built)
    // when `close` is through, every built transport is closed
    && (s.shared.closed ==> forall e :: 0 <= e < |s.closes| && s.shared.table[e].ready == Built ==> s.closes[e] == 1)
    // every finished call kept the retry rule
    && (forall t :: t in s.threads && s.threads[t].Done? ==>
          AtMostOnce(CallResult(s.threads[t].outcome, s.threads[t].call.submitted, s.threads[t].call.executed), retries))
  }

  lemma EntrySafe(s: State, e: EntryId, retries: nat)
    requires Inv(s, retries) && e < |s.closes|
    ensures s.closes[e] <= 1
    ensures s.closes[e] == 1 ==> s.shared.table[e].ready == Built && Holders(s.threads, e) == {}
    ensures Mapped(s.shared, e) && s.shared.table[e].users == 0 ==> s.shared.table[e].ready == Built
  {
    assert EntryFits(s.shared, e, s.owner[e], s.closes[e]);
  }

  lemma ClosedEntry(s: State, e: EntryId, retries: nat)
    requires Inv(s, retries) && s.shared.closed && e < |s.closes| && s.shared.table[e].ready == Built
    ensures s.closes[e] == 1
  {
    assert EntryFits(s.shared, e, s.owner[e], s.closes[e]);
    NobodyActive(s, e);
    NoMember(s.threads, IsActive);
  }

  lemma InvSafe(s: State, retries: nat)
    requires Inv(s, retries)
    ensures Safe(s, retries)
  {
    forall e | 0 <= e < |s.closes|
      ensures s.closes[e] <= 1
      ensures s.closes[e] == 1 ==> s.shared.table[e].ready == Built && Holders(s.threads, e) == {}
      ensures Mapped(s.shared, e) && s.shared.table[e].users == 0 ==> s.shared.table[e].ready == Built
      ensures s.shared.closed && s.shared.table[e].ready == Built ==> s.closes[e] == 1
    {
      EntrySafe(s, e, retries);
      if s.shared.closed && s.shared.table[e].ready == Built {
        ClosedEntry(s, e, retries);
      }
    }
    hide UsersCounted, ActiveCounted, ReadyFits, EntriesFit, QueuesFit, ClosingFits, AtMostOnce, Mapped;
  }

  /** A step that closes a transport does so while nobody holds it. */
  lemma ClosedUnused(s: State, t: Tid, a: Action, retries: nat, e: EntryId)
    requires Inv(s, retries) && Enabled(s, t, a, retries) && e < |s.closes|
    requires e < |Next(s, t, a).closes| && Next(s, t, a).closes[e] != s.closes[e]
    ensures Holders(s.threads, e) == {} && s.closes[e] == 0 && s.shared.table[e].ready == Built
  {
    hide UsersCounted, ActiveCounted, ReadyFits, ClosingFits, CallsFit, Submit, Judge, After, PruneSection, Hand, PrunedList, SweptList;
    var pc := At(s, t);
    assert a.CloseNext? || a.Retire?;
    var first := Queue(pc)[0];
    assert e == first && first in Queue(pc);
    assert QueueOwned(s, t, Queue(pc));
    assert EntryFits(s.shared, e, s.owner[e], s.closes[e]);
    NoHolders(s, e);
  }

  lemma NoHolders(s: State, e: EntryId)
    requires UsersCounted(s) && e < |s.shared.table| && s.shared.table[e].users == 0
    ensures Holders(s.threads, e) == {}
  {
  }

  /** Over every interleaving of requests and `close`: each built transport is closed at most once,
      never while a thread holds it, all of them are closed when `close` is through; and every call
      executes its request at most once and not at all when it reports that it did not. */
  lemma PoolSafety(states: seq<State>, steps: seq<(Tid, Action)>, retries: nat)
    requires IsRun(states, steps, retries)
    ensures forall n :: 0 <= n < |states| ==> Shape(states[n]) && Safe(states[n], retries)
    ensures forall n :: 0 <= n < |steps| ==> ClosesUnused(states, n)
  {
    hide Inv, Init, Enabled, Next, Safe, Holders;
    forall n | 0 <= n < |states|
      ensures Shape(states[n]) && Safe(states[n], retries)
    {
      RunInv(states, steps, retries, n);
      InvSafe(states[n], retries);
      InvShape(states[n], retries);
    }
    forall n | 0 <= n < |steps|
      ensures ClosesUnused(states, n)
    {
      RunInv(states, steps, retries, n);
      assert IsStep(states[n], steps[n].0, steps[n].1, states[n + 1], retries);
      forall e | 0 <= e < |states[n].closes| && e < |states[n + 1].closes| && states[n].closes[e] != states[n + 1].closes[e]
        ensures Holders(states[n].threads, e) == {}
      {
        ClosedUnused(states[n], steps[n].0, steps[n].1, retries, e);
      }
    }
  }

  /** Step `n` closes only transports that nobody holds. */
  ghost predicate ClosesUnused(states: seq<State>, n: nat)
    requires n + 1 < |states|
  {
    forall e :: 0 <= e < |states[n].closes| && e < |states[n + 1].closes| && states[n].closes[e] != states[n + 1].closes[e] ==>
      Holders(states[n].threads, e) == {}
  }

  lemma InvShape(s: State, retries: nat)
    requires Inv(s, retries)
    ensures Shape(s)
  {
  }

  lemma PrunedEntriesExact(sh: Shared, instance: Instance, unused: seq<EntryId>, entries: map<Instance, EntryId>)
    requires forall i :: i in sh.entries ==> sh.entries[i] < |sh.table| && sh.table[sh.entries[i]].instance == i
    requires PrunedList(sh, instance, unused)
    requires forall i :: i in entries <==> i in sh.entries && sh.entries[i] !in unused
    requires forall i :: i in entries ==> entries[i] == sh.entries[i]
    ensures entries == PruneSection(sh, instance).entries
  {
    hide Distinct;
    forall i | i in sh.entries
      ensures sh.entries[i] in unused <==> i != instance && sh.table[sh.entries[i]].users == 0
    {
      assert Mapped(sh, sh.entries[i]);
      assert Unused(sh, sh.entries[i], instance) <==> i != instance && sh.table[sh.entries[i]].users == 0;
    }
    var pruned := PruneSection(sh, instance).entries;
    assert (forall i :: i in entries <==> i in pruned) && (forall i :: i in entries ==> entries[i] == pruned[i]) ==>
           entries == pruned;
  }

  // ---- how an attempt ends -----------------------------------------------------------------------------------------------

  predicate Leaving(pc: Pc) {
    pc.Releasing? || pc.Retiring?
  }

  /** Where a call stands once the attempt is over: in front of its second attempt exactly if the first
      one ended in a way that allows it, and at its end otherwise. */
  predicate AttemptOver(call: Call, a: Attempt, pc: Pc) {
    var sent, executed := call.submitted + (if Sends(true, a) then 1 else 0), call.executed + Executions(true, a);
    if call.attempt == 0 && MakesSecond(a) then pc == Fetching(Call(1, sent, executed))
    else pc.Finishing? && EndsWith(true, a, pc.outcome) && pc.call == Call(call.attempt, sent, executed)
  }

  lemma OthersStay(s: State, t: Tid, a: Action, u: Tid, retries: nat)
    requires Shape(s) && Enabled(s, t, a, retries) && u != t
    ensures At(Next(s, t, a), u) == At(s, u)
  {
    hide PruneSection, PrunedList, SweptList, Hand, Submit, Judge, After, CheckoutSection, FailSection, ReleaseSection, Mapped;
  }

  /** One step of any thread, seen from a thread that has made its request. */
  lemma LeavingStep(s: State, t: Tid, a: Action, u: Tid, call: Call, e: EntryId, verdict: Verdict, retries: nat)
    requires Shape(s) && Enabled(s, t, a, retries)
    requires At(s, u) == Releasing(call, e, verdict) || At(s, u) == Retiring(call, e, verdict)
    ensures var pc := At(Next(s, t, a), u);
            pc == At(s, u) || pc == Retiring(call, e, verdict) || pc == After(call, verdict)
  {
    if t != u {
      OthersStay(s, t, a, u, retries);
    } else {
      hide PruneSection, PrunedList, SweptList, Hand, Submit, Judge, After, CheckoutSection, FailSection, Mapped;
    }
  }

  lemma {:induction false} StillLeaving(states: seq<State>, steps: seq<(Tid, Action)>, retries: nat, n: nat, k: nat, t: Tid)
    requires IsRun(states, steps, retries) && n <= k < |states|
    requires forall i :: n <= i <= k ==> Leaving(At(states[i], t))
    ensures Leaving(At(states[n], t)) && Leaving(At(states[k], t))
    ensures var was, pc := At(states[n], t), At(states[k], t);
            pc.call == was.call && pc.entry == was.entry && pc.verdict == was.verdict
  {
    if n < k {
      StillLeaving(states, steps, retries, n, k - 1, t);
      var pc := At(states[k - 1], t);
      assert IsStep(states[k - 1], steps[k - 1].0, steps[k - 1].1, states[k], retries);
      hide Next, Enabled, IsRun, Shape;
      LeavingStep(states[k - 1], steps[k - 1].0, steps[k - 1].1, t, pc.call, pc.entry, pc.verdict, retries);
    }
  }

  /** The request made in step `n`, as an attempt. */
  function MadeRequest(a: Action): Attempt
    requires a.Request?
  {
    Attempt(Ensured.Instance, Response, a.budget, a.delivery)
  }

  /** Step `n` is a request, and its thread is still leaving the attempt in front of step `k`. */
  ghost predicate LeavesUntil(states: seq<State>, steps: seq<(Tid, Action)>, retries: nat, n: nat, k: nat) {
    && IsRun(states, steps, retries) && n < k < |steps| && steps[n].1.Request?
    && forall i :: n < i <= k ==> Leaving(At(states[i], steps[n].0))
  }

  /** What a request leaves its thread with. */
  lemma RequestJudged(s: State, t: Tid, budget: bool, delivery: Delivery, retries: nat)
    requires Inv(s, retries) && Enabled(s, t, Request(budget, delivery), retries)
    ensures At(s, t).Using?
    ensures var was, a := At(s, t), MadeRequest(Request(budget, delivery));
            var pc := At(Next(s, t, Request(budget, delivery)), t);
            && pc.Releasing? && pc.entry == was.entry && AttemptOver(was.call, a, After(pc.call, pc.verdict))
            && (pc.verdict == Retry(true) <==> was.call.attempt == 0 && LostSession(true, a))
  {
    hide PruneSection, PrunedList, SweptList, CheckoutSection, FailSection, ReleaseSection, UsersCounted, ActiveCounted, EntriesFit, QueuesFit,
      ClosingFits, ReadyFits;
    var was := At(s, t);
    assert CallFits(was, retries);
    assert was.call.attempt <= 1;
    PostEnds(true, MadeRequest(Request(budget, delivery)), retries);
    hide Inv, Submit, EndsWith, LostSession, PossibleDelivery, Shape;
  }

  lemma LeavingSince(states: seq<State>, steps: seq<(Tid, Action)>, retries: nat, n: nat, k: nat)
    requires LeavesUntil(states, steps, retries, n, k)
    ensures At(states[n], steps[n].0).Using?
    ensures var was, a, pc := At(states[n], steps[n].0), MadeRequest(steps[n].1), At(states[k], steps[n].0);
            && Shape(states[k]) && Enabled(states[k], steps[k].0, steps[k].1, retries)
            && states[k + 1] == Next(states[k], steps[k].0, steps[k].1)
            && pc.entry == was.entry && AttemptOver(was.call, a, After(pc.call, pc.verdict))
            && (pc.verdict == Retry(true) <==> was.call.attempt == 0 && LostSession(true, a))
  {
    RunInv(states, steps, retries, n);
    assert IsStep(states[n], steps[n].0, steps[n].1, states[n + 1], retries);
    assert IsStep(states[k], steps[k].0, steps[k].1, states[k + 1], retries);
    StillLeaving(states, steps, retries, n + 1, k, steps[n].0);
    hide Next, Enabled, IsRun, Inv, After, AttemptOver, LostSession, MadeRequest;
    RequestJudged(states[n], steps[n].0, steps[n].1.budget, steps[n].1.delivery, retries);
  }

  /** The first step after which the thread no longer leaves takes it to its second attempt or to its
      end, as the request of step `n` came out. */
  lemma AttemptEnds(states: seq<State>, steps: seq<(Tid, Action)>, retries: nat, n: nat, k: nat)
    requires LeavesUntil(states, steps, retries, n, k) && !Leaving(At(states[k + 1], steps[n].0))
    ensures At(states[n], steps[n].0).Using?
    ensures AttemptOver(At(states[n], steps[n].0).call, MadeRequest(steps[n].1), At(states[k + 1], steps[n].0))
  {
    LeavingSince(states, steps, retries, n, k);
    var pc := At(states[k], steps[n].0);
    hide Next, Enabled, LeavesUntil, AttemptOver, After, Shape, LostSession;
    LeavingStep(states[k], steps[k].0, steps[k].1, steps[n].0, pc.call, pc.entry, pc.verdict, retries);
  }

  /** The release after the request of step `n`: it takes the entry out of the dictionary exactly if
      the first attempt learned that the Go process has lost the session, and changes nothing else
      but the number of users of that entry. */
  lemma LostSessionUnmaps(states: seq<State>, steps: seq<(Tid, Action)>, retries: nat, n: nat, k: nat)
    requires LeavesUntil(states, steps, retries, n, k) && steps[k] == (steps[n].0, Release)
    ensures At(states[n], steps[n].0).Using?
    ensures var was, e, sh, after := At(states[n], steps[n].0), At(states[n], steps[n].0).entry, states[k].shared, states[k + 1].shared;
            var lost := was.call.attempt == 0 && LostSession(true, MadeRequest(steps[n].1));
            && e < |sh.table| == |after.table|
            && (e in after.entries.Values <==> e in sh.entries.Values && !lost)
            && (forall i :: i in after.entries <==> i in sh.entries && !(lost && sh.entries[i] == e))
            && (forall i :: i in after.entries ==> after.entries[i] == sh.entries[i])
            && after.table[e] == sh.table[e].(users := sh.table[e].users - 1)
            && (forall x :: 0 <= x < |sh.table| && x != e ==> after.table[x] == sh.table[x])
            && (At(states[k + 1], steps[n].0).Retiring? <==> sh.table[e].users == 1 && e !in after.entries.Values)
  {
    hide Submit, Judge, CheckoutSection, FailSection, PruneSection, PrunedList, SweptList;
    LeavingSince(states, steps, retries, n, k);
    var s := states[k];
    var e := At(s, steps[n].0).entry;
    hide After, AttemptOver, LostSession, LeavesUntil, MadeRequest;
    assert forall i :: i in s.shared.entries && s.shared.entries[i] == e ==> i == s.shared.table[e].instance;
    assert forall i :: i in states[k + 1].shared.entries ==> i in s.shared.entries && states[k + 1].shared.entries[i] == s.shared.entries[i];
  }

  /** A call whose transport could not be built, or was built by another thread that failed. */
  lemma FailedBuildEnds(states: seq<State>, steps: seq<(Tid, Action)>, retries: nat, n: nat)
    requires IsRun(states, steps, retries) && n < |steps| && steps[n].1.Fail?
    ensures At(states[n], steps[n].0).Failing?
    ensures var was, pc := At(states[n], steps[n].0), At(states[n + 1], steps[n].0);
            && was.entry !in states[n + 1].shared.entries.Values
            && pc == if was.call.attempt == 0 && (was.outcome == Unavailable || was.outcome == ServiceError("CLIENT_NOT_FOUND"))
                     then Fetching(Call(1, was.call.submitted, was.call.executed)) else Finishing(was.call, was.outcome)
  {
    RunInv(states, steps, retries, n);
    assert IsStep(states[n], steps[n].0, steps[n].1, states[n + 1], retries);
    CallAt(states[n], steps[n].0, retries);
    FailUnmaps(states[n].shared, At(states[n], steps[n].0).entry);
    hide Inv, IsRun, FailSection, Shape;
  }

  lemma FailUnmaps(sh: Shared, e: EntryId)
    requires e < |sh.table|
    requires forall i :: i in sh.entries ==> sh.entries[i] < |sh.table| && sh.table[sh.entries[i]].instance == i
    ensures e !in FailSection(sh, e).entries.Values
  {
    assert forall i :: i in sh.entries && sh.entries[i] == e ==> i == sh.table[e].instance;
  }

  /** The dictionary after its entry was taken out, if it was to be. */
  ghost predicate TakenOut(before: map<Instance, EntryId>, after: map<Instance, EntryId>, entry: EntryId, wanted: bool) {
    && (forall i :: i in after <==> i in before && !(wanted && before[i] == entry))
    && forall i :: i in after ==> after[i] == before[i]
  }

  predicate OneLess(before: seq<Entry>, after: seq<Entry>, entry: EntryId)
    requires entry < |before|
  {
    after == before[entry := before[entry].(users := before[entry].users - 1)]
  }

  // ---- the class ----------------------------------------------------------------------------------------------------------

  /** `_ManagedState` with its lock sections as methods. */
  class ManagedState {
    var entries: map<Instance, EntryId>
    var table: seq<Entry>
    var active: int
    var closing: bool
    var closed: bool

    function Fields(): Shared
      reads this
    {
      Shared(entries, table, active, closing, closed)
    }

    predicate Valid()
      reads this
    {
      forall i :: i in entries ==> entries[i] < |table| && table[entries[i]].instance == i
    }

    constructor ()
      ensures Valid() && Fields() == Shared(map[], [], 0, false, false)
    {
      entries, table, active, closing, closed := map[], [], 0, false, false;
    }

    /** `_begin`: false stands for the exception. */
    method Begin() returns (ok: bool)
      modifies this
      ensures ok == !old(closing || closed)
      ensures Fields() == if ok then old(Fields()).(active := old(active) + 1) else old(Fields())
    {
      if closing || closed {
        return false;
      }
      active := active + 1;
      return true;
    }

    method Finish()
      modifies this
      ensures Fields() == old(Fields()).(active := old(active) - 1)
    {
      active := active - 1;
    }

    method Checkout(instance: Instance) returns (entry: EntryId, creator: bool)
      requires Valid()
      modifies this
      ensures Valid() && (Fields(), entry, creator) == CheckoutSection(old(Fields()), instance)
      ensures entry < |table| && instance in entries && entries[instance] == entry
      ensures creator == (instance !in old(entries)) && (!creator ==> entry == old(entries)[instance])
      ensures forall i :: i != instance ==> (i in entries <==> i in old(entries)) && (i in entries ==> entries[i] == old(entries)[i])
      ensures creator ==> table == old(table) + [Entry(instance, 1, Pending)]
      ensures !creator ==> table == old(table)[entry := old(table[entry]).(users := old(table[entry]).users + 1)]
      ensures active == old(active) && closing == old(closing) && closed == old(closed)
    {
      creator := instance !in entries;
      if creator {
        entry := |table|;
        table := table + [Entry(instance, 0, Pending)];
        entries := entries[instance := entry];
      } else {
        entry := entries[instance];
      }
      table := table[entry := table[entry].(users := table[entry].users + 1)];
      assert creator ==> table == old(table) + [Entry(instance, 1, Pending)];
    }

    method CheckoutFailed(entry: EntryId)
      requires Valid() && entry < |table|
      modifies this
      ensures Valid() && Fields() == FailSection(old(Fields()), entry)
      ensures TakenOut(old(entries), entries, entry, true) && OneLess(old(table), table, entry)
      ensures active == old(active) && closing == old(closing) && closed == old(closed)
    {
      table := table[entry := table[entry].(users := table[entry].users - 1)];
      var instance := table[entry].instance;
      if instance in entries && entries[instance] == entry {
        entries := entries - {instance};
      }
    }

    method ReleaseEntry(entry: EntryId, invalidate: bool) returns (retire: bool)
      requires Valid() && entry < |table|
      modifies this
      ensures Valid() && (Fields(), retire) == ReleaseSection(old(Fields()), entry, invalidate)
      ensures TakenOut(old(entries), entries, entry, invalidate) && OneLess(old(table), table, entry)
      ensures retire <==> table[entry].users == 0 && forall i :: i in entries ==> entries[i] != entry
      ensures active == old(active) && closing == old(closing) && closed == old(closed)
    {
      table := table[entry := table[entry].(users := table[entry].users - 1)];
      var instance := table[entry].instance;
      if invalidate && instance in entries && entries[instance] == entry {
        entries := entries - {instance};
      }
      retire := table[entry].users == 0 && !(instance in entries && entries[instance] == entry);
    }

    /** `_prune`: collect the unused entries, then take them out one by one. */
    method Prune(instance: Instance) returns (unused: seq<EntryId>)
      requires Valid()
      modifies this
      ensures Valid() && Fields() == PruneSection(old(Fields()), instance)
      ensures PrunedList(old(Fields()), instance, unused)
      ensures forall i :: i in entries <==> i in old(entries) && (i == instance || old(table)[old(entries)[i]].users != 0)
      ensures forall i :: i in entries ==> entries[i] == old(entries)[i]
      ensures forall e :: e in unused <==> e in old(entries).Values && e !in entries.Values
      ensures Distinct(unused) && table == old(table) && active == old(active) && closing == old(closing) && closed == old(closed)
    {
      unused := Collect(instance);
      ghost var before := Fields();
      for k := 0 to |unused|
        invariant Fields() == before.(entries := entries)
        invariant forall i :: i in entries <==> i in before.entries && before.entries[i] !in unused[..k]
        invariant forall i :: i in entries ==> entries[i] == before.entries[i]
      {
        assert unused[..k + 1] == unused[..k] + [unused[k]];
        assert unused[k] in unused;
        entries := entries - {table[unused[k]].instance};
      }
      assert unused[..|unused|] == unused;
      PrunedEntriesExact(before, instance, unused, entries);
    }

    method Collect(instance: Instance) returns (unused: seq<EntryId>)
      requires Valid()
      ensures PrunedList(Fields(), instance, unused)
      ensures Distinct(unused)
      ensures forall e :: e in unused <==> exists i :: i in entries && entries[i] == e && i != instance && table[e].users == 0
    {
      unused := [];
      var todo := entries.Keys;
      while todo != {}
        invariant todo <= entries.Keys
        invariant Distinct(unused)
        invariant forall e :: e in unused <==> exists i :: i in entries && i !in todo && entries[i] == e && Unused(Fields(), e, instance)
        decreases todo
      {
        assert (forall i :: i !in todo) ==> todo == {};
        var i :| i in todo;
        var e := entries[i];
        assert table[e].instance == i && e !in unused;
        if i != instance && table[e].users == 0 {
          unused := unused + [e];
        }
        todo := todo - {i};
      }
    }

    /** The first section of `close`: whether this caller is the one that closes. */
    method EnterClose() returns (first: bool)
      modifies this
      ensures first == !old(closing || closed)
      ensures Fields() == if first then old(Fields()).(closing := true) else old(Fields())
    {
      first := !closing && !closed;
      closing := closing || first;
    }

    /** The end of that section, once `_active` is zero. */
    method Sweep() returns (swept: seq<EntryId>)
      requires Valid() && active == 0
      modifies this
      ensures Valid() && Fields() == old(Fields()).(entries := map[])
      ensures SweptList(old(Fields()), swept)
      ensures entries == map[] && Distinct(swept) && forall e :: e in swept <==> exists i :: i in old(entries) && old(entries)[i] == e
    {
      swept := [];
      var todo := entries.Keys;
      while todo != {}
        invariant todo <= entries.Keys && Fields() == old(Fields())
        invariant Distinct(swept)
        invariant forall e :: e in swept <==> exists i :: i in entries && i !in todo && entries[i] == e
        decreases todo
      {
        assert (forall i :: i !in todo) ==> todo == {};
        var i :| i in todo;
        assert table[entries[i]].instance == i && entries[i] !in swept;
        swept := swept + [entries[i]];
        todo := todo - {i};
      }
      entries := map[];
    }

    method FinishClose()
      modifies this
      ensures Fields() == old(Fields()).(closed := true)
    {
      closed := true;
    }
  }
}
