/** The session registry of the Go server. `mu` is a readers-writer lock over the map, and every
    session has its own lock for `activeCalls` and `lastUsed`: a request keeps the read lock until
    it is counted, and the idle reaper keeps the write lock while it goes through the map. The
    machine takes one step for each section of either lock. */
module Registry {
  import opened Counting
  import opened Sequences

  type ClientId = nat
  type Sid = nat
  type Tid = nat

  datatype Session = Session(activeCalls: int, lastUsed: real)

  /** The reaper's test, made under the lock of the session. */
  predicate Idle(session: Session, now: real, ttl: real) {
    session.activeCalls == 0 && now - session.lastUsed > ttl
  }

  /** The section of the session lock that counts a call, and the one that ends it. */
  function CallBegun(session: Session, now: real): Session {
    Session(session.activeCalls + 1, now)
  }

  function CallEnded(session: Session): Session {
    session.(activeCalls := session.activeCalls - 1)
  }

  // ---- the machine --------------------------------------------------------------------------------

  datatype Pc =
    | WantsRead(id: ClientId)                // `handleRawRequest` before `RLock`
    | Looking(id: ClientId)                  // holding the read lock
    | Found(sid: Sid)                        // holding it, session known, call not counted
    | Counted(sid: Sid)                      // holding it, call counted
    | Missing                                // holding it, no session
    | Running(sid: Sid)                      // read lock released, until the deferred decrement
    | Building(sid: Sid)                     // `handleCreateClient` with a session of its own
    | Deleting(id: ClientId)                 // `handleDeleteClient` before `Lock`
    | Stopping                               // `Close` before `Lock`
    | Reaping(now: real)                     // `cleanupIdleClients` before `Lock`
    | Cleaning(now: real, todo: set<ClientId>, expired: seq<Sid>)  // holding the write lock
    | Closing(queue: seq<Sid>, reaped: bool) // no lock, sessions taken out and not closed yet
    | Done

  predicate HoldsRead(pc: Pc) {
    pc.Looking? || pc.Found? || pc.Counted? || pc.Missing?
  }

  predicate HoldsWrite(pc: Pc) {
    pc.Cleaning?
  }

  /** The session whose counter includes this handler. */
  predicate Calls(pc: Pc, sid: Sid) {
    (pc.Counted? || pc.Running?) && pc.sid == sid
  }

  function Calling(sid: Sid): Pc -> bool {
    (pc: Pc) => Calls(pc, sid)
  }

  /** The handler has the session in its hands. */
  predicate Holds(pc: Pc, sid: Sid) {
    (pc.Found? || pc.Counted? || pc.Running?) && pc.sid == sid
  }

  /** What became of a session; `reaped` says that the idle reaper took it out. `Overwritten` is one
      whose id was drawn again. */
  datatype Fate = Own(tid: Tid) | Mapped(id: ClientId) | Removed(tid: Tid, reaped: bool) | Closed(reaped: bool) | Overwritten

  datatype State = State(
    clients: map<ClientId, Sid>, sessions: seq<Session>, once: bool, now: real,
    threads: map<Tid, Pc>, fates: seq<Fate>, closes: seq<nat>)

  datatype Action =
    | Request(id: ClientId) | RLock | Lookup | Count | RUnlock | Finish
    | Create | Store(id: ClientId) | IdFails
    | Delete(id: ClientId) | Remove
    | Close | Swap(queue: seq<Sid>)
    | Reap(now: real) | Lock | Check(id: ClientId) | Unlock
    | CloseNext
    | Tick(time: real)

  function At(s: State, t: Tid): Pc {
    if t in s.threads then s.threads[t] else Done
  }

  function Go(s: State, t: Tid, pc: Pc): State {
    s.(threads := s.threads[t := pc])
  }

  predicate CanRead(s: State) {
    forall u :: u in s.threads ==> !HoldsWrite(s.threads[u])
  }

  predicate CanWrite(s: State) {
    forall u :: u in s.threads ==> !HoldsWrite(s.threads[u]) && !HoldsRead(s.threads[u])
  }

  /** The values of the map, in some order. */
  predicate Lists(clients: map<ClientId, Sid>, queue: seq<Sid>) {
    && Distinct(queue)
    && (forall id :: id in clients ==> clients[id] in queue)
    && forall k :: 0 <= k < |queue| ==> queue[k] in clients.Values
  }

  predicate Enabled(s: State, t: Tid, a: Action) {
    var pc := At(s, t);
    match a
    case Request(_) => t !in s.threads
    case RLock => pc.WantsRead? && CanRead(s)
    case Lookup => pc.Looking?
    case Count => pc.Found? && pc.sid < |s.sessions|
    case RUnlock => pc.Counted? || pc.Missing?
    case Finish => pc.Running? && pc.sid < |s.sessions|
    case Create => t !in s.threads
    case Store(_) => pc.Building? && pc.sid < |s.fates| && CanWrite(s)
    case IdFails => pc.Building? && pc.sid < |s.fates|
    case Delete(_) => t !in s.threads
    case Remove => pc.Deleting? && CanWrite(s)
    case Close => t !in s.threads && !s.once
    case Swap(queue) => pc.Stopping? && CanWrite(s) && Lists(s.clients, queue)
    case Reap(_) => t !in s.threads
    case Lock => pc.Reaping? && CanWrite(s)
    case Check(id) =>
      pc.Cleaning? && id in pc.todo && id in s.clients && s.clients[id] < |s.sessions| && s.clients[id] < |s.fates|
    case Unlock => pc.Cleaning? && pc.todo == {}
    case CloseNext => pc.Closing? && pc.queue != [] && pc.queue[0] < |s.fates| && pc.queue[0] < |s.closes|
    case Tick(time) => time >= s.now
  }

  /** Fates of the sessions in the list, taken out by thread `t`. */
  function Hand(fates: seq<Fate>, queue: seq<Sid>, fate: Fate): (r: seq<Fate>)
    ensures |r| == |fates|
    ensures forall e :: 0 <= e < |fates| ==> r[e] == if e in queue then fate else fates[e]
  {
    seq(|fates|, e requires 0 <= e < |fates| => if e in queue then fate else fates[e])
  }

  function SetCalls(s: State, sid: Sid, session: Session): State
    requires sid < |s.sessions|
  {
    s.(sessions := s.sessions[sid := session])
  }

  function NextCount(s: State, t: Tid, sid: Sid): State
    requires sid < |s.sessions|
  {
    Go(SetCalls(s, sid, CallBegun(s.sessions[sid], s.now)), t, Counted(sid))
  }

  function NextFinish(s: State, t: Tid, sid: Sid): State
    requires sid < |s.sessions|
  {
    Go(SetCalls(s, sid, CallEnded(s.sessions[sid])), t, Done)
  }

  function NextCreate(s: State, t: Tid): State {
    Go(s.(sessions := s.sessions + [Session(0, s.now)], fates := s.fates + [Own(t)], closes := s.closes + [0]),
       t, Building(|s.sessions|))
  }

  /** The map assignment replaces whatever had the same id. */
  function NextStore(s: State, t: Tid, sid: Sid, id: ClientId): State
    requires sid < |s.fates|
  {
    var lost := if id in s.clients && s.clients[id] < |s.fates| then s.fates[s.clients[id] := Overwritten] else s.fates;
    Go(s.(clients := s.clients[id := sid], fates := lost[sid := Mapped(id)]), t, Done)
  }

  function NextRemove(s: State, t: Tid, id: ClientId): State {
    if id in s.clients && s.clients[id] < |s.fates| then
      Go(s.(clients := s.clients - {id}, fates := s.fates[s.clients[id] := Removed(t, false)]),
         t, Closing([s.clients[id]], false))
    else Go(s, t, Done)
  }

  function NextIdFails(s: State, t: Tid, sid: Sid): State
    requires sid < |s.fates|
  {
    Go(s.(fates := s.fates[sid := Removed(t, false)]), t, Closing([sid], false))
  }

  function NextSwap(s: State, t: Tid, queue: seq<Sid>): State {
    Go(s.(clients := map[], fates := Hand(s.fates, queue, Removed(t, false))), t,
       if queue == [] then Done else Closing(queue, false))
  }

  function NextCheck(s: State, t: Tid, pc: Pc, id: ClientId, ttl: real): State
    requires pc.Cleaning? && id in s.clients && s.clients[id] < |s.sessions| && s.clients[id] < |s.fates|
  {
    var sid := s.clients[id];
    if Idle(s.sessions[sid], pc.now, ttl) then
      Go(s.(clients := s.clients - {id}, fates := s.fates[sid := Removed(t, true)]),
         t, Cleaning(pc.now, pc.todo - {id}, pc.expired + [sid]))
    else Go(s, t, Cleaning(pc.now, pc.todo - {id}, pc.expired))
  }

  function NextClose(s: State, t: Tid, pc: Pc): State
    requires pc.Closing? && pc.queue != [] && pc.queue[0] < |s.fates| && pc.queue[0] < |s.closes|
  {
    var sid := pc.queue[0];
    Go(s.(fates := s.fates[sid := Closed(pc.reaped)], closes := s.closes[sid := s.closes[sid] + 1]),
       t, if |pc.queue| == 1 then Done else Closing(pc.queue[1..], pc.reaped))
  }

  function Next(s: State, t: Tid, a: Action, ttl: real): State
    requires Enabled(s, t, a)
  {
    var pc := At(s, t);
    match a
    case Request(id) => Go(s, t, WantsRead(id))
    case RLock => Go(s, t, Looking(pc.id))
    case Lookup => Go(s, t, if pc.id in s.clients then Found(s.clients[pc.id]) else Missing)
    case Count => NextCount(s, t, pc.sid)
    case RUnlock => Go(s, t, if pc.Counted? then Running(pc.sid) else Done)
    case Finish => NextFinish(s, t, pc.sid)
    case Create => NextCreate(s, t)
    case Store(id) => NextStore(s, t, pc.sid, id)
    case IdFails => NextIdFails(s, t, pc.sid)
    case Delete(id) => Go(s, t, Deleting(id))
    case Remove => NextRemove(s, t, pc.id)
    case Close => Go(s.(once := true), t, Stopping)
    case Swap(queue) => NextSwap(s, t, queue)
    case Reap(now) => Go(s, t, Reaping(now))
    case Lock => Go(s, t, Cleaning(pc.now, s.clients.Keys, []))
    case Check(id) => NextCheck(s, t, pc, id, ttl)
    case Unlock => Go(s, t, if pc.expired == [] then Done else Closing(pc.expired, true))
    case CloseNext => NextClose(s, t, pc)
    case Tick(time) => s.(now := time)
  }

  predicate Init(s: State) {
    s.clients == map[] && s.sessions == [] && !s.once && s.threads == map[] && s.fates == [] && s.closes == []
  }

  // ---- the invariant --------------------------------------------------------------------------------

  predicate Reaped(fate: Fate) {
    (fate.Removed? || fate.Closed?) && fate.reaped
  }

  predicate OutOfMap(fate: Fate) {
    fate.Removed? || fate.Closed? || fate == Overwritten
  }

  /** Sessions a thread has taken out of the map and still has to close. */
  function Queue(pc: Pc): seq<Sid> {
    match pc
    case Cleaning(_, _, expired) => expired
    case Closing(queue, _) => queue
    case _ => []
  }

  predicate IsReaper(pc: Pc) {
    pc.Cleaning? || (pc.Closing? && pc.reaped)
  }

  predicate MapFits(s: State) {
    && |s.sessions| == |s.fates| == |s.closes|
    && (forall id :: id in s.clients ==> s.clients[id] < |s.fates| && s.fates[s.clients[id]] == Mapped(id))
    && forall e :: 0 <= e < |s.fates| && s.fates[e].Mapped? ==> s.fates[e].id in s.clients && s.clients[s.fates[e].id] == e
  }

  predicate ClosesFit(s: State) {
    |s.fates| == |s.closes| && forall e :: 0 <= e < |s.fates| ==> s.closes[e] == if s.fates[e].Closed? then 1 else 0
  }

  predicate CallsCounted(s: State) {
    forall e :: 0 <= e < |s.sessions| ==> s.sessions[e].activeCalls == Counting.Count(s.threads, Calling(e))
  }

  predicate LocksFit(s: State) {
    forall t, u :: t in s.threads && u in s.threads && HoldsWrite(s.threads[t]) && (HoldsWrite(s.threads[u]) || HoldsRead(s.threads[u])) ==> t == u
  }

  predicate QueueFits(s: State, t: Tid, queue: seq<Sid>, reaped: bool) {
    Distinct(queue) && forall k :: 0 <= k < |queue| ==> queue[k] < |s.fates| && s.fates[queue[k]] == Removed(t, reaped)
  }

  predicate ThreadFits(s: State, t: Tid, pc: Pc) {
    && QueueFits(s, t, Queue(pc), IsReaper(pc))
    && (match pc
        case Found(sid) => sid < |s.fates| && s.fates[sid].Mapped?
        case Counted(sid) => sid < |s.fates| && s.fates[sid].Mapped?
        case Running(sid) => sid < |s.fates| && !s.fates[sid].Own? && !Reaped(s.fates[sid])
        case Building(sid) => sid < |s.fates| && s.fates[sid] == Own(t)
        case Cleaning(_, todo, _) => todo <= s.clients.Keys
        case _ => true)
  }

  predicate ThreadsFit(s: State) {
    forall t :: t in s.threads ==> ThreadFits(s, t, s.threads[t])
  }

  /** Nobody forgets a session that was taken out. */
  predicate RemovedFit(s: State) {
    forall e :: 0 <= e < |s.fates| && s.fates[e].Removed? ==>
      s.fates[e].tid in s.threads && e in Queue(s.threads[s.fates[e].tid])
  }

  predicate Inv(s: State) {
    MapFits(s) && ClosesFit(s) && CallsCounted(s) && LocksFit(s) && ThreadsFit(s) && RemovedFit(s)
  }

  lemma InitInv(s: State)
    requires Init(s)
    ensures Inv(s)
  {
  }

  // ---- every step keeps it ----------------------------------------------------------------------------

  predicate BooksFit(s: State) {
    MapFits(s) && ClosesFit(s) && RemovedFit(s)
  }

  /** Nobody but `t` holds `mu`. */
  predicate Exclusive(s: State, t: Tid) {
    forall u :: u in s.threads && u != t ==> !HoldsWrite(s.threads[u]) && !HoldsRead(s.threads[u])
  }

  /** How one thread may change a fate: its own sessions at will, mapped ones only with `mu` to itself,
      and to a reaped one only while nobody is counted. */
  predicate FateMoves(s: State, t: Tid, e: Sid, fate: Fate)
    requires e < |s.fates| && e < |s.sessions|
  {
    var was := s.fates[e];
    && !fate.Own?
    && (was.Own? || was.Removed? ==> was.tid == t)
    && (was.Mapped? ==> Exclusive(s, t)) && (Reaped(was) ==> Reaped(fate))
    && (OutOfMap(was) ==> OutOfMap(fate))
    && (Reaped(fate) && !Reaped(was) ==> was.Mapped? && s.sessions[e].activeCalls == 0)
  }

  predicate FatesMove(s: State, next: State, t: Tid) {
    && |s.fates| == |s.sessions| && |s.fates| <= |next.fates|
    && (forall e :: 0 <= e < |s.fates| ==> next.fates[e] == s.fates[e] || FateMoves(s, t, e, next.fates[e]))
    && (s.clients.Keys <= next.clients.Keys || Exclusive(s, t))
  }

  /** A thread that does not move still fits. */
  lemma OtherFits(s: State, next: State, t: Tid, u: Tid)
    requires FatesMove(s, next, t) && u in s.threads && u != t && ThreadFits(s, u, s.threads[u])
    requires s.threads[u].Running? && s.threads[u].sid < |s.sessions| ==> s.sessions[s.threads[u].sid].activeCalls > 0
    ensures ThreadFits(next, u, s.threads[u])
  {
  }

  /** The three parts of a step: the books, the thread that moves, and what the others see. */
  predicate GoodStep(s: State, next: State, t: Tid) {
    && BooksFit(next) && FatesMove(s, next, t)
    && (t in next.threads ==> ThreadFits(next, t, next.threads[t]))
  }

  lemma CreateKeeps(s: State, t: Tid)
    requires BooksFit(s) && t !in s.threads
    ensures GoodStep(s, NextCreate(s, t), t)
  {
  }

  lemma StoreKeepsMap(s: State, t: Tid, sid: Sid, id: ClientId)
    requires MapFits(s) && ClosesFit(s) && sid < |s.fates| && s.fates[sid] == Own(t)
    ensures MapFits(NextStore(s, t, sid, id)) && ClosesFit(NextStore(s, t, sid, id))
  {
  }

  lemma StoreKeeps(s: State, t: Tid, sid: Sid, id: ClientId)
    requires BooksFit(s) && t in s.threads && s.threads[t] == Building(sid) && ThreadFits(s, t, s.threads[t]) && CanWrite(s)
    ensures GoodStep(s, NextStore(s, t, sid, id), t)
  {
    StoreKeepsMap(s, t, sid, id);
    assert id in s.clients ==> s.fates[s.clients[id]] == Mapped(id);
    hide MapFits, ClosesFit;
  }

  lemma IdFailsKeeps(s: State, t: Tid, sid: Sid)
    requires BooksFit(s) && t in s.threads && s.threads[t] == Building(sid) && ThreadFits(s, t, s.threads[t])
    ensures GoodStep(s, NextIdFails(s, t, sid), t)
  {
  }

  /** One session leaves the map for the list of a thread. */
  predicate TakenOut(s: State, next: State, t: Tid, id: ClientId, reaped: bool)
    requires MapFits(s) && id in s.clients
  {
    var sid := s.clients[id];
    && next.clients == s.clients - {id} && next.fates == s.fates[sid := Removed(t, reaped)]
    && next.sessions == s.sessions && next.closes == s.closes
    && t in s.threads && t in next.threads && next.threads == s.threads[t := next.threads[t]]
    && Queue(next.threads[t]) == Queue(s.threads[t]) + [sid] && IsReaper(next.threads[t]) == reaped
  }

  lemma TakenOutMap(s: State, next: State, t: Tid, id: ClientId, reaped: bool)
    requires MapFits(s) && ClosesFit(s) && id in s.clients && TakenOut(s, next, t, id, reaped)
    ensures MapFits(next) && ClosesFit(next)
  {
  }

  lemma TakenOutRest(s: State, next: State, t: Tid, id: ClientId, reaped: bool)
    requires BooksFit(s) && id in s.clients && TakenOut(s, next, t, id, reaped) && Exclusive(s, t)
    requires QueueFits(s, t, Queue(s.threads[t]), reaped)
    requires reaped ==> s.sessions[s.clients[id]].activeCalls == 0
    ensures RemovedFit(next) && FatesMove(s, next, t) && QueueFits(next, t, Queue(next.threads[t]), reaped)
  {
    hide Queue, ClosesFit;
    assert s.fates[s.clients[id]] == Mapped(id);
    var before, after := Queue(s.threads[t]), Queue(next.threads[t]);
    assert forall k :: 0 <= k < |before| ==> after[k] == before[k];
    assert after[|before|] == s.clients[id];
    forall e | 0 <= e < |next.fates| && next.fates[e].Removed?
      ensures next.fates[e].tid in next.threads && e in Queue(next.threads[next.fates[e].tid])
    {
      if e != s.clients[id] && next.fates[e].tid == t {
        assert e in before;
        assert e in after;
      }
    }
  }

  lemma RemoveKeeps(s: State, t: Tid, id: ClientId)
    requires BooksFit(s) && t in s.threads && s.threads[t] == Deleting(id) && CanWrite(s)
    ensures GoodStep(s, NextRemove(s, t, id), t)
  {
    if id in s.clients {
      var next := NextRemove(s, t, id);
      assert TakenOut(s, next, t, id, false);
      assert Exclusive(s, t);
      TakenOutMap(s, next, t, id, false);
      TakenOutRest(s, next, t, id, false);
      hide MapFits, ClosesFit, RemovedFit, FatesMove, QueueFits, TakenOut, Exclusive, CanWrite;
    }
  }

  lemma SwapKeeps(s: State, t: Tid, queue: seq<Sid>)
    requires BooksFit(s) && t in s.threads && s.threads[t] == Stopping && CanWrite(s) && Lists(s.clients, queue)
    ensures GoodStep(s, NextSwap(s, t, queue), t)
  {
  }

  lemma CheckKeeps(s: State, t: Tid, id: ClientId, ttl: real)
    requires BooksFit(s) && LocksFit(s) && t in s.threads && ThreadFits(s, t, s.threads[t])
    requires s.threads[t].Cleaning? && id in s.threads[t].todo && id in s.clients
    ensures GoodStep(s, NextCheck(s, t, s.threads[t], id, ttl), t)
  {
    if Idle(s.sessions[s.clients[id]], s.threads[t].now, ttl) {
      hide *;
      CheckTakesOut(s, t, id, ttl);
      ReaperFits(s, NextCheck(s, t, s.threads[t], id, ttl), t, id);
    } else {
      hide ClosesFit, LocksFit;
    }
  }

  lemma CheckTakesOut(s: State, t: Tid, id: ClientId, ttl: real)
    requires BooksFit(s) && LocksFit(s) && t in s.threads && ThreadFits(s, t, s.threads[t])
    requires s.threads[t].Cleaning? && id in s.threads[t].todo && id in s.clients
    requires Idle(s.sessions[s.clients[id]], s.threads[t].now, ttl)
    ensures var next := NextCheck(s, t, s.threads[t], id, ttl);
            && TakenOut(s, next, t, id, true) && Exclusive(s, t) && next.threads[t].Cleaning? && next.threads[t].todo <= next.clients.Keys
            && s.sessions[s.clients[id]].activeCalls == 0
  {
    hide ClosesFit, RemovedFit, FatesMove;
  }

  lemma ReaperFits(s: State, next: State, t: Tid, id: ClientId)
    requires BooksFit(s) && id in s.clients && TakenOut(s, next, t, id, true) && Exclusive(s, t)
    requires ThreadFits(s, t, s.threads[t]) && s.threads[t].Cleaning? && s.sessions[s.clients[id]].activeCalls == 0
    requires next.threads[t].Cleaning? && next.threads[t].todo <= next.clients.Keys
    ensures GoodStep(s, next, t)
  {
    hide MapFits, ClosesFit, RemovedFit, FatesMove, QueueFits, TakenOut, Exclusive;
    TakenOutThread(s, next, t, id);
    TakenOutMap(s, next, t, id, true);
    TakenOutRest(s, next, t, id, true);
  }

  lemma TakenOutThread(s: State, next: State, t: Tid, id: ClientId)
    requires MapFits(s) && id in s.clients && TakenOut(s, next, t, id, true)
    ensures t in s.threads && t in next.threads
  {
  }

  /** The tail of a list of sessions to close fits once its head is closed. */
  lemma ClosedHead(s: State, t: Tid, reaped: bool, queue: seq<Sid>, fates: seq<Fate>)
    requires QueueFits(s, t, queue, reaped) && queue != [] && queue[0] < |s.fates| && fates == s.fates[queue[0] := Closed(reaped)]
    ensures Distinct(queue[1..])
    ensures forall k :: 0 <= k < |queue| - 1 ==> queue[1..][k] < |fates| && fates[queue[1..][k]] == Removed(t, reaped)
    ensures forall e :: e in queue && e != queue[0] ==> e in queue[1..]
  {
    assert queue == [queue[0]] + queue[1..];
  }

  predicate AtCloseNext(s: State, t: Tid) {
    && t in s.threads && s.threads[t].Closing? && s.threads[t].queue != []
    && s.threads[t].queue[0] < |s.fates| && s.threads[t].queue[0] < |s.closes|
  }

  lemma CloseNextBooks(s: State, t: Tid)
    requires MapFits(s) && ClosesFit(s) && AtCloseNext(s, t) && s.fates[s.threads[t].queue[0]].Removed?
    ensures MapFits(NextClose(s, t, s.threads[t])) && ClosesFit(NextClose(s, t, s.threads[t]))
  {
  }

  lemma CloseNextRemoved(s: State, t: Tid)
    requires RemovedFit(s) && AtCloseNext(s, t)
    requires forall e :: e in s.threads[t].queue && e != s.threads[t].queue[0] ==> e in s.threads[t].queue[1..]
    ensures RemovedFit(NextClose(s, t, s.threads[t]))
  {
    var queue := s.threads[t].queue;
    assert |queue| == 1 ==> queue[1..] == [];
  }

  lemma CloseNextKeeps(s: State, t: Tid)
    requires BooksFit(s) && ThreadFits(s, t, At(s, t)) && AtCloseNext(s, t)
    ensures GoodStep(s, NextClose(s, t, s.threads[t]), t)
  {
    var pc, next := s.threads[t], NextClose(s, t, s.threads[t]);
    assert s.fates[pc.queue[0]] == Removed(t, pc.reaped);
    ClosedHead(s, t, pc.reaped, pc.queue, next.fates);
    CloseNextBooks(s, t);
    CloseNextRemoved(s, t);
    hide Distinct, MapFits, ClosesFit, RemovedFit;
    assert |s.fates| == |s.sessions| by {
      SameSizes(s);
    }
  }

  lemma SameSizes(s: State)
    requires MapFits(s)
    ensures |s.sessions| == |s.fates| == |s.closes|
  {
  }

  /** Steps that change the map or a fate. */
  predicate Registers(a: Action) {
    a.Remove? || a.Swap? || a.Check? || a.Create? || a.Store? || a.IdFails? || a.CloseNext?
  }

  predicate SameBooks(s: State, next: State, t: Tid) {
    && next.clients == s.clients && next.fates == s.fates && next.closes == s.closes && |next.sessions| == |s.sessions|
    && (forall u :: u in s.threads ==> u in next.threads && (u == t || next.threads[u] == s.threads[u]))
    && (t in s.threads ==> Queue(next.threads[t]) == Queue(s.threads[t]))
  }

  lemma OthersSameBooks(s: State, t: Tid, a: Action, ttl: real)
    requires Enabled(s, t, a) && !Registers(a)
    ensures SameBooks(s, Next(s, t, a, ttl), t)
  {
  }

  lemma SameBooksKeeps(s: State, next: State, t: Tid)
    requires BooksFit(s) && SameBooks(s, next, t)
    ensures BooksFit(next) && FatesMove(s, next, t)
  {
    hide Queue;
  }

  lemma OthersMoverFits(s: State, t: Tid, a: Action, ttl: real)
    requires MapFits(s) && (t in s.threads ==> ThreadFits(s, t, s.threads[t])) && Enabled(s, t, a) && !Registers(a)
    ensures var next := Next(s, t, a, ttl); t in next.threads ==> ThreadFits(next, t, next.threads[t])
  {
  }

  lemma OthersKeep(s: State, t: Tid, a: Action, ttl: real)
    requires BooksFit(s) && (t in s.threads ==> ThreadFits(s, t, s.threads[t])) && Enabled(s, t, a) && !Registers(a)
    ensures GoodStep(s, Next(s, t, a, ttl), t)
  {
    OthersSameBooks(s, t, a, ttl);
    OthersMoverFits(s, t, a, ttl);
    SameBooksKeeps(s, Next(s, t, a, ttl), t);
    hide Next, Enabled, ThreadFits, BooksFit, FatesMove;
  }

  lemma BooksKept(s: State, t: Tid, a: Action, ttl: real)
    requires BooksFit(s) && LocksFit(s) && (t in s.threads ==> ThreadFits(s, t, s.threads[t])) && Enabled(s, t, a)
    ensures GoodStep(s, Next(s, t, a, ttl), t)
  {
    if !Registers(a) {
      OthersKeep(s, t, a, ttl);
    } else {
      hide BooksFit, LocksFit, ThreadFits, GoodStep, CanWrite, Lists, NextCreate, NextStore, NextRemove, NextCheck, NextClose;
      match a
      case Create => CreateKeeps(s, t);
      case Store(id) => StoreKeeps(s, t, s.threads[t].sid, id);
      case IdFails => IdFailsKeeps(s, t, s.threads[t].sid);
      case Remove => RemoveKeeps(s, t, s.threads[t].id);
      case Swap(queue) => SwapKeeps(s, t, queue);
      case Check(id) => CheckKeeps(s, t, id, ttl);
      case CloseNext => CloseNextKeeps(s, t);
    }
  }

  lemma LocksKept(s: State, t: Tid, a: Action, ttl: real)
    requires LocksFit(s) && Enabled(s, t, a)
    ensures LocksFit(Next(s, t, a, ttl))
  {
    hide Lists;
  }

  /** Only the two sections of a session lock touch a counter, each by one. */
  lemma CallsMove(s: State, t: Tid, a: Action, ttl: real, e: Sid)
    requires MapFits(s) && Enabled(s, t, a) && e < |s.sessions|
    ensures var next := Next(s, t, a, ttl);
            && |s.sessions| <= |next.sessions|
            && next.sessions[e].activeCalls == s.sessions[e].activeCalls
                 + Bit(t in next.threads && Calls(next.threads[t], e)) - Bit(t in s.threads && Calls(s.threads[t], e))
            && (next.threads == s.threads || (t in next.threads && next.threads == s.threads[t := next.threads[t]]))
  {
    hide Lists, CanRead, CanWrite;
  }

  lemma OnlyCreateAdds(s: State, t: Tid, a: Action, ttl: real)
    requires Enabled(s, t, a) && |s.sessions| < |Next(s, t, a, ttl).sessions|
    ensures a == Create && Next(s, t, a, ttl) == NextCreate(s, t)
  {
    hide Lists, CanRead, CanWrite;
  }

  /** A session made by this step has no caller. */
  lemma NewSession(s: State, t: Tid, e: Sid)
    requires MapFits(s) && ThreadsFit(s) && e == |s.sessions|
    ensures var next := NextCreate(s, t);
            |next.sessions| == e + 1 && next.sessions[e].activeCalls == 0 && forall u :: u in next.threads ==> !Calls(next.threads[u], e)
  {
    assert forall u :: u in s.threads ==> ThreadFits(s, u, s.threads[u]);
    hide Queue, QueueFits;
  }

  lemma CallsKept(s: State, t: Tid, a: Action, ttl: real)
    requires MapFits(s) && CallsCounted(s) && ThreadsFit(s) && Enabled(s, t, a)
    ensures CallsCounted(Next(s, t, a, ttl))
  {
    var next := Next(s, t, a, ttl);
    hide Next, Enabled, ThreadsFit, MapFits, Calls;
    forall e | 0 <= e < |next.sessions|
      ensures next.sessions[e].activeCalls == Counting.Count(next.threads, Calling(e))
    {
      if e < |s.sessions| {
        CallsMove(s, t, a, ttl, e);
        if next.threads != s.threads {
          Moved(s.threads, t, next.threads[t], Calling(e));
        } else {
          assert Bit(t in next.threads && Calls(next.threads[t], e)) == Bit(t in s.threads && Calls(s.threads[t], e));
        }
      } else {
        OnlyCreateAdds(s, t, a, ttl);
        hide NextCreate;
        NewSession(s, t, |s.sessions|);
        NobodyCalls(next.threads, e);
      }
    }
  }

  lemma NobodyCalls(threads: map<Tid, Pc>, e: Sid)
    requires forall u :: u in threads ==> !Calls(threads[u], e)
    ensures Counting.Count(threads, Calling(e)) == 0
  {
    assert (forall u :: u !in Where(threads, Calling(e))) ==> Where(threads, Calling(e)) == {};
  }

  lemma RunningIsCounted(s: State, u: Tid)
    requires CallsCounted(s) && u in s.threads && s.threads[u].Running? && s.threads[u].sid < |s.sessions|
    ensures s.sessions[s.threads[u].sid].activeCalls > 0
  {
    Member(s.threads, u, Calling(s.threads[u].sid));
  }

  lemma OnlyMover(s: State, t: Tid, a: Action, ttl: real)
    requires Enabled(s, t, a)
    ensures forall u :: u in Next(s, t, a, ttl).threads && u != t ==> u in s.threads && Next(s, t, a, ttl).threads[u] == s.threads[u]
  {
    hide Lists, CanRead, CanWrite;
  }

  lemma StepKeeps(s: State, t: Tid, a: Action, ttl: real)
    requires Inv(s) && Enabled(s, t, a)
    ensures Inv(Next(s, t, a, ttl))
  {
    var next := Next(s, t, a, ttl);
    assert forall u :: u in s.threads ==> ThreadFits(s, u, s.threads[u]);
    hide Next, Enabled, ThreadFits, MapFits, ClosesFit, CallsCounted, LocksFit, RemovedFit, FatesMove;
    LocksKept(s, t, a, ttl);
    CallsKept(s, t, a, ttl);
    BooksKept(s, t, a, ttl);
    OnlyMover(s, t, a, ttl);
    forall u | u in next.threads && u != t
      ensures ThreadFits(next, u, next.threads[u])
    {
      if s.threads[u].Running? && s.threads[u].sid < |s.sessions| {
        RunningIsCounted(s, u);
      }
      OtherFits(s, next, t, u);
    }
  }

  // ---- runs -------------------------------------------------------------------------------------------

  predicate IsStep(s: State, t: Tid, a: Action, next: State, ttl: real) {
    Enabled(s, t, a) && next == Next(s, t, a, ttl)
  }

  predicate IsRun(states: seq<State>, steps: seq<(Tid, Action)>, ttl: real) {
    && |states| == |steps| + 1 && Init(states[0])
    && forall n :: 0 <= n < |steps| ==> IsStep(states[n], steps[n].0, steps[n].1, states[n + 1], ttl)
  }

  lemma {:induction false} RunInv(states: seq<State>, steps: seq<(Tid, Action)>, ttl: real, n: nat)
    requires IsRun(states, steps, ttl) && n < |states|
    ensures Inv(states[n])
  {
    hide Inv, Init, Enabled, Next;
    if n == 0 {
      InitInv(states[0]);
    } else {
      RunInv(states, steps, ttl, n - 1);
      assert IsStep(states[n - 1], steps[n - 1].0, steps[n - 1].1, states[n], ttl);
      StepKeeps(states[n - 1], steps[n - 1].0, steps[n - 1].1, ttl);
    }
  }

  predicate Safe(s: State) {
    && |s.fates| == |s.closes| == |s.sessions|
    // a session is closed at most once, and only when it is no longer (or never was) in the map
    && (forall e :: 0 <= e < |s.closes| ==> s.closes[e] <= 1)
    && (forall id :: id in s.clients ==> s.clients[id] < |s.closes| && s.closes[s.clients[id]] == 0)
    // the counter of a session is the number of handlers between its two sections
    && (forall e :: 0 <= e < |s.sessions| ==> s.sessions[e].activeCalls == Counting.Count(s.threads, Calling(e)))
    // no handler holds a session that the reaper took out
    && (forall t :: t in s.threads ==> forall e :: 0 <= e < |s.fates| && Reaped(s.fates[e]) ==> !Holds(s.threads[t], e))
    // what a thread took out it has closed when it is done, or it still has it in its list
    && (forall e :: 0 <= e < |s.fates| && s.fates[e].Removed? ==>
          s.fates[e].tid in s.threads && s.threads[s.fates[e].tid] != Done && s.closes[e] == 0)
    && (forall e :: 0 <= e < |s.fates| && s.fates[e].Closed? ==> s.closes[e] == 1)
  }

  lemma InvSafe(s: State)
    requires Inv(s)
    ensures Safe(s)
  {
    forall t | t in s.threads
      ensures forall e :: 0 <= e < |s.fates| && Reaped(s.fates[e]) ==> !Holds(s.threads[t], e)
    {
      assert ThreadFits(s, t, s.threads[t]);
    }
    hide ThreadsFit, LocksFit, CallsCounted;
    assert forall e :: 0 <= e < |s.sessions| ==> s.sessions[e].activeCalls == Counting.Count(s.threads, Calling(e)) by {
      CallsSay(s);
    }
  }

  lemma CallsSay(s: State)
    requires CallsCounted(s)
    ensures forall e :: 0 <= e < |s.sessions| ==> s.sessions[e].activeCalls == Counting.Count(s.threads, Calling(e))
  {
  }

  lemma RegistrySafety(states: seq<State>, steps: seq<(Tid, Action)>, ttl: real)
    requires IsRun(states, steps, ttl)
    ensures forall n :: 0 <= n < |states| ==> Safe(states[n])
  {
    forall n | 0 <= n < |states|
      ensures Safe(states[n])
    {
      RunInv(states, steps, ttl, n);
      InvSafe(states[n]);
    }
  }

  /** The index conditions in `Enabled` hold wherever a thread gets to: they block no step. */
  lemma GuardsHold(states: seq<State>, steps: seq<(Tid, Action)>, ttl: real, n: nat, t: Tid)
    requires IsRun(states, steps, ttl) && n < |states|
    ensures var s, pc := states[n], At(states[n], t);
            && (pc.Found? || pc.Running? || pc.Building? ==> pc.sid < |s.sessions| && pc.sid < |s.fates|)
            && (pc.Cleaning? ==> forall id :: id in pc.todo ==> id in s.clients && s.clients[id] < |s.sessions| && s.clients[id] < |s.fates|)
            && (pc.Closing? && pc.queue != [] ==> pc.queue[0] < |s.fates| && pc.queue[0] < |s.closes|)
  {
    RunInv(states, steps, ttl, n);
    assert t in states[n].threads ==> ThreadFits(states[n], t, states[n].threads[t]);
    hide IsRun, ThreadsFit, CallsCounted, LocksFit, RemovedFit, ClosesFit;
  }

  lemma ReapedStep(s: State, t: Tid, a: Action, ttl: real, e: Sid)
    requires BooksFit(s) && LocksFit(s) && ThreadsFit(s) && Enabled(s, t, a) && e < |s.fates| && Reaped(s.fates[e])
    ensures e < |Next(s, t, a, ttl).fates| && Reaped(Next(s, t, a, ttl).fates[e])
  {
    assert t in s.threads ==> ThreadFits(s, t, s.threads[t]);
    hide Next, Enabled, ThreadFits, ThreadsFit, BooksFit;
    BooksKept(s, t, a, ttl);
  }

  lemma InvParts(s: State)
    requires Inv(s)
    ensures BooksFit(s) && LocksFit(s) && ThreadsFit(s)
  {
    hide MapFits, ClosesFit, RemovedFit, LocksFit, ThreadsFit, CallsCounted;
  }

  /** Once the reaper took a session out, no handler ever gets hold of it again. */
  lemma {:induction false} ReapedIsNeverHeld(states: seq<State>, steps: seq<(Tid, Action)>, ttl: real, i: nat, j: nat, e: Sid)
    requires IsRun(states, steps, ttl) && i <= j < |states| && e < |states[i].fates| && Reaped(states[i].fates[e])
    ensures e < |states[j].fates| && Reaped(states[j].fates[e])
    ensures forall t :: t in states[j].threads ==> !Holds(states[j].threads[t], e)
    decreases j
  {
    hide Init, Enabled, Next, Inv;
    if i < j {
      ReapedIsNeverHeld(states, steps, ttl, i, j - 1, e);
      RunInv(states, steps, ttl, j - 1);
      assert IsStep(states[j - 1], steps[j - 1].0, steps[j - 1].1, states[j], ttl);
      InvParts(states[j - 1]);
      ReapedStep(states[j - 1], steps[j - 1].0, steps[j - 1].1, ttl, e);
    }
    RunInv(states, steps, ttl, j);
    InvSafe(states[j]);
  }

  // ---- sessions taken out by DELETE and by Close ----------------------------------------------------------

  predicate NobodyHolds(s: State, e: Sid) {
    forall u :: u in s.threads ==> !Holds(s.threads[u], e)
  }

  predicate NeverHeldFrom(states: seq<State>, i: nat, e: Sid) {
    forall j :: i <= j < |states| ==> NobodyHolds(states[j], e)
  }

  /** With the write lock free of readers, the counter says whether a handler holds the session. */
  lemma HeldIffCounted(s: State, e: Sid)
    requires CallsCounted(s) && CanWrite(s) && e < |s.sessions|
    ensures NobodyHolds(s, e) <==> s.sessions[e].activeCalls == 0
  {
    if s.sessions[e].activeCalls == 0 {
      NoMember(s.threads, Calling(e));
      assert forall u :: u in s.threads ==> !Calls(s.threads[u], e) by {
        assert forall u :: u in s.threads ==> !Calling(e)(s.threads[u]);
      }
    } else {
      var u := SomeMember(s.threads, Calling(e));
      assert Holds(s.threads[u], e);
    }
  }

  /** A session outside the map that nobody holds stays so. */
  lemma UnheldStep(s: State, t: Tid, a: Action, ttl: real, e: Sid)
    requires BooksFit(s) && LocksFit(s) && ThreadsFit(s) && Enabled(s, t, a)
    requires e < |s.fates| && OutOfMap(s.fates[e]) && NobodyHolds(s, e)
    ensures var next := Next(s, t, a, ttl); e < |next.fates| && OutOfMap(next.fates[e]) && NobodyHolds(next, e)
  {
    assert t in s.threads ==> ThreadFits(s, t, s.threads[t]);
    OnlyMover(s, t, a, ttl);
    MoverHolds(s, t, a, ttl, e);
    hide Next, Enabled, ThreadFits, ThreadsFit, BooksFit;
    BooksKept(s, t, a, ttl);
  }

  /** Only the look-up gives a session to a handler. */
  lemma MoverHolds(s: State, t: Tid, a: Action, ttl: real, e: Sid)
    requires MapFits(s) && Enabled(s, t, a) && e < |s.fates|
    ensures var next := Next(s, t, a, ttl);
            t in next.threads && Holds(next.threads[t], e) ==> (t in s.threads && Holds(s.threads[t], e)) || s.fates[e].Mapped?
  {
    hide Lists, CanRead, CanWrite;
  }

  lemma {:induction false} UnheldStays(states: seq<State>, steps: seq<(Tid, Action)>, ttl: real, i: nat, j: nat, e: Sid)
    requires IsRun(states, steps, ttl) && i <= j < |states|
    requires e < |states[i].fates| && OutOfMap(states[i].fates[e]) && NobodyHolds(states[i], e)
    ensures e < |states[j].fates| && OutOfMap(states[j].fates[e]) && NobodyHolds(states[j], e)
    decreases j
  {
    hide Init, Enabled, Next, Inv, NobodyHolds;
    if i < j {
      UnheldStays(states, steps, ttl, i, j - 1, e);
      RunInv(states, steps, ttl, j - 1);
      assert IsStep(states[j - 1], steps[j - 1].0, steps[j - 1].1, states[j], ttl);
      InvParts(states[j - 1]);
      UnheldStep(states[j - 1], steps[j - 1].0, steps[j - 1].1, ttl, e);
    }
  }

  /** A step that takes the session `e` out of the map and holds the write lock while it does. */
  predicate TakesOut(s: State, t: Tid, a: Action, e: Sid) {
    (a.Remove? && At(s, t).Deleting? && At(s, t).id in s.clients && s.clients[At(s, t).id] == e) || (a.Swap? && e in s.clients.Values)
  }

  lemma TakenOutNow(s: State, t: Tid, a: Action, ttl: real, e: Sid)
    requires MapFits(s) && CallsCounted(s) && Enabled(s, t, a) && TakesOut(s, t, a, e)
    ensures e < |s.sessions| && e < |Next(s, t, a, ttl).fates| && OutOfMap(Next(s, t, a, ttl).fates[e])
    ensures NobodyHolds(Next(s, t, a, ttl), e) <==> s.sessions[e].activeCalls == 0
  {
    assert CanWrite(s);
    assert !HoldsRead(At(s, t)) && !At(s, t).Running?;
    HeldIffCounted(s, e);
    var next := Next(s, t, a, ttl);
    assert next.threads == s.threads[t := next.threads[t]] && !Holds(next.threads[t], e);
    hide CallsCounted, CanWrite, HoldsRead;
    assert NobodyHolds(next, e) <==> NobodyHolds(s, e) by {
      assert forall u :: u in s.threads && u != t ==> next.threads[u] == s.threads[u];
    }
  }

  /** DELETE and Close leave a session to no handler, now or later, exactly if its counter was zero
      when they took it out. */
  lemma TakenOutUnheld(states: seq<State>, steps: seq<(Tid, Action)>, ttl: real, n: nat, e: Sid)
    requires IsRun(states, steps, ttl) && n < |steps| && TakesOut(states[n], steps[n].0, steps[n].1, e)
    ensures e < |states[n].sessions|
    ensures NeverHeldFrom(states, n + 1, e) <==> states[n].sessions[e].activeCalls == 0
  {
    hide Init, Enabled, Next, MapFits, CallsCounted, ClosesFit, RemovedFit, LocksFit, ThreadsFit, NobodyHolds, TakesOut;
    RunInv(states, steps, ttl, n);
    assert IsStep(states[n], steps[n].0, steps[n].1, states[n + 1], ttl);
    TakenOutNow(states[n], steps[n].0, steps[n].1, ttl, e);
    if states[n].sessions[e].activeCalls == 0 {
      forall j | n + 1 <= j < |states|
        ensures NobodyHolds(states[j], e)
      {
        UnheldStays(states, steps, ttl, n + 1, j, e);
      }
    }
  }

  // ---- what the reaper takes out ----------------------------------------------------------------------------

  /** Step `m` creates the session or counts a call on it. */
  predicate IsUse(states: seq<State>, steps: seq<(Tid, Action)>, m: nat, e: Sid) {
    && m < |states| && m < |steps|
    && ((steps[m].1.Count? && At(states[m], steps[m].0) == Found(e)) || (steps[m].1.Create? && |states[m].sessions| == e))
  }

  lemma UseStep(s: State, t: Tid, a: Action, ttl: real, e: Sid)
    requires MapFits(s) && Enabled(s, t, a) && e < |Next(s, t, a, ttl).sessions|
    ensures var next, isUse := Next(s, t, a, ttl), (a.Count? && At(s, t) == Found(e)) || (a.Create? && |s.sessions| == e);
            && next.now >= s.now && |s.sessions| <= |next.sessions|
            && (isUse ==> next.sessions[e].lastUsed == s.now)
            && (!isUse ==> e < |s.sessions| && next.sessions[e].lastUsed == s.sessions[e].lastUsed)
  {
    hide Lists, CanRead, CanWrite;
  }

  /** `lastUsed` is the time of the last use. */
  lemma {:induction false} LastUsedIsLastUse(states: seq<State>, steps: seq<(Tid, Action)>, ttl: real, n: nat, e: Sid) returns (last: nat)
    requires IsRun(states, steps, ttl) && n < |states| && e < |states[n].sessions|
    ensures last < n && IsUse(states, steps, last, e) && states[last].now == states[n].sessions[e].lastUsed <= states[n].now
    ensures forall m :: 0 <= m < n && IsUse(states, steps, m, e) ==> states[m].now <= states[n].sessions[e].lastUsed
    decreases n
  {
    hide Enabled, Next, Inv;
    assert n > 0;
    var s, t, a := states[n - 1], steps[n - 1].0, steps[n - 1].1;
    assert IsStep(s, t, a, states[n], ttl);
    RunInv(states, steps, ttl, n - 1);
    InvMap(s);
    UseStep(s, t, a, ttl, e);
    if IsUse(states, steps, n - 1, e) {
      last := n - 1;
      forall m | 0 <= m < n && IsUse(states, steps, m, e)
        ensures states[m].now <= states[n].sessions[e].lastUsed
      {
        ClockGrows(states, steps, ttl, m, n - 1);
      }
    } else {
      last := LastUsedIsLastUse(states, steps, ttl, n - 1, e);
    }
  }

  lemma InvMap(s: State)
    requires Inv(s)
    ensures MapFits(s)
  {
  }

  lemma {:induction false} ClockGrows(states: seq<State>, steps: seq<(Tid, Action)>, ttl: real, m: nat, n: nat)
    requires IsRun(states, steps, ttl) && m <= n < |states|
    ensures states[m].now <= states[n].now
    decreases n
  {
    hide Enabled, Next;
    if m < n {
      ClockGrows(states, steps, ttl, m, n - 1);
      assert IsStep(states[n - 1], steps[n - 1].0, steps[n - 1].1, states[n], ttl);
      ClockStep(states[n - 1], steps[n - 1].0, steps[n - 1].1, ttl);
    }
  }

  lemma ClockStep(s: State, t: Tid, a: Action, ttl: real)
    requires Enabled(s, t, a)
    ensures s.now <= Next(s, t, a, ttl).now
  {
    hide Lists, CanRead, CanWrite;
  }

  lemma CheckStep(s: State, t: Tid, id: ClientId, ttl: real)
    requires MapFits(s) && CallsCounted(s) && Enabled(s, t, Check(id))
    ensures var next, e := Next(s, t, Check(id), ttl), s.clients[id];
            && |next.fates| == |s.fates| && e < |s.fates|
            && (id !in next.clients && next.fates[e] == Removed(t, true) <==>
                 (forall u :: u in s.threads ==> !Calls(s.threads[u], e)) && At(s, t).now - s.sessions[e].lastUsed > ttl)
            && (id in next.clients ==> next.clients == s.clients && next.fates == s.fates)
  {
    var e := s.clients[id];
    if s.sessions[e].activeCalls == 0 {
      NoMember(s.threads, Calling(e));
      assert forall u :: u in s.threads ==> !Calling(e)(s.threads[u]);
    } else {
      var u := SomeMember(s.threads, Calling(e));
      assert Calls(s.threads[u], e);
    }
    hide CallsCounted, Lists, CanRead, CanWrite, Calls;
  }

  /** The reaper takes a session out exactly if no handler is between its two sections and every use of
      the session, its creation included, lies more than the limit before the reaper's time. */
  lemma ReapedIff(states: seq<State>, steps: seq<(Tid, Action)>, ttl: real, n: nat, id: ClientId)
    requires IsRun(states, steps, ttl) && n < |steps| && steps[n].1 == Check(id)
    ensures id in states[n].clients && At(states[n], steps[n].0).Cleaning?
    ensures var t, e := steps[n].0, states[n].clients[id];
            && e < |states[n + 1].fates|
            && (id !in states[n + 1].clients && states[n + 1].fates[e] == Removed(t, true) <==>
                 && (forall u :: u in states[n].threads ==> !Calls(states[n].threads[u], e))
                 && (forall m :: 0 <= m < n && IsUse(states, steps, m, e) ==> At(states[n], t).now - states[m].now > ttl))
            && (id in states[n + 1].clients ==> states[n + 1].clients == states[n].clients)
  {
    var s, t := states[n], steps[n].0;
    assert IsStep(s, t, steps[n].1, states[n + 1], ttl);
    RunInv(states, steps, ttl, n);
    CheckStep(s, t, id, ttl);
    var e := s.clients[id];
    hide Next, Inv, IsUse, Calls;
    var last := LastUsedIsLastUse(states, steps, ttl, n, e);
  }

  lemma LockStep(s: State, t: Tid, ttl: real)
    requires Enabled(s, t, Lock)
    ensures At(Next(s, t, Lock, ttl), t).Cleaning? && At(Next(s, t, Lock, ttl), t).todo == s.clients.Keys
  {
  }

  lemma TodoStep(s: State, u: Tid, a: Action, ttl: real, t: Tid, id: ClientId)
    requires Enabled(s, u, a) && At(s, t).Cleaning? && At(Next(s, u, a, ttl), t).Cleaning?
    ensures id in At(s, t).todo && id !in At(Next(s, u, a, ttl), t).todo ==> u == t && a == Check(id)
  {
    hide Lists, CanRead, CanWrite;
  }

  /** From its lock on, the reaper strikes an id off only by checking it; it unlocks when all are. */
  lemma {:induction false} EveryIdIsChecked(states: seq<State>, steps: seq<(Tid, Action)>, ttl: real, m: nat, n: nat, t: Tid, id: ClientId)
    returns (k: nat)
    requires IsRun(states, steps, ttl) && m < n < |states| && steps[m] == (t, Lock)
    requires forall j :: m < j <= n ==> At(states[j], t).Cleaning?
    requires id in states[m].clients && id !in At(states[n], t).todo
    ensures m < k < n && steps[k] == (t, Check(id))
    decreases n
  {
    hide Enabled, Next;
    assert IsStep(states[n - 1], steps[n - 1].0, steps[n - 1].1, states[n], ttl);
    if n == m + 1 {
      LockStep(states[m], t, ttl);
      assert false;
    } else {
      TodoStep(states[n - 1], steps[n - 1].0, steps[n - 1].1, ttl, t, id);
      if id in At(states[n - 1], t).todo {
        k := n - 1;
      } else {
        k := EveryIdIsChecked(states, steps, ttl, m, n - 1, t, id);
      }
    }
  }

  lemma Extended(states: seq<State>, steps: seq<(Tid, Action)>, last: State, t: Tid, a: Action, ttl: real)
    returns (longer: seq<State>, all: seq<(Tid, Action)>, next: State)
    requires IsRun(states, steps, ttl) && states[|states| - 1] == last && Enabled(last, t, a)
    ensures IsRun(longer, all, ttl) && next == Next(last, t, a, ttl) && longer[|longer| - 1] == next
  {
    hide Enabled, Next, Init;
    next := Next(last, t, a, ttl);
    longer, all := states + [next], steps + [(t, a)];
  }

  /** A session with a request running on it. */
  lemma OneRequestRuns(ttl: real) returns (states: seq<State>, steps: seq<(Tid, Action)>, last: State)
    ensures IsRun(states, steps, ttl) && states[|states| - 1] == last
    ensures last.threads == map[0 := Done, 1 := Running(0)] && last.clients == map[5 := 0] && !last.once
    ensures last.fates == [Mapped(5)] && last.closes == [0] && last.sessions == [Session(1, 0.0)]
  {
    states, steps, last := OneSession(ttl);
    hide IsRun;
    states, steps, last := Extended(states, steps, last, 1, Request(5), ttl);
    states, steps, last := Extended(states, steps, last, 1, RLock, ttl);
    states, steps, last := Extended(states, steps, last, 1, Lookup, ttl);
    states, steps, last := Extended(states, steps, last, 1, Count, ttl);
    states, steps, last := Extended(states, steps, last, 1, RUnlock, ttl);
  }

  lemma OneSession(ttl: real) returns (states: seq<State>, steps: seq<(Tid, Action)>, last: State)
    ensures IsRun(states, steps, ttl) && states[|states| - 1] == last
    ensures last == State(map[5 := 0], [Session(0, 0.0)], false, 0.0, map[0 := Done], [Mapped(5)], [0])
  {
    last := State(map[], [], false, 0.0, map[], [], []);
    states, steps := [last], [];
    assert IsRun(states, steps, ttl);
    hide IsRun;
    states, steps, last := Extended(states, steps, last, 0, Create, ttl);
    states, steps, last := Extended(states, steps, last, 0, Store(5), ttl);
  }

  /** DELETE is not the reaper: it closes a session under a request that is still running. */
  lemma DeleteClosesUnderRequest(ttl: real) returns (states: seq<State>, steps: seq<(Tid, Action)>)
    ensures IsRun(states, steps, ttl)
    ensures var s := states[|states| - 1]; s.closes == [1] && At(s, 1) == Running(0)
  {
    var last;
    states, steps, last := OneRequestRuns(ttl);
    hide IsRun;
    states, steps, last := Extended(states, steps, last, 2, Delete(5), ttl);
    states, steps, last := Extended(states, steps, last, 2, Remove, ttl);
    states, steps, last := Extended(states, steps, last, 2, CloseNext, ttl);
  }

  // ---- the objects ----------------------------------------------------------------------------------------

  class ClientSession {
    var activeCalls: int
    var lastUsed: real
    var closes: nat

    constructor (now: real)
      ensures activeCalls == 0 && lastUsed == now && closes == 0
    {
      activeCalls, lastUsed, closes := 0, now, 0;
    }

    function Counters(): Session
      reads this
    {
      Session(activeCalls, lastUsed)
    }

    method CloseTransport()
      modifies this`closes
      ensures closes == old(closes) + 1
    {
      closes := closes + 1;
    }
  }

  class Server {
    const idleTTL: real
    var clients: map<ClientId, ClientSession>
    var once: bool

    constructor (idleTTL: real)
      ensures clients == map[] && !once && this.idleTTL == idleTTL
    {
      this.idleTTL := idleTTL;
      clients, once := map[], false;
    }

    /** No session is registered under two ids. */
    predicate OneIdEach()
      reads this
    {
      forall a, b :: a in clients && b in clients && a != b ==> clients[a] != clients[b]
    }

    method StoreClient(id: ClientId, session: ClientSession)
      requires OneIdEach() && session !in clients.Values
      modifies this
      ensures OneIdEach() && clients == old(clients)[id := session] && once == old(once)
    {
      clients := clients[id := session];
    }

    /** The head of `handleRawRequest`. */
    method BeginCall(id: ClientId, now: real) returns (session: ClientSession?)
      modifies if id in clients then {clients[id]} else {}
      ensures session == if id in clients then clients[id] else null
      ensures session != null ==> session.Counters() == CallBegun(old(clients[id].Counters()), now)
      ensures session != null ==>
                && session.activeCalls == old(clients[id].activeCalls) + 1 && session.lastUsed == now
                && session.closes == old(clients[id].closes)
    {
      if id !in clients {
        return null;
      }
      session := clients[id];
      session.activeCalls := session.activeCalls + 1;
      session.lastUsed := now;
    }

    /** Its deferred function. */
    method EndCall(session: ClientSession)
      modifies session
      ensures session.Counters() == CallEnded(old(session.Counters()))
      ensures session.activeCalls == old(session.activeCalls) - 1
      ensures session.lastUsed == old(session.lastUsed) && session.closes == old(session.closes)
    {
      session.activeCalls := session.activeCalls - 1;
    }

    method DeleteClient(id: ClientId)
      modifies this, if id in clients then {clients[id]} else {}
      ensures clients == old(clients) - {id} && once == old(once)
      ensures id in old(clients) ==>
                var session := old(clients)[id]; session.closes == old(clients[id].closes) + 1 && session.Counters() == old(clients[id].Counters())
    {
      if id in clients {
        var session := clients[id];
        clients := clients - {id};
        session.CloseTransport();
      } else {
        assert (forall k :: k in clients - {id} <==> k in clients) && (forall k :: k in clients - {id} ==> (clients - {id})[k] == clients[k]) ==>
          clients - {id} == clients;
      }
    }

    method CloseAll(sessions: seq<ClientSession>)
      requires forall i, j :: 0 <= i < j < |sessions| ==> sessions[i] != sessions[j]
      modifies sessions
      ensures forall k :: 0 <= k < |sessions| ==>
                sessions[k].closes == old(sessions[k].closes) + 1 && sessions[k].Counters() == old(sessions[k].Counters())
    {
      for k := 0 to |sessions|
        invariant forall j :: 0 <= j < k ==> sessions[j].closes == old(sessions[j].closes) + 1
        invariant forall j :: k <= j < |sessions| ==> sessions[j].closes == old(sessions[j].closes)
        invariant forall j :: 0 <= j < |sessions| ==> sessions[j].Counters() == old(sessions[j].Counters())
      {
        sessions[k].CloseTransport();
      }
    }

    /** The sessions among the ids that the reaper wants, in some order. */
    method Expired(now: real) returns (expired: seq<ClientSession>, kept: map<ClientId, ClientSession>)
      requires OneIdEach()
      ensures forall i, j :: 0 <= i < j < |expired| ==> expired[i] != expired[j]
      ensures forall session :: session in expired <==>
                exists id :: id in clients && clients[id] == session && session.activeCalls == 0 && now - session.lastUsed > idleTTL
      ensures forall id :: id in kept <==> id in clients && !(clients[id].activeCalls == 0 && now - clients[id].lastUsed > idleTTL)
      ensures forall id :: id in kept ==> kept[id] == clients[id]
    {
      expired, kept := [], clients;
      var todo := clients.Keys;
      while todo != {}
        invariant todo <= clients.Keys
        invariant forall i, j :: 0 <= i < j < |expired| ==> expired[i] != expired[j]
        invariant forall session :: session in expired <==>
                    exists id :: id in clients && id !in todo && clients[id] == session && Idle(session.Counters(), now, idleTTL)
        invariant forall id :: id in kept <==> id in clients && (id in todo || !Idle(clients[id].Counters(), now, idleTTL))
        invariant forall id :: id in kept ==> kept[id] == clients[id]
        decreases todo
      {
        assert (forall id :: id !in todo) ==> todo == {};
        var id :| id in todo;
        var session := clients[id];
        assert session !in expired;
        if Idle(session.Counters(), now, idleTTL) {
          kept := kept - {id};
          expired := expired + [session];
        }
        todo := todo - {id};
      }
    }

    /** `cleanupIdleClients`: exactly the idle sessions leave the map, and each is closed once. */
    method CleanupIdleClients(now: real)
      requires OneIdEach()
      modifies this, clients.Values
      ensures OneIdEach() && once == old(once)
      ensures forall id :: id in old(clients) ==>
                (id !in clients <==> old(clients[id].activeCalls) == 0 && now - old(clients[id].lastUsed) > idleTTL)
      ensures forall id :: id in clients ==> id in old(clients) && clients[id] == old(clients)[id]
      ensures forall id :: id in old(clients) ==>
                var session := old(clients)[id];
                && session.activeCalls == old(clients[id].activeCalls) && session.lastUsed == old(clients[id].lastUsed)
                && session.closes == old(clients[id].closes) + if id in clients then 0 else 1
    {
      var expired, kept := Expired(now);
      assert forall session :: session in expired ==> session in clients.Values;
      clients := kept;
      CloseAll(expired);
      forall id | id in old(clients) && old(Idle(clients[id].Counters(), now, idleTTL))
        ensures old(clients)[id].closes == old(clients[id].closes) + 1
      {
        assert old(clients)[id] in expired;
      }
      forall id | id in old(clients) && !old(Idle(clients[id].Counters(), now, idleTTL))
        ensures old(clients)[id] !in expired
      {
      }
    }

    /** `Close`: the first call empties the map and closes what was in it; later calls do nothing. */
    method Close()
      requires OneIdEach()
      modifies this, clients.Values
      ensures once && clients == if old(once) then old(clients) else map[]
      ensures forall id :: id in old(clients) ==>
                var session := old(clients)[id];
                && session.Counters() == old(clients[id].Counters())
                && session.closes == old(clients[id].closes) + if old(once) then 0 else 1
    {
      if once {
        return;
      }
      once := true;
      var taken := clients;
      clients := map[];
      var todo := taken.Keys;
      while todo != {}
        invariant todo <= taken.Keys && once && clients == map[]
        invariant forall id :: id in taken ==> taken[id].Counters() == old(clients[id].Counters())
        invariant forall id :: id in taken ==> taken[id].closes == old(clients[id].closes) + if id in todo then 0 else 1
        decreases todo
      {
        assert (forall id :: id !in todo) ==> todo == {};
        var id :| id in todo;
        taken[id].CloseTransport();
        todo := todo - {id};
      }
    }
  }
}
