/** One target request seen from `_GoTransport._call`, from the Go handler and from the two-attempt
    loop of `_ManagedGoTransport.handle_request`, with a count of target executions. */
module ManagedCall {

  // ---- the Go handler ----------------------------------------------------------------------------

  /** What one run of `handleRawRequest` meets: every branch in front of `Send`, and the send. */
  datatype GoRun = GoRun(
    authenticated: bool, requestId: bool, sessionPresent: bool, envelopeValid: bool, http3Conflict: bool, send: Send)

  /** `reached` counts how often the target executed the request during one `Send`. */
  datatype Send = Sent(reached: nat) | SendFailed(reached: nat, code: string) | TooLarge(reached: nat)

  datatype Reply = Success | Failure(code: string)

  const CLIENT_NOT_FOUND := "CLIENT_NOT_FOUND"

  /** `classifyUpstreamError` has no other codes, and a failed send has one of these. */
  const UPSTREAM_CODES: set<string> := {
    "UPSTREAM_TIMEOUT", "UPSTREAM_DNS_ERROR", "UPSTREAM_CONNECT_ERROR", "UPSTREAM_TLS_ERROR", "UPSTREAM_PROTOCOL_ERROR"}

  /** The handler's answer and the number of target executions. */
  function HandleRawRequest(run: GoRun): (nat, Reply) {
    if !run.authenticated then (0, Failure("UNAUTHORIZED"))
    else if !run.requestId then (0, Failure("INTERNAL_ERROR"))
    else if !run.sessionPresent then (0, Failure(CLIENT_NOT_FOUND))
    else if !run.envelopeValid then (0, Failure("INVALID_REQUEST"))
    else if run.http3Conflict then (0, Failure("INVALID_REQUEST"))
    else match run.send
         case Sent(reached) => (reached, Success)
         case SendFailed(reached, code) => (reached, Failure(code))
         case TooLarge(reached) => (reached, Failure("UPSTREAM_PROTOCOL_ERROR"))
  }

  predicate UpstreamCode(code: string) {
    code in ["UPSTREAM_TIMEOUT", "UPSTREAM_DNS_ERROR", "UPSTREAM_CONNECT_ERROR", "UPSTREAM_TLS_ERROR", "UPSTREAM_PROTOCOL_ERROR"]
  }

  /** The sends that the client library can make with `retries` Go-side retries configured. */
  predicate Possible(run: GoRun, retries: nat) {
    && run.send.reached <= 1 + retries
    && (run.send.SendFailed? ==> UpstreamCode(run.send.code))
  }

  // ---- one POST -------------------------------------------------------------------------------------

  /** What becomes of a POST to `/requests`. `NotEncoded` is a request that `_request_payload` refuses
      before anything is sent. `NotConnected` is ConnectError, ConnectTimeout or
      PoolTimeout: the Go process never saw it. Otherwise the handler ran, and its reply arrives
      intact, is lost, is garbled, comes with the header of another instance, or decodes to a
      success envelope that `_response` refuses. */
  datatype Delivery =
    | NotEncoded
    | NotConnected
    | Delivered(run: GoRun, fate: Fate)

  datatype Fate = Intact | Lost | Garbled | WrongInstance | BadResponse

  datatype Outcome =
    | Response            // a returned httpx.Response
    | Unavailable         // GoServiceUnavailable
    | Unknown             // GoRequestOutcomeUnknown
    | ServiceError(code: string)  // GoProtocolError with a code
    | Upstream(code: string)      // the mapped httpx exceptions
    | ProtocolError       // GoProtocolError without a code
    | Misconfigured       // RuntimeConfigurationError from `ensure`

  /** `managed` is `self._instance_id is not None`. */
  datatype Post = Post(submitted: nat, executed: nat, outcome: Outcome)

  /** `_call` followed by `_response`. `budget` is false when the deadline has passed. */
  function Submit(managed: bool, budget: bool, delivery: Delivery): Post {
    if managed && !budget && delivery != NotEncoded then Post(0, 0, Unavailable)
    else match delivery
         case NotEncoded => Post(0, 0, ProtocolError)
         case NotConnected => Post(1, 0, Unavailable)
         case Delivered(run, fate) =>
           var (executed, reply) := HandleRawRequest(run);
           Post(1, executed,
                match fate
                case Lost => if managed then Unknown else Unavailable
                case WrongInstance => if managed then Unknown else FromReply(reply)
                case Garbled => if managed then Unknown else ProtocolError
                case Intact => FromReply(reply)
                case BadResponse => if reply.Failure? then FromReply(reply) else if managed then Unknown else ProtocolError)
  }

  /** `_raise_service_error` for an error envelope. */
  function FromReply(reply: Reply): Outcome {
    match reply
    case Success => Response
    case Failure(code) => if code in UPSTREAM_CODES then Upstream(code) else ServiceError(code)
  }

  predicate PossibleDelivery(delivery: Delivery, retries: nat) {
    delivery.Delivered? ==> Possible(delivery.run, retries)
  }

  lemma NotFoundIsNoUpstream()
    ensures CLIENT_NOT_FOUND !in UPSTREAM_CODES
    ensures forall code :: code in UPSTREAM_CODES ==> code != "UNAUTHORIZED" && code != "INTERNAL_ERROR" && code != "INVALID_REQUEST"
  {
    assert CLIENT_NOT_FOUND[0] == 'C' && "INVALID_REQUEST"[0] == 'I' && "INTERNAL_ERROR"[0] == 'I' && "UNAUTHORIZED"[1] == 'N';
  }

  /** What one POST can have done, read off its outcome. In managed mode an outcome that allows
      another attempt, or that says the request was not sent, means no execution. */
  lemma PostCounts(managed: bool, budget: bool, delivery: Delivery, retries: nat)
    requires PossibleDelivery(delivery, retries)
    ensures var post := Submit(managed, budget, delivery);
            && post.submitted <= 1 && post.executed <= 1 + retries
            && (post.outcome.ServiceError? ==> post.executed == 0)
            && (managed && (post.outcome == Unavailable || post.outcome == ProtocolError) ==> post.executed == 0)
            && (!managed && post.outcome == Unavailable && post.executed > 0 ==> delivery.Delivered? && delivery.fate == Lost)
  {
    NotFoundIsNoUpstream();
  }

  // ---- the two-attempt loop -----------------------------------------------------------------------------

  /** What `ensure` gives the loop: an instance, or one of its two exceptions. */
  datatype Ensured = Instance | TimedOut | Invalid

  /** What the surroundings decide in one attempt. `factory` is the outcome of building the transport
      when there is none for the instance: `Response` stands for success. */
  datatype Attempt = Attempt(ensured: Ensured, factory: Outcome, budget: bool, delivery: Delivery)

  /** The exceptions leave the loop, the first one as GoServiceUnavailable. */
  function EnsureOutcome(e: Ensured): Outcome
    requires e != Instance
  {
    if e == TimedOut then Unavailable else Misconfigured
  }

  datatype Call = Call(attempt: nat, submitted: nat, executed: nat)

  /** How the exception handlers of the loop treat the end of an attempt. */
  datatype Verdict = Retry(invalidate: bool) | Finish(outcome: Outcome)

  function Judge(attempt: nat, outcome: Outcome): Verdict {
    if outcome == Unavailable && attempt == 0 then Retry(false)
    else if outcome == ServiceError(CLIENT_NOT_FOUND) && attempt == 0 then Retry(true)
    else Finish(outcome)
  }

  // ---- what an attempt comes to, from the events alone -----------------------------------------------------

  /** The answer of the Go process to a request that reached it. */
  predicate Answers(run: GoRun, o: Outcome) {
    if !run.authenticated then o == ServiceError("UNAUTHORIZED")
    else if !run.requestId then o == ServiceError("INTERNAL_ERROR")
    else if !run.sessionPresent then o == ServiceError("CLIENT_NOT_FOUND")
    else if !run.envelopeValid || run.http3Conflict then o == ServiceError("INVALID_REQUEST")
    else match run.send
         case Sent(_) => o == Response
         case SendFailed(_, code) => o == Upstream(code)
         case TooLarge(_) => o == Upstream("UPSTREAM_PROTOCOL_ERROR")
  }

  predicate Reaches(run: GoRun) {
    run.authenticated && run.requestId && run.sessionPresent && run.envelopeValid && !run.http3Conflict
  }

  predicate EndsWith(managed: bool, a: Attempt, o: Outcome) {
    match a.ensured
    case TimedOut => o == Unavailable
    case Invalid => o == Misconfigured
    case Instance =>
      if a.factory != Response then o == a.factory
      else match a.delivery
           case NotEncoded => o == ProtocolError
           case NotConnected => o == Unavailable
           case Delivered(run, fate) =>
             if managed && !a.budget then o == Unavailable
             else match fate
                  case Lost => o == if managed then Unknown else Unavailable
                  case Garbled => o == if managed then Unknown else ProtocolError
                  case WrongInstance => if managed then o == Unknown else Answers(run, o)
                  case Intact => Answers(run, o)
                  case BadResponse =>
                    if Reaches(run) && run.send.Sent? then o == if managed then Unknown else ProtocolError else Answers(run, o)
  }

  /** The request leaves the client. */
  predicate Sends(managed: bool, a: Attempt) {
    a.ensured == Instance && a.factory == Response && a.delivery != NotEncoded && (managed ==> a.budget)
  }

  function Executions(managed: bool, a: Attempt): nat {
    if Sends(managed, a) && a.delivery.Delivered? && Reaches(a.delivery.run) then a.delivery.run.send.reached else 0
  }

  /** The Go process has lost the session, and its answer says so to the client. */
  predicate LostSession(managed: bool, a: Attempt) {
    && Sends(managed, a) && a.delivery.Delivered?
    && (a.delivery.fate == Intact || a.delivery.fate == BadResponse || (!managed && a.delivery.fate == WrongInstance))
    && a.delivery.run.authenticated && a.delivery.run.requestId && !a.delivery.run.sessionPresent
  }

  /** A first attempt after which the managed loop makes a second one. */
  predicate MakesSecond(a: Attempt) {
    && a.ensured == Instance
    && (|| a.factory == Unavailable || a.factory == ServiceError("CLIENT_NOT_FOUND")
        || (a.factory == Response && a.delivery != NotEncoded && (!a.budget || a.delivery == NotConnected))
        || LostSession(true, a))
  }

  /** A POST ends as its events say. */
  lemma PostEnds(managed: bool, a: Attempt, retries: nat)
    requires PossibleDelivery(a.delivery, retries) && a.ensured == Instance && a.factory == Response && (!managed ==> a.budget)
    ensures var post := Submit(managed, a.budget, a.delivery);
            && EndsWith(managed, a, post.outcome) && post.submitted == (if Sends(managed, a) then 1 else 0)
            && post.executed == Executions(managed, a)
            && (post.outcome == ServiceError(CLIENT_NOT_FOUND) <==> LostSession(managed, a))
            && (managed ==> (post.outcome == Unavailable <==> a.delivery != NotEncoded && (!a.budget || a.delivery == NotConnected)))
  {
    NotFoundIsNoUpstream();
    assert "UPSTREAM_PROTOCOL_ERROR" in UPSTREAM_CODES;
    assert "UNAUTHORIZED"[0] == 'U' && "INTERNAL_ERROR"[0] == 'I' && "INVALID_REQUEST"[0] == 'I' && CLIENT_NOT_FOUND[0] == 'C';
  }

  datatype CallResult = CallResult(outcome: Outcome, submitted: nat, executed: nat)

  /** The safety rule for an automatic retry (section 9.2.2 of RFC 9110), as counts. */
  predicate AtMostOnce(r: CallResult, retries: nat) {
    && r.submitted <= 2
    && r.executed <= 1 + retries
    && (r.outcome == Unavailable ==> r.executed == 0)
    && (r.outcome.ServiceError? ==> r.executed == 0)
  }

  /** `handle_request` of the managed transport for one call, over every choice of the surroundings
      in both attempts. */
  method ManagedHandleRequest(first: Attempt, second: Attempt, retries: nat) returns (r: CallResult)
    requires PossibleDelivery(first.delivery, retries) && PossibleDelivery(second.delivery, retries)
    ensures AtMostOnce(r, retries)
    ensures r.outcome == Misconfigured || r.outcome == ProtocolError ==> r.executed == 0
    ensures r.submitted == 2 ==> Executions(true, first) == 0
    ensures EndsWith(true, if MakesSecond(first) then second else first, r.outcome)
    ensures r.submitted == (if Sends(true, first) then 1 else 0) + if MakesSecond(first) && Sends(true, second) then 1 else 0
    ensures r.executed == Executions(true, first) + if MakesSecond(first) then Executions(true, second) else 0
  {
    r := CallResult(Unavailable, 0, 0);
    var submitted: nat, executed: nat := 0, 0;
    for attempt := 0 to 2
      invariant submitted <= attempt && executed == 0
      invariant attempt == 1 ==>
                  MakesSecond(first) && Executions(true, first) == 0 && submitted == if Sends(true, first) then 1 else 0
      invariant attempt == 2 ==> false
    {
      var env := if attempt == 0 then first else second;
      if env.ensured != Instance {
        return CallResult(EnsureOutcome(env.ensured), submitted, executed);
      }
      var outcome := env.factory;
      if outcome == Response {
        var post := Submit(true, env.budget, env.delivery);
        PostCounts(true, env.budget, env.delivery, retries);
        PostEnds(true, env, retries);
        submitted, executed, outcome := submitted + post.submitted, executed + post.executed, post.outcome;
      }
      match Judge(attempt, outcome) {
        case Finish(final) => return CallResult(final, submitted, executed);
        case Retry(_) =>
      }
    }
    assert false;
  }

  // ---- the external transport ------------------------------------------------------------------------------

  /** `_GoTransport.handle_request` without an instance: one rebuild and resubmission after
      CLIENT_NOT_FOUND, nothing else. `rebuilt` is the outcome of `_rebuild`. */
  function ExternalHandleRequest(first: Delivery, rebuilt: Outcome, second: Delivery): CallResult {
    var post := Submit(false, true, first);
    if post.outcome != ServiceError(CLIENT_NOT_FOUND) then CallResult(post.outcome, post.submitted, post.executed)
    else if rebuilt != Response then CallResult(rebuilt, post.submitted, post.executed)
    else
      var again := Submit(false, true, second);
      CallResult(again.outcome, post.submitted + again.submitted, post.executed + again.executed)
  }

  /** The last POST of an external call was executed and its reply was lost. */
  predicate ExecutedAndLost(first: Delivery, rebuilt: Outcome, second: Delivery) {
    var last := if Submit(false, true, first).outcome != ServiceError(CLIENT_NOT_FOUND) then first else second;
    && (last == first || rebuilt == Response)
    && last.Delivered? && last.fate == Lost && HandleRawRequest(last.run).0 > 0
  }

  /** The external transport also executes at most once, but its GoServiceUnavailable does not mean
      "not executed": it does so exactly when no executed request lost its reply. */
  lemma ExternalAtMostOnce(first: Delivery, rebuilt: Outcome, second: Delivery, retries: nat)
    requires PossibleDelivery(first, retries) && PossibleDelivery(second, retries)
    ensures var r := ExternalHandleRequest(first, rebuilt, second);
            && r.submitted <= 2 && r.executed <= 1 + retries
            && (r.outcome.ServiceError? ==> r.executed == 0)
            && (AtMostOnce(r, retries) <==> !ExecutedAndLost(first, rebuilt, second))
  {
    PostCounts(false, true, first, retries);
    PostCounts(false, true, second, retries);
    NotFoundIsNoUpstream();
  }

  function ExternalAttempt(delivery: Delivery): Attempt {
    Attempt(Instance, Response, true, delivery)
  }

  /** What an external call comes to: it is sent again exactly after the Go process has lost the session
      and the rebuild gave another one. */
  lemma ExternalEnds(first: Delivery, rebuilt: Outcome, second: Delivery, retries: nat)
    requires PossibleDelivery(first, retries) && PossibleDelivery(second, retries)
    ensures var r, a, b := ExternalHandleRequest(first, rebuilt, second), ExternalAttempt(first), ExternalAttempt(second);
            var again := LostSession(false, a) && rebuilt == Response;
            && (if LostSession(false, a) && rebuilt != Response then r.outcome == rebuilt
                else EndsWith(false, if again then b else a, r.outcome))
            && r.submitted == (if Sends(false, a) then 1 else 0) + (if again && Sends(false, b) then 1 else 0)
            && r.executed == Executions(false, a) + if again then Executions(false, b) else 0
  {
    PostEnds(false, ExternalAttempt(first), retries);
    PostEnds(false, ExternalAttempt(second), retries);
    hide Submit, EndsWith, LostSession;
  }

  /** The input that shows it. */
  lemma LostReplyIsReportedUnavailable()
    ensures var run := GoRun(true, true, true, true, false, Sent(1));
            ExternalHandleRequest(Delivered(run, Lost), Response, NotConnected) == CallResult(Unavailable, 1, 1)
  {
  }
}
