/** backend/app/pipeline/docling_io.py: one remote conversion, submitted, polled and fetched, against a
    server, a network and a clock that may do anything. */
module Docling {
  import opened Wrappers

  datatype Phase =
    | Ready | Submitting | UnknownSubmission | Resubmitting | Polling | Fetching
    | Succeeded | Failed | TimedOut | Cancelled

  predicate Allows(current: Phase, target: Phase) {
    match current
    case Ready => target == Submitting
    case Submitting => target in {UnknownSubmission, Polling, Failed, TimedOut, Cancelled}
    case Polling => target in {Fetching, Failed, TimedOut, Cancelled}
    case Fetching => target in {Succeeded, Failed, TimedOut, Cancelled}
    case UnknownSubmission => target in {Resubmitting, TimedOut, Cancelled}
    case Resubmitting => target in {UnknownSubmission, Polling, Failed, TimedOut, Cancelled}
    case _ => false
  }

  predicate Terminal(phase: Phase) {
    phase in {Succeeded, Failed, TimedOut, Cancelled}
  }

  // ---------------------------------------------------------------- what may happen at an await

  datatype Interrupt = DeadlinePassed | Cancel

  /** Transient: connection failures and read timeouts. WriteFailure: the request may have arrived. */
  datatype NetError = Interrupted(cause: Interrupt) | Transient | WriteFailure | OtherNetError

  /** What a step of the conversion raises. Malformed: a reply without what was looked for in it. */
  datatype Error = Net(net: NetError) | StatusError(code: nat) | SubmissionUnknown | Malformed

  datatype RemoteState = Pending | Started | Success | Failure | Unknown

  /** A JSON body, read for what each caller looks for in it. */
  datatype Body = Body(json: bool, taskId: Option<string>, state: RemoteState, document: bool)

  datatype Reply = Reply(status: nat, body: Body)

  datatype Answer = Answered(reply: Reply) | NoAnswer(error: NetError)

  datatype Nap = Slept | Woken(cause: Interrupt)

  /** One await: how a request at this point would end, and how a sleep would. */
  datatype Event = Event(request: Answer, sleep: Nap)

  /** Everything that happens until the deadline; past the end of the script it has passed. */
  type Script = seq<Event>

  function Ask(script: Script): Answer {
    if script == [] then NoAnswer(Interrupted(DeadlinePassed)) else script[0].request
  }

  function Sleep(script: Script): Nap {
    if script == [] then Woken(DeadlinePassed) else script[0].sleep
  }

  function After(script: Script): (rest: Script)
    ensures |rest| <= |script| && (script != [] ==> |rest| < |script|)
  {
    if script == [] then [] else script[1..]
  }

  const RETRY_CODES: set<nat> := {502, 503, 504}
  const REQUEST_ATTEMPTS := 3

  datatype Step<+T> = Got(value: T) | Threw(error: Error)

  /** `raise_for_status`. */
  function Checked(answer: Answer): Step<Body> {
    match answer
    case NoAnswer(e) => Threw(Net(e))
    case Answered(reply) => if 200 <= reply.status < 300 then Got(reply.body) else Threw(StatusError(reply.status))
  }

  /** The task ID of an accepted submission; when it is not usable, acceptance is unknown. */
  function TaskIdIn(answer: Answer): Step<string> {
    match Checked(answer)
    case Threw(e) => Threw(e)
    case Got(body) => if body.json && body.taskId.Some? then Got(body.taskId.value) else Threw(SubmissionUnknown)
  }

  predicate Resubmittable(e: Error) {
    match e
    case Net(net) => net.Transient? || net.WriteFailure?
    case StatusError(code) => code in RETRY_CODES
    case SubmissionUnknown => true
    case Malformed => false
  }

  // ---------------------------------------------------------------- what a script leads to

  datatype Outcome = Payload | Failing(error: Error) | NotClaimed | IllegalTransition

  /** What a GET is for. */
  datatype Wanted = TheStatus | TheResult

  /** Where a conversion is when the next event comes; attempts and tries are counted from one. */
  datatype Stage =
    | Posting(attempt: int) | Resting(attempt: int)
    | Napping
    | Getting(wanted: Wanted, try: nat) | Pausing(wanted: Wanted, try: nat)
    | Over(outcome: Outcome)

  predicate Fine(answer: Answer) {
    answer.Answered? && 200 <= answer.reply.status < 300
  }

  predicate Retryable(answer: Answer) {
    answer == NoAnswer(Transient) || (answer.Answered? && answer.reply.status in {502, 503, 504})
  }

  /** The server has the document and said under which task. */
  predicate TakesPost(answer: Answer) {
    Fine(answer) && answer.reply.body.json && answer.reply.body.taskId.Some?
  }

  /** The server may or may not have the document. */
  predicate MayHaveTaken(answer: Answer) {
    Retryable(answer) || answer == NoAnswer(WriteFailure) || (Fine(answer) && !TakesPost(answer))
  }

  predicate Says(answer: Answer, states: set<RemoteState>) {
    Fine(answer) && answer.reply.body.json && answer.reply.body.state in states
  }

  predicate Delivers(answer: Answer) {
    Fine(answer) && answer.reply.body.json && answer.reply.body.document
  }

  function Refusal(answer: Answer): Error
    requires !Fine(answer)
  {
    match answer
    case NoAnswer(e) => Net(e)
    case Answered(reply) => StatusError(reply.status)
  }

  function Woke(nap: Nap, otherwise: Stage): Stage {
    if nap.Woken? then Over(Failing(Net(Interrupted(nap.cause)))) else otherwise
  }

  /** Where the answer a GET settles for leads. */
  function Judged(wanted: Wanted, answer: Answer): Stage {
    if !Fine(answer) then Over(Failing(Refusal(answer)))
    else if wanted == TheResult then (if Delivers(answer) then Over(Payload) else Over(Failing(Malformed)))
    else if Says(answer, {Success}) then Getting(TheResult, 1)
    else if Says(answer, {Pending, Started}) then Napping
    else Over(Failing(Malformed))
  }

  /** One event, one move: a conversion as a machine over its script. */
  function Move(stage: Stage, event: Event, budget: int): Stage {
    match stage
    case Posting(n) =>
      if TakesPost(event.request) then Napping
      else if !MayHaveTaken(event.request) then Over(Failing(Refusal(event.request)))
      else if n >= budget then Over(Failing(SubmissionUnknown))
      else Resting(n)
    case Resting(n) => Woke(event.sleep, Posting(n + 1))
    case Napping => Woke(event.sleep, Getting(TheStatus, 1))
    case Getting(wanted, n) =>
      if Retryable(event.request) && n < REQUEST_ATTEMPTS then Pausing(wanted, n) else Judged(wanted, event.request)
    case Pausing(wanted, n) => Woke(event.sleep, Getting(wanted, n + 1))
    case Over(_) => stage
  }

  function Followed(stage: Stage, script: Script, budget: int): Outcome
    decreases |script|
  {
    if stage.Over? then stage.outcome
    else if script == [] then Failing(Net(Interrupted(DeadlinePassed)))
    else Followed(Move(stage, script[0], budget), script[1..], budget)
  }

  /** The first `n` events are one GET: requests worth another try, each slept off, and the last one. */
  predicate IsGet(script: Script, n: nat, tries: nat) {
    && n % 2 == 1 && n < 2 * tries && n <= |script|
    && forall i | 0 <= i < n - 1 :: if i % 2 == 0 then Retryable(script[i].request) else script[i].sleep.Slept?
  }

  ghost predicate Fetches(script: Script) {
    exists n: nat :: IsGet(script, n, REQUEST_ATTEMPTS) && Delivers(script[n - 1].request)
  }

  /** Polls that find the task pending or started, then one that finds it done, then its result. */
  ghost predicate PollsThrough(script: Script)
    decreases |script|
  {
    && script != [] && script[0].sleep.Slept?
    && exists n: nat :: IsGet(script[1..], n, REQUEST_ATTEMPTS) && PollLeads(script, n)
  }

  ghost predicate PollLeads(script: Script, n: nat)
    requires 1 <= n < |script|
    decreases |script|, 0
  {
    || (Says(script[n].request, {Success}) && Fetches(script[n + 1..]))
    || (Says(script[n].request, {Pending, Started}) && PollsThrough(script[n + 1..]))
  }

  /** The first `posts` POSTs: the last is taken, the earlier ones leave that open and are slept off. */
  predicate IsSubmission(script: Script, posts: nat) {
    && 1 <= posts && 2 * posts - 1 <= |script|
    && (forall i | 0 <= i < 2 * posts - 2 :: if i % 2 == 0 then MayHaveTaken(script[i].request) else script[i].sleep.Slept?)
    && TakesPost(script[2 * posts - 2].request)
  }

  ghost predicate SubmissionLeads(script: Script, posts: nat, budget: int) {
    posts <= budget && IsSubmission(script, posts) && PollsThrough(script[2 * posts - 1..])
  }

  /** The scripts a conversion returns a document for. */
  ghost predicate Succeeds(script: Script, budget: int) {
    exists posts: nat :: SubmissionLeads(script, posts, budget)
  }

  lemma LongerGet(script: Script, n: nat, tries: nat)
    requires |script| >= 2 && tries > 1 && Retryable(script[0].request) && script[1].sleep.Slept? && IsGet(script[2..], n, tries - 1)
    ensures IsGet(script, n + 2, tries)
  {
    forall i | 0 <= i < n + 1 ensures if i % 2 == 0 then Retryable(script[i].request) else script[i].sleep.Slept? {
      if i >= 2 {
        assert script[i] == script[2..][i - 2];
      }
    }
  }

  lemma ShorterGet(script: Script, n: nat, tries: nat)
    requires IsGet(script, n, tries) && n > 1 && tries > 1
    ensures n >= 3 && Retryable(script[0].request) && script[1].sleep.Slept? && IsGet(script[2..], n - 2, tries - 1)
  {
    assert n >= 3;
    forall i | 0 <= i < n - 3
      ensures if i % 2 == 0 then Retryable(script[2..][i].request) else script[2..][i].sleep.Slept?
    {
      assert script[2..][i] == script[i + 2];
    }
  }

  /** A GET ends well exactly when some first events are one GET whose answer leads on well. */
  ghost predicate GetLeadsWell(wanted: Wanted, script: Script, tries: nat, budget: int) {
    exists n: nat :: IsGet(script, n, tries) && AnswerLeadsWell(wanted, script, n, budget)
  }

  ghost predicate AnswerLeadsWell(wanted: Wanted, script: Script, n: nat, budget: int)
    requires 1 <= n <= |script|
  {
    Followed(Judged(wanted, script[n - 1].request), script[n..], budget) == Payload
  }

  lemma OneRequest(wanted: Wanted, script: Script, tries: nat, budget: int)
    requires script != [] && 1 <= tries <= REQUEST_ATTEMPTS && (!Retryable(script[0].request) || tries == 1)
    ensures Followed(Getting(wanted, REQUEST_ATTEMPTS + 1 - tries), script, budget) == Payload <==> GetLeadsWell(wanted, script, tries, budget)
  {
    assert IsGet(script, 1, tries);
    if GetLeadsWell(wanted, script, tries, budget) {
      var n: nat :| IsGet(script, n, tries) && AnswerLeadsWell(wanted, script, n, budget);
      if n > 1 {
        ShorterGet(script, n, tries);
      }
    }
    assert AnswerLeadsWell(wanted, script, 1, budget)
      <==> Followed(Getting(wanted, REQUEST_ATTEMPTS + 1 - tries), script, budget) == Payload;
  }

  lemma RetriedGet(wanted: Wanted, script: Script, tries: nat, budget: int)
    requires |script| >= 2 && tries > 1 && Retryable(script[0].request) && script[1].sleep.Slept?
    ensures GetLeadsWell(wanted, script, tries, budget) <==> GetLeadsWell(wanted, script[2..], tries - 1, budget)
  {
    hide Followed;
    var rest := script[2..];
    if GetLeadsWell(wanted, script, tries, budget) {
      var n: nat :| IsGet(script, n, tries) && AnswerLeadsWell(wanted, script, n, budget);
      hide IsGet; hide GetLeadsWell;
      RetriedIsNotTheLast(wanted, script, n, budget);
      ShorterGet(script, n, tries);
      assert rest[n - 2..] == script[n..];
      assert AnswerLeadsWell(wanted, rest, n - 2, budget);
      LeadsWell(wanted, rest, n - 2, tries - 1, budget);
    }
    if GetLeadsWell(wanted, rest, tries - 1, budget) {
      var n: nat :| IsGet(rest, n, tries - 1) && AnswerLeadsWell(wanted, rest, n, budget);
      LongerGet(script, n, tries);
      assert rest[n..] == script[n + 2..];
      assert AnswerLeadsWell(wanted, script, n + 2, budget);
      LeadsWell(wanted, script, n + 2, tries, budget);
    }
  }

  lemma LeadsWell(wanted: Wanted, script: Script, n: nat, tries: nat, budget: int)
    requires IsGet(script, n, tries) && AnswerLeadsWell(wanted, script, n, budget)
    ensures GetLeadsWell(wanted, script, tries, budget)
  {
    hide IsGet; hide AnswerLeadsWell;
  }

  lemma RetriedIsNotTheLast(wanted: Wanted, script: Script, n: nat, budget: int)
    requires 1 <= n <= |script| && Retryable(script[0].request) && AnswerLeadsWell(wanted, script, n, budget)
    ensures n > 1
  {
  }

  lemma {:induction false} GettingSucceedsIff(wanted: Wanted, script: Script, tries: nat, budget: int)
    requires 1 <= tries <= REQUEST_ATTEMPTS
    ensures Followed(Getting(wanted, REQUEST_ATTEMPTS + 1 - tries), script, budget) == Payload <==> GetLeadsWell(wanted, script, tries, budget)
    decreases tries
  {
    var stage := Getting(wanted, REQUEST_ATTEMPTS + 1 - tries);
    if script == [] {
      assert !GetLeadsWell(wanted, script, tries, budget);
    } else if !Retryable(script[0].request) || tries == 1 {
      OneRequest(wanted, script, tries, budget);
    } else {
      var pausing := Pausing(wanted, stage.try);
      assert Followed(stage, script, budget) == Followed(pausing, script[1..], budget);
      if |script| > 1 && script[1].sleep.Slept? {
        GettingSucceedsIff(wanted, script[2..], tries - 1, budget);
        RetriedGet(wanted, script, tries, budget);
        assert script[1..][1..] == script[2..];
      } else {
        if |script| > 1 {
          assert Move(pausing, script[1..][0], budget).Over?;
        }
        assert Followed(pausing, script[1..], budget) != Payload;
        BrokenOffGet(wanted, script, tries, budget);
      }
    }
  }

  lemma BrokenOffGet(wanted: Wanted, script: Script, tries: nat, budget: int)
    requires script != [] && Retryable(script[0].request) && (|script| == 1 || script[1].sleep.Woken?) && tries > 1
    ensures !GetLeadsWell(wanted, script, tries, budget)
  {
    forall n: nat | IsGet(script, n, tries) && AnswerLeadsWell(wanted, script, n, budget) ensures false {
      RetriedIsNotTheLast(wanted, script, n, budget);
      ShorterGet(script, n, tries);
    }
  }

  /** From the first poll on. */
  lemma {:induction false} PollsThroughIff(script: Script, budget: int)
    ensures Followed(Napping, script, budget) == Payload <==> PollsThrough(script)
    decreases |script|
  {
    if script != [] && script[0].sleep.Slept? {
      var rest := script[1..];
      GettingSucceedsIff(TheStatus, rest, REQUEST_ATTEMPTS, budget);
      forall n: nat | IsGet(rest, n, REQUEST_ATTEMPTS) ensures AnswerLeadsWell(TheStatus, rest, n, budget) <==> PollLeads(script, n) {
        assert rest[n - 1] == script[n] && rest[n..] == script[n + 1..];
        PollsThroughIff(script[n + 1..], budget);
        FetchesIff(script[n + 1..], budget);
      }
      hide IsGet; hide AnswerLeadsWell; hide PollLeads;
    }
  }

  lemma FetchesIff(script: Script, budget: int)
    ensures Followed(Getting(TheResult, 1), script, budget) == Payload <==> Fetches(script)
  {
    GettingSucceedsIff(TheResult, script, REQUEST_ATTEMPTS, budget);
    forall n: nat | IsGet(script, n, REQUEST_ATTEMPTS)
      ensures AnswerLeadsWell(TheResult, script, n, budget) <==> Delivers(script[n - 1].request)
    {
    }
    hide IsGet; hide AnswerLeadsWell;
  }

  lemma LongerSubmission(script: Script, posts: nat)
    requires |script| >= 2 && MayHaveTaken(script[0].request) && script[1].sleep.Slept? && IsSubmission(script[2..], posts)
    ensures IsSubmission(script, posts + 1) && script[2..][2 * posts - 1..] == script[2 * (posts + 1) - 1..]
  {
    assert script[2 * (posts + 1) - 2] == script[2..][2 * posts - 2];
    forall i | 0 <= i < 2 * posts ensures if i % 2 == 0 then MayHaveTaken(script[i].request) else script[i].sleep.Slept? {
      if i >= 2 {
        assert script[i] == script[2..][i - 2];
      }
    }
  }

  lemma ShorterSubmission(script: Script, posts: nat)
    requires IsSubmission(script, posts) && posts > 1
    ensures MayHaveTaken(script[0].request) && script[1].sleep.Slept? && IsSubmission(script[2..], posts - 1)
    ensures script[2..][2 * (posts - 1) - 1..] == script[2 * posts - 1..]
  {
    var rest := script[2..];
    assert script[2 * posts - 2] == rest[2 * (posts - 1) - 2];
    forall i | 0 <= i < 2 * posts - 4 ensures if i % 2 == 0 then MayHaveTaken(rest[i].request) else rest[i].sleep.Slept? {
      assert rest[i] == script[i + 2];
    }
  }

  lemma OpenPost(script: Script, budget: int)
    requires script != [] && !TakesPost(script[0].request)
    ensures Succeeds(script, budget)
       <==> MayHaveTaken(script[0].request) && |script| > 1 && script[1].sleep.Slept? && Succeeds(script[2..], budget - 1)
  {
    hide PollsThrough;
    if posts: nat :| SubmissionLeads(script, posts, budget) {
      assert 2 * posts - 2 > 0;
      ShorterSubmission(script, posts);
      assert SubmissionLeads(script[2..], posts - 1, budget - 1);
    }
    if MayHaveTaken(script[0].request) && |script| > 1 && script[1].sleep.Slept? {
      var left := budget - 1;
      if posts: nat :| SubmissionLeads(script[2..], posts, left) {
        LongerSubmission(script, posts);
        assert SubmissionLeads(script, posts + 1, budget);
      }
    }
  }

  lemma TakenPost(script: Script, budget: int)
    requires script != [] && TakesPost(script[0].request) && budget >= 1
    ensures Succeeds(script, budget) <==> PollsThrough(script[1..])
  {
    hide PollsThrough;
    assert IsSubmission(script, 1);
    assert SubmissionLeads(script, 1, budget) <==> PollsThrough(script[1..]);
    forall posts: nat | SubmissionLeads(script, posts, budget) ensures posts == 1 {
      if posts > 1 {
        ShorterSubmission(script, posts);
      }
    }
  }

  lemma NoPostsLeft(script: Script, budget: int)
    requires script == [] || budget <= 0
    ensures !Succeeds(script, budget)
  {
    hide PollsThrough;
  }

  lemma PostingMoves(script: Script, attempt: int, budget: int)
    requires script != []
    ensures Followed(Posting(attempt), script, budget) == Followed(Move(Posting(attempt), script[0], budget), script[1..], budget)
  {
  }

  lemma RestingMoves(script: Script, attempt: int, budget: int)
    ensures Followed(Resting(attempt), script, budget)
         == if script == [] then Failing(Net(Interrupted(DeadlinePassed)))
            else if script[0].sleep.Woken? then Failing(Net(Interrupted(script[0].sleep.cause)))
            else Followed(Posting(attempt + 1), script[1..], budget)
  {
  }

  lemma {:induction false} PostingSucceedsIff(script: Script, attempt: int, budget: int)
    requires attempt <= budget
    ensures Followed(Posting(attempt), script, budget) == Payload <==> Succeeds(script, budget + 1 - attempt)
    decreases |script|
  {
    if script == [] {
      NoPostsLeft(script, budget + 1 - attempt);
    } else {
      PostingMoves(script, attempt, budget);
      if TakesPost(script[0].request) {
        PollsThroughIff(script[1..], budget);
        TakenPost(script, budget + 1 - attempt);
      } else {
        RestingMoves(script[1..], attempt, budget);
        OpenPost(script, budget + 1 - attempt);
        hide Succeeds;
        if |script| > 1 {
          assert script[1..][0] == script[1] && script[1..][1..] == script[2..];
          if attempt < budget {
            PostingSucceedsIff(script[2..], attempt + 1, budget);
          } else {
            NoPostsLeft(script[2..], budget - attempt);
          }
        }
      }
    }
  }

  /** A conversion with a budget returns a document exactly on these scripts. */
  lemma SucceedsIff(script: Script, budget: int)
    requires budget >= 1
    ensures Followed(Posting(1), script, budget) == Payload <==> Succeeds(script, budget)
  {
    PostingSucceedsIff(script, 1, budget);
  }

  // ---------------------------------------------------------------- where a failure comes from

  /** The stage in which event `k` finds the conversion. */
  function Reached(stage: Stage, script: Script, k: nat, budget: int): Stage
    requires k <= |script|
    decreases k
  {
    if k == 0 then stage else Reached(Move(stage, script[0], budget), script[1..], k - 1, budget)
  }

  /** At this stage this event is what the error reports. */
  predicate Reports(stage: Stage, event: Event, budget: int, e: Error) {
    match stage
    case Over(_) => false
    case Posting(n) =>
      (match e
       case Net(net) => event.request == NoAnswer(net) && net !in {Transient, WriteFailure}
       case StatusError(code) =>
         event.request.Answered? && event.request.reply.status == code && !(200 <= code < 300) && code !in {502, 503, 504}
       case SubmissionUnknown => MayHaveTaken(event.request) && n >= budget
       case Malformed => false)
    case Getting(wanted, n) =>
      (match e
       case Net(net) => event.request == NoAnswer(net) && (net == Transient ==> n >= 3)
       case StatusError(code) =>
         && event.request.Answered? && event.request.reply.status == code && !(200 <= code < 300)
         && (code in {502, 503, 504} ==> n >= 3)
       case SubmissionUnknown => false
       case Malformed =>
         && event.request.Answered? && 200 <= event.request.reply.status < 300
         && (event.request.reply.body.json ==>
               if wanted == TheStatus then event.request.reply.body.state in {Failure, Unknown}
               else !event.request.reply.body.document))
    case _ => event.sleep.Woken? && e == Net(Interrupted(event.sleep.cause))
  }

  /** Up to event `k` the conversion was under way, and that event, or the deadline after the last
      one, is what its error reports. */
  predicate Blamed(stage: Stage, script: Script, k: nat, budget: int, e: Error) {
    && k <= |script| && !Reached(stage, script, k, budget).Over?
    && if k == |script| then e == Net(Interrupted(DeadlinePassed))
       else Reports(Reached(stage, script, k, budget), script[k], budget, e)
  }

  lemma ReportedAtOnce(stage: Stage, event: Event, budget: int, e: Error)
    requires !stage.Over? && Move(stage, event, budget) == Over(Failing(e))
    ensures Reports(stage, event, budget, e)
  {
    match stage
    case Posting(n) =>
    case Getting(wanted, n) =>
      assert Judged(wanted, event.request) == Over(Failing(e));
      if Fine(event.request) {
        assert e == Malformed;
        assert event.request.reply.body.json && wanted == TheStatus ==> event.request.reply.body.state in {Failure, Unknown} by {
          match event.request.reply.body.state
          case Pending => case Started => case Success => case Failure => case Unknown =>
        }
      }
    case _ =>
  }

  lemma {:induction false} FailureHasItsEvent(stage: Stage, script: Script, budget: int, e: Error)
    requires !stage.Over? && Followed(stage, script, budget) == Failing(e)
    ensures exists k: nat :: Blamed(stage, script, k, budget, e)
    decreases |script|
  {
    hide Move; hide Reports;
    if script == [] {
      assert Blamed(stage, script, 0, budget, e);
    } else {
      var next := Move(stage, script[0], budget);
      if next.Over? {
        ReportedAtOnce(stage, script[0], budget, e);
        assert Blamed(stage, script, 0, budget, e);
      } else {
        FailureHasItsEvent(next, script[1..], budget, e);
        var k: nat :| Blamed(next, script[1..], k, budget, e);
        assert Blamed(stage, script, k + 1, budget, e);
      }
    }
  }

  // ---------------------------------------------------------------- requests

  lemma OneMove(stage: Stage, script: Script, budget: int)
    requires !stage.Over?
    ensures Followed(stage, script, budget)
         == Followed(Move(stage, Event(Ask(script), Sleep(script)), budget), After(script), budget)
  {
    if script == [] {
      assert Judged(TheStatus, Ask(script)) == Judged(TheResult, Ask(script)) == Over(Failing(Net(Interrupted(DeadlinePassed))));
    } else {
      assert Event(Ask(script), Sleep(script)) == script[0];
    }
  }

  lemma JudgedMeans(wanted: Wanted, answer: Answer)
    ensures Checked(answer).Threw? ==> Judged(wanted, answer) == Over(Failing(Checked(answer).error))
    ensures Checked(answer).Got? ==> Fine(answer) && Checked(answer).value == answer.reply.body
  {
  }

  lemma OverStays(outcome: Outcome, script: Script, budget: int)
    ensures Followed(Over(outcome), script, budget) == outcome
  {
  }

  lemma PostedMeans(answer: Answer)
    ensures TaskIdIn(answer).Got? <==> TakesPost(answer)
    ensures TaskIdIn(answer).Threw? ==>
              && (Resubmittable(TaskIdIn(answer).error) <==> MayHaveTaken(answer))
              && (!MayHaveTaken(answer) ==> !Fine(answer) && TaskIdIn(answer).error == Refusal(answer))
  {
  }

  lemma DeadlineEnds(script: Script, budget: int)
    requires script == []
    ensures Followed(Napping, script, budget) == Failing(Net(Interrupted(DeadlinePassed)))
  {
  }

  lemma AnsweredStatus(answer: Answer, rest: Script, budget: int)
    ensures var checked := Checked(answer);
      Followed(Judged(TheStatus, answer), rest, budget)
      == if checked.Threw? then Failing(checked.error)
         else if !checked.value.json || checked.value.state in {Failure, Unknown} then Failing(Malformed)
         else if checked.value.state == Success then Followed(Getting(TheResult, 1), rest, budget)
         else Followed(Napping, rest, budget)
  {
  }

  lemma AnsweredResult(answer: Answer, rest: Script, budget: int)
    ensures var checked := Checked(answer);
      Followed(Judged(TheResult, answer), rest, budget)
      == if checked.Threw? then Failing(checked.error)
         else if !checked.value.json || !checked.value.document then Failing(Malformed)
         else Payload
  {
  }

  /** A GET with its own bounded retries: at most three requests. What it returns leads where the
      script does. */
  method Get(script: Script, ghost wanted: Wanted, ghost budget: int) returns (answer: Answer, rest: Script, ghost sent: nat)
    ensures |rest| <= |script| && (script != [] ==> |rest| < |script|)
    ensures 1 <= sent <= REQUEST_ATTEMPTS
    ensures answer.Answered? && answer.reply.status in RETRY_CODES ==> sent == REQUEST_ATTEMPTS
    ensures answer == NoAnswer(Transient) ==> sent == REQUEST_ATTEMPTS
    ensures Followed(Getting(wanted, 1), script, budget) == Followed(Judged(wanted, answer), rest, budget)
  {
    hide Followed; hide Judged;
    rest, sent := script, 0;
    var attempt := 0;
    while true
      invariant 0 <= attempt < REQUEST_ATTEMPTS && sent == attempt && |rest| <= |script|
      invariant attempt > 0 && script != [] ==> |rest| < |script|
      invariant Followed(Getting(wanted, 1), script, budget) == Followed(Getting(wanted, attempt + 1), rest, budget)
      decreases REQUEST_ATTEMPTS - attempt
    {
      OneMove(Getting(wanted, attempt + 1), rest, budget);
      answer := Ask(rest);
      rest := After(rest);
      sent := sent + 1;
      var again := if answer.NoAnswer? then answer.error.Transient? else answer.reply.status in RETRY_CODES;
      if !again || attempt + 1 >= REQUEST_ATTEMPTS {
        return;
      }
      OneMove(Pausing(wanted, attempt + 1), rest, budget);
      var nap := Sleep(rest);
      rest := After(rest);
      if nap.Woken? {
        answer := NoAnswer(Interrupted(nap.cause));
        JudgedMeans(wanted, answer);
        return;
      }
      attempt := attempt + 1;
    }
  }

  // ---------------------------------------------------------------- the conversion

  /** What the conversion has learnt from the server so far. */
  datatype Mark = Accepted(taskId: string) | SawSuccess | GotDocument

  class DoclingConversion {
    var phase: Phase
    var taskId: Option<string>
    const maxAttempts: int
    var attempts: int
    ghost var posts: nat
    ghost var log: seq<Mark>

    constructor (maxAttempts: int)
      ensures Valid() && phase == Ready && this.maxAttempts == maxAttempts && posts == 0
    {
      phase, taskId, attempts := Ready, None, 0;
      this.maxAttempts := maxAttempts;
      posts, log := 0, [];
    }

    /** Every POST belongs to a counted attempt, attempts keep to their budget, and each phase has
        learnt what it needs. */
    ghost predicate Valid()
      reads this
    {
      && posts <= attempts
      && (phase == Ready ==> attempts == 0)
      && (phase != Ready ==> 1 <= attempts <= maxAttempts)
      && (phase in {Ready, Submitting, UnknownSubmission, Resubmitting} ==> log == [])
      && (phase == Polling ==> taskId.Some? && (log == [Accepted(taskId.value)] || log == [Accepted(taskId.value), SawSuccess]))
      && (phase == Fetching ==> taskId.Some? && log == [Accepted(taskId.value), SawSuccess])
      && (phase == Succeeded ==> taskId.Some? && log == [Accepted(taskId.value), SawSuccess, GotDocument])
    }

    method Transition(target: Phase) returns (raised: bool)
      modifies this`phase, this`attempts
      ensures raised <==> !Allows(old(phase), target)
                          || (target in {Submitting, Resubmitting} && old(attempts) >= maxAttempts)
      ensures raised ==> phase == old(phase) && attempts == old(attempts)
      ensures !raised ==> phase == target && attempts == old(attempts) + if target in {Submitting, Resubmitting} then 1 else 0
    {
      if !Allows(phase, target) {
        return true;
      }
      if target in {Submitting, Resubmitting} {
        if attempts >= maxAttempts {
          return true;
        }
        attempts := attempts + 1;
      }
      phase := target;
      return false;
    }

    /** Submit until a task ID comes back, the budget is spent, or something cannot be retried. No
        transition on the way is illegal. */
    method Submit(script: Script) returns (rest: Script, error: Option<Error>, illegal: bool)
      requires Valid() && phase == Submitting && posts < attempts
      modifies this
      ensures Valid() && !illegal && |rest| <= |script|
      ensures error == None ==> phase == Polling && log == [Accepted(taskId.value)]
      ensures error == Some(SubmissionUnknown) ==> phase == UnknownSubmission && attempts == maxAttempts
      ensures error.Some? && error.value.Net? && error.value.net.Interrupted? ==>
                phase in {Submitting, Resubmitting, UnknownSubmission}
      ensures error.Some? && !error.value.SubmissionUnknown? && !(error.value.Net? && error.value.net.Interrupted?) ==>
                phase in {Submitting, Resubmitting}
      ensures Followed(Posting(old(attempts)), script, maxAttempts)
           == if error == None then Followed(Napping, rest, maxAttempts) else Failing(error.value)
    {
      hide Followed;
      rest, illegal := script, false;
      while true
        invariant Followed(Posting(old(attempts)), script, maxAttempts) == Followed(Posting(attempts), rest, maxAttempts)
        invariant Valid() && phase in {Submitting, Resubmitting} && posts < attempts && |rest| <= |script| && !illegal
        decreases maxAttempts - attempts
      {
        posts := posts + 1;
        OneMove(Posting(attempts), rest, maxAttempts);
        var accepted := TaskIdIn(Ask(rest));
        PostedMeans(Ask(rest));
        rest := After(rest);
        if accepted.Got? {
          taskId, log := Some(accepted.value), log + [Accepted(accepted.value)];
          illegal := Transition(Polling);
          return rest, None, illegal;
        }
        if !Resubmittable(accepted.error) {
          OverStays(Failing(accepted.error), rest, maxAttempts);
          return rest, Some(accepted.error), illegal;
        }
        illegal := Transition(UnknownSubmission);
        if attempts >= maxAttempts {
          OverStays(Failing(SubmissionUnknown), rest, maxAttempts);
          return rest, Some(SubmissionUnknown), illegal;
        }
        OneMove(Resting(attempts), rest, maxAttempts);
        var nap := Sleep(rest);
        rest := After(rest);
        if nap.Woken? {
          OverStays(Failing(Net(Interrupted(nap.cause))), rest, maxAttempts);
          return rest, Some(Net(Interrupted(nap.cause))), illegal;
        }
        illegal := Transition(Resubmitting);
      }
    }

    /** The poll loop: it ends with a success poll, an error, or the end of the script, as the script
        leads. */
    method Poll(script: Script) returns (rest: Script, error: Option<Error>)
      requires Valid() && phase == Polling && log == [Accepted(taskId.value)]
      modifies this`log
      ensures Valid() && error != Some(SubmissionUnknown)
      ensures error == None ==> log == [Accepted(taskId.value), SawSuccess]
      ensures Followed(Napping, script, maxAttempts)
           == if error == None then Followed(Getting(TheResult, 1), rest, maxAttempts) else Failing(error.value)
    {
      hide Followed; hide Judged;
      rest := script;
      while true
        invariant log == old(log)
        invariant Followed(Napping, script, maxAttempts) == Followed(Napping, rest, maxAttempts)
        decreases |rest|
      {
        OneMove(Napping, rest, maxAttempts);
        if rest == [] {
          DeadlineEnds(rest, maxAttempts);
          return rest, Some(Net(Interrupted(DeadlinePassed)));
        }
        var nap := Sleep(rest);
        rest := After(rest);
        if nap.Woken? {
          OverStays(Failing(Net(Interrupted(nap.cause))), rest, maxAttempts);
          return rest, Some(Net(Interrupted(nap.cause)));
        }
        var answer; ghost var sent;
        answer, rest, sent := Get(rest, TheStatus, maxAttempts);
        AnsweredStatus(answer, rest, maxAttempts);
        var checked := Checked(answer);
        if checked.Threw? {
          return rest, Some(checked.error);
        }
        if !checked.value.json || checked.value.state in {Failure, Unknown} {
          return rest, Some(Malformed);
        }
        if checked.value.state == Success {
          log := log + [SawSuccess];
          return rest, None;
        }
      }
    }

    /** The body of `run` between the claim and the exception handlers. */
    method Convert(script: Script) returns (error: Option<Error>, illegal: bool)
      requires Valid() && phase == Submitting && posts < attempts
      modifies this
      ensures Valid() && !illegal
      ensures if error == None then phase == Succeeded
              else if error == Some(SubmissionUnknown) then phase == UnknownSubmission && attempts == maxAttempts
              else if error.value.Net? && error.value.net.Interrupted?
              then phase in {Submitting, Resubmitting, UnknownSubmission, Polling, Fetching}
              else phase in {Submitting, Resubmitting, Polling, Fetching}
      ensures Followed(Posting(old(attempts)), script, maxAttempts) == if error == None then Payload else Failing(error.value)
    {
      hide Followed; hide Judged;
      var rest;
      rest, error, illegal := Submit(script);
      if error.Some? {
        return;
      }
      rest, error := Poll(rest);
      if error.Some? {
        return;
      }
      illegal := Transition(Fetching);
      var answer; ghost var sent;
      answer, rest, sent := Get(rest, TheResult, maxAttempts);
      AnsweredResult(answer, rest, maxAttempts);
      var checked := Checked(answer);
      if checked.Threw? {
        error := Some(checked.error);
        return;
      }
      if !checked.value.json || !checked.value.document {
        error := Some(Malformed);
        return;
      }
      log := log + [GotDocument];
      illegal := Transition(Succeeded);
    }

    /** One conversion. A fresh instance with a budget goes where its script leads: it returns a document
        exactly on the scripts that submit, poll and fetch one, and every failure reports the event, or
        the deadline, that ended it. It sends at most the budgeted POSTs, attempts no transition its
        table forbids, and stops in a terminal phase, or with acceptance unknown and its budget spent.
        An instance already claimed is refused and left as it was. */
    method Run(script: Script) returns (outcome: Outcome)
      requires Valid()
      modifies this
      ensures Valid() && posts <= attempts && outcome != IllegalTransition
      ensures outcome == NotClaimed <==> old(phase) != Ready || maxAttempts < 1
      ensures outcome == NotClaimed ==> phase == old(phase) && posts == old(posts) && attempts == old(attempts)
      ensures outcome != NotClaimed ==>
                && outcome == Followed(Posting(1), script, maxAttempts)
                && (outcome == Payload <==> Succeeds(script, maxAttempts))
                && (outcome.Failing? ==> exists k: nat :: Blamed(Posting(1), script, k, maxAttempts, outcome.error))
      ensures outcome != NotClaimed ==>
                && posts <= maxAttempts
                && (Terminal(phase) || (phase == UnknownSubmission && attempts == maxAttempts))
                && (outcome == Payload <==> phase == Succeeded)
                && (phase == Succeeded ==> taskId.Some? && log == [Accepted(taskId.value), SawSuccess, GotDocument])
                && (phase == UnknownSubmission <==> outcome == Failing(SubmissionUnknown))
                && (phase == TimedOut <==> outcome == Failing(Net(Interrupted(DeadlinePassed))))
                && (phase == Cancelled <==> outcome == Failing(Net(Interrupted(Cancel))))
    {
      hide Followed; hide Succeeds; hide Blamed;
      var refused := Transition(Submitting);
      if refused {
        return NotClaimed;
      }
      SucceedsIff(script, maxAttempts);
      var error, illegal := Convert(script);
      if error == None {
        return if illegal then IllegalTransition else Payload;
      }
      outcome := Failing(error.value);
      FailureHasItsEvent(Posting(1), script, maxAttempts, error.value);
      if error.value == SubmissionUnknown {
        return;
      }
      if error.value.Net? && error.value.net.Interrupted? {
        match error.value.net.cause
        case DeadlinePassed => illegal := Transition(TimedOut);
        case Cancel => illegal := Transition(Cancelled);
      } else {
        illegal := Transition(Failed);
      }
      outcome := if illegal then IllegalTransition else outcome;
    }
  }
}
