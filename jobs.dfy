/**
 The two loops of `review`: submitting the analysis job (up to three POSTs)
 and polling its status (up to sixty GETs, each after a two-second sleep).
 Each loop is specified by a function of the scripted replies that gives how
 it ends and how many requests, sleeps and progress edits it makes.
 */
module Jobs {
  import opened Docs
  import opened Remote

  const SubmitAttempts: nat := 3
  const PollRounds: nat := 60
  /** A "working" status updates the progress message only on every fifth round. */
  const ProgressEvery: nat := 5
  /** The reason shown when a failed job carries no `error`. */
  const UnknownReason := "未知原因"

  /** How the submission loop ends. */
  datatype SubmitEnd =
    | Submitted(taskId: string)
    | ModelMissing                  // status 404
    | NoTaskId                      // `task_id` falsy after the loop
    | LostConnection                // ServerDisconnectedError re-raised on the last attempt
    | SubmitCrashed(exception: string)  // any other exception reaching the outer handler

  datatype SubmitRun = SubmitRun(end: SubmitEnd, posts: nat, sleeps: nat)

  /** `not task_id` is false: present and non-empty. */
  predicate Truthy(taskId: Option<string>) {
    taskId.Some? && taskId.value != ""
  }

  /** What a transient exception becomes once re-raised to the outer handlers. */
  function Escalate(k: Transient): SubmitEnd {
    match k
    case ServerDisconnected => LostConnection
    case TimedOut(name) => SubmitCrashed(name)
  }

  /** The submission loop from attempt `attempt` on, as `review` runs it. */
  function SubmitFrom(replies: seq<SubmitReply>, attempt: nat): SubmitRun
    requires attempt <= SubmitAttempts == |replies|
    decreases SubmitAttempts - attempt
  {
    if attempt == SubmitAttempts then SubmitRun(NoTaskId, 0, 0)
    else match replies[attempt]
      case SubmitHttp(status, taskId) =>
        if status == 200 then SubmitRun(if Truthy(taskId) then Submitted(taskId.value) else NoTaskId, 1, 0)
        else if status == 404 then SubmitRun(ModelMissing, 1, 0)
        else var next := SubmitFrom(replies, attempt + 1); SubmitRun(next.end, next.posts + 1, next.sleeps)
      case SubmitTransient(k) =>
        if attempt == SubmitAttempts - 1 then SubmitRun(Escalate(k), 1, 0)
        else var next := SubmitFrom(replies, attempt + 1); SubmitRun(next.end, next.posts + 1, next.sleeps + 1)
      case SubmitRaised(name) => SubmitRun(SubmitCrashed(name), 1, 0)
  }

  /** The reply at `attempt` sends the loop on to the next attempt. */
  predicate Retries(r: SubmitReply, attempt: nat) {
    (r.SubmitHttp? && r.status != 200 && r.status != 404) || (r.SubmitTransient? && attempt < SubmitAttempts - 1)
  }

  /** How a reply that does not retry ends the loop. */
  function Decision(r: SubmitReply): SubmitEnd {
    match r
    case SubmitHttp(status, taskId) =>
      if status == 404 then ModelMissing
      else if Truthy(taskId) then Submitted(taskId.value)
      else NoTaskId
    case SubmitTransient(k) => Escalate(k)
    case SubmitRaised(name) => SubmitCrashed(name)
  }

  /** Number of transient exceptions among the replies to attempts `lo` up to `hi`. */
  function Transients(replies: seq<SubmitReply>, lo: nat, hi: nat): nat
    requires lo <= hi <= |replies|
    decreases hi - lo
  {
    if lo == hi then 0 else (if replies[lo].SubmitTransient? then 1 else 0) + Transients(replies, lo + 1, hi)
  }

  function Min(a: nat, b: nat): nat { if a <= b then a else b }

  /**
   At most three POSTs; every sleep follows a transient exception on an
   attempt before the last, and there is one sleep for each of them.
   */
  lemma {:induction false} SubmitBounds(replies: seq<SubmitReply>, attempt: nat)
    requires attempt < SubmitAttempts == |replies|
    ensures var run := SubmitFrom(replies, attempt);
      && 1 <= run.posts <= SubmitAttempts - attempt
      && run.sleeps < run.posts
      && run.sleeps == Transients(replies, attempt, Min(attempt + run.posts, SubmitAttempts - 1))
    decreases SubmitAttempts - attempt
  {
    var run := SubmitFrom(replies, attempt);
    if Retries(replies[attempt], attempt) {
      if attempt + 1 < SubmitAttempts {
        SubmitBounds(replies, attempt + 1);
      }
    }
  }

  /**
   The first reply that does not retry decides the submission, after one POST
   per attempt up to it and one sleep per transient exception before it.
   */
  lemma {:induction false} SubmitDecidedBy(replies: seq<SubmitReply>, attempt: nat, k: nat)
    requires attempt <= k < SubmitAttempts == |replies|
    requires forall a :: attempt <= a < k ==> Retries(replies[a], a)
    requires !Retries(replies[k], k)
    ensures SubmitFrom(replies, attempt) == SubmitRun(Decision(replies[k]), k - attempt + 1, Transients(replies, attempt, k))
    decreases k - attempt
  {
    if attempt < k {
      SubmitDecidedBy(replies, attempt + 1, k);
    }
  }

  /** When every attempt retries, the loop ends without a task id after three POSTs. */
  lemma {:induction false} SubmitExhausted(replies: seq<SubmitReply>, attempt: nat)
    requires attempt <= SubmitAttempts == |replies|
    requires forall a :: attempt <= a < SubmitAttempts ==> Retries(replies[a], a)
    ensures SubmitFrom(replies, attempt) == SubmitRun(NoTaskId, SubmitAttempts - attempt, Transients(replies, attempt, SubmitAttempts))
    decreases SubmitAttempts - attempt
  {
    if attempt < SubmitAttempts {
      SubmitExhausted(replies, attempt + 1);
    }
  }

  /** Two transient failures and then a task id: three POSTs, two sleeps, submitted. */
  lemma RetryThenSubmitted(k1: Transient, k2: Transient, taskId: string)
    requires taskId != ""
    ensures SubmitFrom([SubmitTransient(k1), SubmitTransient(k2), SubmitHttp(200, Some(taskId))], 0)
         == SubmitRun(Submitted(taskId), 3, 2)
  {
    var replies := [SubmitTransient(k1), SubmitTransient(k2), SubmitHttp(200, Some(taskId))];
    SubmitDecidedBy(replies, 0, 2);
  }

  /** Three transient failures: the third is re-raised to the outer handlers, with no "failed to submit" end. */
  lemma ThreeTransientsEscalate(k1: Transient, k2: Transient, k3: Transient)
    ensures SubmitFrom([SubmitTransient(k1), SubmitTransient(k2), SubmitTransient(k3)], 0)
         == SubmitRun(Escalate(k3), 3, 2)
  {
    var replies := [SubmitTransient(k1), SubmitTransient(k2), SubmitTransient(k3)];
    SubmitDecidedBy(replies, 0, 2);
  }

  /** The submission loop of `review`, counting its POSTs and sleeps. */
  method Submit(replies: seq<SubmitReply>) returns (run: SubmitRun)
    requires |replies| == SubmitAttempts
    ensures run == SubmitFrom(replies, 0)
  {
    var taskId: Option<string> := None;
    var posts, sleeps := 0, 0;
    var attempt := 0;
    while attempt < SubmitAttempts
      invariant 0 <= attempt <= SubmitAttempts
      invariant posts == attempt && taskId == None
      invariant SubmitFrom(replies, attempt).end == SubmitFrom(replies, 0).end
      invariant posts + SubmitFrom(replies, attempt).posts == SubmitFrom(replies, 0).posts
      invariant sleeps + SubmitFrom(replies, attempt).sleeps == SubmitFrom(replies, 0).sleeps
    {
      posts := posts + 1;
      match replies[attempt] {
        case SubmitHttp(status, tid) =>
          if status == 200 {
            taskId := tid;
            break;
          } else if status == 404 {
            return SubmitRun(ModelMissing, posts, sleeps);
          }
        case SubmitTransient(k) =>
          if attempt == SubmitAttempts - 1 {
            return SubmitRun(Escalate(k), posts, sleeps);
          }
          sleeps := sleeps + 1;
        case SubmitRaised(name) =>
          return SubmitRun(SubmitCrashed(name), posts, sleeps);
      }
      attempt := attempt + 1;
    }
    if !Truthy(taskId) {
      return SubmitRun(NoTaskId, posts, sleeps);
    }
    run := SubmitRun(Submitted(taskId.value), posts, sleeps);
  }

  /** How the poll loop ends. */
  datatype PollEnd =
    | Finished(data: Doc)           // status "done": `data` (or `{}`) is written to the result cache
    | RemoteFailed(reason: string)  // status "failed"
    | PollTimeout                   // sixty rounds without either

  datatype PollRun = PollRun(end: PollEnd, polls: nat, sleeps: nat, edits: nat)

  /** One more round that did not end the loop: a sleep, a poll and possibly an edit. */
  function Continue(next: PollRun, edit: nat): PollRun {
    PollRun(next.end, next.polls + 1, next.sleeps + 1, next.edits + edit)
  }

  /** The poll loop from round `i` on, as `review` runs it. */
  function PollFrom(replies: seq<PollReply>, i: nat): PollRun
    requires i <= PollRounds == |replies|
    decreases PollRounds - i
  {
    if i == PollRounds then PollRun(PollTimeout, 0, 0, 0)
    else match replies[i]
      case PollRaised => Continue(PollFrom(replies, i + 1), 0)
      case PollHttp(status, body) =>
        if status != 200 then Continue(PollFrom(replies, i + 1), 0)
        else match body
          case Done(data) => PollRun(Finished(data.GetOr(EmptyObject)), 1, 1, 0)
          case Working => Continue(PollFrom(replies, i + 1), if i % ProgressEvery == 0 then 1 else 0)
          case Failed(error) => PollRun(RemoteFailed(error.GetOr(UnknownReason)), 1, 1, 0)
          case OtherStatus => Continue(PollFrom(replies, i + 1), 0)
  }

  /** The reply ends the poll loop: status 200 with "done" or "failed". */
  predicate Settles(r: PollReply) {
    r.PollHttp? && r.status == 200 && (r.body.Done? || r.body.Failed?)
  }

  /** How a settling reply ends the loop. */
  function Settlement(r: PollReply): PollEnd
    requires Settles(r)
  {
    if r.body.Done? then Finished(r.body.data.GetOr(EmptyObject))
    else RemoteFailed(r.body.error.GetOr(UnknownReason))
  }

  /** The reply updates the progress message in round `i`. */
  predicate EditsIn(r: PollReply, i: nat) {
    r == PollHttp(200, Working) && i % ProgressEvery == 0
  }

  /** Passing round `i` removes one multiple of five from the rounds left exactly when `i` is one. */
  lemma EditBoundStep(i: nat)
    ensures (i + ProgressEvery) / ProgressEvery - (i + ProgressEvery - 1) / ProgressEvery
      == if i % ProgressEvery == 0 then 1 else 0
  {
    var q, r := i / ProgressEvery, i % ProgressEvery;
    assert i == ProgressEvery * q + r;
    assert (i + ProgressEvery) / ProgressEvery == q + 1;
    assert (i + ProgressEvery - 1) / ProgressEvery == if r == 0 then q else q + 1;
  }

  /**
   At most one poll per remaining round, each after exactly one sleep; at most
   one progress edit per remaining multiple of five; a timeout uses every round.
   */
  lemma {:induction false} PollBounds(replies: seq<PollReply>, i: nat)
    requires i <= PollRounds == |replies|
    ensures var run := PollFrom(replies, i);
      && run.polls <= PollRounds - i
      && run.sleeps == run.polls
      && run.edits <= PollRounds / ProgressEvery - (i + ProgressEvery - 1) / ProgressEvery
      && (run.end.PollTimeout? ==> run.polls == PollRounds - i)
      && (i < PollRounds ==> 1 <= run.polls)
    decreases PollRounds - i
  {
    if i < PollRounds {
      PollBounds(replies, i + 1);
      EditBoundStep(i);
    }
  }

  /** No progress edit is made unless some remaining multiple-of-five round answers "working". */
  lemma {:induction false} NoEditsWithoutWorking(replies: seq<PollReply>, i: nat)
    requires i <= PollRounds == |replies|
    requires forall j :: i <= j < PollRounds ==> !EditsIn(replies[j], j)
    ensures PollFrom(replies, i).edits == 0
    decreases PollRounds - i
  {
    if i < PollRounds {
      NoEditsWithoutWorking(replies, i + 1);
    }
  }

  /**
   The first settling reply decides the loop, after one sleep and one poll per
   round up to it; error statuses, exceptions and unknown statuses before it
   change nothing but the counts.
   */
  lemma {:induction false} PollDecidedBy(replies: seq<PollReply>, i: nat, k: nat)
    requires i <= k < PollRounds == |replies|
    requires forall j :: i <= j < k ==> !Settles(replies[j])
    requires Settles(replies[k])
    ensures PollFrom(replies, i).end == Settlement(replies[k])
    ensures PollFrom(replies, i).polls == k - i + 1
    decreases k - i
  {
    if i < k {
      PollDecidedBy(replies, i + 1, k);
    }
  }

  /** Without a settling reply the loop times out after all sixty rounds. */
  lemma {:induction false} PollNeverSettles(replies: seq<PollReply>, i: nat)
    requires i <= PollRounds == |replies|
    requires forall j :: i <= j < PollRounds ==> !Settles(replies[j])
    ensures PollFrom(replies, i).end == PollTimeout
    ensures PollFrom(replies, i).polls == PollRounds - i
    decreases PollRounds - i
  {
    if i < PollRounds {
      PollNeverSettles(replies, i + 1);
    }
  }

  /** Fifty-nine "working" answers and then "done": finished in the sixtieth round. */
  lemma DoneInLastRound(data: Doc)
    ensures var replies := seq(PollRounds - 1, _ => PollHttp(200, Working)) + [PollHttp(200, Done(Some(data)))];
      PollFrom(replies, 0) == PollRun(Finished(data), PollRounds, PollRounds, PollRounds / ProgressEvery)
  {
    var replies := seq(PollRounds - 1, _ => PollHttp(200, Working)) + [PollHttp(200, Done(Some(data)))];
    PollDecidedBy(replies, 0, PollRounds - 1);
    PollBounds(replies, 0);
    WorkingEdits(replies, 0);
  }

  /**
   Rounds `i` up to 58 all answer "working": each multiple of five among them
   makes one edit, whatever the last round answers (59 is no multiple of five).
   */
  lemma {:induction false} WorkingEdits(replies: seq<PollReply>, i: nat)
    requires i <= PollRounds - 1 && |replies| == PollRounds
    requires forall j :: i <= j < PollRounds - 1 ==> replies[j] == PollHttp(200, Working)
    ensures PollFrom(replies, i).edits == PollRounds / ProgressEvery - (i + ProgressEvery - 1) / ProgressEvery
    decreases PollRounds - i
  {
    if i < PollRounds - 1 {
      WorkingEdits(replies, i + 1);
      assert PollFrom(replies, i) == Continue(PollFrom(replies, i + 1), if i % ProgressEvery == 0 then 1 else 0);
      EditBoundStep(i);
    }
  }

  /** Sixty "working" answers: a timeout after sixty polls, sixty sleeps and twelve edits. */
  lemma AllWorkingTimesOut()
    ensures PollFrom(seq(PollRounds, _ => PollHttp(200, Working)), 0)
      == PollRun(PollTimeout, PollRounds, PollRounds, PollRounds / ProgressEvery)
  {
    var replies := seq(PollRounds, _ => PollHttp(200, Working));
    PollNeverSettles(replies, 0);
    PollBounds(replies, 0);
    WorkingEdits(replies, 0);
  }
}
