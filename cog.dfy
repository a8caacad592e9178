/**
 The review cog: its file cache (one directory holding raw match records and
 analysis results, as a map from file name to document), its list of
 available models, and the `review` command that ties extraction, caching,
 submission and polling together. Chat messages are reduced to the outcome a
 command ends with and to a count of progress edits.
 */
module Cog {
  import opened Docs
  import opened Remote
  import opened MatchRef
  import opened CacheNames
  import opened Jobs

  /** Why the raw match record could not be obtained. */
  datatype FetchError =
    | TensoulHttp(status: int)        // "Tensoul HTTP {status}"
    | RequestFailed(exception: string)  // "网络请求异常: {exception class}"

  /** What a `review` command ends with: the message it shows, or the result it renders. */
  datatype Outcome =
    | InvalidLink                   // no paipu id in the link
    | CachedResult(result: Doc)     // the result file already existed
    | FetchFailed(error: FetchError)
    | UnknownModel                  // submission answered 404
    | SubmitFailed                  // no task id after the submission loop
    | Disconnected                  // ServerDisconnectedError reached the outer handler
    | Crashed(exception: string)    // any other exception reached the outer handler
    | AnalysisFailed(reason: string)
    | Timeout                       // sixty polls without "done" or "failed"
    | Completed(result: Doc)        // "done": the result was written and is rendered

  /** The side effects of one command. */
  datatype Calls = Calls(fetches: nat, posts: nat, polls: nat, sleeps: nat, edits: nat, writes: nat)

  const NoCalls := Calls(0, 0, 0, 0, 0, 0)

  /** `get_paipu_data`: the record or the error, the downloads made, the files written and the new cache. */
  datatype FetchRun = FetchRun(data: Result<Doc, FetchError>, fetches: nat, writes: nat, cache: map<string, Doc>)

  /** `get_paipu_data`: the cached record if its file exists, otherwise one download, cached on status 200. */
  function FetchSpec(cache: map<string, Doc>, id: string, reply: FetchReply): FetchRun {
    var name := RawName(id);
    if name in cache then FetchRun(Ok(cache[name]), 0, 0, cache)
    else match reply
      case FetchHttp(status, body) =>
        if status == 200 then FetchRun(Ok(body), 1, 1, cache[name := body])
        else FetchRun(Err(TensoulHttp(status)), 1, 0, cache)
      case FetchRaised(name') => FetchRun(Err(RequestFailed(name')), 1, 0, cache)
  }

  /** How a submission that produced no task id ends the command. */
  function Unsubmitted(end: SubmitEnd): Outcome
    requires !end.Submitted?
  {
    match end
    case ModelMissing => UnknownModel
    case NoTaskId => SubmitFailed
    case LostConnection => Disconnected
    case SubmitCrashed(name) => Crashed(name)
  }

  datatype ReviewRun = ReviewRun(outcome: Outcome, calls: Calls, cache: map<string, Doc>)

  /** The `review` command over a cache, a link, a target, a model and the remote's scripted replies. */
  function ReviewSpec(cache: map<string, Doc>, url: string, target: string, model: string,
                      fetch: FetchReply, submits: seq<SubmitReply>, polls: seq<PollReply>): ReviewRun
    requires |submits| == SubmitAttempts && |polls| == PollRounds
  {
    match ExtractId(url)
    case None => ReviewRun(InvalidLink, NoCalls, cache)
    case Some(id) =>
      var key := ResultName(id, model, target);
      if key in cache then ReviewRun(CachedResult(cache[key]), NoCalls, cache)
      else
        var f := FetchSpec(cache, id, fetch);
        var fetched := NoCalls.(fetches := f.fetches, writes := f.writes);
        if f.data.Err? then ReviewRun(FetchFailed(f.data.error), fetched, f.cache)
        else
          var s := SubmitFrom(submits, 0);
          var submitted := fetched.(posts := s.posts, sleeps := s.sleeps);
          if !s.end.Submitted? then ReviewRun(Unsubmitted(s.end), submitted, f.cache)
          else
            var p := PollFrom(polls, 0);
            var polled := submitted.(polls := p.polls, sleeps := s.sleeps + p.sleeps, edits := p.edits);
            match p.end
            case Finished(doc) => ReviewRun(Completed(doc), polled.(writes := polled.writes + 1), f.cache[key := doc])
            case RemoteFailed(reason) => ReviewRun(AnalysisFailed(reason), polled, f.cache)
            case PollTimeout => ReviewRun(Timeout, polled, f.cache)
  }

  /** The model list after `update_models`: replaced wholesale on status 200, kept otherwise. */
  function Refreshed(models: seq<ModelDescriptor>, reply: ModelsReply): seq<ModelDescriptor> {
    match reply
    case ModelsHttp(status, body) =>
      if status != 200 then models
      else (match body
        case Listing(ms) => ms
        case NoModelsKey => []
        case Unreadable => models)
    case ModelsRaised => models
  }

  /** The model list changes only on a readable status-200 answer, and then to what that answer lists. */
  lemma RefreshedKeepsUnless200(models: seq<ModelDescriptor>, reply: ModelsReply)
    ensures Refreshed(models, reply) != models ==> reply.ModelsHttp? && reply.status == 200 && !reply.body.Unreadable?
    ensures reply.ModelsHttp? && reply.status == 200 && reply.body.Listing? ==> Refreshed(models, reply) == reply.body.models
    ensures reply.ModelsHttp? && reply.status == 200 && reply.body.NoModelsKey? ==> Refreshed(models, reply) == []
  {
  }

  class ReviewCog {
    /** The cache directory: file name to document. */
    var cache: map<string, Doc>
    /** The models the backend offered at the last successful refresh. */
    var availableModels: seq<ModelDescriptor>

    /** The cog starts over the files already in the cache directory, with no models yet. */
    constructor (files: map<string, Doc>)
      ensures cache == files && availableModels == []
    {
      cache := files;
      availableModels := [];
    }

    /** `update_models`. */
    method UpdateModels(reply: ModelsReply)
      modifies this`availableModels
      ensures availableModels == Refreshed(old(availableModels), reply)
    {
      match reply {
        case ModelsHttp(status, body) =>
          if status == 200 {
            match body {
              case Listing(ms) => availableModels := ms;
              case NoModelsKey => availableModels := [];
              case Unreadable =>
            }
          }
        case ModelsRaised =>
      }
    }

    /**
     `list_models`: refreshes once when no model is known, then lists the
     models, or reports that none could be obtained (None).
     */
    method ListModels(reply: ModelsReply) returns (listing: Option<seq<ModelDescriptor>>, refreshed: bool)
      modifies this`availableModels
      ensures refreshed <==> old(availableModels) == []
      ensures availableModels == if refreshed then Refreshed(old(availableModels), reply) else old(availableModels)
      ensures listing == if availableModels == [] then None else Some(availableModels)
    {
      refreshed := false;
      if availableModels == [] {
        UpdateModels(reply);
        refreshed := true;
      }
      if availableModels == [] {
        return None, refreshed;
      }
      listing := Some(availableModels);
    }

    /** `get_paipu_data`. */
    method GetPaipuData(id: string, reply: FetchReply) returns (data: Result<Doc, FetchError>, fetches: nat, writes: nat)
      modifies this`cache
      ensures FetchRun(data, fetches, writes, cache) == FetchSpec(old(cache), id, reply)
    {
      var name := RawName(id);
      if name in cache {
        return Ok(cache[name]), 0, 0;
      }
      fetches, writes := 1, 0;
      match reply {
        case FetchHttp(status, body) =>
          if status == 200 {
            cache := cache[name := body];
            writes := 1;
            return Ok(body), fetches, writes;
          }
          data := Err(TensoulHttp(status));
        case FetchRaised(exception) =>
          data := Err(RequestFailed(exception));
      }
    }

    /** The poll loop of `review`, writing the result file under `key` on "done". */
    method PollTask(key: string, replies: seq<PollReply>) returns (run: PollRun)
      requires |replies| == PollRounds
      modifies this`cache
      ensures run == PollFrom(replies, 0)
      ensures cache == if run.end.Finished? then old(cache)[key := run.end.data] else old(cache)
    {
      var polls, sleeps, edits := 0, 0, 0;
      var i := 0;
      while i < PollRounds
        invariant 0 <= i <= PollRounds
        invariant cache == old(cache)
        invariant polls == i && sleeps == i
        invariant PollFrom(replies, i).end == PollFrom(replies, 0).end
        invariant polls + PollFrom(replies, i).polls == PollFrom(replies, 0).polls
        invariant sleeps + PollFrom(replies, i).sleeps == PollFrom(replies, 0).sleeps
        invariant edits + PollFrom(replies, i).edits == PollFrom(replies, 0).edits
      {
        sleeps := sleeps + 1;
        polls := polls + 1;
        match replies[i] {
          case PollRaised =>
          case PollHttp(status, body) =>
            if status == 200 {
              match body {
                case Done(data) =>
                  var result := data.GetOr(EmptyObject);
                  cache := cache[key := result];
                  return PollRun(Finished(result), polls, sleeps, edits);
                case Working =>
                  if i % ProgressEvery == 0 {
                    edits := edits + 1;
                  }
                case Failed(error) =>
                  return PollRun(RemoteFailed(error.GetOr(UnknownReason)), polls, sleeps, edits);
                case OtherStatus =>
              }
            }
        }
        i := i + 1;
      }
      run := PollRun(PollTimeout, polls, sleeps, edits);
    }

    /** The `review` command. */
    method Review(url: string, target: string, model: string,
                  fetch: FetchReply, submits: seq<SubmitReply>, polls: seq<PollReply>)
      returns (outcome: Outcome, calls: Calls)
      requires |submits| == SubmitAttempts && |polls| == PollRounds
      modifies this`cache
      ensures ReviewRun(outcome, calls, cache) == ReviewSpec(old(cache), url, target, model, fetch, submits, polls)
    {
      var id := ExtractId(url);
      if id.None? {
        return InvalidLink, NoCalls;
      }
      var key := ResultName(id.value, model, target);
      if key in cache {
        return CachedResult(cache[key]), NoCalls;
      }
      var data, fetches, writes := GetPaipuData(id.value, fetch);
      calls := NoCalls.(fetches := fetches, writes := writes);
      if data.Err? {
        return FetchFailed(data.error), calls;
      }
      var s := Submit(submits);
      calls := calls.(posts := s.posts, sleeps := s.sleeps);
      if !s.end.Submitted? {
        return Unsubmitted(s.end), calls;
      }
      var p := PollTask(key, polls);
      calls := calls.(polls := p.polls, sleeps := s.sleeps + p.sleeps, edits := p.edits);
      match p.end {
        case Finished(doc) =>
          outcome := Completed(doc);
          calls := calls.(writes := calls.writes + 1);
        case RemoteFailed(reason) =>
          outcome := AnalysisFailed(reason);
        case PollTimeout =>
          outcome := Timeout;
      }
    }
  }

  /** The download is skipped on a cache hit; only status 200 writes the record, and nothing else changes the cache. */
  lemma FetchCachesOnlyOn200(cache: map<string, Doc>, id: string, reply: FetchReply)
    ensures var f := FetchSpec(cache, id, reply);
      && (RawName(id) in cache ==> f == FetchRun(Ok(cache[RawName(id)]), 0, 0, cache))
      && (RawName(id) !in cache ==> f.fetches == 1)
      && (f.cache != cache <==> RawName(id) !in cache && reply.FetchHttp? && reply.status == 200)
      && (f.cache != cache ==> f.cache == cache[RawName(id) := reply.body] && f.data == Ok(reply.body))
  {
    var f := FetchSpec(cache, id, reply);
    if RawName(id) !in cache && reply.FetchHttp? && reply.status == 200 {
      assert RawName(id) in f.cache;
    }
  }

  /** Once a record has been obtained, fetching it again makes no download and returns the same record. */
  lemma SecondFetchIsCacheHit(cache: map<string, Doc>, id: string, first: FetchReply, second: FetchReply)
    requires FetchSpec(cache, id, first).data.Ok?
    ensures var f := FetchSpec(cache, id, first);
      FetchSpec(f.cache, id, second) == FetchRun(f.data, 0, 0, f.cache)
  {
  }

  /** A link without a paipu id ends the command before any cache read or remote call. */
  lemma InvalidLinkTouchesNothing(cache: map<string, Doc>, url: string, target: string, model: string,
                                  fetch: FetchReply, submits: seq<SubmitReply>, polls: seq<PollReply>)
    requires |submits| == SubmitAttempts && |polls| == PollRounds
    requires forall p: nat :: !HeadAt(url, p)
    ensures ReviewSpec(cache, url, target, model, fetch, submits, polls) == ReviewRun(InvalidLink, NoCalls, cache)
  {
  }

  /** An existing result file is rendered as it is: no download, POST or poll, and nothing written. */
  lemma CachedResultShortCircuits(cache: map<string, Doc>, url: string, target: string, model: string,
                                  fetch: FetchReply, submits: seq<SubmitReply>, polls: seq<PollReply>)
    requires |submits| == SubmitAttempts && |polls| == PollRounds
    requires ExtractId(url).Some? && ResultName(ExtractId(url).value, model, target) in cache
    ensures ReviewSpec(cache, url, target, model, fetch, submits, polls)
         == ReviewRun(CachedResult(cache[ResultName(ExtractId(url).value, model, target)]), NoCalls, cache)
  {
  }

  /**
   Every command stays within the loops' bounds: at most one download, three
   POSTs, sixty polls, sixty-two sleeps, twelve progress edits and two writes;
   polling happens only after a successful submission.
   */
  lemma ReviewBounds(cache: map<string, Doc>, url: string, target: string, model: string,
                     fetch: FetchReply, submits: seq<SubmitReply>, polls: seq<PollReply>)
    requires |submits| == SubmitAttempts && |polls| == PollRounds
    ensures var c := ReviewSpec(cache, url, target, model, fetch, submits, polls).calls;
      && c.fetches <= 1 && c.posts <= SubmitAttempts && c.polls <= PollRounds
      && c.sleeps <= SubmitAttempts - 1 + PollRounds
      && c.edits <= PollRounds / ProgressEvery && c.writes <= 2
      && (c.polls > 0 ==> c.posts >= 1 && SubmitFrom(submits, 0).end.Submitted?)
  {
    SubmitBounds(submits, 0);
    PollBounds(polls, 0);
  }

  /** Polls are made only when a task id was obtained; 404, a missing task id and escalated exceptions poll nothing. */
  lemma NoPollsWithoutTask(cache: map<string, Doc>, url: string, target: string, model: string,
                           fetch: FetchReply, submits: seq<SubmitReply>, polls: seq<PollReply>)
    requires |submits| == SubmitAttempts && |polls| == PollRounds
    ensures var run := ReviewSpec(cache, url, target, model, fetch, submits, polls);
      (run.outcome.UnknownModel? || run.outcome.SubmitFailed? || run.outcome.Disconnected? || run.outcome.Crashed?)
        ==> run.calls.polls == 0 && run.calls.edits == 0 && run.calls.posts >= 1
  {
    SubmitBounds(submits, 0);
  }

  /**
   The cache only grows: existing files are never rewritten, and the only new
   files are the raw record of the link's id and its result file.
   */
  lemma ReviewOnlyAddsFiles(cache: map<string, Doc>, url: string, target: string, model: string,
                            fetch: FetchReply, submits: seq<SubmitReply>, polls: seq<PollReply>)
    requires |submits| == SubmitAttempts && |polls| == PollRounds
    requires ExtractId(url).Some?
    ensures var after := ReviewSpec(cache, url, target, model, fetch, submits, polls).cache;
      && (forall name :: name in cache ==> name in after && after[name] == cache[name])
      && (forall name :: name in after && name !in cache ==>
            name == RawName(ExtractId(url).value) || name == ResultName(ExtractId(url).value, model, target))
  {
  }

  /**
   The result file is created exactly when the command completes, and then
   holds the rendered result; a timeout or a failure writes no result.
   */
  lemma ResultWrittenIffCompleted(cache: map<string, Doc>, url: string, target: string, model: string,
                                  fetch: FetchReply, submits: seq<SubmitReply>, polls: seq<PollReply>)
    requires |submits| == SubmitAttempts && |polls| == PollRounds
    requires ExtractId(url).Some? && ResultName(ExtractId(url).value, model, target) !in cache
    ensures var run := ReviewSpec(cache, url, target, model, fetch, submits, polls);
      var key := ResultName(ExtractId(url).value, model, target);
      && (key in run.cache <==> run.outcome.Completed?)
      && (run.outcome.Completed? ==> run.cache[key] == run.outcome.result && run.calls.writes >= 1)
  {
    var id := ExtractId(url).value;
    RawNameIsNoResultName(id, id, model, target);
  }

  /** A completed review is served from the cache the next time, with no remote call and no write. */
  lemma CompletedThenCached(cache: map<string, Doc>, url: string, target: string, model: string,
                            fetch: FetchReply, submits: seq<SubmitReply>, polls: seq<PollReply>,
                            fetch': FetchReply, submits': seq<SubmitReply>, polls': seq<PollReply>)
    requires |submits| == |submits'| == SubmitAttempts && |polls| == |polls'| == PollRounds
    requires ReviewSpec(cache, url, target, model, fetch, submits, polls).outcome.Completed?
    ensures var first := ReviewSpec(cache, url, target, model, fetch, submits, polls);
      ReviewSpec(first.cache, url, target, model, fetch', submits', polls')
        == ReviewRun(CachedResult(first.outcome.result), NoCalls, first.cache)
  {
    var id := ExtractId(url).value;
    var key := ResultName(id, model, target);
    if key !in cache {
      ResultWrittenIffCompleted(cache, url, target, model, fetch, submits, polls);
    }
  }
}
