/** The loop around one request: an invalid state is answered with one replay. */
module Replay {
  import opened Wrappers
  import opened Pumping
  import opened Delivery
  import opened Response
  import T = Translator

  /** What a post to upstream gives: an error, or a stream that is primed with some patience. */
  datatype Attempt = Refused(error: UpstreamError) | Opened(items: seq<Item>, patience: nat)

  datatype Answer =
    | HttpError(cause: Cause)
    | Streamed(w: World, primed: Primed)
    | Folded(t: T.State)

  predicate IsRetryable(f: T.Failure) {
    f.InvalidStateFailure?
    && (f.reason == "CONTENT_LENGTH_EXCEEDS_THRESHOLD" || f.reason == "INVALID_CONVERSATION_STATE" || f.reason == "STALE_CONVERSATION")
  }

  function PrimedBy(lib: Lib, opts: T.Options, a: Attempt, streaming: bool): (World, Primed)
    requires a.Opened?
  {
    Prime(lib, Start(opts, a.items), streaming, a.patience, [])
  }

  function AnswerOf(lib: Lib, opts: T.Options, a: Attempt, streaming: bool): Answer {
    match a
    case Refused(e) => HttpError(UpstreamBroken(e))
    case Opened(_, _) =>
      var (w, p) := PrimedBy(lib, opts, a, streaming);
      match p
      case Failed(f) => HttpError(UpstreamFailure(f))
      case Broken(e) => HttpError(UpstreamBroken(e))
      case _ => if streaming then Streamed(w, p) else Folded(w.s.t)
  }

  /** The stream ended in an invalid state before anything was answered. */
  predicate Replays(lib: Lib, opts: T.Options, a: Attempt, streaming: bool) {
    a.Opened? && PrimedBy(lib, opts, a, streaming).1.Failed? && IsRetryable(PrimedBy(lib, opts, a, streaming).1.failure)
  }

  /** The loop of `post_messages`; every attempt has its own message id. */
  method PostMessages(lib: Lib, opts: nat -> T.Options, attempts: nat -> Attempt, streaming: bool) returns (r: Answer, posts: nat)
    ensures posts == if Replays(lib, opts(0), attempts(0), streaming) then 2 else 1
    ensures r == AnswerOf(lib, opts(posts - 1), attempts(posts - 1), streaming)
  {
    hide Prime;
    hide IsRetryable;
    var replayed := false;
    posts := 0;
    while true
      invariant posts == if replayed then 1 else 0
      invariant replayed ==> Replays(lib, opts(0), attempts(0), streaming)
      decreases if replayed then 0 else 1
    {
      var a := attempts(posts);
      posts := posts + 1;
      if a.Refused? {
        return HttpError(UpstreamBroken(a.error)), posts;
      }
      var (w, p) := Prime(lib, Start(opts(posts - 1), a.items), streaming, a.patience, []);
      match p {
        case Failed(f) =>
          if !replayed && IsRetryable(f) {
            replayed := true;
            continue;
          }
          return HttpError(UpstreamFailure(f)), posts;
        case Broken(e) => return HttpError(UpstreamBroken(e)), posts;
        case Ready(_) => return if streaming then Streamed(w, p) else Folded(w.s.t), posts;
        case Ended(_) => return if streaming then Streamed(w, p) else Folded(w.s.t), posts;
      }
    }
  }

  /** A request is posted again for three reasons, which upstream gives for an invalid state, and for no other cause. */
  lemma ReplaysIff(lib: Lib, opts: T.Options, a: Attempt, streaming: bool)
    ensures Replays(lib, opts, a, streaming) <==>
            && a.Opened?
            && exists reason, message :: PrimedBy(lib, opts, a, streaming).1 == Failed(T.InvalidStateFailure(reason, message))
                 && reason in ["CONTENT_LENGTH_EXCEEDS_THRESHOLD", "INVALID_CONVERSATION_STATE", "STALE_CONVERSATION"]
  {
    hide Prime;
    if a.Opened? {
      var p := PrimedBy(lib, opts, a, streaming).1;
      if p.Failed? && p.failure.InvalidStateFailure? {
        assert p == Failed(T.InvalidStateFailure(p.failure.reason, p.failure.message));
      }
    }
  }

  /** A stream that is answered with an error, or replayed, had not produced a single event, unless it ran out
      of time before any output. So neither an error nor a replay takes anything back. */
  lemma NothingIsTakenBack(lib: Lib, opts: T.Options, items: seq<Item>, patience: nat)
    ensures var p := Prime(lib, Start(opts, items), true, patience, []).1;
            var total := Total(lib, opts, items);
            && (p.Failed? ==> total.events == [] && total.s.t.failure == Some(p.failure))
            && (p.Broken? ==> p.error == PRIMING_TIMEOUT || (total.events == [] && total.s.broken == Some(p.error)))
  {
    hide Play;
    hide Prime;
    hide Whole;
    hide Good;
    NewGood(opts);
    PrimeStreaming(lib, Start(opts, items), patience);
    PlayIsWhole(lib, Start(opts, items));
  }

  /** A request posts at most twice, and the answer to a replay is the answer to that attempt alone: the attempt
      before it ended in a retryable invalid state, and a streamed one without an event. */
  lemma ReplayedOnce(lib: Lib, opts: T.Options, a: Attempt, streaming: bool)
    requires Replays(lib, opts, a, streaming)
    ensures var total := Total(lib, opts, a.items);
            && total.s.t.failure.Some? && IsRetryable(total.s.t.failure.value)
            && (streaming ==> total.events == [])
  {
    hide Prime;
    hide Whole;
    hide IsRetryable;
    if streaming {
      NothingIsTakenBack(lib, opts, a.items, a.patience);
    } else {
      FoldedWhole(lib, opts, a.items, a.patience);
    }
  }

  /**
   What an attempt is answered with, by all that its bytes give: the folded message, never half of one, only when
   nothing failed; a stream that will deliver all of it and its one terminal; an error that names what failed. A
   stream that produced an event is not answered with an error unless time ran out before any output.
   */
  lemma AnswerSays(lib: Lib, opts: T.Options, a: Attempt, streaming: bool)
    ensures a.Refused? ==> AnswerOf(lib, opts, a, streaming) == HttpError(UpstreamBroken(a.error))
    ensures a.Opened? ==> Says(lib, opts, a.items, streaming, AnswerOf(lib, opts, a, streaming))
  {
    hide Prime;
    hide Whole;
    hide T.Whole;
    hide Due;
    hide AllFrames;
    hide Pipeline.Upstream;
    if a.Opened? {
      if streaming {
        NothingIsTakenBack(lib, opts, a.items, a.patience);
        if AnswerOf(lib, opts, a, streaming).Streamed? {
          PrimedIsGoing(lib, opts, a.items, a.patience);
        }
      } else {
        FoldedWhole(lib, opts, a.items, a.patience);
        var (v, p) := Prime(lib, Start(opts, a.items), false, a.patience, []);
        assert p.Ended? ==> AnswerOf(lib, opts, a, false) == Folded(v.s.t);
      }
    }
  }

  ghost predicate Says(lib: Lib, opts: T.Options, items: seq<Item>, streaming: bool, r: Answer) {
    var total := Total(lib, opts, items);
    match r
    case Folded(t) =>
      && !streaming
      && !Pipeline.Failed(total.s)
      && t == T.Whole(T.New(opts), Pipeline.Upstream(lib, BytesOf(items))).t
    case Streamed(w, p) =>
      && streaming
      && (p.Ready? || p.Ended?)
      && Due(lib, BodyOf(w, p)) == AllFrames(total)
    case HttpError(c) =>
      || c == UpstreamBroken(PRIMING_TIMEOUT)
      || (Names(c, total.s) && (streaming ==> total.events == []))
  }
}
