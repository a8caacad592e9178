/**
 The documents the review cog reads and writes: the wrappers used for missing
 keys and error returns, the JSON documents kept in the paipu cache, and the
 typed view of the analysis payload that the bad-move statistics walk over.
 */
module Docs {

  /** A JSON member that may be absent (`dict.get` returning None). */
  datatype Option<+T> = None | Some(value: T) {
    function GetOr(default: T): T {
      match this
      case Some(v) => v
      case None => default
    }
  }

  /** A value or the error that replaced it. */
  datatype Result<+T, +E> = Ok(value: T) | Err(error: E)

  /**
   An action of the game (a discard, a call, ...). Python compares the decoded
   JSON objects by value; the model represents an action by its canonical JSON
   text, so string equality is that comparison.
   */
  type Action = string

  /** One ranked alternative of a reviewed decision: `{"action": ..., "prob": ...}`. */
  datatype Detail = Detail(action: Option<Action>, prob: Option<real>)

  /**
   One reviewed decision: the action actually played, whether the engine agreed
   (`is_equal`, already reduced to its truth value) and the ranked alternatives.
   A missing `details` list is the empty sequence.
   */
  datatype Entry = Entry(actual: Option<Action>, isEqual: bool, details: seq<Detail>)

  /** One round of the match with its reviewed entries. */
  datatype Kyoku = Kyoku(entries: seq<Entry>)

  /**
   The `review` member of an analysis document. A missing `total_reviewed` or
   `total_matches` reads as 0 and a missing `kyokus` list as the empty one.
   */
  datatype Review = Review(totalReviewed: int, totalMatches: int, kyokus: seq<Kyoku>)

  /** `{}` read as a review: every member takes its default. */
  const EmptyReview := Review(0, 0, [])

  /**
   A JSON document as stored in one cache file: its `review` member, if any, and
   every other top-level member as its JSON text. Raw match records have no
   `review` member.
   */
  datatype Doc = Doc(review: Option<Review>, rest: map<string, string>)

  /** The document `{}`. */
  const EmptyObject := Doc(None, map[])

  /** `data.get("review", {})` read as a review. */
  function ReviewOf(d: Doc): (r: Review)
    ensures d.review.None? ==> r.totalReviewed == 0 && r.kyokus == []
    ensures d.review.Some? ==> r == d.review.value
  {
    d.review.GetOr(EmptyReview)
  }
}
