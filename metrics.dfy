/**
 The bad-move statistics of `parse_review_data`: every reviewed entry the
 engine did not agree with is judged by the probability the engine gave the
 action actually played; at most 0.05 is a severe bad move, above 0.05 and at
 most 0.1 a moderate one. Floating-point ratios and their formatting are not
 modelled; probabilities are reals and only compared.
 */
module Metrics {
  import opened Docs

  /** How one entry is counted. */
  datatype Verdict = Severe | Moderate | NotBad

  /** The integer part of the summary record. */
  datatype Stats = Stats(totalMatches: int, totalReviewed: int, badMoves: nat, severe: nat, moderate: nat)

  const SevereLimit: real := 0.05
  const ModerateLimit: real := 0.1

  /** `detail.get("prob", 1.0)`. */
  function ProbOf(d: Detail): real {
    d.prob.GetOr(1.0)
  }

  /** The verdict for a probability. */
  function Grade(p: real): (v: Verdict)
    ensures v == Severe <==> p <= SevereLimit
    ensures v == Moderate <==> SevereLimit < p <= ModerateLimit
    ensures v == NotBad <==> ModerateLimit < p
  {
    if p <= SevereLimit then Severe else if p <= ModerateLimit then Moderate else NotBad
  }

  /** The probability of the first alternative whose action is the one played, if any alternative is. */
  function MatchedProb(actual: Option<Action>, ds: seq<Detail>): Option<real> {
    if ds == [] then None
    else if ds[0].action == actual then Some(ProbOf(ds[0]))
    else MatchedProb(actual, ds[1..])
  }

  /** How `parse_review_data` counts one entry. */
  function Judge(e: Entry): Verdict {
    if e.isEqual then NotBad
    else match MatchedProb(e.actual, e.details)
      case None => NotBad
      case Some(p) => Grade(p)
  }

  /** Number of entries of `es` judged `v`. */
  function CountIn(es: seq<Entry>, v: Verdict): nat {
    if es == [] then 0
    else CountIn(es[..|es| - 1], v) + (if Judge(es[|es| - 1]) == v then 1 else 0)
  }

  /** Number of entries of all rounds in `ks` judged `v`. */
  function CountInRounds(ks: seq<Kyoku>, v: Verdict): nat {
    if ks == [] then 0
    else CountInRounds(ks[..|ks| - 1], v) + CountIn(ks[|ks| - 1].entries, v)
  }

  /** Number of entries of `es` the engine did not agree with. */
  function Disputed(es: seq<Entry>): nat {
    if es == [] then 0
    else Disputed(es[..|es| - 1]) + (if es[|es| - 1].isEqual then 0 else 1)
  }

  /** Number of entries of all rounds in `ks` the engine did not agree with. */
  function DisputedInRounds(ks: seq<Kyoku>): nat {
    if ks == [] then 0
    else DisputedInRounds(ks[..|ks| - 1]) + Disputed(ks[|ks| - 1].entries)
  }

  /** `i` is the first alternative whose action is the one played. */
  predicate IsFirstMatch(actual: Option<Action>, ds: seq<Detail>, i: nat) {
    i < |ds| && ds[i].action == actual && forall j :: 0 <= j < i ==> ds[j].action != actual
  }

  /** MatchedProb reads exactly the first matching alternative. */
  lemma {:induction false} MatchedProbIsFirstMatch(actual: Option<Action>, ds: seq<Detail>, i: nat)
    requires IsFirstMatch(actual, ds, i)
    ensures MatchedProb(actual, ds) == Some(ProbOf(ds[i]))
    decreases i
  {
    if i > 0 {
      assert ds[0].action != actual;
      assert IsFirstMatch(actual, ds[1..], i - 1);
      MatchedProbIsFirstMatch(actual, ds[1..], i - 1);
    }
  }

  /** MatchedProb is None exactly when no alternative is the action played. */
  lemma {:induction false} MatchedProbNone(actual: Option<Action>, ds: seq<Detail>)
    ensures MatchedProb(actual, ds).None? <==> forall j :: 0 <= j < |ds| ==> ds[j].action != actual
    decreases |ds|
  {
    if ds != [] {
      MatchedProbNone(actual, ds[1..]);
      if ds[0].action != actual {
        assert forall j :: 1 <= j < |ds| ==> ds[j] == ds[1..][j - 1];
      }
    }
  }

  /** An entry the engine agreed with, or whose played action has no alternative, is never a bad move. */
  lemma UnmatchedIsNotBad(e: Entry)
    requires e.isEqual || forall j :: 0 <= j < |e.details| ==> e.details[j].action != e.actual
    ensures Judge(e) == NotBad
  {
    MatchedProbNone(e.actual, e.details);
  }

  /**
   A disputed entry is judged by its first matching alternative alone; one whose
   probability is missing counts as 1.0 and so is not a bad move.
   */
  lemma JudgeByFirstMatch(e: Entry, i: nat)
    requires !e.isEqual && IsFirstMatch(e.actual, e.details, i)
    ensures Judge(e) == Grade(ProbOf(e.details[i]))
    ensures e.details[i].prob.None? ==> Judge(e) == NotBad
  {
    MatchedProbIsFirstMatch(e.actual, e.details, i);
  }

  /** Each disputed entry of a round is counted at most once. */
  lemma {:induction false} BadMovesWithinDisputed(es: seq<Entry>)
    ensures CountIn(es, Severe) + CountIn(es, Moderate) <= Disputed(es)
    decreases |es|
  {
    if es != [] {
      BadMovesWithinDisputed(es[..|es| - 1]);
      var last := es[|es| - 1];
      if last.isEqual {
        assert Judge(last) == NotBad;
      }
    }
  }

  /** Over the whole review, bad moves never outnumber the disputed entries. */
  lemma {:induction false} BadMovesWithinDisputedRounds(ks: seq<Kyoku>)
    ensures CountInRounds(ks, Severe) + CountInRounds(ks, Moderate) <= DisputedInRounds(ks)
    decreases |ks|
  {
    if ks != [] {
      BadMovesWithinDisputedRounds(ks[..|ks| - 1]);
      BadMovesWithinDisputed(ks[|ks| - 1].entries);
    }
  }

  /** Judges one disputed entry by scanning its alternatives, stopping at the first match. */
  method JudgeEntry(e: Entry) returns (v: Verdict)
    ensures v == Judge(e)
  {
    v := NotBad;
    if e.isEqual {
      return;
    }
    var t := 0;
    while t < |e.details|
      invariant 0 <= t <= |e.details|
      invariant MatchedProb(e.actual, e.details[t..]) == MatchedProb(e.actual, e.details)
    {
      var d := e.details[t];
      if e.actual == d.action {
        var prob := ProbOf(d);
        if prob <= SevereLimit {
          v := Severe;
        } else if prob <= ModerateLimit {
          v := Moderate;
        }
        break;
      }
      assert e.details[t..][1..] == e.details[t + 1..];
      t := t + 1;
    }
  }

  /**
   `parse_review_data`: None when `total_reviewed` is 0; otherwise the counts of
   severe and moderate bad moves over every entry of every round.
   */
  method ParseReviewData(data: Doc) returns (stats: Option<Stats>)
    ensures stats.None? <==> ReviewOf(data).totalReviewed == 0
    ensures stats.Some? ==>
      var r := ReviewOf(data);
      && stats.value.totalReviewed == r.totalReviewed
      && stats.value.totalMatches == r.totalMatches
      && stats.value.severe == CountInRounds(r.kyokus, Severe)
      && stats.value.moderate == CountInRounds(r.kyokus, Moderate)
      && stats.value.badMoves == stats.value.severe + stats.value.moderate
  {
    var review := ReviewOf(data);
    if review.totalReviewed == 0 {
      return None;
    }
    var ks := review.kyokus;
    var up, down := 0, 0;
    var k := 0;
    while k < |ks|
      invariant 0 <= k <= |ks|
      invariant up == CountInRounds(ks[..k], Severe)
      invariant down == CountInRounds(ks[..k], Moderate)
    {
      var es := ks[k].entries;
      var j := 0;
      while j < |es|
        invariant 0 <= j <= |es|
        invariant up == CountInRounds(ks[..k], Severe) + CountIn(es[..j], Severe)
        invariant down == CountInRounds(ks[..k], Moderate) + CountIn(es[..j], Moderate)
      {
        var v := JudgeEntry(es[j]);
        if v == Severe {
          up := up + 1;
        } else if v == Moderate {
          down := down + 1;
        }
        assert es[..j + 1][..j] == es[..j];
        j := j + 1;
      }
      assert es[..j] == es;
      assert ks[..k + 1][..k] == ks[..k];
      k := k + 1;
    }
    assert ks[..k] == ks;
    stats := Some(Stats(review.totalMatches, review.totalReviewed, up + down, up, down));
  }

  /** The worked example: two disputed entries with probabilities 0.03 and 0.08, the rest agreed. */
  lemma {:induction false} TwoBadMovesExample(played: Action, other: Action)
    requires played != other
    ensures
      var agreed := Entry(Some(other), true, []);
      var ks := [Kyoku([Entry(Some(played), false, [Detail(Some(other), Some(0.5)), Detail(Some(played), Some(0.03))]), agreed]),
                 Kyoku([agreed, Entry(Some(played), false, [Detail(Some(played), Some(0.08))])])];
      CountInRounds(ks, Severe) == 1 && CountInRounds(ks, Moderate) == 1
  {
    var agreed := Entry(Some(other), true, []);
    var e1 := Entry(Some(played), false, [Detail(Some(other), Some(0.5)), Detail(Some(played), Some(0.03))]);
    var e2 := Entry(Some(played), false, [Detail(Some(played), Some(0.08))]);
    JudgeByFirstMatch(e1, 1);
    JudgeByFirstMatch(e2, 0);
    assert Judge(e1) == Severe && Judge(e2) == Moderate && Judge(agreed) == NotBad;
    assert CountIn([e1], Severe) == 1 && CountIn([e1], Moderate) == 0;
    var ks := [Kyoku([e1, agreed]), Kyoku([agreed, e2])];
    assert [e1, agreed][..1] == [e1] && [e1][..0] == [];
    assert [agreed, e2][..1] == [agreed] && [agreed][..0] == [];
    assert CountIn([e1, agreed], Severe) == 1 && CountIn([e1, agreed], Moderate) == 0;
    assert CountIn([agreed, e2], Severe) == 0 && CountIn([agreed, e2], Moderate) == 1;
    assert ks[..1] == [Kyoku([e1, agreed])] && ks[..1][..0] == [];
    assert CountInRounds(ks[..1], Severe) == 1 && CountInRounds(ks[..1], Moderate) == 0;
    assert CountInRounds(ks, Severe) == 1 && CountInRounds(ks, Moderate) == 1;
  }
}
