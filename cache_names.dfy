/**
 File names of the paipu cache. Raw match records and analysis results share
 one directory; the namespace is carried by the end of the file name.
 */
module CacheNames {

  const RawSuffix := " - raw.json"
  const ResultSuffix := " - review.json"

  /** `f"{paipuid} - raw.json"`. */
  function RawName(id: string): string {
    id + RawSuffix
  }

  /** `f"{paipuid} - {model} - {target_actor} - review.json"`. */
  function ResultName(id: string, model: string, target: string): string {
    id + " - " + model + " - " + target + ResultSuffix
  }

  /** Equal strings with a common prefix and a common suffix have equal middles. */
  lemma CancelAround(a: string, x: string, y: string, b: string)
    requires a + x + b == a + y + b
    ensures x == y
  {
    var s, t := a + x + b, a + y + b;
    assert |x| == |y|;
    forall k | 0 <= k < |x| ensures x[k] == y[k] {
      assert x[k] == s[|a| + k];
      assert y[k] == t[|a| + k];
    }
  }

  /** No raw-record name is ever a result name: the two end in different words. */
  lemma RawNameIsNoResultName(id: string, id': string, model: string, target: string)
    ensures RawName(id) != ResultName(id', model, target)
  {
    var raw, res := RawName(id), ResultName(id', model, target);
    assert raw[|raw| - 8] == 'r';
    assert res[|res| - 8] == 'i';
  }

  /** Distinct ids name distinct raw records. */
  lemma RawNameInjective(id: string, id': string)
    requires RawName(id) == RawName(id')
    ensures id == id'
  {
    assert RawName(id) == "" + id + RawSuffix;
    assert RawName(id') == "" + id' + RawSuffix;
    CancelAround("", id, id', RawSuffix);
  }

  /** With the id and the target fixed, distinct models get distinct result files. */
  lemma ResultNameSeparatesModels(id: string, model: string, model': string, target: string)
    requires ResultName(id, model, target) == ResultName(id, model', target)
    ensures model == model'
  {
    var a, b := id + " - ", " - " + target + ResultSuffix;
    assert ResultName(id, model, target) == a + model + b;
    assert ResultName(id, model', target) == a + model' + b;
    CancelAround(a, model, model', b);
  }

  /** With the id and the model fixed, distinct targets get distinct result files. */
  lemma ResultNameSeparatesTargets(id: string, model: string, target: string, target': string)
    requires ResultName(id, model, target) == ResultName(id, model, target')
    ensures target == target'
  {
    var a := id + " - " + model + " - ";
    assert ResultName(id, model, target) == a + target + ResultSuffix;
    assert ResultName(id, model, target') == a + target' + ResultSuffix;
    CancelAround(a, target, target', ResultSuffix);
  }

  /**
   The three parts are joined by " - " without escaping, so a model or target
   that itself contains " - " can share a file with a different pair.
   */
  lemma ResultNameCollision()
    ensures ResultName("x", "a - b", "c") == ResultName("x", "a", "b - c")
  {
  }
}
