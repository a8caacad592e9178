/**
 Extraction of a Mahjong Soul paipu id from a link, as `re.search` does it
 with the pattern
   \w{6}-\w{8}-\w{4}-\w{4}-\w{4}-\w{12}((\w|-|_)*)
 The fixed head has no alternatives, so a match starts at a position exactly
 when the head fits there; the greedy suffix then takes the longest run of
 word characters and dashes. `\w` is restricted to ASCII here.
 */
module MatchRef {
  import opened Docs

  /** `\w` over ASCII: a letter, a digit or the underscore. */
  predicate IsWordChar(c: char) {
    ('a' <= c <= 'z') || ('A' <= c <= 'Z') || ('0' <= c <= '9') || c == '_'
  }

  /** A character the suffix `(\w|-|_)*` accepts. */
  predicate IsSuffixChar(c: char) {
    IsWordChar(c) || c == '-'
  }

  /** Length of the fixed head: groups of 6, 8, 4, 4, 4 and 12 characters and five dashes. */
  const HeadLength: nat := 43

  /** The offsets, inside the head, of the five dashes between the groups. */
  predicate IsDashOffset(k: int) {
    k == 6 || k == 15 || k == 20 || k == 25 || k == 30
  }

  /** `h` is a whole head: dashes at the group boundaries, word characters elsewhere. */
  predicate IsHead(h: string) {
    |h| == HeadLength &&
    forall k :: 0 <= k < |h| ==> if IsDashOffset(k) then h[k] == '-' else IsWordChar(h[k])
  }

  /** The pattern's head matches `s` at position `p`. */
  predicate HeadAt(s: string, p: nat) {
    p + HeadLength <= |s| && IsHead(s[p..p + HeadLength])
  }

  /** `p` is where `re.search` finds its match: the head fits there and at no earlier position. */
  predicate IsLeftmostMatch(s: string, p: nat) {
    HeadAt(s, p) && forall q: nat :: q < p ==> !HeadAt(s, q)
  }

  /** Where the greedy suffix that starts at `j` stops: the end of the longest run of suffix characters. */
  function SuffixEnd(s: string, j: nat): (e: nat)
    requires j <= |s|
    ensures j <= e <= |s|
    ensures forall k :: j <= k < e ==> IsSuffixChar(s[k])
    ensures e == |s| || !IsSuffixChar(s[e])
    decreases |s| - j
  {
    if j == |s| || !IsSuffixChar(s[j]) then j else SuffixEnd(s, j + 1)
  }

  /** The first position at or after `i` where the head matches, if there is one. */
  function SearchFrom(s: string, i: nat): (r: Option<nat>)
    ensures r.Some? ==> i <= r.value && HeadAt(s, r.value)
    ensures r.Some? ==> forall q: nat :: i <= q < r.value ==> !HeadAt(s, q)
    ensures r.None? ==> forall q: nat :: i <= q ==> !HeadAt(s, q)
    decreases |s| - i
  {
    if i + HeadLength > |s| then None
    else if HeadAt(s, i) then Some(i)
    else SearchFrom(s, i + 1)
  }

  /** `pat_majsoul.search(url).group()`, or None when the link holds no paipu id. */
  function ExtractId(url: string): (r: Option<string>)
    ensures r.None? <==> forall q: nat :: !HeadAt(url, q)
    ensures r.Some? ==> exists p: nat :: IsLeftmostMatch(url, p) && r.value == url[p..SuffixEnd(url, p + HeadLength)]
  {
    match SearchFrom(url, 0)
    case None => None
    case Some(p) =>
      assert IsLeftmostMatch(url, p);
      Some(url[p..SuffixEnd(url, p + HeadLength)])
  }

  /** Every extracted id starts with a head and continues with suffix characters only. */
  lemma ExtractedIdShape(url: string)
    requires ExtractId(url).Some?
    ensures HeadAt(ExtractId(url).value, 0)
    ensures forall k :: HeadLength <= k < |ExtractId(url).value| ==> IsSuffixChar(ExtractId(url).value[k])
  {
    var p: nat :| IsLeftmostMatch(url, p) && ExtractId(url).value == url[p..SuffixEnd(url, p + HeadLength)];
    var id := ExtractId(url).value;
    assert id[0..HeadLength] == url[p..p + HeadLength];
  }

  /** A string made of a head followed by suffix characters is its own id. */
  lemma ExtractWholeId(id: string)
    requires HeadAt(id, 0)
    requires forall k :: HeadLength <= k < |id| ==> IsSuffixChar(id[k])
    ensures ExtractId(id) == Some(id)
  {
    assert SearchFrom(id, 0) == Some(0);
    assert SuffixEnd(id, HeadLength) == |id|;
    assert id[0..|id|] == id;
  }

  /** Extracting again from an extracted id gives back the same id. */
  lemma ExtractIdempotent(url: string)
    requires ExtractId(url).Some?
    ensures ExtractId(ExtractId(url).value) == ExtractId(url)
  {
    ExtractedIdShape(url);
    ExtractWholeId(ExtractId(url).value);
  }
}
