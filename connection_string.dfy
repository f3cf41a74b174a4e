/** Field extraction from a connection string with the regular expression
    `Key=([^;]+)`, written in two places of the source (the SignalR server
    and the blob download helper) and defined once here.

    JavaScript's `match` returns the LEFTMOST position at which the whole
    pattern matches: the literal `Key=` followed by at least one character
    other than ';'. The capture is then the longest run of non-';'
    characters. Nothing requires the match to start at a field boundary, so
    `XEndpoint=a` supplies a value for `Endpoint`. */
module ConnectionString {
  import opened Wrappers

  /** The pattern `key=[^;]` matches at index `i` of `s`. */
  predicate MatchesAt(s: string, key: string, i: int) {
    var lit := key + "=";
    0 <= i && i + |lit| < |s| && s[i..i + |lit|] == lit && s[i + |lit|] != ';'
  }

  /** End of the maximal run of non-';' characters that starts at `j`. */
  function RunEnd(s: string, j: nat): (e: nat)
    requires j <= |s|
    ensures j <= e <= |s|
    ensures e == |s| || s[e] == ';'
    ensures forall k | j <= k < e :: s[k] != ';'
    decreases |s| - j
  {
    if j == |s| || s[j] == ';' then j else RunEnd(s, j + 1)
  }

  /** Leftmost index at or after `from` where the pattern matches. */
  function FirstMatch(s: string, key: string, from: nat): (r: Option<nat>)
    ensures r.Some? ==> from <= r.value && MatchesAt(s, key, r.value)
    ensures r.Some? ==> forall j | from <= j < r.value :: !MatchesAt(s, key, j)
    ensures r.None? ==> forall j | from <= j :: !MatchesAt(s, key, j)
    decreases |s| - from
  {
    if from > |s| then None
    else if MatchesAt(s, key, from) then Some(from)
    else FirstMatch(s, key, from + 1)
  }

  /** `s.match(/key=([^;]+)/)?.[1]`. */
  function Extract(s: string, key: string): (r: Option<string>)
    ensures r.None? <==> forall i :: !MatchesAt(s, key, i)
    ensures r.Some? ==> |r.value| > 0 && ';' !in r.value
  {
    match FirstMatch(s, key, 0)
    case None => None
    case Some(i) =>
      var start := i + |key| + 1;
      Some(s[start..RunEnd(s, start)])
  }

  /** What a successful extraction means: at the leftmost match, the key and
      '=' are followed by exactly the value, which ends at ';' or at the end
      of the string. */
  lemma ExtractIsLeftmostMaximal(s: string, key: string)
    requires Extract(s, key).Some?
    ensures var v := Extract(s, key).value;
      exists i :: MatchesAt(s, key, i)
        && (forall j | 0 <= j < i :: !MatchesAt(s, key, j))
        && s[i..i + |key| + 1 + |v|] == key + "=" + v
        && (i + |key| + 1 + |v| == |s| || s[i + |key| + 1 + |v|] == ';')
  {
    var i := FirstMatch(s, key, 0).value;
    var v := Extract(s, key).value;
    var start := i + |key| + 1;
    assert s[i..start + |v|] == s[i..start] + s[start..start + |v|];
  }

  /** A connection string whose first field is `key` yields that field's
      value, whatever follows it. */
  lemma {:induction false} ExtractFirstField(key: string, v: string, rest: string)
    requires |v| > 0 && ';' !in v
    requires rest == [] || rest[0] == ';'
    ensures Extract(key + "=" + v + rest, key) == Some(v)
  {
    var s := key + "=" + v + rest;
    var lit := key + "=";
    assert s[0..|lit|] == lit;
    assert s[|lit|] == v[0];
    assert MatchesAt(s, key, 0);
    RunEndOfPlain(s, |lit|, |lit| + |v|);
    assert s[|lit|..|lit| + |v|] == v;
  }

  /** The run that starts at `j` ends at `e` when everything in between is
      non-';' and `e` is the end or a ';'. */
  lemma {:induction false} RunEndOfPlain(s: string, j: nat, e: nat)
    requires j <= e <= |s|
    requires forall k | j <= k < e :: s[k] != ';'
    requires e == |s| || s[e] == ';'
    ensures RunEnd(s, j) == e
    decreases e - j
  {
    if j < e {
      RunEndOfPlain(s, j + 1, e);
    }
  }

  /** The match need not start at a field boundary: `XEndpoint=a` is taken
      for `Endpoint` when it comes first. */
  lemma NotAtFieldBoundary()
    ensures Extract("XEndpoint=a;Endpoint=b", "Endpoint") == Some("a")
  {
    var s := "XEndpoint=a;Endpoint=b";
    var lit := "Endpoint" + "=";
    assert s[0] != lit[0];
    assert s[0..|lit|][0] == s[0];
    assert !MatchesAt(s, "Endpoint", 0);
    assert s == "X" + lit + "a;Endpoint=b";
    assert s[1..1 + |lit|] == lit;
    assert MatchesAt(s, "Endpoint", 1);
    assert FirstMatch(s, "Endpoint", 0) == FirstMatch(s, "Endpoint", 1) == Some(1);
    RunEndOfPlain(s, 10, 11);
    assert s[10..11] == "a";
  }
}
