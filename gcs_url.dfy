/*
 * The split of a "gs://BUCKET/PATH" string into bucket and object name,
 * as done by the regular expression /gs:\/\/([^\/]*)\/(.*)$/ with
 * String.prototype.match (no flags): the pattern is not anchored at the
 * start, so the leftmost position where it matches wins; "[^/]*" takes
 * the longest slash-free run (it may hold line terminators); "(.*)$"
 * must reach the end of the string and "." does not match a line
 * terminator.
 */
module GcsUrl {
  import opened JsValues

  const Scheme: string := "gs://"

  /**
   * The first index at or after k that holds '/', or |s| if there is none:
   * where the greedy "[^/]*" run that starts at k ends.
   */
  function SlashFrom(s: string, k: nat): (j: nat)
    requires k <= |s|
    ensures k <= j <= |s|
    ensures '/' !in s[k..j]
    ensures j < |s| ==> s[j] == '/'
    decreases |s| - k
  {
    if k == |s| || s[k] == '/' then k
    else
      var j := SlashFrom(s, k + 1);
      assert s[k..j] == [s[k]] + s[k + 1..j];
      j
  }

  /** The regular expression tried at start position i only (MatchAtIff states what it computes). */
  function MatchAt(s: string, i: nat): Option<(string, string)>
    requires i <= |s|
  {
    if i + |Scheme| <= |s| && s[i..i + |Scheme|] == Scheme then
      var j := SlashFrom(s, i + |Scheme|);
      if j < |s| && NoLineTerminator(s[j + 1..]) then
        Some((s[i + |Scheme|..j], s[j + 1..]))
      else
        None
    else
      None
  }

  /** Try start positions i, i+1, ..., |s| in order and keep the first match. */
  function SearchFrom(s: string, i: nat): (r: Option<(string, string)>)
    requires i <= |s|
    ensures r.Some? ==> '/' !in r.value.0 && NoLineTerminator(r.value.1)
    ensures r.Some? ==> |Scheme + r.value.0 + "/" + r.value.1| <= |s| - i
                        && EndsWith(s, Scheme + r.value.0 + "/" + r.value.1)
    decreases |s| - i
  {
    match MatchAt(s, i)
    case Some(parts) =>
      MatchAtIff(s, i, parts.0, parts.1);
      Some(parts)
    case None => if i == |s| then None else SearchFrom(s, i + 1)
  }

  /**
   * `gsURL.match(...)`: the bucket and object name, or None for "Badly
   * formed URL". A bucket never holds '/', an object name never holds a
   * line terminator, and together they end the URL.
   */
  function ParseGsUrl(s: string): (r: Option<(string, string)>)
    ensures r.Some? ==> '/' !in r.value.0 && NoLineTerminator(r.value.1)
    ensures r.Some? ==> EndsWith(s, Scheme + r.value.0 + "/" + r.value.1)
  {
    SearchFrom(s, 0)
  }

  /** `w` is a suffix of `s`. */
  predicate EndsWith(s: string, w: string)
  {
    |w| <= |s| && s[|s| - |w|..] == w
  }

  /**
   * The regular expression matches at position i with bucket b and object
   * name f: from i on, s reads "gs://" b "/" f, b has no slash, f has no
   * line terminator.
   */
  ghost predicate MatchesAt(s: string, i: nat, b: string, f: string)
  {
    i <= |s| && s[i..] == Scheme + b + "/" + f && '/' !in b && NoLineTerminator(f)
  }

  /** Any index holding '/' past a slash-free stretch is where SlashFrom stops. */
  lemma SlashFromFinds(s: string, k: nat, j: nat)
    requires k <= j < |s| && s[j] == '/' && '/' !in s[k..j]
    ensures SlashFrom(s, k) == j
  {
  }

  /** MatchAt succeeds with (b, f) exactly when the text at i has that shape. */
  lemma MatchAtIff(s: string, i: nat, b: string, f: string)
    requires i <= |s|
    ensures MatchAt(s, i) == Some((b, f)) <==> MatchesAt(s, i, b, f)
  {
    var n := |Scheme|;
    if MatchAt(s, i) == Some((b, f)) {
      var j := SlashFrom(s, i + n);
      assert s[i..] == s[i..i + n] + s[i + n..j] + [s[j]] + s[j + 1..];
    }
    if MatchesAt(s, i, b, f) {
      var j := i + n + |b|;
      assert s[i..i + n] == Scheme;
      assert s[i + n..j] == b;
      assert s[j] == '/';
      assert s[j + 1..] == f;
      SlashFromFinds(s, i + n, j);
    }
  }

  /** SearchFrom returns the match at the first start position that has one. */
  lemma {:induction false} SearchFromFirst(s: string, i: nat) returns (k: nat)
    requires i <= |s|
    requires SearchFrom(s, i).Some?
    ensures i <= k <= |s| && MatchAt(s, k) == SearchFrom(s, i)
    ensures forall m :: i <= m < k ==> MatchAt(s, m).None?
    decreases |s| - i
  {
    if MatchAt(s, i).Some? {
      k := i;
      assert SearchFrom(s, i) == MatchAt(s, i);
    } else {
      assert SearchFrom(s, i) == SearchFrom(s, i + 1);
      k := SearchFromFirst(s, i + 1);
    }
  }

  /** SearchFrom finds something whenever some start position at or after i matches. */
  lemma {:induction false} SearchFromComplete(s: string, i: nat, k: nat)
    requires i <= k <= |s| && MatchAt(s, k).Some?
    ensures SearchFrom(s, i).Some?
    decreases k - i
  {
    if MatchAt(s, i).None? {
      SearchFromComplete(s, i + 1, k);
    }
  }

  /**
   * A successful parse is the leftmost match: the bucket has no slash, the
   * object name has no line terminator, "gs://" + bucket + "/" + name is a
   * suffix of the URL starting at the returned position, and no earlier
   * position matches.
   */
  lemma ParseGsUrlSound(s: string) returns (i: nat)
    requires ParseGsUrl(s).Some?
    ensures MatchesAt(s, i, ParseGsUrl(s).value.0, ParseGsUrl(s).value.1)
    ensures '/' !in ParseGsUrl(s).value.0
    ensures s[i..] == Scheme + ParseGsUrl(s).value.0 + "/" + ParseGsUrl(s).value.1
    ensures forall m, b, f :: 0 <= m < i ==> !MatchesAt(s, m, b, f)
  {
    i := SearchFromFirst(s, 0);
    var (b, f) := ParseGsUrl(s).value;
    MatchAtIff(s, i, b, f);
    forall m, b', f' | 0 <= m < i ensures !MatchesAt(s, m, b', f') {
      MatchAtIff(s, m, b', f');
    }
  }

  /**
   * Parsing fails ("Badly formed URL") exactly when no position of the
   * string starts a "gs://" + slash-free run + "/" + terminator-free tail.
   */
  lemma ParseGsUrlFailsIff(s: string)
    ensures ParseGsUrl(s).None? <==> forall i, b, f :: !MatchesAt(s, i, b, f)
  {
    if ParseGsUrl(s).Some? {
      var i := ParseGsUrlSound(s);
    } else {
      forall i, b, f ensures !MatchesAt(s, i, b, f) {
        if MatchesAt(s, i, b, f) {
          MatchAtIff(s, i, b, f);
          SearchFromComplete(s, 0, i);
        }
      }
    }
  }

  /**
   * Round trip: any slash-free bucket and any object name without line
   * terminators, either possibly empty, come back out of their URL.
   */
  lemma ParseGsUrlRoundTrip(b: string, f: string)
    requires '/' !in b && NoLineTerminator(f)
    ensures ParseGsUrl(Scheme + b + "/" + f) == Some((b, f))
  {
    var s := Scheme + b + "/" + f;
    assert s[0..] == s;
    MatchAtIff(s, 0, b, f);
  }
}
