/**
 * File-key extraction: the unanchored pattern `(?:file|design)/([a-zA-Z0-9]+)`
 * applied to a project URL, written out as a scan. The matcher tries each
 * start position from the left; at a position it needs `file/` or `design/`
 * followed by at least one ASCII letter or digit, and the greedy group then
 * takes the whole run of letters and digits.
 */
module FileKey {
  import opened Wrappers
  import opened Strings

  predicate IsAlnum(c: char)
  {
    ('a' <= c <= 'z') || ('A' <= c <= 'Z') || ('0' <= c <= '9')
  }

  const FileMarker: string := "file/"
  const DesignMarker: string := "design/"

  /** Where the captured group would start if the pattern matched at `p`. */
  function KeyStart(s: string, p: nat): Option<nat>
  {
    if HasAt(s, p, FileMarker) then Some(p + |FileMarker|)
    else if HasAt(s, p, DesignMarker) then Some(p + |DesignMarker|)
    else None
  }

  /** The pattern matches at position `p`. */
  predicate MatchesAt(s: string, p: nat)
  {
    KeyStart(s, p).Some? && KeyStart(s, p).value < |s| && IsAlnum(s[KeyStart(s, p).value])
  }

  /** `p` is the leftmost position where the pattern matches. */
  ghost predicate IsLeftmostMatch(s: string, p: nat)
  {
    MatchesAt(s, p) && forall q: nat :: q < p ==> !MatchesAt(s, q)
  }

  /** The end of the longest run of letters and digits starting at `q`. */
  function RunEnd(s: string, q: nat): (j: nat)
    requires q <= |s|
    ensures q <= j <= |s|
    ensures forall i :: q <= i < j ==> IsAlnum(s[i])
    ensures j == |s| || !IsAlnum(s[j])
    decreases |s| - q
  {
    if q < |s| && IsAlnum(s[q]) then RunEnd(s, q + 1) else q
  }

  /** The group captured by a match at `p`: non-empty, all letters and digits, maximal. */
  function KeyAt(s: string, p: nat): (key: string)
    requires MatchesAt(s, p)
    ensures |key| > 0
    ensures forall i :: 0 <= i < |key| ==> IsAlnum(key[i])
    ensures HasAt(s, KeyStart(s, p).value, key)
    ensures KeyStart(s, p).value + |key| == |s| || !IsAlnum(s[KeyStart(s, p).value + |key|])
  {
    var q := KeyStart(s, p).value;
    s[q..RunEnd(s, q)]
  }

  /** The leftmost position at or after `from` where the pattern matches. */
  function FindMatch(s: string, from: nat): (r: Option<nat>)
    requires from <= |s|
    ensures r.Some? ==> from <= r.value < |s| && MatchesAt(s, r.value)
    ensures r.Some? ==> forall q: nat :: from <= q < r.value ==> !MatchesAt(s, q)
    ensures r.None? ==> forall q: nat :: from <= q ==> !MatchesAt(s, q)
    decreases |s| - from
  {
    if MatchesAt(s, from) then Some(from)
    else if from == |s| then None
    else FindMatch(s, from + 1)
  }

  /** `projectUrl.match(...)` followed by `fileKeyMatch[1]`. */
  function ExtractFileKey(url: string): (r: Option<string>)
    ensures r.Some? <==> exists p: nat :: MatchesAt(url, p)
    ensures r.Some? ==> |r.value| > 0 && forall i :: 0 <= i < |r.value| ==> IsAlnum(r.value[i])
    ensures r.Some? ==> exists p: nat :: IsLeftmostMatch(url, p) && r.value == KeyAt(url, p)
  {
    match FindMatch(url, 0)
    case None => None
    case Some(p) =>
      assert IsLeftmostMatch(url, p);
      Some(KeyAt(url, p))
  }

  /** The leftmost match decides the key: a later match is never used. */
  lemma ExtractAtLeftmost(s: string, p: nat)
    requires IsLeftmostMatch(s, p)
    ensures ExtractFileKey(s) == Some(KeyAt(s, p))
  {
  }

  /** No match starts at a position that holds neither an `f` nor a `d`. */
  lemma NoMatchAt(s: string, q: nat)
    requires q < |s| && s[q] != 'f' && s[q] != 'd'
    ensures !MatchesAt(s, q)
  {
  }

  /** No match starts at the `f` of `figma.com`. */
  lemma NoMatchAtFigma(s: string, q: nat)
    requires q + 7 <= |s| && s[q] == 'f' && s[q + 2] == 'g'
    ensures !MatchesAt(s, q)
  {
  }

  /** Nothing before the path of a `https://www.figma.com/` URL matches. */
  lemma NoMatchInHost(u: string)
    requires |u| >= 22 && u[..22] == "https://www.figma.com/"
    ensures forall q: nat :: q < 22 ==> !MatchesAt(u, q)
  {
    forall q: nat | q < 22 ensures !MatchesAt(u, q) {
      assert u[q] == u[..22][q];
      if q == 0 { NoMatchAt(u, 0); }
      else if q == 1 { NoMatchAt(u, 1); }
      else if q == 2 { NoMatchAt(u, 2); }
      else if q == 3 { NoMatchAt(u, 3); }
      else if q == 4 { NoMatchAt(u, 4); }
      else if q == 5 { NoMatchAt(u, 5); }
      else if q == 6 { NoMatchAt(u, 6); }
      else if q == 7 { NoMatchAt(u, 7); }
      else if q == 8 { NoMatchAt(u, 8); }
      else if q == 9 { NoMatchAt(u, 9); }
      else if q == 10 { NoMatchAt(u, 10); }
      else if q == 11 { NoMatchAt(u, 11); }
      else if q == 12 { NoMatchAtFigma(u, 12); }
      else if q == 13 { NoMatchAt(u, 13); }
      else if q == 14 { NoMatchAt(u, 14); }
      else if q == 15 { NoMatchAt(u, 15); }
      else if q == 16 { NoMatchAt(u, 16); }
      else if q == 17 { NoMatchAt(u, 17); }
      else if q == 18 { NoMatchAt(u, 18); }
      else if q == 19 { NoMatchAt(u, 19); }
      else if q == 20 { NoMatchAt(u, 20); }
      else if q == 21 { NoMatchAt(u, 21); }
    }
  }

  /** The key of the sample `design/` URL runs from position 29 up to the slash at 35. */
  lemma DesignKeyRun(u: string)
    requires u == "https://www.figma.com/design/ABC123/My-File"
    ensures RunEnd(u, 29) == 35 && u[29..35] == "ABC123"
  {
    assert |u| == 43;
    assert RunEnd(u, 35) == 35;
    assert RunEnd(u, 34) == 35;
    assert RunEnd(u, 33) == 35;
    assert RunEnd(u, 32) == 35;
    assert RunEnd(u, 31) == 35;
    assert RunEnd(u, 30) == 35;
  }

  /** A `design/` URL: the key stops at the next slash. */
  lemma DesignUrlSample(u: string)
    requires u == "https://www.figma.com/design/ABC123/My-File"
    ensures ExtractFileKey(u) == Some("ABC123")
  {
    assert |u| == 43;
    assert u[..22] == "https://www.figma.com/";
    NoMatchInHost(u);
    assert u[22..27][0] != FileMarker[0] && u[22..29] == DesignMarker;
    assert IsLeftmostMatch(u, 22);
    DesignKeyRun(u);
    ExtractAtLeftmost(u, 22);
  }

  /** A URL whose path has neither marker yields no key. */
  lemma ProtoUrlSample(w: string)
    requires w == "https://www.figma.com/proto/ABC123"
    ensures ExtractFileKey(w) == None
  {
    assert |w| == 34;
    assert w[..22] == "https://www.figma.com/";
    NoMatchInHost(w);
    forall q: nat | 22 <= q ensures !MatchesAt(w, q) {
      if q < 34 {
        assert w[q] != 'f' && w[q] != 'd' by {
          assert w[22..] == "proto/ABC123";
          assert w[q] == w[22..][q - 22];
        }
        NoMatchAt(w, q);
      }
    }
  }
}
