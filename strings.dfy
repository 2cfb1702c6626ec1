/** String helpers shared by the inspector and the file-key scan. */
module Strings {

  /** `w` occurs in `s` starting at position `p`. */
  predicate HasAt(s: string, p: nat, w: string)
  {
    p + |w| <= |s| && s[p..p + |w|] == w
  }

  /** `String.prototype.includes`: does `w` occur anywhere in `s`? */
  function Includes(s: string, w: string): (b: bool)
    ensures b <==> exists p: nat :: HasAt(s, p, w)
  {
    IncludesFrom(s, w, 0)
  }

  function IncludesFrom(s: string, w: string, from: nat): (b: bool)
    requires from <= |s|
    ensures b <==> exists p: nat :: from <= p && HasAt(s, p, w)
    decreases |s| - from
  {
    if HasAt(s, from, w) then true
    else if from == |s| then false
    else IncludesFrom(s, w, from + 1)
  }

  /** `Array.prototype.join`: the parts with `sep` between neighbours. */
  function Join(parts: seq<string>, sep: string): (r: string)
    ensures parts == [] ==> r == ""
    ensures |parts| == 1 ==> r == parts[0]
  {
    if parts == [] then ""
    else if |parts| == 1 then parts[0]
    else parts[0] + sep + Join(parts[1..], sep)
  }

  /** Joining one more part puts exactly one separator before it. */
  lemma {:induction false} JoinSnoc(parts: seq<string>, p: string, sep: string)
    requires |parts| > 0
    ensures Join(parts + [p], sep) == Join(parts, sep) + sep + p
  {
    if |parts| > 1 {
      assert (parts + [p])[1..] == parts[1..] + [p];
      JoinSnoc(parts[1..], p, sep);
    }
  }
}
