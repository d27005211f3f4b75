/** The one shape of regular expression the code uses to find an id inside a
    URL: an unanchored `(?:m1|m2|...)([^stops]+)`. A JavaScript regular
    expression tries start positions from left to right and, at each one, the
    alternatives in order; the greedy class takes the longest run it can and
    nothing after it can force a shorter one, so the first start position with
    a marker followed by at least one allowed character decides the capture. */
module Patterns {
  import opened Common

  /** How many characters outside `stops` follow index `i`: what `[^stops]*` consumes. */
  function RunLength(s: string, i: nat, stops: set<char>): (n: nat)
    requires i <= |s|
    ensures i + n <= |s|
    ensures forall k :: i <= k < i + n ==> s[k] !in stops
    ensures i + n == |s| || s[i + n] in stops
    decreases |s| - i
  {
    if i == |s| || s[i] in stops then 0 else 1 + RunLength(s, i + 1, stops)
  }

  /** The capture when the match starts at index `i`, trying the markers in order. */
  function CaptureAt(s: string, i: nat, markers: seq<string>, stops: set<char>): (r: Option<string>)
    requires i <= |s|
    ensures r.Some? ==> |r.value| > 0 && forall c :: c in r.value ==> c !in stops
    decreases |markers|
  {
    if markers == [] then None
    else
      var m := markers[0];
      if OccursAt(m, s, i) && RunLength(s, i + |m|, stops) > 0 then
        Some(s[i + |m|..i + |m| + RunLength(s, i + |m|, stops)])
      else
        CaptureAt(s, i, markers[1..], stops)
  }

  /** The capture of the leftmost match that starts at or after index `i`. */
  function Search(s: string, i: nat, markers: seq<string>, stops: set<char>): (r: Option<string>)
    requires i <= |s|
    ensures r.Some? ==> |r.value| > 0 && forall c :: c in r.value ==> c !in stops
    decreases |s| - i
  {
    match CaptureAt(s, i, markers, stops)
    case Some(c) => Some(c)
    case None => if i == |s| then None else Search(s, i + 1, markers, stops)
  }

  /** A start position where no marker occurs captures nothing. */
  lemma {:induction false} NoMarkerNoCapture(s: string, i: nat, markers: seq<string>, stops: set<char>)
    requires i <= |s|
    requires forall t :: 0 <= t < |markers| ==> !OccursAt(markers[t], s, i)
    ensures CaptureAt(s, i, markers, stops) == None
    decreases |markers|
  {
    if markers != [] {
      assert !OccursAt(markers[0], s, i);
      assert forall t :: 0 <= t < |markers[1..]| ==> markers[1..][t] == markers[t + 1];
      NoMarkerNoCapture(s, i, markers[1..], stops);
    }
  }

  /** Start positions that capture nothing are skipped. */
  lemma {:induction false} SearchSkips(s: string, i: nat, p: nat, markers: seq<string>, stops: set<char>)
    requires i <= p <= |s|
    requires forall j :: i <= j < p ==> CaptureAt(s, j, markers, stops) == None
    ensures Search(s, i, markers, stops) == Search(s, p, markers, stops)
    decreases p - i
  {
    if i < p {
      SearchSkips(s, i + 1, p, markers, stops);
    }
  }

  /** The first start position that captures decides the result. */
  lemma {:induction false} SearchFindsLeftmost(s: string, i: nat, p: nat, markers: seq<string>, stops: set<char>)
    requires i <= p <= |s|
    requires forall j :: i <= j < p ==> CaptureAt(s, j, markers, stops) == None
    requires CaptureAt(s, p, markers, stops).Some?
    ensures Search(s, i, markers, stops) == CaptureAt(s, p, markers, stops)
  {
    SearchSkips(s, i, p, markers, stops);
  }

  /** With no capture at any start position there is no match. */
  lemma {:induction false} SearchFails(s: string, i: nat, markers: seq<string>, stops: set<char>)
    requires i <= |s|
    requires forall j :: i <= j <= |s| ==> CaptureAt(s, j, markers, stops) == None
    ensures Search(s, i, markers, stops) == None
  {
    SearchSkips(s, i, |s|, markers, stops);
  }

  /** Conversely, every result is the capture at some start position `p`, and no earlier position captures. */
  lemma {:induction false} SearchIsLeftmost(s: string, i: nat, markers: seq<string>, stops: set<char>) returns (p: nat)
    requires i <= |s|
    requires Search(s, i, markers, stops).Some?
    ensures i <= p <= |s|
    ensures CaptureAt(s, p, markers, stops) == Search(s, i, markers, stops)
    ensures forall j :: i <= j < p ==> CaptureAt(s, j, markers, stops) == None
    decreases |s| - i
  {
    if CaptureAt(s, i, markers, stops).None? {
      p := SearchIsLeftmost(s, i + 1, markers, stops);
    } else {
      p := i;
    }
  }

  /** A marker at `p`, with no earlier marker in the list there, captures the whole run after it. */
  lemma {:induction false} CaptureOfMarker(s: string, p: nat, markers: seq<string>, t: nat, stops: set<char>)
    requires p <= |s| && t < |markers|
    requires OccursAt(markers[t], s, p)
    requires forall u :: 0 <= u < t ==> !OccursAt(markers[u], s, p)
    requires RunLength(s, p + |markers[t]|, stops) > 0
    ensures CaptureAt(s, p, markers, stops)
            == Some(s[p + |markers[t]|..p + |markers[t]| + RunLength(s, p + |markers[t]|, stops)])
    decreases t
  {
    if t > 0 {
      assert !OccursAt(markers[0], s, p);
      assert markers[1..][t - 1] == markers[t];
      CaptureOfMarker(s, p, markers[1..], t - 1, stops);
    }
  }

  /** Text made of a part where nothing is captured, then marker `t` (no earlier marker
      occurring at that spot), a word of allowed characters and a terminator, captures
      the word. */
  lemma FirstMarkerCaptures(pre: string, markers: seq<string>, t: nat, w: string, rest: string, stops: set<char>)
    requires t < |markers|
    requires forall j :: 0 <= j < |pre| ==> CaptureAt(pre + markers[t] + w + rest, j, markers, stops) == None
    requires forall u :: 0 <= u < t ==> !OccursAt(markers[u], pre + markers[t] + w + rest, |pre|)
    requires |w| > 0 && forall c :: c in w ==> c !in stops
    requires rest == [] || rest[0] in stops
    ensures Search(pre + markers[t] + w + rest, 0, markers, stops) == Some(w)
  {
    var m := markers[t];
    var s := pre + m + w + rest;
    ConcatParts(pre, m, w, rest);
    RunOfWord(s, |pre| + |m|, w, stops);
    CaptureOfMarker(s, |pre|, markers, t, stops);
    SearchFindsLeftmost(s, 0, |pre|, markers, stops);
  }

  /** The run after index `i` ends exactly where the allowed characters `w` end. */
  lemma {:induction false} RunOfWord(s: string, i: nat, w: string, stops: set<char>)
    requires i + |w| <= |s| && s[i..i + |w|] == w
    requires forall c :: c in w ==> c !in stops
    requires i + |w| == |s| || s[i + |w|] in stops
    ensures RunLength(s, i, stops) == |w|
    decreases |w|
  {
    if |w| > 0 {
      assert s[i] == w[0];
      assert s[i + 1..i + 1 + |w[1..]|] == w[1..];
      RunOfWord(s, i + 1, w[1..], stops);
    }
  }
}
