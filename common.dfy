/** Values shared by the backend and the browser extension: optional values,
    the outcome of a call that may throw, JavaScript truthiness of a string
    that may be missing, and the substring tests the code relies on. */
module Common {

  datatype Option<+T> = None | Some(value: T)

  /** What an awaited call settles to: a value, or a thrown error carrying its message. */
  datatype Remote<+T> = Returns(value: T) | Throws(message: string)

  /** Page metadata scraped by the content script and passed along unchanged. */
  datatype Metadata = Metadata(title: string, channel: string, views: string, url: string)

  /** JavaScript truthiness of a value that is a string, null or undefined. */
  predicate Present(s: Option<string>)
  {
    s.Some? && s.value != ""
  }

  /** The text of an optional string, or "" when it is missing. */
  function TextOf(s: Option<string>): string
  {
    if s.Some? then s.value else ""
  }

  /** `a || b` for strings: the fallback replaces an empty message. */
  function OrElse(a: string, b: string): string
  {
    if a != "" then a else b
  }

  /** JavaScript truthiness of a value that is `true`, `false` or `undefined`. */
  predicate Truthy(b: Option<bool>)
  {
    b == Some(true)
  }

  predicate StartsWith(s: string, prefix: string)
  {
    |prefix| <= |s| && s[..|prefix|] == prefix
  }

  /** `sub` occurs in `s` starting at index `i`. */
  predicate OccursAt(sub: string, s: string, i: nat)
  {
    i + |sub| <= |s| && s[i..i + |sub|] == sub
  }

  /** `s.includes(sub)`. */
  predicate Contains(s: string, sub: string)
  {
    exists i: nat | i <= |s| :: OccursAt(sub, s, i)
  }

  /** Where each part of a four-part concatenation sits. */
  lemma ConcatParts(a: string, b: string, c: string, d: string)
    ensures var s := a + b + c + d;
            && |s| == |a| + |b| + |c| + |d|
            && (forall j :: 0 <= j < |a| ==> s[j] == a[j])
            && s[|a|..|a| + |b|] == b
            && s[|a| + |b|..|a| + |b| + |c|] == c
            && (d != [] ==> s[|a| + |b| + |c|] == d[0])
  {
    var s := a + b + c + d;
    assert s[|a|..|a| + |b|] == b;
    assert s[|a| + |b|..|a| + |b| + |c|] == c;
  }

  /** `s.length` in JavaScript: UTF-16 code units, two for a character outside the
      Basic Multilingual Plane. */
  function Utf16Length(s: string): (n: nat)
    ensures |s| <= n <= 2 * |s|
    ensures (forall i :: 0 <= i < |s| ==> s[i] <= '\U{FFFF}') ==> n == |s|
  {
    if s == [] then 0 else (if s[0] > '\U{FFFF}' then 2 else 1) + Utf16Length(s[1..])
  }

  /** Appending one character adds its code units. */
  lemma {:induction false} Utf16LengthSnoc(s: string, c: char)
    ensures Utf16Length(s + [c]) == Utf16Length(s) + Utf16Length([c])
  {
    if s != [] {
      assert (s + [c])[1..] == s[1..] + [c];
      Utf16LengthSnoc(s[1..], c);
    }
  }
}
