/** The YouTube service of the backend: reading a video id out of a URL or a
    bare id, and turning the transcript loader's outcome into the transcript
    or into one of the service's own error messages. The loader itself is not
    modelled; what it returns (documents, or a thrown message) is an input. */
module YouTube {
  import opened Common
  import Patterns

  /** The two markers of the first pattern, in the order the alternation tries them. */
  const WatchMarker := "youtube.com/watch?v="
  const ShortMarker := "youtu.be/"
  const Markers := [WatchMarker, ShortMarker]

  /** Characters an id never contains: `[^&\n?#]`. */
  const IdStops: set<char> := {'&', '\n', '?', '#'}

  /** The whole string matches the second pattern, `^([^&\n?#]{11})$`. Without the `u`
      flag the pattern counts UTF-16 code units, so a character outside the Basic
      Multilingual Plane counts twice. */
  function IsBareId(s: string): (r: bool)
    ensures r ==> 6 <= |s| <= 11
    ensures (forall i :: 0 <= i < |s| ==> s[i] <= '\U{FFFF}') ==> (r <==> |s| == 11 && forall c :: c in s ==> c !in IdStops)
  {
    Utf16Length(s) == 11 && forall c :: c in s ==> c !in IdStops
  }

  /** `extractVideoId`: the first pattern searched anywhere in the string, then the
      bare-id pattern; a missing or empty input gives null. */
  function ExtractVideoId(url: Option<string>): (r: Option<string>)
    ensures !Present(url) ==> r == None
    ensures r.Some? ==> |r.value| > 0 && forall c :: c in r.value ==> c !in IdStops
  {
    if !Present(url) then None
    else
      match Patterns.Search(url.value, 0, Markers, IdStops)
      case Some(id) => Some(id)
      case None => if IsBareId(url.value) then Some(url.value) else None
  }

  /** The URL the service hands to the transcript loader for an id. */
  function WatchUrl(videoId: string): string
  {
    "https://www.youtube.com/watch?v=" + videoId
  }

  function ShortUrl(videoId: string): string
  {
    "https://youtu.be/" + videoId
  }

  /** An id in the sense of the first pattern's capture: non-empty, none of `&?#` or newline. */
  predicate IsIdText(id: string)
  {
    |id| > 0 && forall c :: c in id ==> c !in IdStops
  }

  /** What may follow the id in a URL without lengthening the capture. */
  predicate EndsId(rest: string)
  {
    rest == [] || rest[0] in IdStops
  }

  lemma OccursAtChar(m: string, s: string, i: nat, k: nat)
    requires OccursAt(m, s, i) && k < |m|
    ensures s[i + k] == m[k]
  {
    assert s[i..i + |m|][k] == s[i + k];
  }

  /** No marker starts at a position holding a character other than 'y'. */
  lemma NoMarkerUnlessY(s: string, j: nat)
    requires j < |s| && s[j] != 'y'
    ensures Patterns.CaptureAt(s, j, Markers, IdStops) == None
  {
    forall t | 0 <= t < |Markers| ensures !OccursAt(Markers[t], s, j) {
      if OccursAt(Markers[t], s, j) {
        OccursAtChar(Markers[t], s, j, 0);
      }
    }
    Patterns.NoMarkerNoCapture(s, j, Markers, IdStops);
  }

  /** No start position before `p` captures when no character before `p` is a 'y'. */
  lemma NoCaptureBefore(s: string, p: nat)
    requires p <= |s|
    requires forall j :: 0 <= j < p ==> s[j] != 'y'
    ensures forall j :: 0 <= j < p ==> Patterns.CaptureAt(s, j, Markers, IdStops) == None
  {
    forall j | 0 <= j < p ensures Patterns.CaptureAt(s, j, Markers, IdStops) == None {
      NoMarkerUnlessY(s, j);
    }
  }

  /** A URL made of a prefix without 'y', marker `t`, an id and an ending captures the id. */
  lemma {:induction false} MarkerUrlCapturesId(pre: string, t: nat, id: string, rest: string)
    requires t < |Markers|
    requires forall j :: 0 <= j < |pre| ==> pre[j] != 'y'
    requires IsIdText(id) && EndsId(rest)
    ensures Patterns.Search(pre + Markers[t] + id + rest, 0, Markers, IdStops) == Some(id)
  {
    var s := pre + Markers[t] + id + rest;
    ConcatParts(pre, Markers[t], id, rest);
    if t == 1 && OccursAt(WatchMarker, s, |pre|) {
      // The markers differ at index 5: '.' against 'b'.
      OccursAtChar(WatchMarker, s, |pre|, 5);
      OccursAtChar(ShortMarker, s, |pre|, 5);
    }
    NoCaptureBefore(s, |pre|);
    Patterns.FirstMarkerCaptures(pre, Markers, t, id, rest, IdStops);
  }

  /** The first marker in the text wins, wherever a later one stands: a short link
      followed by a watch URL yields the short link's id. */
  lemma EarlierMarkerWins(s: string)
    requires s == ShortMarker + "a" + "&" + WatchMarker + "b"
    ensures ExtractVideoId(Some(s)) == Some("a")
  {
    var rest := "&" + WatchMarker + "b";
    assert s == "" + Markers[1] + "a" + rest;
    MarkerUrlCapturesId("", 1, "a", rest);
  }

  /** A watch URL, optionally followed by more query parameters, yields its id. */
  lemma WatchUrlYieldsId(id: string, rest: string)
    requires IsIdText(id) && EndsId(rest)
    ensures ExtractVideoId(Some(WatchUrl(id) + rest)) == Some(id)
  {
    var pre := "https://www.";
    assert WatchUrl(id) + rest == pre + Markers[0] + id + rest;
    MarkerUrlCapturesId(pre, 0, id, rest);
  }

  /** A short link, optionally followed by a query or fragment, yields its id. */
  lemma ShortUrlYieldsId(id: string, rest: string)
    requires IsIdText(id) && EndsId(rest)
    ensures ExtractVideoId(Some(ShortUrl(id) + rest)) == Some(id)
  {
    var pre := "https://";
    var s := pre + ShortMarker + id + rest;
    assert ShortUrl(id) + rest == s;
    MarkerUrlCapturesId(pre, 1, id, rest);
  }

  /** A string in which no marker occurs matches the first pattern nowhere. */
  lemma NoMarkerNoMatch(s: string)
    requires !Contains(s, WatchMarker) && !Contains(s, ShortMarker)
    ensures Patterns.Search(s, 0, Markers, IdStops) == None
  {
    forall j | 0 <= j <= |s| ensures Patterns.CaptureAt(s, j, Markers, IdStops) == None {
      assert !OccursAt(Markers[0], s, j) && !OccursAt(Markers[1], s, j);
      Patterns.NoMarkerNoCapture(s, j, Markers, IdStops);
    }
    Patterns.SearchFails(s, 0, Markers, IdStops);
  }

  /** A bare id of 11 code units without a short-link marker inside comes back unchanged. */
  lemma BareIdUnchanged(id: string)
    requires IsBareId(id) && !Contains(id, ShortMarker)
    ensures ExtractVideoId(Some(id)) == Some(id)
  {
    NoMarkerNoMatch(id);
  }

  /** A string that matches neither pattern gives null: no marker, and a length other
      than 11 code units. */
  lemma NeitherPatternGivesNull(s: string)
    requires !Contains(s, WatchMarker) && !Contains(s, ShortMarker) && Utf16Length(s) != 11
    ensures ExtractVideoId(Some(s)) == None
  {
    NoMarkerNoMatch(s);
  }

  /** A string with no 'y' contains neither marker. */
  lemma NoMarkerWithoutY(s: string)
    requires forall j :: 0 <= j < |s| ==> s[j] != 'y'
    ensures !Contains(s, WatchMarker) && !Contains(s, ShortMarker)
  {
    forall i: nat | i <= |s| ensures !OccursAt(WatchMarker, s, i) && !OccursAt(ShortMarker, s, i) {
      if OccursAt(WatchMarker, s, i) {
        OccursAtChar(WatchMarker, s, i, 0);
      }
      if OccursAt(ShortMarker, s, i) {
        OccursAtChar(ShortMarker, s, i, 0);
      }
    }
  }

  /** The bare-id pattern counts code units, not characters: ten characters ending in
      an emoji are eleven code units and come back unchanged, eleven such characters
      are twelve and give null. */
  lemma BareIdCountsCodeUnits()
    ensures ExtractVideoId(Some("abcdefghi\U{1F600}")) == Some("abcdefghi\U{1F600}")
    ensures ExtractVideoId(Some("abcdefghij\U{1F600}")) == None
  {
    LettersThenEmoji(9);
    assert "abcdefghij"[..9] + ['\U{1F600}'] == "abcdefghi\U{1F600}";
    LettersThenEmoji(10);
    assert "abcdefghij"[..10] + ['\U{1F600}'] == "abcdefghij\U{1F600}";
  }

  /** The first `n` letters from `a` followed by an emoji are `n + 2` code units. */
  lemma LettersThenEmoji(n: nat)
    requires n <= 10
    ensures var s := "abcdefghij"[..n] + ['\U{1F600}'];
            ExtractVideoId(Some(s)) == if n == 9 then Some(s) else None
  {
    var emoji := ['\U{1F600}'];
    assert Utf16Length(emoji) == 2 by {
      assert emoji[1..] == [];
    }
    var letters := "abcdefghij"[..n];
    var s := letters + emoji;
    PlainLettersNoStops(s, n);
    assert s[..n] == letters;
    Utf16LengthSnoc(letters, emoji[0]);
    NoMarkerWithoutY(s);
    if n == 9 {
      BareIdUnchanged(s);
    } else {
      NeitherPatternGivesNull(s);
    }
  }

  /** Letters `a` to `j` followed by an emoji: no 'y', no stop character, and the
      letters lie in the Basic Multilingual Plane. */
  lemma PlainLettersNoStops(s: string, n: nat)
    requires n <= 10 && s == "abcdefghij"[..n] + ['\U{1F600}']
    ensures forall j :: 0 <= j < |s| ==> s[j] != 'y' && s[j] !in IdStops
    ensures Utf16Length(s[..n]) == n
  {
    assert forall j :: 0 <= j < n ==> s[j] <= '\U{FFFF}';
  }

  /** The marker pattern is tried first: an 11-character string that is itself a short
      link yields the two characters after the marker, not the whole string. */
  lemma MarkerPatternFirst(s: string)
    requires s == ShortMarker + "ab"
    ensures IsBareId(s)
    ensures ExtractVideoId(Some(s)) == Some("ab")
  {
    assert forall i :: 0 <= i < |s| ==> s[i] <= '\U{FFFF}' && s[i] !in IdStops;
    assert s == "" + Markers[1] + "ab" + "";
    MarkerUrlCapturesId("", 1, "ab", "");
  }

  /** The same id is extracted from a bare id, a watch URL and a short link. */
  lemma SameIdFromEveryForm(id: string)
    requires IsBareId(id) && !Contains(id, ShortMarker)
    ensures ExtractVideoId(Some(id)) == Some(id)
    ensures ExtractVideoId(Some(WatchUrl(id))) == Some(id)
    ensures ExtractVideoId(Some(ShortUrl(id))) == Some(id)
  {
    BareIdUnchanged(id);
    WatchUrlYieldsId(id, "");
    assert WatchUrl(id) + "" == WatchUrl(id);
    ShortUrlYieldsId(id, "");
    assert ShortUrl(id) + "" == ShortUrl(id);
  }

  // ---------------------------------------------------------------------------
  // Transcript and video information

  /** Metadata the loader attaches to a document (title, author, ...), kept opaque. */
  datatype VideoInfo = VideoInfo(fields: map<string, string>)

  datatype LoaderDoc = LoaderDoc(pageContent: string, metadata: VideoInfo)

  /** Characters `String.prototype.trim` removes: white space and line terminators. */
  const JsWhitespace: set<char> := {
    ' ', '\t', '\n', '\r', '\U{B}', '\U{C}', '\U{A0}', '\U{FEFF}', '\U{1680}',
    '\U{2000}', '\U{2001}', '\U{2002}', '\U{2003}', '\U{2004}', '\U{2005}',
    '\U{2006}', '\U{2007}', '\U{2008}', '\U{2009}', '\U{200A}',
    '\U{2028}', '\U{2029}', '\U{202F}', '\U{205F}', '\U{3000}'
  }

  /** `String.prototype.trim`, first half: the white space at the start is dropped. */
  function TrimStart(s: string): (t: string)
    ensures |t| <= |s| && t == s[|s| - |t|..]
    ensures t == [] || t[0] !in JsWhitespace
    ensures forall i :: 0 <= i < |s| - |t| ==> s[i] in JsWhitespace
  {
    if s != [] && s[0] in JsWhitespace then
      var t := TrimStart(s[1..]);
      assert s[1..][|s| - 1 - |t|..] == s[|s| - |t|..];
      assert forall i :: 1 <= i < |s| - |t| ==> s[i] == s[1..][i - 1];
      t
    else s
  }

  /** `String.prototype.trim`, second half: the white space at the end is dropped. */
  function TrimEnd(s: string): (t: string)
    ensures |t| <= |s| && t == s[..|t|]
    ensures t == [] || t[|t| - 1] !in JsWhitespace
    ensures forall i :: |t| <= i < |s| ==> s[i] in JsWhitespace
  {
    if s != [] && s[|s| - 1] in JsWhitespace then
      var t := TrimEnd(s[..|s| - 1]);
      assert s[..|s| - 1][..|t|] == s[..|t|];
      assert forall i :: |t| <= i < |s| - 1 ==> s[i] == s[..|s| - 1][i];
      t
    else s
  }

  function Trim(s: string): string
  {
    TrimEnd(TrimStart(s))
  }

  /** `!s || s.trim().length === 0`: the text is white space throughout. */
  predicate IsBlank(s: string)
  {
    forall c :: c in s ==> c in JsWhitespace
  }

  /** A text is blank exactly when trimming leaves nothing of it. */
  lemma BlankIffTrimmedEmpty(s: string)
    ensures IsBlank(s) <==> Trim(s) == ""
  {
  }

  const SubtitlesDisabled := "Subtitles are disabled for this video"
  const NoTranscriptThrown := "No transcript available"
  const EmptyTranscriptThrown := "Empty transcript received"

  const NoTranscriptForVideo := "No transcript available for this video"
  const NoTranscriptFound := "No transcript found for this video"
  const TranscriptFetchFailed := "Failed to fetch video transcript"
  const VideoInfoFetchFailed := "Failed to fetch video information"

  /** The message `getTranscript` rethrows for a caught message. */
  function TranscriptErrorMessage(message: string): (r: string)
    ensures r == NoTranscriptForVideo <==> Contains(message, SubtitlesDisabled)
    ensures r == NoTranscriptFound <==> message == NoTranscriptThrown
    ensures r == TranscriptFetchFailed <==> !Contains(message, SubtitlesDisabled) && message != NoTranscriptThrown
  {
    if Contains(message, SubtitlesDisabled) then NoTranscriptForVideo
    else if message == NoTranscriptThrown then NoTranscriptFound
    else TranscriptFetchFailed
  }

  /** `getTranscript`: the first document's text, or a rethrown, mapped message. */
  function GetTranscript(load: Remote<seq<LoaderDoc>>): (r: Remote<string>)
    ensures r.Returns? <==> load.Returns? && |load.value| > 0 && !IsBlank(load.value[0].pageContent)
    ensures r.Returns? ==> r.value == load.value[0].pageContent
    ensures r.Throws? ==> r.message in {NoTranscriptForVideo, NoTranscriptFound, TranscriptFetchFailed}
  {
    match load
    case Throws(m) => Throws(TranscriptErrorMessage(m))
    case Returns(docs) =>
      if |docs| == 0 then Throws(TranscriptErrorMessage(NoTranscriptThrown))
      else if IsBlank(docs[0].pageContent) then Throws(TranscriptErrorMessage(EmptyTranscriptThrown))
      else Returns(docs[0].pageContent)
  }

  /** An empty document list is reported as "not found"; a blank transcript as a fetch failure. */
  lemma TranscriptFailureMessages(load: Remote<seq<LoaderDoc>>)
    ensures load == Returns([]) ==> GetTranscript(load) == Throws(NoTranscriptFound)
    ensures load.Returns? && |load.value| > 0 && IsBlank(load.value[0].pageContent)
            ==> GetTranscript(load) == Throws(TranscriptFetchFailed)
    ensures load.Throws? && Contains(load.message, SubtitlesDisabled)
            ==> GetTranscript(load) == Throws(NoTranscriptForVideo)
  {
  }

  /** `getVideoInfo`: the first document's metadata; every failure has one message. */
  function GetVideoInfo(load: Remote<seq<LoaderDoc>>): (r: Remote<VideoInfo>)
    ensures r.Returns? <==> load.Returns? && |load.value| > 0
    ensures r.Returns? ==> r.value == load.value[0].metadata
    ensures r.Throws? ==> r.message == VideoInfoFetchFailed
  {
    match load
    case Throws(_) => Throws(VideoInfoFetchFailed)
    case Returns(docs) => if |docs| == 0 then Throws(VideoInfoFetchFailed) else Returns(docs[0].metadata)
  }
}
