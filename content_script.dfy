/** The content script on YouTube pages: it reads the video id from the page
    address, notices when the page moves to another video, and tells the
    background worker exactly once per change. The page address is an input;
    the scraped page metadata is an input too, since reading it is DOM work. */
module ContentScript {
  import opened Common
  import Patterns

  /** `window.location`, with the query string already split into its parameters, in order. */
  datatype Location = Location(href: string, pathname: string, query: seq<(string, string)>)

  /** `URLSearchParams.get`: the value of the first parameter with that name, null when there is none. */
  function QueryGet(query: seq<(string, string)>, name: string): (r: Option<string>)
    ensures r.None? <==> forall i :: 0 <= i < |query| ==> query[i].0 != name
    ensures r.Some? ==> (name, r.value) in query
  {
    if query == [] then None
    else if query[0].0 == name then Some(query[0].1)
    else QueryGet(query[1..], name)
  }

  /** The first parameter with the name decides, whatever comes after it. */
  lemma {:induction false} QueryGetFirst(query: seq<(string, string)>, name: string, i: nat)
    requires i < |query| && query[i].0 == name
    requires forall j :: 0 <= j < i ==> query[j].0 != name
    ensures QueryGet(query, name) == Some(query[i].1)
    decreases i
  {
    if i > 0 {
      QueryGetFirst(query[1..], name, i - 1);
    }
  }

  /** The path fallback `/\/watch\/([^/?]+)/`. */
  const WatchSegment := "/watch/"
  const SegmentStops: set<char> := {'/', '?'}

  /** `extractVideoId`: the `v` parameter when it is non-empty, else the segment after
      `/watch/` in the path, else null. */
  function ExtractVideoId(loc: Location): (r: Option<string>)
    ensures Present(QueryGet(loc.query, "v")) ==> r == QueryGet(loc.query, "v")
    ensures r.Some? ==> r.value != ""
    ensures r.Some? && !Present(QueryGet(loc.query, "v")) ==> forall c :: c in r.value ==> c !in SegmentStops
  {
    var v := QueryGet(loc.query, "v");
    if Present(v) then v else Patterns.Search(loc.pathname, 0, [WatchSegment], SegmentStops)
  }

  /** Without a `v` parameter, a path `/watch/<id>`, possibly followed by more segments
      or a query, yields the id. */
  lemma PathSegmentYieldsId(loc: Location, id: string, rest: string)
    requires !Present(QueryGet(loc.query, "v"))
    requires id != "" && forall c :: c in id ==> c !in SegmentStops
    requires rest == [] || rest[0] in SegmentStops
    requires loc.pathname == WatchSegment + id + rest
    ensures ExtractVideoId(loc) == Some(id)
  {
    assert loc.pathname == "" + [WatchSegment][0] + id + rest;
    Patterns.FirstMarkerCaptures("", [WatchSegment], 0, id, rest, SegmentStops);
  }

  /** Without a `v` parameter and without `/watch/` in the path there is no id. */
  lemma NoSegmentNoId(loc: Location)
    requires !Present(QueryGet(loc.query, "v"))
    requires !Contains(loc.pathname, WatchSegment)
    ensures ExtractVideoId(loc) == None
  {
    var s := loc.pathname;
    forall j | 0 <= j <= |s| ensures Patterns.CaptureAt(s, j, [WatchSegment], SegmentStops) == None {
      assert !OccursAt(WatchSegment, s, j);
      Patterns.NoMarkerNoCapture(s, j, [WatchSegment], SegmentStops);
    }
    Patterns.SearchFails(s, 0, [WatchSegment], SegmentStops);
  }

  /** On the path `/watch` the path fallback finds nothing: it needs `/watch/`. */
  lemma WatchPathNeedsParameter(loc: Location)
    ensures loc.pathname == "/watch" && !Present(QueryGet(loc.query, "v")) ==> ExtractVideoId(loc) == None
  {
    if loc.pathname == "/watch" && !Present(QueryGet(loc.query, "v")) {
      NoSegmentNoId(loc);
    }
  }

  /** `isVideoPage`: the path is `/watch` and an id can be read. That is exactly a
      `/watch` page with a non-empty `v` parameter. */
  function IsVideoPage(loc: Location): (r: bool)
    ensures r <==> loc.pathname == "/watch" && Present(QueryGet(loc.query, "v"))
  {
    WatchPathNeedsParameter(loc);
    loc.pathname == "/watch" && Present(ExtractVideoId(loc))
  }

  // ---------------------------------------------------------------------------
  // Change notifications

  /** The ids notified for a run of extraction results, starting from the last known id:
      an id is notified when it is present and differs from the last known one. */
  function Notified(last: Option<string>, observed: seq<Option<string>>): seq<string>
    decreases |observed|
  {
    if observed == [] then []
    else if Present(observed[0]) && observed[0] != last then [observed[0].value] + Notified(observed[0], observed[1..])
    else Notified(last, observed[1..])
  }

  /** The last known id after a run of extraction results. */
  function LastKnown(last: Option<string>, observed: seq<Option<string>>): Option<string>
    decreases |observed|
  {
    if observed == [] then last
    else if Present(observed[0]) && observed[0] != last then LastKnown(observed[0], observed[1..])
    else LastKnown(last, observed[1..])
  }

  /** Notified ids are non-empty, were all observed, never repeat back to back, and
      the first differs from the id known before; the last one is the id known after. */
  lemma {:induction false} NotifiedNoRepeats(last: Option<string>, observed: seq<Option<string>>)
    ensures var ids := Notified(last, observed);
            && |ids| <= |observed|
            && (forall i :: 0 <= i < |ids| ==> ids[i] != "" && Some(ids[i]) in observed)
            && (forall i :: 0 < i < |ids| ==> ids[i - 1] != ids[i])
            && (|ids| > 0 ==> Some(ids[0]) != last && LastKnown(last, observed) == Some(ids[|ids| - 1]))
            && (|ids| == 0 ==> LastKnown(last, observed) == last)
    decreases |observed|
  {
    if observed != [] {
      var x := observed[0];
      if Present(x) && x != last {
        NotifiedNoRepeats(x, observed[1..]);
      } else {
        NotifiedNoRepeats(last, observed[1..]);
      }
    }
  }

  /** Handling one more extraction result extends the notifications of the run so far. */
  lemma {:induction false} NotifiedSnoc(last: Option<string>, observed: seq<Option<string>>, x: Option<string>)
    ensures Notified(last, observed + [x]) == Notified(last, observed) + Notified(LastKnown(last, observed), [x])
    ensures LastKnown(last, observed + [x]) == LastKnown(LastKnown(last, observed), [x])
    decreases |observed|
  {
    if observed != [] {
      assert (observed + [x])[1..] == observed[1..] + [x];
      var y := observed[0];
      if Present(y) && y != last {
        NotifiedSnoc(y, observed[1..], x);
      } else {
        NotifiedSnoc(last, observed[1..], x);
      }
    }
  }

  /** However often the page reports the same new id, it is notified once. */
  lemma {:induction false} SameIdNotifiedOnce(last: Option<string>, id: string, n: nat)
    requires id != "" && n > 0
    ensures Notified(last, seq(n, _ => Some(id))) == if last == Some(id) then [] else [id]
  {
    var run := seq(n, _ => Some(id));
    assert run[1..] == seq(n - 1, _ => Some(id));
    KnownIdNotNotified(id, n - 1);
  }

  /** Reports of the id already known notify nothing. */
  lemma {:induction false} KnownIdNotNotified(id: string, n: nat)
    ensures Notified(Some(id), seq(n, _ => Some(id))) == []
    decreases n
  {
    if n > 0 {
      assert seq(n, _ => Some(id))[1..] == seq(n - 1, _ => Some(id));
      KnownIdNotNotified(id, n - 1);
    }
  }

  /** One page check on its own: a present id other than the known one is notified and becomes known. */
  lemma NotifiedStep(last: Option<string>, x: Option<string>)
    ensures Notified(last, [x]) == if Present(x) && x != last then [x.value] else []
    ensures LastKnown(last, [x]) == if Present(x) && x != last then x else last
  {
    assert [x][1..] == [];
  }

  /** A `VIDEO_CHANGED` message to the background. */
  datatype Notice = VideoChanged(videoId: string, metadata: Metadata)

  /** The ids the notices carry, in order. */
  function Ids(notices: seq<Notice>): (ids: seq<string>)
    ensures |ids| == |notices|
    ensures forall i :: 0 <= i < |notices| ==> ids[i] == notices[i].videoId
  {
    if notices == [] then [] else [notices[0].videoId] + Ids(notices[1..])
  }

  lemma IdsAppend(a: seq<Notice>, b: seq<Notice>)
    ensures Ids(a + b) == Ids(a) + Ids(b)
  {
  }

  /** The current id is null exactly until the first notice and then names the last
      notice's video; notices carry non-empty ids, and no two consecutive ones the same. */
  ghost predicate NoticesAgree(current: Option<string>, sent: seq<Notice>)
  {
    && (sent == [] <==> current.None?)
    && (sent != [] ==> current == Some(sent[|sent| - 1].videoId))
    && (forall i :: 0 <= i < |sent| ==> sent[i].videoId != "")
    && (forall i :: 0 < i < |sent| ==> sent[i - 1].videoId != sent[i].videoId)
  }

  /** Sending a notice for a new, non-empty id keeps the notices in agreement with it. */
  lemma NoticeKeepsAgreement(current: Option<string>, sent: seq<Notice>, id: string, metadata: Metadata)
    requires NoticesAgree(current, sent) && id != "" && current != Some(id)
    ensures NoticesAgree(Some(id), sent + [VideoChanged(id, metadata)])
    ensures Ids(sent + [VideoChanged(id, metadata)]) == Ids(sent) + [id]
  {
    IdsAppend(sent, [VideoChanged(id, metadata)]);
  }

  /** The notices one page check sends: one `VIDEO_CHANGED` with the page's metadata
      for a present id other than the last known one, none otherwise. */
  function ChangeNotices(last: Option<string>, x: Option<string>, metadata: Metadata): (notices: seq<Notice>)
    ensures Ids(notices) == Notified(last, [x])
    ensures forall i :: 0 <= i < |notices| ==> notices[i].metadata == metadata
  {
    NotifiedStep(last, x);
    if Present(x) && x != last then [VideoChanged(x.value, metadata)] else []
  }

  /** What `handleMessage` answers. */
  datatype ContentReply =
    | CurrentVideo(videoId: Option<string>, metadata: Metadata)
    | VideoStatus(isOnVideoPage: bool, videoId: Option<string>, pageMetadata: Option<Metadata>)
    | Unknown(error: string)

  const GetCurrentVideoKind := "GET_CURRENT_VIDEO"
  const CheckVideoStatusKind := "CHECK_VIDEO_STATUS"

  class YouTubeChatbotContentScript {
    var currentVideoId: Option<string>
    var lastKnownVideoId: Option<string>
    /** The observer closure's `lastUrl`. */
    var lastUrl: string
    /** The `VIDEO_CHANGED` messages sent so far, oldest first. */
    var sent: seq<Notice>

    /** The two ids agree; they are null exactly until the first notice, and then name
        the last notice's video; no two consecutive notices carry the same id. */
    ghost predicate Valid()
      reads this
    {
      currentVideoId == lastKnownVideoId && NoticesAgree(currentVideoId, sent)
    }

    constructor ()
      ensures Valid() && currentVideoId == None && lastKnownVideoId == None && sent == [] && lastUrl == ""
    {
      currentVideoId := None;
      lastKnownVideoId := None;
      lastUrl := "";
      sent := [];
    }

    /** `onVideoChange`: a present id other than the last known one is adopted and
        notified once; anything else changes nothing. */
    method OnVideoChange(loc: Location, metadata: Metadata)
      requires Valid()
      modifies this
      ensures Valid() && lastUrl == old(lastUrl)
      ensures sent == old(sent) + ChangeNotices(old(lastKnownVideoId), ExtractVideoId(loc), metadata)
      ensures currentVideoId == lastKnownVideoId == LastKnown(old(lastKnownVideoId), [ExtractVideoId(loc)])
      ensures Ids(sent) == Ids(old(sent)) + Notified(old(lastKnownVideoId), [ExtractVideoId(loc)])
      ensures old(currentVideoId).Some? ==> currentVideoId.Some?
    {
      var newVideoId := ExtractVideoId(loc);
      NotifiedStep(lastKnownVideoId, newVideoId);
      if Present(newVideoId) && newVideoId != lastKnownVideoId {
        NoticeKeepsAgreement(currentVideoId, sent, newVideoId.value, metadata);
        lastKnownVideoId := newVideoId;
        currentVideoId := newVideoId;
        sent := sent + [VideoChanged(newVideoId.value, metadata)];
      }
    }

    /** `observeVideoChanges`: remember the address, then check it once. */
    method ObserveVideoChanges(loc: Location, metadata: Metadata)
      requires Valid()
      modifies this
      ensures Valid() && lastUrl == loc.href
      ensures sent == old(sent) + ChangeNotices(old(lastKnownVideoId), ExtractVideoId(loc), metadata)
      ensures currentVideoId == lastKnownVideoId == LastKnown(old(lastKnownVideoId), [ExtractVideoId(loc)])
      ensures Ids(sent) == Ids(old(sent)) + Notified(old(lastKnownVideoId), [ExtractVideoId(loc)])
    {
      lastUrl := loc.href;
      OnVideoChange(loc, metadata);
    }

    /** The observer's callback: only a changed address is checked. */
    method OnMutation(loc: Location, metadata: Metadata) returns (invoked: bool)
      requires Valid()
      modifies this
      ensures Valid() && lastUrl == loc.href
      ensures invoked <==> loc.href != old(lastUrl)
      ensures invoked ==> sent == old(sent) + ChangeNotices(old(lastKnownVideoId), ExtractVideoId(loc), metadata)
                          && currentVideoId == lastKnownVideoId == LastKnown(old(lastKnownVideoId), [ExtractVideoId(loc)])
                          && Ids(sent) == Ids(old(sent)) + Notified(old(lastKnownVideoId), [ExtractVideoId(loc)])
      ensures !invoked ==> sent == old(sent) && currentVideoId == old(currentVideoId)
                           && lastKnownVideoId == old(lastKnownVideoId)
    {
      invoked := loc.href != lastUrl;
      if invoked {
        lastUrl := loc.href;
        OnVideoChange(loc, metadata);
      }
    }

    /** `handleMessage`: the current id, or whether the page shows a video; `metadata`
        is what the page would report. */
    function HandleMessage(kind: string, metadata: Metadata): (r: ContentReply)
      reads this
      ensures kind == GetCurrentVideoKind ==> r == CurrentVideo(currentVideoId, metadata)
      ensures kind == CheckVideoStatusKind ==>
                r.VideoStatus? && r.videoId == currentVideoId
                && (r.isOnVideoPage <==> Present(currentVideoId))
                && (r.pageMetadata.Some? <==> r.isOnVideoPage)
      ensures kind != GetCurrentVideoKind && kind != CheckVideoStatusKind ==> r == Unknown("Unknown message type")
    {
      if kind == GetCurrentVideoKind then CurrentVideo(currentVideoId, metadata)
      else if kind == CheckVideoStatusKind then
        var isOnVideoPage := Present(currentVideoId);
        VideoStatus(isOnVideoPage, currentVideoId, if isOnVideoPage then Some(metadata) else None)
      else Unknown("Unknown message type")
    }
  }

  /** Two visits to the same page address in a row notify at most once: the second
      visit does not even reach the change check. */
  method RevisitNotifiesNothing(script: YouTubeChatbotContentScript, loc: Location, metadata: Metadata)
    returns (first: bool, second: bool)
    requires script.Valid()
    modifies script
    ensures !second && |script.sent| <= |old(script.sent)| + 1
  {
    first := script.OnMutation(loc, metadata);
    second := script.OnMutation(loc, metadata);
  }
}
