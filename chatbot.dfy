/** The four HTTP routes of the backend. Each route is a chain of checks, and
    each check decides the status code and whether the later collaborators are
    called at all. The pure functions below take the request and what each
    collaborator settles to, and return the status, the JSON body and the
    calls made, in order. `ChatbotRouter` drives the one stateful
    collaborator, the vector-store service, and is proved to answer exactly
    as those functions say. */
module Chatbot {
  import opened Common
  import YouTube
  import VectorStore

  /** A collaborator call, as it would appear in a trace. */
  datatype Call =
    | ParseUrl(url: string)
    | FetchTranscript(videoId: string)
    | FetchInfo(videoId: string)
    | SplitText(transcript: string)
    | CreateStore(videoId: string, chunks: nat)
    | CheckExists(videoId: string)
    | Search(videoId: string, question: string, k: int)
    | Generate(question: string, docs: nat)
    | DeleteStore(videoId: string)

  /** JSON bodies; the `details` field of error bodies (outside production, the stack
      trace or the error's message) is not modelled. */
  datatype Body =
    | ErrorBody(error: string)
    | ProcessedBody(videoId: string, chunksCount: nat, videoInfo: YouTube.VideoInfo)
    | ChatBody(response: string, sources: nat, conversationId: string)
    | StatusBody(videoId: string, processed: Option<bool>, timestamp: string)
    | DeletedBody(message: string)

  datatype Handled = Handled(status: nat, body: Body, calls: seq<Call>)

  // ---------------------------------------------------------------------------
  // POST /process-video

  datatype ProcessRequest = ProcessRequest(videoId: Option<string>, videoUrl: Option<string>)

  /** What the collaborators of /process-video settle to. Both loader calls start together;
      when both fail, `infoRejectsFirst` says whose error `Promise.all` reports. */
  datatype ProcessOutcomes = ProcessOutcomes(
    transcriptLoad: Remote<seq<YouTube.LoaderDoc>>,
    infoLoad: Remote<seq<YouTube.LoaderDoc>>,
    infoRejectsFirst: bool,
    split: Remote<seq<VectorStore.Document>>,
    create: Option<string>)

  /** `videoId || extractVideoId(videoUrl)`. */
  function RequestedId(req: ProcessRequest): (r: Option<string>)
    ensures Present(req.videoId) ==> r == req.videoId
    ensures Present(r) <==> Present(req.videoId) || YouTube.ExtractVideoId(req.videoUrl).Some?
  {
    if Present(req.videoId) then req.videoId else YouTube.ExtractVideoId(req.videoUrl)
  }

  function ProcessVideo(req: ProcessRequest, o: ProcessOutcomes): (h: Handled)
    ensures h.status in {200, 400, 404, 500}
    ensures h.status == 200 ==> h.body.ProcessedBody? && |h.calls| > 0
                                && h.calls[|h.calls| - 1] == CreateStore(h.body.videoId, h.body.chunksCount)
  {
    if !Present(req.videoId) && !Present(req.videoUrl) then
      Handled(400, ErrorBody("Video ID or URL is required"), [])
    else
      var parsed := if Present(req.videoId) then [] else [ParseUrl(req.videoUrl.value)];
      var extracted := RequestedId(req);
      if !Present(extracted) then
        Handled(400, ErrorBody("Invalid YouTube URL or video ID"), parsed)
      else
        var id := extracted.value;
        var fetched := parsed + [FetchTranscript(id), FetchInfo(id)];
        var transcript := YouTube.GetTranscript(o.transcriptLoad);
        var info := YouTube.GetVideoInfo(o.infoLoad);
        if transcript.Throws? || info.Throws? then
          var message := if transcript.Throws? && (info.Returns? || !o.infoRejectsFirst)
                         then transcript.message else info.message;
          Handled(404, ErrorBody(message), fetched)
        else
          var split := fetched + [SplitText(transcript.value)];
          match o.split
          case Throws(m) => Handled(500, ErrorBody(OrElse(m, "Failed to process video")), split)
          case Returns(chunks) =>
            if |chunks| == 0 then
              Handled(500, ErrorBody("Failed to process transcript chunks"), split)
            else
              var all := split + [CreateStore(id, |chunks|)];
              match o.create
              case Some(m) => Handled(500, ErrorBody(OrElse(m, "Failed to process video")), all)
              case None => Handled(200, ProcessedBody(id, |chunks|, info.value), all)
  }

  /** Neither an id nor a URL: 400, and no collaborator is called. */
  lemma MissingIdAndUrlRejected(req: ProcessRequest, o: ProcessOutcomes)
    requires !Present(req.videoId) && !Present(req.videoUrl)
    ensures ProcessVideo(req, o) == Handled(400, ErrorBody("Video ID or URL is required"), [])
  {
  }

  /** A given id is used verbatim and the URL is never parsed; without one, the URL is
      parsed first, and an unusable URL ends the request with 400. */
  lemma IdBeforeUrl(req: ProcessRequest, o: ProcessOutcomes)
    ensures Present(req.videoId) ==> forall u :: ParseUrl(u) !in ProcessVideo(req, o).calls
    ensures Present(req.videoId) && ProcessVideo(req, o).status == 200 ==>
              ProcessVideo(req, o).body.videoId == req.videoId.value
    ensures !Present(req.videoId) && Present(req.videoUrl) ==>
              ProcessVideo(req, o).calls[0] == ParseUrl(req.videoUrl.value)
              && (YouTube.ExtractVideoId(req.videoUrl) == None ==>
                    ProcessVideo(req, o) == Handled(400, ErrorBody("Invalid YouTube URL or video ID"), [ParseUrl(req.videoUrl.value)]))
  {
    var h := ProcessVideo(req, o);
    if Present(req.videoId) {
      assert RequestedId(req) == req.videoId;
      assert forall c :: c in h.calls ==> !c.ParseUrl?;
    }
  }

  /** A failed transcript or info fetch gives 404 with that fetch's message; neither
      chunking nor storage runs. */
  lemma FetchFailureIsNotFound(req: ProcessRequest, o: ProcessOutcomes)
    requires Present(RequestedId(req))
    requires YouTube.GetTranscript(o.transcriptLoad).Throws? || YouTube.GetVideoInfo(o.infoLoad).Throws?
    ensures var h := ProcessVideo(req, o);
            h.status == 404 && h.body.ErrorBody?
            && h.body.error in {YouTube.NoTranscriptForVideo, YouTube.NoTranscriptFound,
                                YouTube.TranscriptFetchFailed, YouTube.VideoInfoFetchFailed}
            && (forall c :: c in h.calls ==> !c.SplitText? && !c.CreateStore?)
    ensures var transcript, info := YouTube.GetTranscript(o.transcriptLoad), YouTube.GetVideoInfo(o.infoLoad);
            var h := ProcessVideo(req, o);
            && (transcript.Throws? && info.Returns? ==> h.body.error == transcript.message)
            && (transcript.Returns? && info.Throws? ==> h.body.error == YouTube.VideoInfoFetchFailed)
            && (transcript.Throws? && info.Throws? ==>
                  h.body.error == if o.infoRejectsFirst then YouTube.VideoInfoFetchFailed else transcript.message)
  {
  }

  /** An empty chunk list gives 500 and the store is never written. */
  lemma NoChunksNoStore(req: ProcessRequest, o: ProcessOutcomes)
    requires o.split == Returns([])
    ensures ProcessVideo(req, o).status != 200
    ensures forall c :: c in ProcessVideo(req, o).calls ==> !c.CreateStore?
    ensures Present(RequestedId(req)) && YouTube.GetTranscript(o.transcriptLoad).Returns?
            && YouTube.GetVideoInfo(o.infoLoad).Returns?
            ==> ProcessVideo(req, o).status == 500
  {
  }

  /** Success exactly when every collaborator succeeds; it reports the extracted id and
      the number of chunks handed to the store. */
  lemma ProcessSuccess(req: ProcessRequest, o: ProcessOutcomes)
    ensures ProcessVideo(req, o).status == 200 <==>
              (Present(req.videoId) || Present(req.videoUrl)) && Present(RequestedId(req))
              && YouTube.GetTranscript(o.transcriptLoad).Returns? && YouTube.GetVideoInfo(o.infoLoad).Returns?
              && o.split.Returns? && |o.split.value| > 0 && o.create.None?
    ensures ProcessVideo(req, o).status == 200 ==>
              ProcessVideo(req, o).body == ProcessedBody(RequestedId(req).value, |o.split.value|,
                                                         YouTube.GetVideoInfo(o.infoLoad).value)
  {
  }

  // ---------------------------------------------------------------------------
  // POST /chat

  datatype ChatRequest = ChatRequest(videoId: Option<string>, question: Option<string>, conversationId: Option<string>)

  /** What the collaborators of /chat settle to; `now` is `Date.now()`. */
  datatype ChatOutcomes = ChatOutcomes(exists_: Option<bool>, search: Remote<seq<VectorStore.Document>>,
                                       generate: Remote<string>, now: nat)

  const ChatQueryK := 3

  function Chat(req: ChatRequest, o: ChatOutcomes): (h: Handled)
    ensures h.status in {200, 400, 404, 500}
  {
    if !Present(req.videoId) || !Present(req.question) then
      Handled(400, ErrorBody("Video ID and question are required"), [])
    else
      var id, question := req.videoId.value, req.question.value;
      var checked := [CheckExists(id)];
      if !Truthy(o.exists_) then
        Handled(404, ErrorBody("Video not processed yet. Please process the video first."), checked)
      else
        var searched := checked + [Search(id, question, ChatQueryK)];
        match o.search
        case Throws(_) => Handled(500, ErrorBody("Failed to generate response"), searched)
        case Returns(docs) =>
          var generated := searched + [Generate(question, |docs|)];
          match o.generate
          case Throws(_) => Handled(500, ErrorBody("Failed to generate response"), generated)
          case Returns(answer) =>
            Handled(200, ChatBody(answer, |docs|, ConversationId(req.conversationId, o.now)), generated)
  }

  /** `conversationId || "conv_" + Date.now()`. */
  function ConversationId(given: Option<string>, now: nat): (id: string)
    ensures Present(given) ==> id == given.value
    ensures !Present(given) ==> StartsWith(id, "conv_") && AllDigits(id[5..]) && DecimalValue(id[5..]) == now
                                && |id| > 5 && (|id| == 6 || id[5] != '0')
  {
    if Present(given) then given.value
    else
      var id := "conv_" + DecimalString(now);
      assert id[5..] == DecimalString(now);
      id
  }

  /** Generated conversation ids differ whenever the timestamps differ. */
  lemma GeneratedConversationIdsDiffer(t1: nat, t2: nat)
    requires t1 != t2
    ensures ConversationId(None, t1) != ConversationId(None, t2)
  {
  }

  /** A missing id or question gives 400; an unprocessed video gives 404; in both
      cases neither the search nor the generator runs. */
  lemma ChatRejections(req: ChatRequest, o: ChatOutcomes)
    ensures !Present(req.videoId) || !Present(req.question) ==> Chat(req, o).status == 400 && Chat(req, o).calls == []
    ensures Present(req.videoId) && Present(req.question) && !Truthy(o.exists_) ==>
              Chat(req, o).status == 404 && Chat(req, o).calls == [CheckExists(req.videoId.value)]
    ensures Chat(req, o).status in {400, 404} ==>
              forall c :: c in Chat(req, o).calls ==> !c.Search? && !c.Generate?
  {
  }

  /** A successful chat reports as many sources as documents were retrieved, and echoes
      a given conversation id. */
  lemma ChatSuccess(req: ChatRequest, o: ChatOutcomes)
    ensures Chat(req, o).status == 200 <==>
              Present(req.videoId) && Present(req.question) && Truthy(o.exists_)
              && o.search.Returns? && o.generate.Returns?
    ensures Chat(req, o).status == 200 ==>
              Chat(req, o).body == ChatBody(o.generate.value, |o.search.value|, ConversationId(req.conversationId, o.now))
              && Chat(req, o).calls == [CheckExists(req.videoId.value), Search(req.videoId.value, req.question.value, 3),
                                        Generate(req.question.value, |o.search.value|)]
  {
  }

  // ---------------------------------------------------------------------------
  // GET /video-status/:videoId and DELETE /video/:videoId

  /** Always 200, reporting exactly what `vectorStoreExists` said. */
  function VideoStatus(videoId: string, exists_: Option<bool>, timestamp: string): (h: Handled)
    ensures h.status == 200 && h.body.StatusBody? && h.body.processed == exists_ && h.body.videoId == videoId
    ensures h.calls == [CheckExists(videoId)]
  {
    Handled(200, StatusBody(videoId, exists_, timestamp), [CheckExists(videoId)])
  }

  /** 200 once the delete completes, 500 when it throws. */
  function DeleteVideo(videoId: string, fault: Option<string>): (h: Handled)
    ensures h.status == 200 <==> fault.None?
    ensures h.status == 500 <==> fault.Some?
    ensures h.calls == [DeleteStore(videoId)]
  {
    if fault.Some? then Handled(500, ErrorBody("Failed to delete video data"), [DeleteStore(videoId)])
    else Handled(200, DeletedBody("Video data for " + videoId + " deleted successfully"), [DeleteStore(videoId)])
  }

  // ---------------------------------------------------------------------------
  // Decimal rendering of `Date.now()` in the generated conversation id

  function Digit(d: nat): (c: char)
    requires d < 10
    ensures '0' <= c <= '9' && (c as int) - ('0' as int) == d
  {
    ('0' as int + d) as char
  }

  predicate AllDigits(s: string)
  {
    forall i :: 0 <= i < |s| ==> '0' <= s[i] <= '9'
  }

  /** The number a string of decimal digits denotes. */
  function DecimalValue(s: string): nat
    requires AllDigits(s)
  {
    if s == [] then 0
    else 10 * DecimalValue(s[..|s| - 1]) + ((s[|s| - 1] as int) - ('0' as int))
  }

  /** A number in decimal, without leading zeros; `DecimalValue` reads it back. */
  function DecimalString(n: nat): (s: string)
    ensures |s| > 0 && AllDigits(s)
    ensures |s| == 1 || s[0] != '0'
    ensures DecimalValue(s) == n
  {
    if n < 10 then [Digit(n)]
    else
      var s := DecimalString(n / 10) + [Digit(n % 10)];
      assert s[..|s| - 1] == DecimalString(n / 10);
      s
  }

  // ---------------------------------------------------------------------------
  // The routes, driving the module-level vector-store service

  /** Every cached handle stands for a namespace that holds vectors. The service starts
      with an empty cache and only the routes change it, and each route keeps this. */
  ghost predicate CacheBacked(store: VectorStore.VectorStoreService)
    reads store
  {
    forall id :: id in store.vectorStores ==> store.index.Count(VectorStore.Namespace(id)) > 0
  }

  /** A chat about a video whose namespace holds no vectors never reaches the search or
      the generator: it is refused with 400 or 404, and with 404 once both fields are given. */
  lemma NoVectorsNoAnswer(store: VectorStore.VectorStoreService, req: ChatRequest, existsFault: Option<string>,
                          search: Remote<seq<VectorStore.Document>>, generate: Remote<string>, now: nat)
    requires CacheBacked(store)
    requires store.index.Count(VectorStore.Namespace(TextOf(req.videoId))) == 0
    ensures var h := Chat(req, ChatOutcomes(store.VectorStoreExists(TextOf(req.videoId), existsFault), search, generate, now));
            && h.status in {400, 404}
            && (Present(req.videoId) && Present(req.question) ==> h.status == 404)
            && forall c :: c in h.calls ==> !c.Search? && !c.Generate?
  {
    var id := TextOf(req.videoId);
    assert id !in store.vectorStores;
    assert !Truthy(store.VectorStoreExists(id, existsFault));
  }

  class ChatbotRouter {
    const vectorStore: VectorStore.VectorStoreService

    constructor (vectorStore: VectorStore.VectorStoreService)
      ensures this.vectorStore == vectorStore
    {
      this.vectorStore := vectorStore;
    }

    /** POST /process-video. The store is written exactly when the route answers 200. */
    method PostProcessVideo(req: ProcessRequest, o: ProcessOutcomes) returns (h: Handled)
      requires vectorStore.Valid()
      modifies vectorStore
      ensures vectorStore.Valid()
      ensures h == ProcessVideo(req, o)
      ensures h.status == 200 ==>
                var id := h.body.videoId;
                id in vectorStore.vectorStores && fresh(vectorStore.vectorStores[id])
                && vectorStore.vectorStores == old(vectorStore.vectorStores)[id := vectorStore.vectorStores[id]]
                && vectorStore.index == old(vectorStore.index).Upsert(VectorStore.Namespace(id), h.body.chunksCount)
      ensures h.status != 200 ==>
                vectorStore.vectorStores == old(vectorStore.vectorStores) && vectorStore.index == old(vectorStore.index)
      ensures old(CacheBacked(vectorStore)) ==> CacheBacked(vectorStore)
    {
      if !Present(req.videoId) && !Present(req.videoUrl) {
        return Handled(400, ErrorBody("Video ID or URL is required"), []);
      }
      var parsed := if Present(req.videoId) then [] else [ParseUrl(req.videoUrl.value)];
      var extracted := if Present(req.videoId) then req.videoId else YouTube.ExtractVideoId(req.videoUrl);
      if !Present(extracted) {
        return Handled(400, ErrorBody("Invalid YouTube URL or video ID"), parsed);
      }
      var id := extracted.value;
      var fetched := parsed + [FetchTranscript(id), FetchInfo(id)];
      var transcript := YouTube.GetTranscript(o.transcriptLoad);
      var info := YouTube.GetVideoInfo(o.infoLoad);
      if transcript.Throws? || info.Throws? {
        var message := if transcript.Throws? && (info.Returns? || !o.infoRejectsFirst)
                       then transcript.message else info.message;
        return Handled(404, ErrorBody(message), fetched);
      }
      var split := fetched + [SplitText(transcript.value)];
      if o.split.Throws? {
        return Handled(500, ErrorBody(OrElse(o.split.message, "Failed to process video")), split);
      }
      var chunks := o.split.value;
      if |chunks| == 0 {
        return Handled(500, ErrorBody("Failed to process transcript chunks"), split);
      }
      var all := split + [CreateStore(id, |chunks|)];
      var created := vectorStore.CreateVectorStore(chunks, id, o.create);
      if created.Throws? {
        return Handled(500, ErrorBody(OrElse(created.message, "Failed to process video")), all);
      }
      h := Handled(200, ProcessedBody(id, |chunks|, info.value), all);
      forall other | other in vectorStore.vectorStores && other != id
        ensures VectorStore.Namespace(other) != VectorStore.Namespace(id)
      {
        VectorStore.NamespaceRoundTrip(id, "");
      }
    }

    /** POST /chat. `existsFault` and `loadFault` are the hosted index's failures during the
        existence check and the handle load, `mmr` the search's outcome, `generated` the
        language model's. */
    method PostChat(req: ChatRequest, existsFault: Option<string>, loadFault: Option<string>,
                    mmr: Remote<seq<VectorStore.Document>>, generated: Remote<string>, now: nat)
      returns (h: Handled)
      requires vectorStore.Valid()
      modifies vectorStore
      ensures vectorStore.Valid() && vectorStore.index == old(vectorStore.index)
      ensures var id := TextOf(req.videoId);
              h == Chat(req, ChatOutcomes(old(vectorStore.VectorStoreExists(id, existsFault)),
                                          VectorStore.SearchOutcome(id in old(vectorStore.vectorStores), loadFault, mmr),
                                          generated, now))
      ensures forall id :: id in old(vectorStore.vectorStores) ==>
                id in vectorStore.vectorStores && vectorStore.vectorStores[id] == old(vectorStore.vectorStores)[id]
      ensures var id := TextOf(req.videoId);
              var searched := Search(id, TextOf(req.question), ChatQueryK) in h.calls;
              vectorStore.vectorStores.Keys == old(vectorStore.vectorStores).Keys + (if searched && loadFault.None? then {id} else {})
              && (id in vectorStore.vectorStores && id !in old(vectorStore.vectorStores) ==> fresh(vectorStore.vectorStores[id]))
      ensures old(CacheBacked(vectorStore)) ==> CacheBacked(vectorStore)
    {
      if !Present(req.videoId) || !Present(req.question) {
        return Handled(400, ErrorBody("Video ID and question are required"), []);
      }
      var id, question := req.videoId.value, req.question.value;
      var checked := [CheckExists(id)];
      var exists_ := vectorStore.VectorStoreExists(id, existsFault);
      if !Truthy(exists_) {
        return Handled(404, ErrorBody("Video not processed yet. Please process the video first."), checked);
      }
      var searched := checked + [Search(id, question, ChatQueryK)];
      var request, found := vectorStore.SimilaritySearch(id, question, ChatQueryK, loadFault, mmr);
      if found.Throws? {
        return Handled(500, ErrorBody("Failed to generate response"), searched);
      }
      var docs := found.value;
      var asked := searched + [Generate(question, |docs|)];
      if generated.Throws? {
        return Handled(500, ErrorBody("Failed to generate response"), asked);
      }
      h := Handled(200, ChatBody(generated.value, |docs|, ConversationId(req.conversationId, now)), asked);
    }

    /** GET /video-status/:videoId. */
    method GetVideoStatus(videoId: string, fault: Option<string>, timestamp: string) returns (h: Handled)
      requires vectorStore.Valid()
      ensures h == VideoStatus(videoId, vectorStore.VectorStoreExists(videoId, fault), timestamp)
    {
      var processed := vectorStore.VectorStoreExists(videoId, fault);
      h := Handled(200, StatusBody(videoId, processed, timestamp), [CheckExists(videoId)]);
    }

    /** DELETE /video/:videoId. */
    method DeleteVideoData(videoId: string, fault: Option<string>) returns (h: Handled)
      requires vectorStore.Valid()
      modifies vectorStore
      ensures vectorStore.Valid()
      ensures h == DeleteVideo(videoId, fault)
      ensures vectorStore.vectorStores == old(vectorStore.vectorStores) - {videoId}
      ensures vectorStore.index == if fault.Some? then old(vectorStore.index)
                                   else old(vectorStore.index).Drop(VectorStore.Namespace(videoId))
      ensures old(CacheBacked(vectorStore)) ==> CacheBacked(vectorStore)
    {
      var thrown := vectorStore.DeleteVectorStore(videoId, fault);
      forall other | other in vectorStore.vectorStores
        ensures VectorStore.Namespace(other) != VectorStore.Namespace(videoId)
      {
        VectorStore.NamespaceRoundTrip(videoId, "");
      }
      if thrown.Some? {
        return Handled(500, ErrorBody("Failed to delete video data"), [DeleteStore(videoId)]);
      }
      h := Handled(200, DeletedBody("Video data for " + videoId + " deleted successfully"), [DeleteStore(videoId)]);
    }
  }

  /** A completed delete is followed by a status that reports the video as not processed. */
  method DeleteThenStatus(router: ChatbotRouter, videoId: string, statusFault: Option<string>, timestamp: string)
    returns (deleted: Handled, status: Handled)
    requires router.vectorStore.Valid()
    modifies router.vectorStore
    ensures deleted.status == 200 && status.status == 200
    ensures status.body.StatusBody? && !Truthy(status.body.processed)
  {
    deleted := router.DeleteVideoData(videoId, None);
    status := router.GetVideoStatus(videoId, statusFault, timestamp);
  }

  /** After a successful process, the status of the same id reports it as processed,
      whatever the index would say, because the handle is cached. */
  method ProcessThenStatus(router: ChatbotRouter, req: ProcessRequest, o: ProcessOutcomes,
                           statusFault: Option<string>, timestamp: string)
    returns (processed: Handled, status: Handled)
    requires router.vectorStore.Valid()
    modifies router.vectorStore
    ensures processed.status == 200 ==> status.body.StatusBody? && status.body.processed == Some(true)
  {
    processed := router.PostProcessVideo(req, o);
    var id := if processed.status == 200 then processed.body.videoId else "";
    status := router.GetVideoStatus(id, statusFault, timestamp);
  }
}
