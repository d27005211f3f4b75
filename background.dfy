/** The extension's background worker: it receives typed messages from the
    content script and the popup, keeps the video it last heard about, talks to
    the backend, and records processing status and chat history in the
    extension's local key-value storage. What the backend answers (or the
    error `fetch` rejects with) is an input, as are the clock and the failures
    of the storage area. */
module Background {
  import opened Common

  /** `currentVideoData`, also persisted under `currentVideo` and, for a chat
      request, under `chatRequest`. */
  datatype VideoData = VideoData(videoId: string, metadata: Metadata, timestamp: nat)

  /** The record kept under `processed_<id>`. */
  datatype ProcessingRecord =
    | Completed(timestamp: nat, chunksCount: Option<int>)
    | Failed(timestamp: nat, error: string)

  /** One entry of the list kept under `chat_<id>`. */
  datatype ChatEntry =
    | UserEntry(message: string, timestamp: nat)
    | AssistantEntry(response: Option<string>, timestamp: nat, sources: Option<int>)

  /** The values the worker keeps in local storage, one form per kind of key. */
  datatype Stored =
    | CurrentVideo(video: VideoData)
    | Processed(record: ProcessingRecord)
    | ChatLog(entries: seq<ChatEntry>)
    | ChatRequest(request: VideoData)

  const CurrentVideoKey := "currentVideo"
  const ChatRequestKey := "chatRequest"
  const ProcessedPrefix := "processed_"
  const ChatPrefix := "chat_"

  function ProcessedKey(videoId: string): (key: string)
    ensures StartsWith(key, ProcessedPrefix) && key[|ProcessedPrefix|..] == videoId
  {
    ProcessedPrefix + videoId
  }

  function ChatKey(videoId: string): (key: string)
    ensures StartsWith(key, ChatPrefix) && key[|ChatPrefix|..] == videoId
  {
    ChatPrefix + videoId
  }

  /** Each kind of key holds its own form of value. */
  predicate WellTyped(key: string, v: Stored)
  {
    && (key == CurrentVideoKey ==> v.CurrentVideo?)
    && (key == ChatRequestKey ==> v.ChatRequest?)
    && (StartsWith(key, ProcessedPrefix) ==> v.Processed?)
    && (StartsWith(key, ChatPrefix) ==> v.ChatLog?)
  }

  /** The four kinds of key never collide: a chat key is no other kind of key, and
      different videos have different chat and status keys. */
  lemma KeysDistinct(a: string, b: string)
    ensures ChatKey(a) != ProcessedKey(b)
    ensures ChatKey(a) != CurrentVideoKey && ChatKey(a) != ChatRequestKey
    ensures ProcessedKey(a) != CurrentVideoKey && ProcessedKey(a) != ChatRequestKey
    ensures ChatKey(a) == ChatKey(b) ==> a == b
    ensures ProcessedKey(a) == ProcessedKey(b) ==> a == b
    ensures !StartsWith(ChatKey(a), ProcessedPrefix) && !StartsWith(ProcessedKey(a), ChatPrefix)
  {
    assert ChatKey(a)[0] != ProcessedKey(b)[0];
    assert ChatKey(a)[4] != ChatRequestKey[4];
    assert ChatKey(a)[1] != CurrentVideoKey[1];
    assert ProcessedKey(a)[0] != CurrentVideoKey[0];
    assert ProcessedKey(a)[0] != ChatRequestKey[0];
  }

  /** The fixed keys hold what they should. */
  lemma FixedKeysWellTyped(video: VideoData)
    ensures WellTyped(CurrentVideoKey, CurrentVideo(video))
    ensures WellTyped(ChatRequestKey, ChatRequest(video))
  {
    assert CurrentVideoKey[0] != ProcessedPrefix[0] && CurrentVideoKey[1] != ChatPrefix[1];
    assert ChatRequestKey[0] != ProcessedPrefix[0] && ChatRequestKey[4] != ChatPrefix[4];
  }

  /** The JSON body of a backend reply, together with `response.ok`. */
  datatype BackendReply = BackendReply(ok: bool, error: Option<string>, chunksCount: Option<int>,
                                       response: Option<string>, sources: Option<int>,
                                       processed: Option<bool>)

  /** What `sendResponse` is called with. */
  datatype Reply =
    | Ack                                                     // { success: true }
    | Failure(error: string)                                  // { success: false, error }
    | VideoProcessed(data: BackendReply)                      // { success: true, message, data }
    | ChatAnswered(response: Option<string>, sources: Option<int>)
    | StatusChecked(processed: Option<bool>)
    | CurrentVideoReply(videoData: Option<VideoData>)

  predicate Succeeded(r: Reply)
  {
    !r.Failure?
  }

  /** The message types the worker understands. */
  const VideoChangedKind := "VIDEO_CHANGED"
  const ProcessVideoKind := "PROCESS_VIDEO"
  const SendChatMessageKind := "SEND_CHAT_MESSAGE"
  const CheckVideoStatusKind := "CHECK_VIDEO_STATUS"
  const OpenChatKind := "OPEN_CHAT"
  const GetCurrentVideoKind := "GET_CURRENT_VIDEO"
  const Kinds := {VideoChangedKind, ProcessVideoKind, SendChatMessageKind, CheckVideoStatusKind,
                  OpenChatKind, GetCurrentVideoKind}

  const UnknownMessageType := "Unknown message type"

  datatype Message = Message(kind: string, videoId: string, message: string, metadata: Metadata)

  /** What the world does while one message is handled: the clock, what the backend
      request settles to, whether reading local storage fails, and the message every
      write to local storage rejects with, if it does. */
  datatype Env = Env(now: nat, fetched: Remote<BackendReply>, readFails: bool, writeFault: Option<string>)

  /** The error a backend request ends in, if any: the rejection of `fetch`, or
      `new Error(result.error || fallback)` for a reply that is not ok. */
  function RequestError(fetched: Remote<BackendReply>, fallback: string): (e: Option<string>)
    ensures e.None? <==> fetched.Returns? && fetched.value.ok
    ensures fetched.Throws? ==> e == Some(fetched.message)
    ensures fetched.Returns? && Present(fetched.value.error) && !fetched.value.ok ==> e == fetched.value.error
    ensures fetched.Returns? && !Present(fetched.value.error) && !fetched.value.ok ==> e == Some(fallback)
  {
    match fetched
    case Throws(m) => Some(m)
    case Returns(result) =>
      if result.ok then None else Some(OrElse(TextOf(result.error), fallback))
  }

  /** The record `processVideo` writes when local storage accepts it. */
  function ProcessRecord(fetched: Remote<BackendReply>, now: nat): (rec: ProcessingRecord)
    ensures rec.timestamp == now
    ensures rec.Completed? <==> fetched.Returns? && fetched.value.ok
    ensures rec.Completed? ==> rec.chunksCount == fetched.value.chunksCount
  {
    match RequestError(fetched, "Failed to process video")
    case None => Completed(now, fetched.value.chunksCount)
    case Some(e) => Failed(now, e)
  }

  /** What `processVideo` settles to. When local storage rejects, the failure is
      caught, the failure record cannot be written either, and that rejection
      escapes. */
  function ProcessOutcome(fetched: Remote<BackendReply>, writeFault: Option<string>): (r: Remote<Reply>)
    ensures writeFault.Some? ==> r == Throws(writeFault.value)
    ensures writeFault.None? ==> r.Returns?
    ensures r.Returns? && Succeeded(r.value) <==> writeFault.None? && fetched.Returns? && fetched.value.ok
    ensures r.Returns? && Succeeded(r.value) ==> r.value == VideoProcessed(fetched.value)
  {
    if writeFault.Some? then Throws(writeFault.value)
    else
      match RequestError(fetched, "Failed to process video")
      case None => Returns(VideoProcessed(fetched.value))
      case Some(e) => Returns(Failure(e))
  }

  /** The status record and the reply tell the same story: completed exactly when
      the reply succeeds, and a failed record carries the reply's error. */
  lemma ProcessRecordMatchesReply(fetched: Remote<BackendReply>, now: nat)
    ensures var rec, r := ProcessRecord(fetched, now), ProcessOutcome(fetched, None).value;
            (rec.Completed? <==> Succeeded(r))
            && (rec.Failed? ==> r == Failure(rec.error))
  {
  }

  /** What `sendChatMessage` answers. */
  function ChatReply(fetched: Remote<BackendReply>): (r: Reply)
    ensures Succeeded(r) <==> fetched.Returns? && fetched.value.ok
    ensures Succeeded(r) ==> r == ChatAnswered(fetched.value.response, fetched.value.sources)
    ensures !Succeeded(r) ==> Some(r.error) == RequestError(fetched, "Failed to send message")
  {
    match RequestError(fetched, "Failed to send message")
    case None => ChatAnswered(fetched.value.response, fetched.value.sources)
    case Some(e) => Failure(e)
  }

  /** `checkVideoStatus`: the backend's flag copied on an ok reply. */
  function CheckVideoStatus(fetched: Remote<BackendReply>): (r: Reply)
    ensures Succeeded(r) <==> fetched.Returns? && fetched.value.ok
    ensures Succeeded(r) ==> r == StatusChecked(fetched.value.processed)
    ensures !Succeeded(r) ==> Some(r.error) == RequestError(fetched, "Failed to check video status")
  {
    match RequestError(fetched, "Failed to check video status")
    case None => StatusChecked(fetched.value.processed)
    case Some(e) => Failure(e)
  }

  /** The two entries a successful exchange appends: the question, then the answer. */
  function Exchange(message: string, response: Option<string>, sources: Option<int>, now: nat): (entries: seq<ChatEntry>)
    ensures |entries| == 2
    ensures entries[0].UserEntry? && entries[0].message == message
    ensures entries[1].AssistantEntry? && entries[1].response == response && entries[1].sources == sources
  {
    [UserEntry(message, now), AssistantEntry(response, now, sources)]
  }

  /** The reply `handleMessage` sends for what a handler settles to: a rejection
      becomes `{ success: false, error: message }`. */
  function Settled(r: Remote<Reply>): (reply: Reply)
    ensures r.Throws? ==> reply == Failure(r.message)
    ensures r.Returns? ==> reply == r.value
  {
    match r
    case Returns(v) => v
    case Throws(m) => Failure(m)
  }

  /** The acknowledgement of a handler whose only effect is one storage write. */
  function Acknowledged(writeFault: Option<string>): (reply: Reply)
    ensures Succeeded(reply) <==> writeFault.None?
    ensures Succeeded(reply) ==> reply == Ack
    ensures !Succeeded(reply) ==> reply.error == writeFault.value
  {
    if writeFault.Some? then Failure(writeFault.value) else Ack
  }

  class YouTubeChatbotBackground {
    var currentVideoData: Option<VideoData>
    /** `chrome.storage.local`. */
    var storage: map<string, Stored>

    ghost predicate Valid()
      reads this
    {
      forall key | key in storage :: WellTyped(key, storage[key])
    }

    /** A new worker has heard of no video; local storage persists from earlier runs. */
    constructor (storage: map<string, Stored>)
      requires forall key | key in storage :: WellTyped(key, storage[key])
      ensures Valid() && currentVideoData == None && this.storage == storage
    {
      currentVideoData := None;
      this.storage := storage;
    }

    /** `chrome.storage.local.set` of one key, rejecting with `writeFault` if it fails. */
    method Set(key: string, value: Stored, writeFault: Option<string>) returns (thrown: Option<string>)
      requires Valid() && WellTyped(key, value)
      modifies this
      ensures Valid() && currentVideoData == old(currentVideoData)
      ensures thrown == writeFault
      ensures storage == if writeFault.None? then old(storage)[key := value] else old(storage)
    {
      if writeFault.Some? {
        return writeFault;
      }
      storage := storage[key := value];
      thrown := None;
    }

    /** `getChatHistory`: the stored list, or `[]` when it is absent or reading fails. */
    function GetChatHistory(videoId: string, readFails: bool): (history: seq<ChatEntry>)
      reads this
      requires Valid()
      ensures readFails || ChatKey(videoId) !in storage ==> history == []
      ensures !readFails && ChatKey(videoId) in storage ==> storage[ChatKey(videoId)] == ChatLog(history)
    {
      var key := ChatKey(videoId);
      if readFails || key !in storage then [] else storage[key].entries
    }

    /** `saveChatHistory`: a rejected write is swallowed. A saved list reads back as saved. */
    method SaveChatHistory(videoId: string, history: seq<ChatEntry>, writeFault: Option<string>)
      requires Valid()
      modifies this
      ensures Valid() && currentVideoData == old(currentVideoData)
      ensures storage == if writeFault.None? then old(storage)[ChatKey(videoId) := ChatLog(history)] else old(storage)
      ensures writeFault.None? ==> GetChatHistory(videoId, false) == history
    {
      KeysDistinct(videoId, videoId);
      var _ := Set(ChatKey(videoId), ChatLog(history), writeFault);
    }

    /** `clearChatHistory`: removes the video's chat key and nothing else; a rejected
        removal is swallowed. */
    method ClearChatHistory(videoId: string, removeFault: Option<string>)
      requires Valid()
      modifies this
      ensures Valid() && currentVideoData == old(currentVideoData)
      ensures storage == if removeFault.None? then old(storage) - {ChatKey(videoId)} else old(storage)
      ensures removeFault.None? ==> GetChatHistory(videoId, false) == []
    {
      if removeFault.None? {
        storage := storage - {ChatKey(videoId)};
      }
    }

    /** `handleVideoChanged`: the field is set before the write, so it stands even when
        the write rejects. */
    method HandleVideoChanged(msg: Message, now: nat, writeFault: Option<string>) returns (thrown: Option<string>)
      requires Valid()
      modifies this
      ensures Valid()
      ensures currentVideoData == Some(VideoData(msg.videoId, msg.metadata, now))
      ensures thrown == writeFault
      ensures storage == if writeFault.None? then old(storage)[CurrentVideoKey := CurrentVideo(currentVideoData.value)]
                         else old(storage)
    {
      currentVideoData := Some(VideoData(msg.videoId, msg.metadata, now));
      FixedKeysWellTyped(currentVideoData.value);
      thrown := Set(CurrentVideoKey, CurrentVideo(currentVideoData.value), writeFault);
    }

    /** `processVideo`: ask the backend, then record the outcome under `processed_<id>`. */
    method ProcessVideo(videoId: string, fetched: Remote<BackendReply>, now: nat, writeFault: Option<string>)
      returns (r: Remote<Reply>)
      requires Valid()
      modifies this
      ensures Valid() && currentVideoData == old(currentVideoData)
      ensures r == ProcessOutcome(fetched, writeFault)
      ensures storage == if writeFault.None? then old(storage)[ProcessedKey(videoId) := Processed(ProcessRecord(fetched, now))]
                         else old(storage)
    {
      KeysDistinct(videoId, videoId);
      var error: string;
      var failure := RequestError(fetched, "Failed to process video");
      if failure.None? {
        var result := fetched.value;
        var thrown := Set(ProcessedKey(videoId), Processed(Completed(now, result.chunksCount)), writeFault);
        if thrown.None? {
          return Returns(VideoProcessed(result));
        }
        error := thrown.value;
      } else {
        error := failure.value;
      }
      var thrown := Set(ProcessedKey(videoId), Processed(Failed(now, error)), writeFault);
      if thrown.Some? {
        return Throws(thrown.value);
      }
      r := Returns(Failure(error));
    }

    /** `sendChatMessage`: on an ok reply, read the history, push the question and the
        answer, and save it. A failed request leaves storage alone. */
    method SendChatMessage(videoId: string, message: string, fetched: Remote<BackendReply>, now: nat,
                           readFails: bool, writeFault: Option<string>)
      returns (reply: Reply)
      requires Valid()
      modifies this
      ensures Valid() && currentVideoData == old(currentVideoData)
      ensures reply == ChatReply(fetched)
      ensures storage == if Succeeded(reply) && writeFault.None?
                         then old(storage)[ChatKey(videoId) := ChatLog(old(GetChatHistory(videoId, readFails))
                                                                       + Exchange(message, reply.response, reply.sources, now))]
                         else old(storage)
    {
      var failure := RequestError(fetched, "Failed to send message");
      if failure.Some? {
        return Failure(failure.value);
      }
      var result := fetched.value;
      var chatHistory := GetChatHistory(videoId, readFails);
      chatHistory := chatHistory + [UserEntry(message, now), AssistantEntry(result.response, now, result.sources)];
      SaveChatHistory(videoId, chatHistory, writeFault);
      reply := ChatAnswered(result.response, result.sources);
    }

    /** `openChatWindow`: remember the chat request. */
    method OpenChatWindow(msg: Message, now: nat, writeFault: Option<string>) returns (thrown: Option<string>)
      requires Valid()
      modifies this
      ensures Valid() && currentVideoData == old(currentVideoData)
      ensures thrown == writeFault
      ensures storage == if writeFault.None? then old(storage)[ChatRequestKey := ChatRequest(VideoData(msg.videoId, msg.metadata, now))]
                         else old(storage)
    {
      var request := VideoData(msg.videoId, msg.metadata, now);
      FixedKeysWellTyped(request);
      thrown := Set(ChatRequestKey, ChatRequest(request), writeFault);
    }

    /** `handleMessage`: exactly one reply per message, chosen by its type; a rejection
        inside a handler becomes a failure reply. */
    method HandleMessage(msg: Message, env: Env) returns (reply: Reply)
      requires Valid()
      modifies this
      ensures Valid()
      ensures msg.kind !in Kinds ==> reply == Failure(UnknownMessageType)
      ensures msg.kind == GetCurrentVideoKind ==> reply == CurrentVideoReply(old(currentVideoData))
      ensures msg.kind == CheckVideoStatusKind ==> reply == CheckVideoStatus(env.fetched)
      ensures msg.kind == VideoChangedKind ==>
                reply == Acknowledged(env.writeFault)
                && currentVideoData == Some(VideoData(msg.videoId, msg.metadata, env.now))
                && storage == if env.writeFault.None? then old(storage)[CurrentVideoKey := CurrentVideo(currentVideoData.value)]
                              else old(storage)
      ensures msg.kind != VideoChangedKind ==> currentVideoData == old(currentVideoData)
      ensures msg.kind == ProcessVideoKind ==>
                reply == Settled(ProcessOutcome(env.fetched, env.writeFault))
                && storage == if env.writeFault.None?
                              then old(storage)[ProcessedKey(msg.videoId) := Processed(ProcessRecord(env.fetched, env.now))]
                              else old(storage)
      ensures msg.kind == SendChatMessageKind ==>
                reply == ChatReply(env.fetched)
                && storage == if Succeeded(reply) && env.writeFault.None?
                              then old(storage)[ChatKey(msg.videoId) := ChatLog(old(GetChatHistory(msg.videoId, env.readFails))
                                                                              + Exchange(msg.message, reply.response, reply.sources, env.now))]
                              else old(storage)
      ensures msg.kind == OpenChatKind ==>
                reply == Acknowledged(env.writeFault)
                && storage == if env.writeFault.None?
                              then old(storage)[ChatRequestKey := ChatRequest(VideoData(msg.videoId, msg.metadata, env.now))]
                              else old(storage)
      ensures msg.kind in {GetCurrentVideoKind, CheckVideoStatusKind} || msg.kind !in Kinds ==> storage == old(storage)
    {
      match msg.kind
      case "VIDEO_CHANGED" =>
        var thrown := HandleVideoChanged(msg, env.now, env.writeFault);
        reply := if thrown.Some? then Failure(thrown.value) else Ack;
      case "PROCESS_VIDEO" =>
        var processResult := ProcessVideo(msg.videoId, env.fetched, env.now, env.writeFault);
        reply := Settled(processResult);
      case "SEND_CHAT_MESSAGE" =>
        reply := SendChatMessage(msg.videoId, msg.message, env.fetched, env.now, env.readFails, env.writeFault);
      case "CHECK_VIDEO_STATUS" =>
        reply := CheckVideoStatus(env.fetched);
      case "OPEN_CHAT" =>
        var thrown := OpenChatWindow(msg, env.now, env.writeFault);
        reply := if thrown.Some? then Failure(thrown.value) else Ack;
      case "GET_CURRENT_VIDEO" =>
        reply := CurrentVideoReply(currentVideoData);
      case _ =>
        reply := Failure(UnknownMessageType);
    }
  }

  /** Two successful exchanges about one video, with storage readable and writable,
      leave the earlier history followed by both exchanges, in order. */
  method ChatTwice(worker: YouTubeChatbotBackground, videoId: string, first: string, second: string,
                   a: BackendReply, b: BackendReply, now: nat, later: nat)
    returns (r1: Reply, r2: Reply)
    requires worker.Valid() && a.ok && b.ok
    modifies worker
    ensures worker.Valid() && Succeeded(r1) && Succeeded(r2)
    ensures worker.GetChatHistory(videoId, false)
            == old(worker.GetChatHistory(videoId, false))
               + Exchange(first, a.response, a.sources, now) + Exchange(second, b.response, b.sources, later)
  {
    r1 := worker.SendChatMessage(videoId, first, Returns(a), now, false, None);
    r2 := worker.SendChatMessage(videoId, second, Returns(b), later, false, None);
  }

  /** A message with an unknown type is answered and changes nothing. */
  method UnknownMessageChangesNothing(worker: YouTubeChatbotBackground, msg: Message, env: Env)
    returns (reply: Reply)
    requires worker.Valid() && msg.kind !in Kinds
    modifies worker
    ensures reply == Failure(UnknownMessageType)
    ensures worker.storage == old(worker.storage) && worker.currentVideoData == old(worker.currentVideoData)
  {
    reply := worker.HandleMessage(msg, env);
  }
}
