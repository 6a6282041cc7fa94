/**
 * The chat page's message list, `src/pages/Chat/index.jsx`. `handleSend`
 * checks that a knowledge base is chosen and the question is not blank,
 * appends the question and an empty assistant placeholder, sends the last
 * ten earlier messages as history, and then lets the stream's callbacks
 * write the growing answer, or an apology, into the placeholder's slot.
 *
 * The stream itself is `StreamReader`: its event log is replayed here through
 * the page's three callbacks.
 */
module ChatPage {
  import opened Strings
  import opened JsValue
  import opened Foreign
  import opened Wrappers
  import StreamReader

  /** How many earlier messages travel with a question. */
  const HistoryWindow: nat := 10
  const ApologyText: string := "抱歉，发生了错误，请稍后重试。"
  const NoKbWarning: string := "请先选择知识库"
  const BlankQuestionWarning: string := "请输入问题"

  datatype Role = User | Assistant

  /** A message of the list; a missing `loading` or `error` flag is `false`. */
  datatype ChatMessage = ChatMessage(role: Role, content: string, loading: bool, error: bool)

  /** A history entry: only the role and the content travel. */
  datatype Turn = Turn(role: Role, content: string)

  /** The body of the chat request. */
  datatype ChatRequest = ChatRequest(kbId: Value, message: string, history: seq<Turn>)

  const Placeholder: ChatMessage := ChatMessage(Assistant, "", true, false)
  const Apology: ChatMessage := ChatMessage(Assistant, ApologyText, false, true)

  function Question(text: string): ChatMessage {
    ChatMessage(User, text, false, false)
  }

  function Streamed(text: string): ChatMessage {
    ChatMessage(Assistant, text, false, false)
  }

  /**
   * The page's callbacks as the reader sees them: `onMessage` throws on a
   * `null` or `undefined` fragment (it reads `data.content` first), and
   * `onComplete` never throws.
   */
  function ChatHandlers(): (h: StreamReader.Handlers)
    ensures !h.completeThrows
    ensures forall v :: h.messageThrows(v) <==> v.Null? || v.Undefined?
  {
    StreamReader.Handlers((v: Value) => v.Null? || v.Undefined?, false)
  }

  /** `data.content || data.text || ''`, as `+=` appends it. */
  function FragmentText(data: Value): (t: string)
    ensures Truthy(Get(data, "content")) ==> t == ToJsString(Get(data, "content"))
    ensures !Truthy(Get(data, "content")) && Truthy(Get(data, "text")) ==> t == ToJsString(Get(data, "text"))
    ensures !Truthy(Get(data, "content")) && !Truthy(Get(data, "text")) ==> t == ""
  {
    ToJsString(Or(Or(Get(data, "content"), Get(data, "text")), Str("")))
  }

  /** `messages.slice(-10).map(({role, content}) => ({role, content}))`. */
  function History(messages: seq<ChatMessage>): (h: seq<Turn>)
    ensures |h| == if |messages| < HistoryWindow then |messages| else HistoryWindow
    ensures forall k :: 0 <= k < |h| ==>
      h[k] == Turn(messages[|messages| - |h| + k].role, messages[|messages| - |h| + k].content)
  {
    var start := if |messages| < HistoryWindow then 0 else |messages| - HistoryWindow;
    seq(|messages| - start, k requires 0 <= k < |messages| - start =>
      Turn(messages[start + k].role, messages[start + k].content))
  }

  // ---------------------------------------------------------------------------
  // Replaying the stream's callbacks

  /** What the callbacks touch: the list, the accumulated answer, and the busy flags. */
  datatype Screen = Screen(messages: seq<ChatMessage>, fullContent: string, busy: bool)

  /** A fragment `onMessage` gets through without throwing. */
  predicate Delivered(e: StreamReader.Event) {
    e.Message? && !e.fragment.Null? && !e.fragment.Undefined?
  }

  /** One callback's effect on the screen; `slot` is the placeholder's index. */
  function OnEvent(s: Screen, e: StreamReader.Event, slot: nat): (t: Screen)
    requires slot < |s.messages|
    ensures |t.messages| == |s.messages|
  {
    match e
    case Message(data) =>
      if !Delivered(e) then s
      else
        var full := s.fullContent + FragmentText(data);
        s.(fullContent := full, messages := s.messages[slot := Streamed(full)])
    case Complete => s.(busy := false)
    case Error(_) => s.(messages := s.messages[slot := Apology])
  }

  /** The callbacks of a log, in order. */
  function Replay(s: Screen, events: seq<StreamReader.Event>, slot: nat): (t: Screen)
    requires slot < |s.messages|
    ensures |t.messages| == |s.messages|
    decreases |events|
  {
    if events == [] then s
    else OnEvent(Replay(s, events[..|events| - 1], slot), events[|events| - 1], slot)
  }

  /** The text the delivered fragments add up to. */
  function Accumulated(events: seq<StreamReader.Event>): string
    decreases |events|
  {
    if events == [] then ""
    else
      var e := events[|events| - 1];
      Accumulated(events[..|events| - 1]) + (if Delivered(e) then FragmentText(e.fragment) else "")
  }

  predicate AnyDelivered(events: seq<StreamReader.Event>)
    decreases |events|
  {
    events != [] && (Delivered(events[|events| - 1]) || AnyDelivered(events[..|events| - 1]))
  }

  predicate NoError(events: seq<StreamReader.Event>) {
    forall k :: 0 <= k < |events| ==> !events[k].Error?
  }

  /** The callbacks write only the placeholder's slot. */
  lemma {:induction false} ReplayFrame(s: Screen, events: seq<StreamReader.Event>, slot: nat)
    requires slot < |s.messages|
    ensures forall j :: 0 <= j < |s.messages| && j != slot ==> Replay(s, events, slot).messages[j] == s.messages[j]
    decreases |events|
  {
    if events != [] {
      ReplayFrame(s, events[..|events| - 1], slot);
    }
  }

  /** `fullContent` is the fragments' texts, appended in order. */
  lemma {:induction false} ReplayAccumulates(s: Screen, events: seq<StreamReader.Event>, slot: nat)
    requires slot < |s.messages|
    ensures Replay(s, events, slot).fullContent == s.fullContent + Accumulated(events)
    decreases |events|
  {
    if events != [] {
      ReplayAccumulates(s, events[..|events| - 1], slot);
    }
  }

  /** One more callback. */
  lemma ReplayNext(s: Screen, log: seq<StreamReader.Event>, i: nat, slot: nat)
    requires slot < |s.messages| && i < |log|
    ensures Replay(s, log[..i + 1], slot) == OnEvent(Replay(s, log[..i], slot), log[i], slot)
  {
    assert log[..i + 1][..i] == log[..i];
  }

  /** The slot ends with the apology when `onError` came last. */
  lemma ReplayEndsInError(s: Screen, events: seq<StreamReader.Event>, slot: nat)
    requires slot < |s.messages|
    requires events != [] && events[|events| - 1].Error?
    ensures Replay(s, events, slot).messages[slot] == Apology
  {
    var prev := Replay(s, events[..|events| - 1], slot);
    assert Replay(s, events, slot) == OnEvent(prev, events[|events| - 1], slot);
  }

  /**
   * Without any error, the slot holds the whole accumulated answer once a
   * fragment got through, and is untouched before that.
   */
  lemma {:induction false} ReplayWithoutError(s: Screen, events: seq<StreamReader.Event>, slot: nat)
    requires slot < |s.messages|
    requires NoError(events)
    ensures AnyDelivered(events) ==>
      Replay(s, events, slot).messages[slot] == Streamed(s.fullContent + Accumulated(events))
    ensures !AnyDelivered(events) ==> Replay(s, events, slot).messages[slot] == s.messages[slot]
    decreases |events|
  {
    if events != [] {
      var init := events[..|events| - 1];
      var e := events[|events| - 1];
      forall k | 0 <= k < |init| ensures !init[k].Error? {
        assert init[k] == events[k];
      }
      ReplayWithoutError(s, init, slot);
      ReplayAccumulates(s, init, slot);
      var prev := Replay(s, init, slot);
      assert Replay(s, events, slot) == OnEvent(prev, e, slot);
      assert AnyDelivered(events) == (Delivered(e) || AnyDelivered(init));
      assert Accumulated(events) == Accumulated(init) + (if Delivered(e) then FragmentText(e.fragment) else "");
    }
  }

  /**
   * Whatever the transport does, once the reader settles the slot shows the
   * apology when the log ends in an error, and otherwise the accumulated
   * answer, or the placeholder when no fragment got through.
   */
  lemma SendSettles(start: Screen, resp: StreamReader.Response, host: Host, slot: nat)
    requires slot < |start.messages|
    ensures var log := StreamReader.Run(resp, host, ChatHandlers());
      var shown := Replay(start, log, slot).messages[slot];
      && |log| >= 1
      && (log[|log| - 1].Error? ==> shown == Apology)
      && (log[|log| - 1] == StreamReader.Complete && AnyDelivered(log) ==>
            shown == Streamed(start.fullContent + Accumulated(log)))
      && (log[|log| - 1] == StreamReader.Complete && !AnyDelivered(log) ==> shown == start.messages[slot])
  {
    var log := StreamReader.Run(resp, host, ChatHandlers());
    StreamReader.ExactlyOneOutcome(resp, host, ChatHandlers());
    if log[|log| - 1].Error? {
      ReplayEndsInError(start, log, slot);
    }
    if log[|log| - 1] == StreamReader.Complete {
      assert NoError(log) by {
        forall k | 0 <= k < |log| ensures !log[k].Error? {
          if k < |log| - 1 {
            assert log[k] == log[..|log| - 1][k];
          }
        }
      }
      ReplayWithoutError(start, log, slot);
    }
  }

  /** A refused or failed request leaves the apology in the slot. */
  lemma FailedRequestApologises(start: Screen, chunks: seq<seq<Byte>>, end: StreamReader.StreamEnd, reason: string, host: Host, slot: nat)
    requires slot < |start.messages|
    ensures Replay(start, StreamReader.Run(StreamReader.Received(false, chunks, end), host, ChatHandlers()), slot).messages[slot] == Apology
    ensures Replay(start, StreamReader.Run(StreamReader.FetchFailed(reason), host, ChatHandlers()), slot).messages[slot] == Apology
  {
    ReplayEndsInError(start, [StreamReader.Error(StreamReader.HttpNotOk)], slot);
    ReplayEndsInError(start, [StreamReader.Error(StreamReader.Transport(reason))], slot);
  }

  /**
   * The list after a send: the question and the placeholder appended, then
   * the stream's callbacks replayed into the placeholder's slot.
   */
  function Sent(messages: seq<ChatMessage>, question: string, log: seq<StreamReader.Event>): seq<ChatMessage> {
    Replay(Screen(messages + [Question(question), Placeholder], "", true), log, |messages| + 1).messages
  }

  /** A send keeps the earlier messages in their places and adds exactly the question and the answer's slot. */
  lemma SendAppends(messages: seq<ChatMessage>, question: string, log: seq<StreamReader.Event>)
    ensures var after := Sent(messages, question, log);
      && |after| == |messages| + 2
      && after[..|messages|] == messages
      && after[|messages|] == Question(question)
  {
    var start := Screen(messages + [Question(question), Placeholder], "", true);
    var after := Sent(messages, question, log);
    ReplayFrame(start, log, |messages| + 1);
    assert forall j :: 0 <= j < |messages| ==> after[j] == start.messages[j] == messages[j];
    assert after[..|messages|] == messages;
    assert after[|messages|] == start.messages[|messages|];
  }

  // ---------------------------------------------------------------------------
  // The page

  class Page {
    var selectedKb: Value
    var inputMessage: string
    var messages: seq<ChatMessage>
    var loading: bool
    var streaming: bool

    constructor ()
      ensures selectedKb == Null && inputMessage == "" && messages == [] && !loading && !streaming
    {
      selectedKb := Null;
      inputMessage := "";
      messages := [];
      loading := false;
      streaming := false;
    }

    /**
     * `handleSend()`, with the stream's transport behaviour as `resp`. A
     * refused send changes nothing; otherwise the question and the
     * placeholder are appended, the earlier messages keep their places, the
     * callbacks fill the placeholder's slot `|messages| + 1`, and the busy
     * flags drop at the end.
     */
    method HandleSend(resp: StreamReader.Response, host: Host) returns (request: Option<ChatRequest>, warning: Option<string>)
      modifies this
      ensures !Truthy(old(selectedKb)) ==> request == None && warning == Some(NoKbWarning)
      ensures Truthy(old(selectedKb)) && Trim(old(inputMessage)) == "" ==> request == None && warning == Some(BlankQuestionWarning)
      ensures request == None ==>
        && messages == old(messages) && inputMessage == old(inputMessage)
        && loading == old(loading) && streaming == old(streaming)
      ensures Truthy(old(selectedKb)) && Trim(old(inputMessage)) != "" ==>
        && warning == None
        && request == Some(ChatRequest(old(selectedKb), Trim(old(inputMessage)), History(old(messages))))
        && inputMessage == "" && !loading && !streaming
        && messages == Sent(old(messages), Trim(old(inputMessage)), StreamReader.Run(resp, host, ChatHandlers()))
      ensures selectedKb == old(selectedKb)
    {
      if !Truthy(selectedKb) {
        return None, Some(NoKbWarning);
      }
      if Trim(inputMessage) == "" {
        return None, Some(BlankQuestionWarning);
      }
      var userMessage := Trim(inputMessage);
      request, warning := Some(ChatRequest(selectedKb, userMessage, History(messages))), None;
      Ask(userMessage, resp, host);
    }

    /**
     * The part of `handleSend()` past its guards: the input clears, the
     * question and the placeholder are appended, the stream's callbacks run
     * against the placeholder's slot, and the busy flags drop.
     */
    method Ask(question: string, resp: StreamReader.Response, host: Host)
      modifies this
      ensures messages == Sent(old(messages), question, StreamReader.Run(resp, host, ChatHandlers()))
      ensures inputMessage == "" && !loading && !streaming && selectedKb == old(selectedKb)
    {
      ghost var before := messages;
      var slot := |messages| + 1;
      inputMessage := "";
      loading, streaming := true, true;
      messages := messages + [Question(question), Placeholder];
      var log := StreamReader.Read(resp, host, ChatHandlers());
      RunCallbacks(log, slot);
      assert messages == Sent(before, question, log);
      loading, streaming := false, false;
    }

    /**
     * The callbacks the reader made, in its order: each delivered fragment
     * extends the answer in the slot, `onError` puts the apology there, and
     * `onComplete` lowers the busy flags.
     */
    method RunCallbacks(log: seq<StreamReader.Event>, slot: nat)
      requires slot < |messages| && loading == streaming
      modifies this
      ensures var t := Replay(Screen(old(messages), "", old(loading)), log, slot);
        messages == t.messages && loading == t.busy && streaming == t.busy
      ensures selectedKb == old(selectedKb) && inputMessage == old(inputMessage)
    {
      ghost var start := Screen(messages, "", loading);
      var fullContent := "";
      var i := 0;
      while i < |log|
        invariant 0 <= i <= |log|
        invariant Screen(messages, fullContent, loading) == Replay(start, log[..i], slot)
        invariant loading == streaming
        invariant selectedKb == old(selectedKb) && inputMessage == old(inputMessage)
      {
        ReplayNext(start, log, i, slot);
        match log[i] {
          case Message(data) =>
            if !data.Null? && !data.Undefined? {
              fullContent := fullContent + FragmentText(data);
              messages := messages[slot := Streamed(fullContent)];
            }
          case Complete =>
            loading, streaming := false, false;
          case Error(_) =>
            messages := messages[slot := Apology];
        }
        i := i + 1;
      }
      assert log[..|log|] == log;
    }

    /** `handleClear()`. */
    method HandleClear()
      modifies this
      ensures messages == [] && selectedKb == old(selectedKb) && inputMessage == old(inputMessage)
      ensures loading == old(loading) && streaming == old(streaming)
    {
      messages := [];
    }
  }
}
