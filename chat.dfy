/** The chat turn controller: a transcript, a draft, a loading flag and a dictation flag.
    A submitted draft becomes a user message, the transcript goes to the completion endpoint,
    and the streamed reply is appended chunk by chunk to one assistant message. */
module Chat {
  import opened Wrappers
  import opened Text

  datatype Role = User | Assistant

  datatype ChatMessage = ChatMessage(id: string, role: Role, content: string)

  /** How the request ends: `fetch` rejects, the status is not ok, the response has no body,
      or a body streams `chunks` (already decoded text) and then either ends or, when
      `readFails`, the next read throws. */
  datatype Reply = FetchFailed | NotOk | NoBody | Body(chunks: seq<string>, readFails: bool)

  /** What `toggleListening` did. */
  datatype ToggleEffect = AlertUnsupported | StartedCapture | StoppedCapture

  /** The number of characters in all the chunks together. */
  function TotalLength(chunks: seq<string>): nat
  {
    if chunks == [] then 0 else TotalLength(chunks[..|chunks| - 1]) + |chunks[|chunks| - 1]|
  }

  /** The text of the chunks in arrival order: as long as all of them together. */
  function Concat(chunks: seq<string>): (r: string)
    ensures |r| == TotalLength(chunks)
  {
    if chunks == [] then "" else Concat(chunks[..|chunks| - 1]) + chunks[|chunks| - 1]
  }

  lemma {:induction false} ConcatAppend(a: seq<string>, b: seq<string>)
    ensures Concat(a + b) == Concat(a) + Concat(b)
  {
    if b == [] {
      assert a + b == a;
    } else {
      var ab, front, last := a + b, b[..|b| - 1], b[|b| - 1];
      assert ab[..|ab| - 1] == a + front && ab[|ab| - 1] == last;
      ConcatAppend(a, front);
      assert Concat(b) == Concat(front) + last;
      AppendAssoc(Concat(a), Concat(front), last);
    }
  }

  /** Appending strings is associative. */
  lemma AppendAssoc(x: string, y: string, z: string)
    ensures x + y + z == x + (y + z)
  {
  }

  /** Each prefix of the chunks yields a prefix of the full text, so content only grows. */
  lemma ConcatPrefix(chunks: seq<string>, k: nat)
    requires k <= |chunks|
    ensures StartsWith(Concat(chunks), Concat(chunks[..k]))
  {
    assert chunks == chunks[..k] + chunks[k..];
    ConcatAppend(chunks[..k], chunks[k..]);
  }

  /** `prev + (prev ? " " : "") + transcript`: the dictated text joins the draft after a space,
      or becomes the draft when there is none. */
  function AppendDictation(prev: string, transcript: string): (r: string)
    ensures |r| == |prev| + |transcript| + (if prev == "" then 0 else 1)
    ensures StartsWith(r, prev)
    ensures r[|r| - |transcript|..] == transcript
    ensures prev != "" ==> r[|prev|] == ' '
  {
    prev + (if prev != "" then " " else "") + transcript
  }

  /** The transcript shown once the first `k` chunks have arrived: the sent messages and one
      assistant message holding those chunks. */
  function Streamed(sent: seq<ChatMessage>, assistantId: string, chunks: seq<string>, k: nat): seq<ChatMessage>
    requires k <= |chunks|
  {
    sent + [ChatMessage(assistantId, Assistant, Concat(chunks[..k]))]
  }

  /** The transcript after a turn whose user message has been appended to give `sent`. */
  function AfterTurn(sent: seq<ChatMessage>, assistantId: string, reply: Reply): (r: seq<ChatMessage>)
    ensures |sent| <= |r| && r[..|sent|] == sent
    ensures reply.Body? ==> |r| == |sent| + 1
                            && r[|sent|] == ChatMessage(assistantId, Assistant, Concat(reply.chunks))
    ensures !reply.Body? ==> r == sent
  {
    match reply
    case Body(chunks, _) => sent + [ChatMessage(assistantId, Assistant, Concat(chunks))]
    case _ => sent
  }

  class ChatController {
    var messages: seq<ChatMessage>
    var input: string
    var isLoading: bool
    var isListening: bool
    /** Whether the browser provided a speech recognizer when the hook was mounted. */
    const hasRecognizer: bool

    constructor (hasRecognizer: bool)
      ensures this.hasRecognizer == hasRecognizer
      ensures messages == [] && input == "" && !isLoading && !isListening
    {
      this.hasRecognizer := hasRecognizer;
      messages, input, isLoading, isListening := [], "", false, false;
    }

    /** `handleInputChange`: typing replaces the draft. */
    method InputChange(value: string)
      modifies this
      ensures input == value
      ensures messages == old(messages) && isLoading == old(isLoading) && isListening == old(isListening)
    {
      input := value;
    }

    /** `handleSubmit`, run to the end of its turn. `userId` and `assistantId` are the ids the
        clock gives the two messages. Returns the transcript sent with the request, and every
        transcript published to the view, in order. */
    method Submit(userId: string, assistantId: string, reply: Reply)
      returns (request: Option<seq<ChatMessage>>, published: seq<seq<ChatMessage>>)
      modifies this
      ensures isListening == old(isListening)
      ensures IsBlank(old(input)) ==>
                request == None && published == []
                && messages == old(messages) && input == old(input) && isLoading == old(isLoading)
      ensures !IsBlank(old(input)) ==>
                var sent := old(messages) + [ChatMessage(userId, User, old(input))];
                && request == Some(sent)
                && input == "" && !isLoading
                && messages == AfterTurn(sent, assistantId, reply)
                && |published| == (if reply.Body? then |reply.chunks| + 2 else 1)
                && published[0] == sent
                && (reply.Body? ==>
                      forall k :: 0 <= k <= |reply.chunks| ==>
                        published[k + 1] == Streamed(sent, assistantId, reply.chunks, k))
    {
      if TrimsToEmpty(input) {
        return None, [];
      }
      var sent;
      sent, published := SendTurn(userId, assistantId, reply);
      request := Some(sent);
    }

    /** `handleSubmit` past its blank-input guard: the draft becomes a user message, the
        transcript is sent, and the reply, if it has a body, is streamed into one assistant
        message. Returns the transcript sent and every transcript published, in order. */
    method SendTurn(userId: string, assistantId: string, reply: Reply)
      returns (sent: seq<ChatMessage>, published: seq<seq<ChatMessage>>)
      modifies this
      ensures sent == old(messages) + [ChatMessage(userId, User, old(input))]
      ensures input == "" && !isLoading && isListening == old(isListening)
      ensures messages == AfterTurn(sent, assistantId, reply)
      ensures |published| == (if reply.Body? then |reply.chunks| + 2 else 1)
      ensures published[0] == sent
      ensures reply.Body? ==>
                forall k :: 0 <= k <= |reply.chunks| ==>
                  published[k + 1] == Streamed(sent, assistantId, reply.chunks, k)
    {
      sent := messages + [ChatMessage(userId, User, input)];
      messages := sent;
      input := "";
      isLoading := true;
      published := [sent];
      if reply.Body? {
        // When `readFails`, the next read throws and the catch keeps what was appended.
        var shown := StreamChunks(assistantId, reply.chunks);
        published := published + shown;
        assert forall k :: 0 <= k < |shown| ==> published[k + 1] == shown[k];
        assert reply.chunks[..|reply.chunks|] == reply.chunks;
      }
      // A rejected fetch or a non-ok status is caught; a missing body returns.
      isLoading := false;
    }

    /** The read loop of `handleSubmit`: an empty assistant message is appended, then each
        chunk is added to its content and the transcript is published again. Returns every
        transcript published, in order. */
    method StreamChunks(assistantId: string, chunks: seq<string>) returns (shown: seq<seq<ChatMessage>>)
      modifies this
      ensures messages == Streamed(old(messages), assistantId, chunks, |chunks|)
      ensures |shown| == |chunks| + 1
      ensures forall k :: 0 <= k <= |chunks| ==> shown[k] == Streamed(old(messages), assistantId, chunks, k)
      ensures input == old(input) && isLoading == old(isLoading) && isListening == old(isListening)
    {
      var sent := messages;
      var assistantMessage := ChatMessage(assistantId, Assistant, "");
      messages := messages + [assistantMessage];
      shown := [messages];
      assert chunks[..0] == [];
      var i := 0;
      while i < |chunks|
        invariant 0 <= i <= |chunks|
        invariant assistantMessage == ChatMessage(assistantId, Assistant, Concat(chunks[..i]))
        invariant messages == sent + [assistantMessage]
        invariant input == old(input) && isLoading == old(isLoading) && isListening == old(isListening)
        invariant |shown| == i + 1
        invariant forall k :: 0 <= k <= i ==> shown[k] == Streamed(sent, assistantId, chunks, k)
      {
        assert chunks[..i + 1][..i] == chunks[..i];
        assistantMessage := assistantMessage.(content := assistantMessage.content + chunks[i]);
        var newMessages := messages;
        newMessages := newMessages[|newMessages| - 1 := assistantMessage];
        messages := newMessages;
        shown := shown + [messages];
        i := i + 1;
      }
    }

    /** `toggleListening`. */
    method ToggleListening() returns (effect: ToggleEffect)
      modifies this
      ensures !hasRecognizer ==> effect == AlertUnsupported && isListening == old(isListening)
      ensures hasRecognizer && old(isListening) ==> effect == StoppedCapture && !isListening
      ensures hasRecognizer && !old(isListening) ==> effect == StartedCapture && isListening
      ensures messages == old(messages) && input == old(input) && isLoading == old(isLoading)
    {
      if !hasRecognizer {
        return AlertUnsupported;
      }
      if isListening {
        effect := StoppedCapture;
        isListening := false;
      } else {
        effect := StartedCapture;
        isListening := true;
      }
    }

    /** The recognizer's `onresult`: the transcript joins the draft and listening stops. */
    method OnResult(transcript: string)
      requires hasRecognizer
      modifies this
      ensures input == AppendDictation(old(input), transcript) && !isListening
      ensures messages == old(messages) && isLoading == old(isLoading)
    {
      input := AppendDictation(input, transcript);
      isListening := false;
    }

    /** The recognizer's `onerror`: listening stops, the draft is kept. */
    method OnError(reason: string)
      requires hasRecognizer
      modifies this
      ensures !isListening
      ensures input == old(input) && messages == old(messages) && isLoading == old(isLoading)
    {
      isListening := false;
    }

    /** The recognizer's `onend`: listening stops, the draft is kept. */
    method OnEnd()
      requires hasRecognizer
      modifies this
      ensures !isListening
      ensures input == old(input) && messages == old(messages) && isLoading == old(isLoading)
    {
      isListening := false;
    }
  }

  /** Streaming "Hel", "lo", "!" makes the assistant message read "Hel", "Hello", "Hello!". */
  lemma StreamExample()
    ensures Concat(["Hel", "lo", "!"][..1]) == "Hel"
    ensures Concat(["Hel", "lo", "!"][..2]) == "Hello"
    ensures Concat(["Hel", "lo", "!"]) == "Hello!"
  {
    var c := ["Hel", "lo", "!"];
    assert c[..1][..0] == [];
    assert c[..2][..1] == c[..1];
    assert c[..2] == c[..2];
    assert c[..|c| - 1] == c[..2];
  }
}
