/** The chat form: a conversation log kept in the form's state, a chat session opened with
    the SDK, and a send handler that streams the model's answer into the log. The SDK is an
    input: opening a session either works or throws, and a send's stream is given as the chunk
    texts it delivers and, if it fails, what it throws after them. */
module Chat {
  import opened Common
  import Text
  import GeminiService

  /** `Date.now().toString()` for user and error messages, with `"-model"` appended for the
      model's answer. `stamp` stands for the clock reading; each reading is fresh. */
  datatype MessageId = MessageId(stamp: nat, model: bool)

  datatype ChatMessage = ChatMessage(id: MessageId, role: Role, text: string)

  /** An open chat session; `serial` tells sessions apart, `systemInstruction` is its config. */
  datatype Session = Session(serial: nat, systemInstruction: Option<string>)

  /** What `sendMessageStream` does: throws before any chunk, or delivers `chunks` and then
      ends normally (`failure == None`) or throws `failure`. */
  /** `chatSession.sendMessageStream({ message })`: the session the message goes to and the
      message text. */
  datatype SentMessage = SentMessage(session: Session, message: string)

  datatype StreamReply = OpenFailed(openError: Thrown) | Streamed(chunks: seq<string>, failure: Option<Thrown>)

  const PLACEHOLDER := "..."
  const NO_API_KEY := "API Key for Gemini is not configured. Please set the API_KEY environment variable."
  const INIT_FAILED := "Failed to initialize chat session."
  const NO_SESSION := "Chat session is not initialized. Check API Key."
  const SEND_FAILED := "An error occurred while sending the message."
  const ERROR_PREFIX := "Error: "

  /** The in-order concatenation of the chunk texts: `modelResponseText += chunk.text`. */
  function Concat(chunks: seq<string>): (text: string)
    ensures chunks != [] ==> chunks[0] <= text
  {
    if chunks == [] then "" else Concat(chunks[..|chunks| - 1]) + chunks[|chunks| - 1]
  }

  lemma ConcatSnoc(chunks: seq<string>, last: string)
    ensures Concat(chunks + [last]) == Concat(chunks) + last
  {
    assert (chunks + [last])[..|chunks|] == chunks;
  }

  lemma {:induction false} ConcatAppend(a: seq<string>, b: seq<string>)
    ensures Concat(a + b) == Concat(a) + Concat(b)
    decreases |b|
  {
    if b == [] {
      assert a + b == a;
    } else {
      var b', last := b[..|b| - 1], b[|b| - 1];
      calc {
        Concat(a + b);
        { assert a + b == (a + b') + [last]; }
        Concat((a + b') + [last]);
        { ConcatSnoc(a + b', last); }
        Concat(a + b') + last;
        { ConcatAppend(a, b'); }
        Concat(a) + Concat(b') + last;
        { ConcatSnoc(b', last); assert b == b' + [last]; }
        Concat(a) + Concat(b);
      }
    }
  }

  /** The accumulated answer only grows: after `j` chunks it is a prefix of what it is after
      `k >= j` chunks, and so of the final answer. */
  lemma ConcatGrows(chunks: seq<string>, j: nat, k: nat)
    requires j <= k <= |chunks|
    ensures Concat(chunks[..j]) <= Concat(chunks[..k])
  {
    ConcatAppend(chunks[..j], chunks[j..k]);
    assert chunks[..j] + chunks[j..k] == chunks[..k];
  }

  /** `prev.map(msg => msg.id === id ? { ...msg, text } : msg)`. */
  function WithText(log: seq<ChatMessage>, id: MessageId, text: string): (r: seq<ChatMessage>)
    ensures |r| == |log|
  {
    if log == [] then []
    else [if log[0].id == id then log[0].(text := text) else log[0]] + WithText(log[1..], id, text)
  }

  ghost predicate UniqueIds(log: seq<ChatMessage>)
  {
    forall i, j :: 0 <= i < j < |log| ==> log[i].id != log[j].id
  }

  /** When ids are unique, replacing by id changes the text of exactly the message with that
      id: the log keeps its length and every other message. */
  lemma {:induction false} WithTextChangesOnlyTarget(log: seq<ChatMessage>, k: nat, text: string)
    requires UniqueIds(log) && k < |log|
    ensures WithText(log, log[k].id, text) == log[k := log[k].(text := text)]
  {
    var id := log[k].id;
    if k == 0 {
      WithTextAbsent(log[1..], id, text);
    } else {
      WithTextChangesOnlyTarget(log[1..], k - 1, text);
      assert log[1..][k - 1] == log[k];
      assert log[0].id != id;
      assert [log[0]] + log[1..][k - 1 := log[k].(text := text)] == log[k := log[k].(text := text)];
    }
  }

  /** Replacing by an id no message carries changes nothing. */
  lemma {:induction false} WithTextAbsent(log: seq<ChatMessage>, id: MessageId, text: string)
    requires forall i :: 0 <= i < |log| ==> log[i].id != id
    ensures WithText(log, id, text) == log
  {
    if log != [] {
      WithTextAbsent(log[1..], id, text);
      assert [log[0]] + log[1..] == log;
    }
  }

  function UserMessage(stamp: nat, input: string): ChatMessage
  {
    ChatMessage(MessageId(stamp, false), User, input)
  }

  function ModelMessage(stamp: nat, text: string): ChatMessage
  {
    ChatMessage(MessageId(stamp, true), Model, text)
  }

  /** The message appended when a send fails: `Error: ${errorMessage}`. */
  function ErrorMessage(stamp: nat, e: Thrown): ChatMessage
  {
    ChatMessage(MessageId(stamp, false), Model, ERROR_PREFIX + Describe(e, SEND_FAILED))
  }

  /** The model message's text once `chunks` have arrived and before the final update: the
      placeholder until the first chunk. */
  function StreamedText(chunks: seq<string>): string
  {
    if chunks == [] then PLACEHOLDER else Concat(chunks)
  }

  /** The messages one accepted send appends to the log; `stamp` is the first fresh clock
      reading it uses. */
  function Exchange(input: string, stamp: nat, reply: StreamReply): (appended: seq<ChatMessage>)
    ensures |appended| >= 2 && appended[0] == UserMessage(stamp, input)
    ensures UniqueIds(appended)
    ensures forall k :: 0 <= k < |appended| ==> stamp <= appended[k].id.stamp < stamp + |appended|
  {
    var user := UserMessage(stamp, input);
    match reply
    case OpenFailed(e) => [user, ErrorMessage(stamp + 1, e)]
    case Streamed(chunks, None) => [user, ModelMessage(stamp + 1, Concat(chunks))]
    case Streamed(chunks, Some(e)) => [user, ModelMessage(stamp + 1, StreamedText(chunks)), ErrorMessage(stamp + 2, e)]
  }

  /** The outcomes of a send: when the stream ends the placeholder is replaced by the whole
      answer (the empty string for no chunks); a failure appends one error
      message after what is there, keeping a partial answer as it was; a failure to open the
      stream leaves no model message at all. */
  lemma ExchangeOutcomes(input: string, stamp: nat, reply: StreamReply)
    ensures reply.Streamed? && reply.failure.None? ==>
              Exchange(input, stamp, reply)[1..] == [ModelMessage(stamp + 1, Concat(reply.chunks))]
    ensures reply == Streamed([], None) ==> Exchange(input, stamp, reply)[1].text == ""
    ensures reply.Streamed? && reply.failure.Some? ==>
              Exchange(input, stamp, reply)[1..] ==
                [ModelMessage(stamp + 1, StreamedText(reply.chunks)), ErrorMessage(stamp + 2, reply.failure.value)]
    ensures reply.OpenFailed? ==>
              Exchange(input, stamp, reply)[1..] == [ErrorMessage(stamp + 1, reply.openError)]
    ensures reply.OpenFailed? ==>
              forall k :: 0 <= k < |Exchange(input, stamp, reply)| ==> !Exchange(input, stamp, reply)[k].id.model
  {
  }

  /** The log after a send, written as the successive appends the handler makes. */
  lemma ExchangeAppends(log: seq<ChatMessage>, input: string, stamp: nat, reply: StreamReply)
    ensures reply.OpenFailed? ==>
              log + Exchange(input, stamp, reply) == log + [UserMessage(stamp, input)] + [ErrorMessage(stamp + 1, reply.openError)]
    ensures reply.Streamed? && reply.failure.None? ==>
              log + Exchange(input, stamp, reply) == log + [UserMessage(stamp, input)] + [ModelMessage(stamp + 1, Concat(reply.chunks))]
    ensures reply.Streamed? && reply.failure.Some? ==>
              log + Exchange(input, stamp, reply) ==
                log + [UserMessage(stamp, input)] + [ModelMessage(stamp + 1, StreamedText(reply.chunks))]
                    + [ErrorMessage(stamp + 2, reply.failure.value)]
  {
  }

  /** The logs a stream renders: the log with the placeholder, then, after each chunk, the log
      with the answer so far. */
  function Frames(log: seq<ChatMessage>, stamp: nat, chunks: seq<string>): (frames: seq<seq<ChatMessage>>)
    ensures |frames| == |chunks| + 1
  {
    if chunks == [] then [log + [ModelMessage(stamp, PLACEHOLDER)]]
    else Frames(log, stamp, chunks[..|chunks| - 1]) + [log + [ModelMessage(stamp, Concat(chunks))]]
  }

  /** While a stream runs the earlier messages stay as they are and only the answer changes:
      it reads `...` until the first chunk arrives and the first `k` chunks after the `k`-th. */
  lemma {:induction false} FramesShowPrefixes(log: seq<ChatMessage>, stamp: nat, chunks: seq<string>)
    ensures Frames(log, stamp, chunks)[0] == log + [ModelMessage(stamp, PLACEHOLDER)]
    ensures forall k :: 1 <= k <= |chunks| ==>
              Frames(log, stamp, chunks)[k] == log + [ModelMessage(stamp, Concat(chunks[..k]))]
  {
    if chunks != [] {
      var front := chunks[..|chunks| - 1];
      FramesShowPrefixes(log, stamp, front);
      forall k | 1 <= k <= |chunks|
        ensures Frames(log, stamp, chunks)[k] == log + [ModelMessage(stamp, Concat(chunks[..k]))]
      {
        if k < |chunks| {
          assert front[..k] == chunks[..k];
        } else {
          assert chunks[..k] == chunks;
        }
      }
    }
  }

  /** What a send leaves in `error`. */
  function ExchangeError(reply: StreamReply): Option<string>
  {
    match reply
    case OpenFailed(e) => Some(Describe(e, SEND_FAILED))
    case Streamed(_, None) => None
    case Streamed(_, Some(e)) => Some(Describe(e, SEND_FAILED))
  }

  /** The chat form's state. `clock` supplies fresh stamps for message ids and
      `sessionsOpened` fresh serials for sessions; `renders` records every value the log takes
      during the last send, in order, as the form re-renders it. */
  class ChatComponent {
    const apiKey: Option<string>
    var chatSession: Option<Session>
    var messages: seq<ChatMessage>
    var currentInput: string
    var isLoading: bool
    var error: Option<string>
    var systemInstruction: string
    var clock: nat
    var sessionsOpened: nat
    ghost var renders: seq<seq<ChatMessage>>

    ghost predicate Valid()
      reads this
    {
      && UniqueIds(messages)
      && (forall i :: 0 <= i < |messages| ==> messages[i].id.stamp < clock)
      && (chatSession.Some? ==> chatSession.value.serial < sessionsOpened)
    }

    /** A send goes ahead only with a session and a non-blank input. */
    predicate CanSend()
      reads this
    {
      chatSession.Some? && !Text.IsBlank(currentInput)
    }

    /** Mounting the form: empty state, then `initializeChat` from the mount effect. */
    constructor (apiKey: Option<string>, createFailure: Option<Thrown>)
      ensures Valid() && this.apiKey == apiKey
      ensures messages == [] && currentInput == "" && !isLoading && systemInstruction == "" && renders == []
      ensures !Truthy(apiKey) ==> chatSession.None? && error == Some(NO_API_KEY)
      ensures Truthy(apiKey) && createFailure.Some? ==>
                chatSession.None? && error == Some(Describe(createFailure.value, INIT_FAILED))
      ensures Truthy(apiKey) && createFailure.None? ==> chatSession == Some(Session(0, None)) && error.None?
    {
      this.apiKey := apiKey;
      chatSession, messages, currentInput, isLoading, error := None, [], "", false, None;
      systemInstruction, clock, sessionsOpened, renders := "", 0, 0, [];
      new;
      InitializeChat(createFailure);
    }

    /** `initializeChat`: without an API key only `error` is set; otherwise the SDK creates a
        session (or throws `createFailure`), configured with the system instruction only when
        that is non-empty. */
    method InitializeChat(createFailure: Option<Thrown>)
      requires Valid()
      modifies this
      ensures Valid()
      ensures messages == old(messages) && currentInput == old(currentInput) && isLoading == old(isLoading)
      ensures systemInstruction == old(systemInstruction) && clock == old(clock) && renders == old(renders)
      ensures !Truthy(apiKey) ==>
                error == Some(NO_API_KEY) && chatSession == old(chatSession) && sessionsOpened == old(sessionsOpened)
      ensures Truthy(apiKey) && createFailure.Some? ==>
                && error == Some(Describe(createFailure.value, INIT_FAILED))
                && chatSession == old(chatSession) && sessionsOpened == old(sessionsOpened)
      ensures Truthy(apiKey) && createFailure.None? ==>
                && error.None?
                && chatSession == Some(Session(old(sessionsOpened),
                                               GeminiService.InstructionConfig(Some(systemInstruction))))
                && sessionsOpened == old(sessionsOpened) + 1
    {
      if !Truthy(apiKey) {
        error := Some(NO_API_KEY);
        return;
      }
      match createFailure {
        case Some(e) =>
          error := Some(Describe(e, INIT_FAILED));
        case None =>
          chatSession := Some(Session(sessionsOpened, GeminiService.InstructionConfig(Some(systemInstruction))));
          sessionsOpened := sessionsOpened + 1;
          error := None;
      }
    }

    /** The message field's `onChange`. */
    method SetInput(input: string)
      modifies this`currentInput
      ensures currentInput == input
    {
      currentInput := input;
    }

    /** The system-instruction field's `onChange`; a changed instruction re-runs
        `initializeChat` through the effect that depends on it. The field is disabled once
        the conversation has started or while a send runs. */
    method HandleSystemInstructionChange(instruction: string, createFailure: Option<Thrown>)
      requires Valid() && messages == [] && !isLoading
      modifies this
      ensures Valid() && systemInstruction == instruction
      ensures messages == [] && currentInput == old(currentInput) && !isLoading
      ensures clock == old(clock) && renders == old(renders)
      ensures instruction == old(systemInstruction) ==>
                chatSession == old(chatSession) && error == old(error) && sessionsOpened == old(sessionsOpened)
      ensures instruction != old(systemInstruction) && !Truthy(apiKey) ==>
                error == Some(NO_API_KEY) && chatSession == old(chatSession) && sessionsOpened == old(sessionsOpened)
      ensures instruction != old(systemInstruction) && Truthy(apiKey) && createFailure.Some? ==>
                && error == Some(Describe(createFailure.value, INIT_FAILED))
                && chatSession == old(chatSession) && sessionsOpened == old(sessionsOpened)
      ensures instruction != old(systemInstruction) && Truthy(apiKey) && createFailure.None? ==>
                && error.None?
                && chatSession == Some(Session(old(sessionsOpened), GeminiService.InstructionConfig(Some(instruction))))
                && sessionsOpened == old(sessionsOpened) + 1
    {
      var changed := instruction != systemInstruction;
      systemInstruction := instruction;
      if changed {
        InitializeChat(createFailure);
      }
    }

    /** `handleRestartChat`: the log is emptied, the session is re-initialised, and `error`
        and the input are cleared last, so no error remains even when re-initialising failed. */
    method HandleRestartChat(createFailure: Option<Thrown>)
      requires Valid()
      modifies this
      ensures Valid()
      ensures messages == [] && currentInput == "" && error.None?
      ensures clock == old(clock)
      ensures isLoading == old(isLoading) && systemInstruction == old(systemInstruction) && renders == old(renders)
      ensures Truthy(apiKey) && createFailure.None? ==>
                && chatSession == Some(Session(old(sessionsOpened),
                                               GeminiService.InstructionConfig(Some(systemInstruction))))
                && sessionsOpened == old(sessionsOpened) + 1
      ensures !(Truthy(apiKey) && createFailure.None?) ==>
                chatSession == old(chatSession) && sessionsOpened == old(sessionsOpened)
    {
      messages := [];
      InitializeChat(createFailure);
      error := None;
      currentInput := "";
    }

    /** `handleSendMessage`, run to the end of the stream. The send button and the Enter key are
        disabled while a send runs, so a send starts idle. */
    method HandleSendMessage(reply: StreamReply) returns (sent: Option<SentMessage>)
      requires Valid() && !isLoading
      modifies this
      ensures Valid() && !isLoading
      // the untrimmed input goes to the current session, and only when the guard passes
      ensures sent == if old(CanSend()) then Some(SentMessage(old(chatSession).value, old(currentInput))) else None
      ensures chatSession == old(chatSession) && systemInstruction == old(systemInstruction)
      ensures sessionsOpened == old(sessionsOpened)
      // rejected: nothing is sent and the log is untouched
      ensures !old(CanSend()) ==>
                && messages == old(messages) && currentInput == old(currentInput) && clock == old(clock)
                && renders == []
                && error == (if old(chatSession).None? then Some(NO_SESSION) else old(error))
      // accepted: the exchange is appended after the old log and the input is cleared
      ensures old(CanSend()) ==>
                && currentInput == ""
                && messages == old(messages) + Exchange(old(currentInput), old(clock), reply)
                && clock == old(clock) + |Exchange(old(currentInput), old(clock), reply)|
                && error == ExchangeError(reply)
      // the log as rendered: with the user's message, then each frame of the stream, then the
      // final log
      ensures old(CanSend()) && reply.OpenFailed? ==>
                renders == [old(messages) + [UserMessage(old(clock), old(currentInput))], messages]
      ensures old(CanSend()) && reply.Streamed? ==>
                renders == [old(messages) + [UserMessage(old(clock), old(currentInput))]]
                           + Frames(old(messages) + [UserMessage(old(clock), old(currentInput))],
                                    old(clock) + 1, reply.chunks)
                           + [messages]
    {
      if Text.IsBlank(currentInput) || chatSession.None? {
        if chatSession.None? {
          error := Some(NO_SESSION);
        }
        renders := [];
        return None;
      }
      ghost var base, stamp, input := messages, clock, currentInput;
      var message := SendAccepted(reply);
      sent := Some(message);
      AppendFresh(base, stamp, Exchange(input, stamp, reply));
    }

    /** The body of `handleSendMessage` once the guard has passed: the user's message (the
        input as typed, not trimmed) is appended and the input cleared, then the reply is
        consumed. */
    method SendAccepted(reply: StreamReply) returns (sent: SentMessage)
      requires chatSession.Some?
      requires forall i :: 0 <= i < |messages| ==> messages[i].id.stamp < clock
      modifies this`messages, this`clock, this`renders, this`currentInput, this`isLoading, this`error
      ensures sent == SentMessage(chatSession.value, old(currentInput))
      ensures currentInput == "" && !isLoading && error == ExchangeError(reply)
      ensures messages == old(messages) + Exchange(old(currentInput), old(clock), reply)
      ensures clock == old(clock) + |Exchange(old(currentInput), old(clock), reply)|
      ensures reply.OpenFailed? ==>
                renders == [old(messages) + [UserMessage(old(clock), old(currentInput))], messages]
      ensures reply.Streamed? ==>
                renders == [old(messages) + [UserMessage(old(clock), old(currentInput))]]
                           + Frames(old(messages) + [UserMessage(old(clock), old(currentInput))],
                                    old(clock) + 1, reply.chunks)
                           + [messages]
    {
      ghost var base := messages;
      var input := currentInput;
      var stamp := clock;
      messages := messages + [UserMessage(stamp, input)];
      sent := SentMessage(chatSession.value, input);
      clock := clock + 1;
      renders := [messages];
      currentInput := "";
      isLoading := true;
      error := None;
      match reply {
        case OpenFailed(e) =>
          AppendError(e);
        case Streamed(chunks, failure) =>
          Answer(chunks, failure);
      }
      isLoading := false;
      ExchangeAppends(base, input, stamp, reply);
    }

    /** A stream that opened: the answer is streamed into a placeholder; at the end its text is
        set once more, or the failure is reported after the answer so far. */
    method Answer(chunks: seq<string>, failure: Option<Thrown>)
      requires forall i :: 0 <= i < |messages| ==> messages[i].id.stamp < clock
      modifies this`messages, this`clock, this`renders, this`error
      ensures failure.None? ==>
                && messages == old(messages) + [ModelMessage(old(clock), Concat(chunks))]
                && clock == old(clock) + 1 && error == old(error)
      ensures failure.Some? ==>
                && messages == old(messages) + [ModelMessage(old(clock), StreamedText(chunks))]
                                             + [ErrorMessage(old(clock) + 1, failure.value)]
                && clock == old(clock) + 2 && error == Some(Describe(failure.value, SEND_FAILED))
      ensures renders == old(renders) + Frames(old(messages), old(clock), chunks) + [messages]
    {
      ghost var base := messages;
      var stamp := clock;
      var modelResponseText := StreamAnswer(chunks);
      match failure {
        case None =>
          ReplaceAnswer(base, stamp, StreamedText(chunks), modelResponseText);
          messages := WithText(messages, MessageId(stamp, true), modelResponseText);
          renders := renders + [messages];
        case Some(e) =>
          AppendError(e);
      }
    }

    /** The catch block: `error` is set and an error message is appended to the log. */
    method AppendError(e: Thrown)
      modifies this`error, this`messages, this`clock, this`renders
      ensures error == Some(Describe(e, SEND_FAILED))
      ensures messages == old(messages) + [ErrorMessage(old(clock), e)] && clock == old(clock) + 1
      ensures renders == old(renders) + [messages]
    {
      error := Some(Describe(e, SEND_FAILED));
      messages := messages + [ErrorMessage(clock, e)];
      clock := clock + 1;
      renders := renders + [messages];
    }

    /** The stream loop: a placeholder model message is appended, then each chunk is added to
        the accumulated answer, which replaces the placeholder's text; the log is rendered
        after each step. Returns the accumulated answer. */
    method StreamAnswer(chunks: seq<string>) returns (modelResponseText: string)
      requires forall i :: 0 <= i < |messages| ==> messages[i].id.stamp < clock
      modifies this`messages, this`clock, this`renders
      ensures modelResponseText == Concat(chunks)
      ensures clock == old(clock) + 1
      ensures messages == old(messages) + [ModelMessage(old(clock), StreamedText(chunks))]
      ensures renders == old(renders) + Frames(old(messages), old(clock), chunks)
    {
      ghost var base := messages;
      var stamp := clock;
      modelResponseText := "";
      clock := clock + 1;
      messages := messages + [ModelMessage(stamp, PLACEHOLDER)];
      renders := renders + [messages];
      var i := 0;
      while i < |chunks|
        invariant 0 <= i <= |chunks|
        invariant clock == stamp + 1
        invariant modelResponseText == Concat(chunks[..i])
        invariant messages == base + [ModelMessage(stamp, StreamedText(chunks[..i]))]
        invariant renders == old(renders) + Frames(base, stamp, chunks[..i])
      {
        assert chunks[..i + 1][..i] == chunks[..i];
        assert Concat(chunks[..i + 1]) == Concat(chunks[..i]) + chunks[i];
        modelResponseText := modelResponseText + chunks[i];
        ReplaceAnswer(base, stamp, StreamedText(chunks[..i]), modelResponseText);
        messages := WithText(messages, MessageId(stamp, true), modelResponseText);
        renders := renders + [messages];
        i := i + 1;
      }
      assert chunks[..i] == chunks;
    }
  }

  /** Replacing by id works message by message, so it distributes over concatenation. */
  lemma {:induction false} WithTextConcat(a: seq<ChatMessage>, b: seq<ChatMessage>, id: MessageId, text: string)
    ensures WithText(a + b, id, text) == WithText(a, id, text) + WithText(b, id, text)
  {
    if a != [] {
      WithTextConcat(a[1..], b, id, text);
      assert (a + b)[1..] == a[1..] + b;
    } else {
      assert a + b == b;
    }
  }

  /** The placeholder is the last message and every earlier stamp is older than its own, so
      replacing its text leaves the earlier messages alone. */
  lemma ReplaceAnswer(prefix: seq<ChatMessage>, stamp: nat, before: string, after: string)
    requires forall i :: 0 <= i < |prefix| ==> prefix[i].id.stamp < stamp
    ensures WithText(prefix + [ModelMessage(stamp, before)], MessageId(stamp, true), after)
            == prefix + [ModelMessage(stamp, after)]
  {
    WithTextConcat(prefix, [ModelMessage(stamp, before)], MessageId(stamp, true), after);
    WithTextAbsent(prefix, MessageId(stamp, true), after);
    assert WithText([ModelMessage(stamp, before)], MessageId(stamp, true), after) == [ModelMessage(stamp, after)];
  }

  /** Appending messages whose stamps are all fresh keeps ids unique. */
  lemma AppendFresh(log: seq<ChatMessage>, clock: nat, extra: seq<ChatMessage>)
    requires UniqueIds(log) && UniqueIds(extra)
    requires forall i :: 0 <= i < |log| ==> log[i].id.stamp < clock
    requires forall k :: 0 <= k < |extra| ==> clock <= extra[k].id.stamp
    ensures UniqueIds(log + extra)
  {
    var all := log + extra;
    forall i, j | 0 <= i < j < |all| ensures all[i].id != all[j].id {
      if j >= |log| && i < |log| {
        assert all[i] == log[i] && all[j] == extra[j - |log|];
      } else if i >= |log| {
        assert all[i] == extra[i - |log|] && all[j] == extra[j - |log|];
      }
    }
  }
}
