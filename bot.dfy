/**
 * The message-handling orchestrator (src/bot.rs). A Bot holds one LLM backend,
 * the persona registry and, optionally, a memory store, a vision backend and a
 * voice backend; none of these handles changes after construction. A turn
 * dispatches on the input's modality; text (typed or transcribed) goes through
 * one pipeline: store the user message, assemble the context, ask the LLM,
 * store the reply.
 *
 * Every backend call is recorded in a ghost trace of `Call`s, so that the
 * contracts can say which calls a turn makes and in which order. Whether a
 * memory operation fails is decided outside the program and arrives as a
 * `MemoryFaults` value.
 */
module Orchestrator {
  import opened Common
  import opened Prompt
  import opened Llm
  import opened PersonaRegistry
  import opened Memory

  const VisionDisabled: string := "Vision capability not enabled."
  const VoiceDisabled: string := "Voice capability not enabled."
  const ImageInstruction: string := "Describe this image"
  const VideoInstruction: string := "Describe this video"
  const DefaultGreeting: string := "Hello! I am ready."

  /** One call from the bot into a backend. */
  datatype Call =
    | StoreAppend(session: string, message: Message)
    | StoreRead(session: string)
    | ChatCall(context: seq<Message>)
    | ImageCall(reference: string, instruction: string)
    | VideoCall(reference: string, instruction: string)
    | TranscribeCall(audio: seq<byte>)

  /** The outcomes of a turn's memory operations: None for success, Some(error) for failure. */
  datatype MemoryFaults = MemoryFaults(userWrite: Option<WriteFault>, historyRead: Option<Error>, assistantWrite: Option<WriteFault>)

  /** What a turn returns, the session's stored history afterwards, and the backend calls it made. */
  datatype TurnResult = TurnResult(reply: Result<string>, stored: seq<Message>, calls: seq<Call>)

  /**
   * The context the LLM is asked with: the persona's system prompt, then the
   * stored history (which already ends with the user message) when memory is
   * configured, or the user message alone when it is not.
   */
  function Context(prompt: string, hasMemory: bool, stored: seq<Message>, user: Message): (ctx: seq<Message>)
    ensures |ctx| >= 2 && ctx[0] == SystemMessage(prompt) && ctx[|ctx| - 1] == user
    ensures !hasMemory ==> ctx == [SystemMessage(prompt), user]
    ensures hasMemory ==> ctx[1..] == stored + [user]
  {
    [SystemMessage(prompt)] + (if hasMemory then stored + [user] else [user])
  }

  /**
   * The text pipeline, as a function of the session's stored history before
   * the turn (`stored`, ignored without memory).
   */
  function TextTurn(llm: LLMClient, prompt: string, hasMemory: bool, stored: seq<Message>,
                    session: string, text: string, userId: Option<string>, faults: MemoryFaults): (t: TurnResult)
    // At most the two writes, the read and the LLM call; a reply means all of them were made.
    ensures 1 <= |t.calls| <= 4
    ensures t.reply.Success? ==> |t.calls| == (if hasMemory then 4 else 1)
  {
    var user := UserMessage(text, userId);
    if !hasMemory then
      var context := [SystemMessage(prompt), user];
      TurnResult(Chat(llm, context), stored, [ChatCall(context)])
    else if faults.userWrite.Some? then
      TurnResult(Failure(faults.userWrite.value.error), AfterWrite(stored, user, faults.userWrite), [StoreAppend(session, user)])
    else
      var written := stored + [user];
      if faults.historyRead.Some? then
        TurnResult(Failure(faults.historyRead.value), written, [StoreAppend(session, user), StoreRead(session)])
      else
        var context := [SystemMessage(prompt)] + written;
        var calls := [StoreAppend(session, user), StoreRead(session), ChatCall(context)];
        match Chat(llm, context)
        case Failure(e) => TurnResult(Failure(e), written, calls)
        case Success(reply) =>
          var bot := AssistantMessage(reply);
          if faults.assistantWrite.Some? then
            TurnResult(Failure(faults.assistantWrite.value.error), AfterWrite(written, bot, faults.assistantWrite),
                       calls + [StoreAppend(session, bot)])
          else
            TurnResult(Success(reply), written + [bot], calls + [StoreAppend(session, bot)])
  }

  /** Which backend calls a text turn makes, in which order. */
  lemma TextTurnCalls(llm: LLMClient, prompt: string, hasMemory: bool, stored: seq<Message>,
                      session: string, text: string, userId: Option<string>, faults: MemoryFaults)
    ensures var t := TextTurn(llm, prompt, hasMemory, stored, session, text, userId, faults);
            var user := UserMessage(text, userId);
            // Without memory: one call, with exactly [system(prompt), user(text)], and its answer is the reply.
            && (!hasMemory ==>
                  && t.reply == Chat(llm, [SystemMessage(prompt), user])
                  && t.calls == [ChatCall([SystemMessage(prompt), user])]
                  && t.stored == stored)
            // With memory: the user message is written first, and history is read only after that write succeeded.
            && (hasMemory ==> |t.calls| >= 1 && t.calls[0] == StoreAppend(session, user))
            && (hasMemory && |t.calls| >= 2 ==> faults.userWrite.None? && t.calls[1] == StoreRead(session))
  {
  }

  /** What the LLM sees in a text turn, and what a successful reply is. */
  lemma TextTurnContext(llm: LLMClient, prompt: string, hasMemory: bool, stored: seq<Message>,
                        session: string, text: string, userId: Option<string>, faults: MemoryFaults)
    ensures var t := TextTurn(llm, prompt, hasMemory, stored, session, text, userId, faults);
            var user := UserMessage(text, userId);
            // Any context the LLM sees is the system prompt followed by the history including the user message.
            && (forall i :: 0 <= i < |t.calls| && t.calls[i].ChatCall? ==>
                  t.calls[i].context == Context(prompt, hasMemory, stored, user))
            // A successful reply is the LLM's answer to that context.
            && (t.reply.Success? ==> t.reply == Chat(llm, Context(prompt, hasMemory, stored, user)))
  {
    var t := TextTurn(llm, prompt, hasMemory, stored, session, text, userId, faults);
    var ctx := Context(prompt, hasMemory, stored, UserMessage(text, userId));
    if !hasMemory {
      assert t.calls == [ChatCall(ctx)];
    } else if faults.userWrite.None? && faults.historyRead.None? {
      assert t.calls[2] == ChatCall(ctx);
    }
  }

  /** With memory, a failed history read is returned, and so is a failed LLM call. */
  lemma TextTurnErrors(llm: LLMClient, prompt: string, stored: seq<Message>,
                       session: string, text: string, userId: Option<string>, faults: MemoryFaults)
    ensures var t := TextTurn(llm, prompt, true, stored, session, text, userId, faults);
            var answer := Chat(llm, Context(prompt, true, stored, UserMessage(text, userId)));
            && (faults.userWrite.None? && faults.historyRead.Some? ==> t.reply == Failure(faults.historyRead.value))
            && (faults.userWrite.None? && faults.historyRead.None? && answer.Failure? ==> t.reply == answer)
  {
  }

  /**
   * What a text turn with memory leaves stored, whichever step fails. A write
   * that fails after storing keeps its message even though the turn fails.
   */
  lemma TextTurnStorage(llm: LLMClient, prompt: string, stored: seq<Message>,
                        session: string, text: string, userId: Option<string>, faults: MemoryFaults)
    ensures var t := TextTurn(llm, prompt, true, stored, session, text, userId, faults);
            var user := UserMessage(text, userId);
            var answer := Chat(llm, Context(prompt, true, stored, user));
            // A successful turn grows the history by exactly [user, assistant(reply)].
            && (t.reply.Success? ==> t.stored == stored + [user, AssistantMessage(t.reply.value)])
            // Once the user message is written, it stays written whatever fails later.
            && (faults.userWrite.None? ==> stored + [user] <= t.stored)
            // A failed first write is returned; it keeps the user message unless it was rejected outright.
            && (faults.userWrite.Some? ==>
                  && t.reply == Failure(faults.userWrite.value.error)
                  && t.stored == (if faults.userWrite.value.Rejected? then stored else stored + [user]))
            // A failed history read or LLM call leaves just the user message.
            && (faults.userWrite.None? && (faults.historyRead.Some? || answer.Failure?) ==> t.stored == stored + [user])
            // A failed assistant write is returned instead of the reply; it keeps the reply unless it was rejected.
            && (faults.userWrite.None? && faults.historyRead.None? && answer.Success? && faults.assistantWrite.Some? ==>
                  && t.reply == Failure(faults.assistantWrite.value.error)
                  && t.stored == stored + [user] + (if faults.assistantWrite.value.Rejected? then [] else [AssistantMessage(answer.value)]))
            // A failed turn stores an assistant message only when its write failed after storing.
            && (t.reply.Failure? && (faults.assistantWrite.None? || faults.assistantWrite.value.Rejected?) ==>
                  t.stored == stored || t.stored == stored + [user])
  {
  }

  /** Two successful turns with memory leave [user1, assistant1, user2, assistant2] after the old history. */
  lemma TwoTurns(llm: LLMClient, prompt: string, stored: seq<Message>, session: string,
                 text1: string, text2: string, userId: Option<string>, faults1: MemoryFaults, faults2: MemoryFaults)
    requires TextTurn(llm, prompt, true, stored, session, text1, userId, faults1).reply.Success?
    requires TextTurn(llm, prompt, true, TextTurn(llm, prompt, true, stored, session, text1, userId, faults1).stored,
                      session, text2, userId, faults2).reply.Success?
    ensures var t1 := TextTurn(llm, prompt, true, stored, session, text1, userId, faults1);
            var t2 := TextTurn(llm, prompt, true, t1.stored, session, text2, userId, faults2);
            t2.stored == stored + [UserMessage(text1, userId), AssistantMessage(t1.reply.value),
                                   UserMessage(text2, userId), AssistantMessage(t2.reply.value)]
  {
    var t1 := TextTurn(llm, prompt, true, stored, session, text1, userId, faults1);
    var t2 := TextTurn(llm, prompt, true, t1.stored, session, text2, userId, faults2);
    TextTurnStorage(llm, prompt, stored, session, text1, userId, faults1);
    TextTurnStorage(llm, prompt, t1.stored, session, text2, userId, faults2);
    assert t2.stored == t1.stored + [UserMessage(text2, userId), AssistantMessage(t2.reply.value)];
  }

  /** With the mock backend and no memory, "hi" is echoed back. */
  lemma MockScenario(prompt: string, session: string, userId: Option<string>, faults: MemoryFaults)
    ensures TextTurn(MockLLM, prompt, false, [], session, "hi", userId, faults).reply
            == Success("MockAI: I received your message: 'hi'")
  {
    assert MockPreamble + "hi" + "'" == "MockAI: I received your message: 'hi'";
  }

  /** With history [user a, assistant b] and new text "c", the LLM sees [system, a, b, c]. */
  lemma HistoryScenario(llm: LLMClient, prompt: string, session: string, faults: MemoryFaults)
    requires faults.userWrite.None? && faults.historyRead.None?
    ensures var stored := [UserMessage("a", None), AssistantMessage("b")];
            TextTurn(llm, prompt, true, stored, session, "c", None, faults).calls[2]
            == ChatCall([SystemMessage(prompt), UserMessage("a", None), AssistantMessage("b"), UserMessage("c", None)])
  {
  }

  /** `Bot`. Its handles never change; only the memory store's contents do. */
  class Bot {
    const llm: LLMClient
    const memory: Option<MemoryStore>
    const personas: PersonaManager
    const vision: Option<VisionClient>
    const voice: Option<VoiceClient>

    constructor (llm: LLMClient, memory: Option<MemoryStore>, personas: PersonaManager,
                 vision: Option<VisionClient>, voice: Option<VoiceClient>)
      ensures this.llm == llm && this.memory == memory && this.personas == personas
      ensures this.vision == vision && this.voice == voice
    {
      this.llm := llm;
      this.memory := memory;
      this.personas := personas;
      this.vision := vision;
      this.voice := voice;
    }

    /** The objects a turn may modify: the memory store, if any. */
    ghost function Repr(): set<object> {
      if memory.Some? then {memory.value} else {}
    }

    /** A session's stored history ([] without memory). */
    ghost function Stored(session: string): seq<Message>
      reads Repr()
    {
      if memory.Some? then memory.value.History(session) else []
    }

    /** `get_greeting`: the default persona's greeting, else a fixed one. */
    function GetGreeting(): (g: string)
      requires personas.Valid()
      ensures personas.GetDefaultPersona().greeting.Some? ==> g == personas.GetDefaultPersona().greeting.value
      ensures personas.GetDefaultPersona().greeting.None? ==> g == DefaultGreeting
    {
      match personas.GetDefaultPersona().greeting
      case Some(greeting) => greeting
      case None => DefaultGreeting
    }

    /** The system prompt of every turn: the default persona's. */
    function Prompt(): string
      requires personas.Valid()
    {
      personas.GetDefaultPersona().systemPrompt
    }

    /** The turn `handle_message` performs, as a function of the session's history before it. */
    function Respond(stored: seq<Message>, session: string, input: Input, userId: Option<string>, faults: MemoryFaults): (t: TurnResult)
      requires personas.Valid()
      ensures input.Text? ==> t == TextTurn(llm, Prompt(), memory.Some?, stored, session, input.text, userId, faults)
      // A missing capability is an advisory reply, with no backend call and nothing stored.
      ensures (input.Image? || input.Video?) && vision.None? ==> t == TurnResult(Success(VisionDisabled), stored, [])
      ensures input.Audio? && voice.None? ==> t == TurnResult(Success(VoiceDisabled), stored, [])
      // Present vision: one call with the fixed instruction, its answer returned as is.
      ensures input.Image? && vision.Some? ==>
                t == TurnResult(vision.value.analyzeImage(input.reference, ImageInstruction), stored,
                                [ImageCall(input.reference, ImageInstruction)])
      ensures input.Video? && vision.Some? ==>
                t == TurnResult(vision.value.analyzeVideo(input.reference, VideoInstruction), stored,
                                [VideoCall(input.reference, VideoInstruction)])
      // Present voice: transcribe, then the transcript goes through the text pipeline; a transcription error is returned.
      ensures input.Audio? && voice.Some? ==> |t.calls| >= 1 && t.calls[0] == TranscribeCall(input.data)
      ensures input.Audio? && voice.Some? && voice.value.speechToText(input.data).Failure? ==>
                t == TurnResult(voice.value.speechToText(input.data), stored, [TranscribeCall(input.data)])
      ensures input.Audio? && voice.Some? && voice.value.speechToText(input.data).Success? ==>
                var tt := TextTurn(llm, Prompt(), memory.Some?, stored, session, voice.value.speechToText(input.data).value, userId, faults);
                t == TurnResult(tt.reply, tt.stored, [TranscribeCall(input.data)] + tt.calls)
    {
      match input
      case Text(text) => TextTurn(llm, Prompt(), memory.Some?, stored, session, text, userId, faults)
      case Image(reference) =>
        if vision.None? then TurnResult(Success(VisionDisabled), stored, [])
        else TurnResult(vision.value.analyzeImage(reference, ImageInstruction), stored, [ImageCall(reference, ImageInstruction)])
      case Audio(data) =>
        if voice.None? then TurnResult(Success(VoiceDisabled), stored, [])
        else (match voice.value.speechToText(data)
          case Failure(e) => TurnResult(Failure(e), stored, [TranscribeCall(data)])
          case Success(text) =>
            var tt := TextTurn(llm, Prompt(), memory.Some?, stored, session, text, userId, faults);
            TurnResult(tt.reply, tt.stored, [TranscribeCall(data)] + tt.calls))
      case Video(reference) =>
        if vision.None? then TurnResult(Success(VisionDisabled), stored, [])
        else TurnResult(vision.value.analyzeVideo(reference, VideoInstruction), stored, [VideoCall(reference, VideoInstruction)])
    }

    /** `handle_text`: the text pipeline, changing only the session's stored history. */
    method HandleText(session: string, text: string, userId: Option<string>, faults: MemoryFaults)
      returns (r: Result<string>, ghost calls: seq<Call>)
      requires personas.Valid()
      modifies Repr()
      ensures var t := TextTurn(llm, Prompt(), memory.Some?, old(Stored(session)), session, text, userId, faults);
              r == t.reply && calls == t.calls && Stored(session) == t.stored
      ensures forall s :: s != session ==> Stored(s) == old(Stored(s))
    {
      var persona := personas.GetDefaultPersona();
      var user := UserMessage(text, userId);
      calls := [];
      if memory.Some? {
        var written := memory.value.AddMessage(session, user, faults.userWrite);
        calls := calls + [StoreAppend(session, user)];
        if written.Fail? {
          return Failure(written.error), calls;
        }
      }

      var messages := [SystemMessage(persona.systemPrompt)];
      if memory.Some? {
        var history := memory.value.GetHistory(session, faults.historyRead);
        calls := calls + [StoreRead(session)];
        if history.Failure? {
          return Failure(history.error), calls;
        }
        assert history.value == old(Stored(session)) + [user];
        messages := messages + history.value;
      } else {
        messages := messages + [user];
      }

      assert memory.None? ==> messages == [SystemMessage(Prompt()), user];
      assert memory.Some? ==> messages == [SystemMessage(Prompt())] + (old(Stored(session)) + [user]);
      var reply := Chat(llm, messages);
      calls := calls + [ChatCall(messages)];
      if reply.Failure? {
        return Failure(reply.error), calls;
      }

      if memory.Some? {
        var bot := AssistantMessage(reply.value);
        var written := memory.value.AddMessage(session, bot, faults.assistantWrite);
        calls := calls + [StoreAppend(session, bot)];
        if written.Fail? {
          return Failure(written.error), calls;
        }
      }
      r := Success(reply.value);
    }

    /** `handle_message`: dispatch on the modality and on which optional backends are present. */
    method HandleMessage(session: string, input: Input, userId: Option<string>, faults: MemoryFaults)
      returns (r: Result<string>, ghost calls: seq<Call>)
      requires personas.Valid()
      modifies Repr()
      ensures var t := Respond(old(Stored(session)), session, input, userId, faults);
              r == t.reply && calls == t.calls && Stored(session) == t.stored
      ensures forall s :: s != session ==> Stored(s) == old(Stored(s))
    {
      match input
      case Text(text) =>
        r, calls := HandleText(session, text, userId, faults);
      case Image(reference) =>
        if vision.Some? {
          r := vision.value.analyzeImage(reference, ImageInstruction);
          calls := [ImageCall(reference, ImageInstruction)];
        } else {
          r, calls := Success(VisionDisabled), [];
        }
      case Audio(data) =>
        if voice.Some? {
          var transcript := voice.value.speechToText(data);
          if transcript.Failure? {
            return Failure(transcript.error), [TranscribeCall(data)];
          }
          ghost var rest;
          r, rest := HandleText(session, transcript.value, userId, faults);
          calls := [TranscribeCall(data)] + rest;
        } else {
          r, calls := Success(VoiceDisabled), [];
        }
      case Video(reference) =>
        if vision.Some? {
          r := vision.value.analyzeVideo(reference, VideoInstruction);
          calls := [VideoCall(reference, VideoInstruction)];
        } else {
          r, calls := Success(VisionDisabled), [];
        }
    }
  }

  /** Image and video turns never touch the memory store, whatever the backends. */
  lemma VisualTurnsLeaveMemoryAlone(bot: Bot, stored: seq<Message>, session: string, input: Input,
                                    userId: Option<string>, faults: MemoryFaults)
    requires bot.personas.Valid() && (input.Image? || input.Video?)
    ensures var t := bot.Respond(stored, session, input, userId, faults);
            t.stored == stored && forall i :: 0 <= i < |t.calls| ==> !t.calls[i].StoreAppend? && !t.calls[i].StoreRead?
  {
  }

  /** A transcribed audio turn is the text turn of its transcript, preceded by the transcription call. */
  lemma AudioIsTranscribedText(bot: Bot, stored: seq<Message>, session: string, data: seq<byte>,
                               userId: Option<string>, faults: MemoryFaults)
    requires bot.personas.Valid() && bot.voice.Some? && bot.voice.value.speechToText(data).Success?
    ensures var transcript := bot.voice.value.speechToText(data).value;
            var a := bot.Respond(stored, session, Audio(data), userId, faults);
            var t := bot.Respond(stored, session, Text(transcript), userId, faults);
            a.reply == t.reply && a.stored == t.stored && a.calls == [TranscribeCall(data)] + t.calls
  {
  }

  /** With the Doubao voice placeholder, every audio turn fails with the ASR error and stores nothing. */
  lemma DoubaoAudioFails(bot: Bot, stored: seq<Message>, session: string, data: seq<byte>,
                         userId: Option<string>, faults: MemoryFaults)
    requires bot.personas.Valid() && bot.voice == Some(DoubaoVoice())
    ensures bot.Respond(stored, session, Audio(data), userId, faults)
            == TurnResult(Failure("ASR not fully implemented yet"), stored, [TranscribeCall(data)])
  {
  }

  /** A registry built from a directory without persona files greets with the fallback greeting. */
  lemma FallbackGreeting(bot: Bot, entries: seq<DirEntry>)
    requires forall i :: 0 <= i < |entries| ==> entries[i].File? && !IsPersonaFile(entries[i])
    requires Load(entries).Success? && bot.personas.Valid()
    requires bot.personas.personas == WithFallback(Load(entries).value)
    ensures bot.GetGreeting() == "Hello! How can I help you?"
  {
    EmptyDirectoryFallback(entries, bot.personas);
  }
}
