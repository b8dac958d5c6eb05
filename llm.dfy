/**
 * The capability contracts the bot is written against (src/llm/mod.rs) and the
 * one backend whose behaviour is fixed by the source, MockLLM. A provider
 * backend is represented by the function it computes; its HTTP exchange is not
 * part of this model.
 */
module Llm {
  import opened Common
  import opened Prompt

  /**
   * `dyn LLMClient`: `chat` receives the whole ordered context as one slice
   * and answers with a reply or an error. It keeps no hidden state, so a
   * remote backend is a function of the context.
   */
  datatype LLMClient =
    | MockLLM
    | RemoteLLM(chat: seq<Message> -> Result<string>)

  /** `dyn VisionClient`: describe an image or a video given a reference and an instruction. */
  datatype VisionClient = VisionClient(
    analyzeImage: (string, string) -> Result<string>,
    analyzeVideo: (string, string) -> Result<string>)

  /** `dyn VoiceClient`: transcription and synthesis. */
  datatype VoiceClient = VoiceClient(
    speechToText: seq<byte> -> Result<string>,
    textToSpeech: string -> Result<seq<byte>>)

  const MockPreamble: string := "MockAI: I received your message: '"

  /** The content of the last message, or "" for an empty context (`unwrap_or_default`). */
  function LastContent(messages: seq<Message>): (c: string)
    ensures |messages| == 0 ==> c == ""
    ensures |messages| > 0 ==> c == messages[|messages| - 1].content
  {
    if |messages| == 0 then "" else messages[|messages| - 1].content
  }

  /** `LLMClient::chat`, dispatched on the backend. */
  function Chat(llm: LLMClient, messages: seq<Message>): (r: Result<string>)
    ensures llm.RemoteLLM? ==> r == llm.chat(messages)
    ensures llm.MockLLM? ==> r.Success? && Quoted(r.value) == Some(LastContent(messages))
  {
    match llm
    case MockLLM => Success(MockPreamble + LastContent(messages) + "'")
    case RemoteLLM(chat) => chat(messages)
  }

  /**
   * Reads a mock reply back: the text between the fixed preamble and the final
   * quote, if the reply has that shape.
   */
  function Quoted(reply: string): (q: Option<string>)
    ensures q.Some? ==> reply == MockPreamble + q.value + "'"
  {
    if |reply| >= |MockPreamble| + 1 && reply[..|MockPreamble|] == MockPreamble && reply[|reply| - 1] == '\''
    then
      var q := reply[|MockPreamble|..|reply| - 1];
      assert reply == reply[..|MockPreamble|] + q + [reply[|reply| - 1]];
      Some(q)
    else None
  }

  /** The mock never fails and its reply depends only on the last message's content. */
  lemma MockEchoesLastContent(a: seq<Message>, b: seq<Message>)
    requires LastContent(a) == LastContent(b)
    ensures Chat(MockLLM, a).Success?
    ensures Chat(MockLLM, a) == Chat(MockLLM, b)
  {
  }

  /** For an empty context the quoted part is empty. */
  lemma MockEmptyContext()
    ensures Chat(MockLLM, []) == Success("MockAI: I received your message: ''")
  {
    assert MockPreamble + "" + "'" == "MockAI: I received your message: ''";
  }

  /** The Doubao backend's vision half: images go to the provider, videos always fail. */
  function DoubaoVision(analyzeImage: (string, string) -> Result<string>): (v: VisionClient)
    ensures forall url, prompt :: v.analyzeImage(url, prompt) == analyzeImage(url, prompt)
    ensures forall url, prompt :: v.analyzeVideo(url, prompt) == Failure("Video analysis not yet implemented")
  {
    VisionClient(analyzeImage, (_, _) => Failure("Video analysis not yet implemented"))
  }

  /** The Doubao backend's voice half: both directions are unimplemented placeholders. */
  function DoubaoVoice(): (v: VoiceClient)
    ensures forall audio :: v.speechToText(audio) == Failure("ASR not fully implemented yet")
    ensures forall text :: v.textToSpeech(text) == Failure("TTS not fully implemented yet")
  {
    VoiceClient(_ => Failure("ASR not fully implemented yet"), _ => Failure("TTS not fully implemented yet"))
  }
}
