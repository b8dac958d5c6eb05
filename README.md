# A verified model of the chatbot's message-handling core

This project models the core of a conversational-agent orchestrator written in
Rust. A platform adapter (a terminal REPL or a OneBot v11 WebSocket bridge)
hands the bot a session id, an `Input` (text, image, audio or video) and an
optional user id. The bot dispatches on the modality. Text, typed or
transcribed, goes through one pipeline:

1. store the user message in the conversation memory, if any;
2. build the context: the default persona's system prompt, then the stored
   history (or the user message alone without memory);
3. ask the language model;
4. store the assistant reply;
5. return the reply.

Every backend failure is returned to the caller unchanged.

The Dafny modules follow the source tree:

| module | file | models |
|---|---|---|
| `Common` | common.dfy | `Option`, `Result`, `Outcome` (Rust's `Result<()>`), bytes |
| `Prompt` | prompt.dfy | `Input`, `Message` and its constructors; the serde object view of a `Message` |
| `Llm` | llm.dfy | the `LLMClient`, `VisionClient` and `VoiceClient` contracts; `MockLLM`; the Doubao placeholders |
| `PersonaRegistry` | persona.dfy | `Persona`, `PersonaManager::new` (a loop method), `get_default_persona` |
| `Memory` | memory.dfy | the `Memory` interface, as a class holding a `map<string, seq<Message>>` |
| `Redis` | redis.dfy | `RedisMemory` over a class modelling the Redis lists and expiries |
| `Orchestrator` | bot.dfy | `Bot`, `get_greeting`, `handle_message`, `handle_text` |
| `Platform` | platform.dfy | what an adapter passes to the bot and gets back |
| `Terminal` | terminal.dfy | the terminal loop: trimming, exit commands, blank lines, printing |
| `OneBot` | onebot.dfy | the OneBot loop: event filtering, defaults, session ids, reply routing |

Modelling choices:

- **Backends.** A backend is the function it computes: `RemoteLLM(chat)`, or
  `VisionClient(analyzeImage, analyzeVideo)`. `MockLLM` is concrete.
- **Failures decided outside the program.** Whether a memory write, a Redis
  command, a connection or a WebSocket send fails is a parameter
  (`fault: Option<Error>`, `MemoryFaults`, `transport`). A failed memory
  write is either rejected outright or fails after storing its message
  (`WriteFault`), as the Redis store's write does when its EXPIRE fails.
- **Bot methods.** `Bot.HandleText` and `Bot.HandleMessage` are imperative
  methods that mutate the memory store. Each is proved equal to a pure
  specification (`TextTurn`, `Respond`) and records its backend calls in a
  ghost trace, so the contracts can state the order of the calls.
- **Adapter loops.** Each loop is a method proved equal to a fold over its
  input (`Terminal.Session`, `OneBot.Pump`). The bot appears there as a
  `BotView`: its greeting, and its answer as a function of all requests
  received so far.

Where the specification and the code differ, the model follows the code:

- The specification describes a persona `lookup(name)` operation. The code
  has none, so the model has none.
- The specification gives a message's role as an enumeration. The code uses a
  free string, and so does the model.

## Model

| member | source | states |
|---|---|---|
| Prompt.NewMessage | src/prompt/mod.rs:21-27 | role and content are copied verbatim; the user id is stored as given |
| Prompt.SystemMessage | src/prompt/mod.rs:30-32 | role "system", the given content, no user id |
| Prompt.UserMessage | src/prompt/mod.rs:35-37 | role "user", the given content, the given user id unchanged |
| Prompt.AssistantMessage | src/prompt/mod.rs:40-42 | role "assistant", the given content, no user id |
| Prompt.ConstructorsDistinct | src/prompt/mod.rs:29-42 | system, user and assistant messages never coincide, whatever their contents |
| Prompt.ToJson | src/prompt/mod.rs:11-17 | the serialised object has members role and content, plus user_id exactly when the user id is present; deserialising it gives the message back |
| Prompt.FromJson | src/prompt/mod.rs:11-17 | deserialisation succeeds exactly when role and content are strings and user_id is missing, null or a string; a missing or null user_id reads as None |
| Llm.LastContent | src/llm/mod.rs:30-33 | the last message's content, or "" for an empty context |
| Llm.Chat | src/llm/mod.rs:28-34 | a remote backend answers with its own function of the whole context; the mock never fails and its reply quotes the last content between the fixed preamble and a closing quote |
| Llm.Quoted | src/llm/mod.rs:34 | a helper that reads the mock's reply format back (it models no source function): a quoted text q is returned only for the reply preamble + q + "'" |
| Llm.MockEchoesLastContent | src/llm/mod.rs:28-35 | the mock never fails, and contexts with the same last content get the same reply (roles and earlier messages do not matter) |
| Llm.MockEmptyContext | src/llm/mod.rs:30-34 | for an empty context the mock answers "MockAI: I received your message: ''" |
| Llm.DoubaoVision | src/llm/doubao.rs:138-141 | Doubao's image analysis is the provider's answer; its video analysis always fails with "Video analysis not yet implemented" |
| Llm.DoubaoVoice | src/llm/doubao.rs:144-155 | Doubao's transcription always fails with "ASR not fully implemented yet" and synthesis with "TTS not fully implemented yet" |
| PersonaRegistry.EntryKey | src/persona/mod.rs:36-41 | a persona is keyed by its file stem, or by its inner name when the stem is missing |
| PersonaRegistry.LoadLastWins | src/persona/mod.rs:27-45 | after loading, a key is present exactly when some ".json" entry has that key, and it holds the last such entry's persona; other extensions are ignored |
| PersonaRegistry.LoadFailurePersists | src/persona/mod.rs:27-34 | the first unreadable entry or unreadable/unparsable persona file decides the outcome: later entries do not matter |
| PersonaRegistry.NoPersonaFilesLoadNothing | src/persona/mod.rs:30 | a directory with no ".json" file (and no unreadable entry) loads an empty map |
| PersonaRegistry.WithFallback | src/persona/mod.rs:47-56 | the registry is never empty: an empty load becomes exactly {"default": the built-in persona}, a non-empty one is kept as loaded |
| PersonaRegistry.PersonaManager.GetDefaultPersona | src/persona/mod.rs:64-69 | on a non-empty registry it returns an existing persona: the one under the default name if present, otherwise the first entry in iteration order; it cannot panic |
| PersonaRegistry.New | src/persona/mod.rs:20-62 | a listing error or the first failing entry is returned; otherwise the registry is the loaded map with the fallback rule applied, non-empty, with the default name stored verbatim |
| PersonaRegistry.EmptyDirectoryFallback | src/persona/mod.rs:47-56 | with no persona file the registry is exactly the fallback, and it is the default persona whatever name was asked for |
| Memory.Appended | src/memory/mod.rs:11-12 | adding a message extends that session's history by exactly that message and leaves every other session's history unchanged |
| Memory.ReplayAppendsPerSession | src/memory/mod.rs:7-13 | after any sequence of writes, a session's history is its old history followed by exactly the messages written to it, in write order: histories only grow by appending |
| Memory.MemoryStore.GetHistory | src/memory/mod.rs:9 | returns the session's whole history in insertion order, or the backend's error |
| Memory.MemoryStore.AddMessage | src/memory/mod.rs:12 | on success appends to that session only; a failure returns its error, and leaves the histories unchanged when the write was rejected, or with the message appended when it failed after storing |
| Redis.Deserialize | src/memory/redis.rs:31 | a stored string yields a message only if it parses as a JSON object that deserialises as a Message |
| Redis.SerializeRoundTrip | src/memory/redis.rs:31-44 | if parsing undoes rendering, a message stored and read back is the same message, user id (or its absence) included |
| Redis.DecodeAll | src/memory/redis.rs:29-34 | the decoded history is no longer than the stored list and each decoded message comes from a stored entry |
| Redis.DecodeOne | src/memory/redis.rs:30-32 | one stored entry yields its message when it decodes and nothing otherwise |
| Redis.DecodeKeeps | src/memory/redis.rs:29-34 | every entry that decodes is kept, in its place: the history is what decodes before it, its message, then what decodes after it |
| Redis.DecodeAllConcat | src/memory/redis.rs:29-34 | decoding distributes over concatenation: entries that fail to decode are dropped and the others keep their relative order |
| Redis.SessionKey | src/memory/redis.rs:25 | the key is "chat:" followed by the session id |
| Redis.SessionKeyInjective | src/memory/redis.rs:25 | distinct sessions never share a Redis list |
| Redis.Range | src/memory/redis.rs:27 | LRANGE never returns more than the list holds |
| Redis.WholeRange | src/memory/redis.rs:27 | LRANGE 0 -1 returns the whole list in stored order |
| Redis.ListStore.RPush | src/memory/redis.rs:44 | RPUSH appends at the tail of that key's list only; a failed command changes nothing |
| Redis.ListStore.LRange | src/memory/redis.rs:27 | LRANGE returns the LRANGE slice of the key's list, or the command's error |
| Redis.ListStore.Expire | src/memory/redis.rs:46 | EXPIRE sets the expiry of an existing key and leaves the lists alone |
| Redis.RedisMemory.GetHistory | src/memory/redis.rs:23-37 | a connection or LRANGE error is returned; otherwise the decoding loop yields exactly the decodable entries of "chat:"+session, in order |
| Redis.RedisMemory.AddMessage | src/memory/redis.rs:39-49 | connection or serialisation errors are returned before anything is pushed; RPUSH appends the serialised message at the tail; a later EXPIRE error is returned with the message left pushed; a successful write sets a 86400-second expiry; if parsing undoes rendering the history grows by exactly that message; other sessions never change |
| Orchestrator.Context | src/bot.rs:97-109 | the context starts with the system prompt and ends with the user message; without memory it is exactly [system, user]; with memory it is the system prompt followed by the stored history |
| Orchestrator.TextTurn | src/bot.rs:81-120 | the text pipeline as a function of the session's history before the turn: it makes at least one and at most four backend calls (user write, history read, LLM call, assistant write), and a reply means all of them were made |
| Orchestrator.TextTurnCalls | src/bot.rs:81-120 | without memory the LLM is called once with exactly [system(prompt), user(text, id)], its answer is returned unchanged and nothing is stored; with memory the user message is appended first, and history is read only after that write succeeded |
| Orchestrator.TextTurnContext | src/bot.rs:97-119 | every context the LLM sees is the system prompt followed by the history ending in the user message (or the user message alone without memory); a successful reply is the LLM's answer to that context |
| Orchestrator.TextTurnErrors | src/bot.rs:103-111 | with memory, a failed history read returns its error, and a failed LLM call returns the LLM's error |
| Orchestrator.TextTurnStorage | src/bot.rs:91-119 | a successful turn grows the history by exactly [user, assistant(reply)]; a failed first write is returned and keeps the user message unless it was rejected outright; after a successful first write the user message stays stored; a failed history read or LLM call leaves exactly the user message; a failed assistant write is returned instead of the reply and keeps the reply unless it was rejected; a failed turn stores an assistant message only when that write failed after storing |
| Orchestrator.TwoTurns | src/bot.rs:93-117 | two successful turns leave [user1, assistant1, user2, assistant2] after the old history |
| Orchestrator.MockScenario | src/bot.rs:98-111 | with the mock backend and no memory, "hi" is answered with "MockAI: I received your message: 'hi'" |
| Orchestrator.HistoryScenario | src/bot.rs:101-106 | with stored [user a, assistant b] and new text c, the LLM sees [system, a, b, c] |
| Orchestrator.Bot.constructor | src/bot.rs:21-35 | the bot holds exactly the given handles |
| Orchestrator.Bot.GetGreeting | src/bot.rs:37-43 | the default persona's greeting, or "Hello! I am ready." when it has none |
| Orchestrator.Bot.Respond | src/bot.rs:45-79 | text goes through the text pipeline; with no vision backend, images and videos get "Vision capability not enabled." with no call; with no voice backend, audio gets "Voice capability not enabled."; a present vision backend is asked once with "Describe this image"/"Describe this video" and its answer returned; audio is transcribed first, a transcription error is returned, a transcript goes through the text pipeline |
| Orchestrator.Bot.HandleText | src/bot.rs:81-120 | the imperative pipeline returns the reply, makes the calls and leaves the stored history that TextTurn describes, and no other session's history changes |
| Orchestrator.Bot.HandleMessage | src/bot.rs:45-79 | the imperative dispatch returns, calls and stores what Respond describes, and no other session's history changes |
| Orchestrator.VisualTurnsLeaveMemoryAlone | src/bot.rs:53-77 | image and video turns never read or write memory |
| Orchestrator.AudioIsTranscribedText | src/bot.rs:61-69 | a transcribed audio turn returns and stores what a text turn of its transcript would, after one transcription call |
| Orchestrator.DoubaoAudioFails | src/bot.rs:61-65 | with the Doubao voice placeholder every audio turn fails with the ASR error and stores nothing |
| Orchestrator.FallbackGreeting | src/bot.rs:37-43 | a bot whose registry came from a directory without persona files greets with "Hello! How can I help you?" |
| Terminal.Trim | src/platform/terminal.rs:32 | the trimmed line is the input after its leading white space, followed only by white space; it starts and ends with a non-white-space character and is empty exactly for an all-white-space line |
| Terminal.TrimIdempotent | src/platform/terminal.rs:32 | trimming a trimmed line changes nothing |
| Terminal.QuitCommands | src/platform/terminal.rs:33-35 | examples: "exit", "EXIT", "Quit" and "qUIt" are exit commands; "exit!", "" and "bye" are not |
| Terminal.QuitCommandSpelling | src/platform/terminal.rs:33-35 | a trimmed line is an exit command exactly when it has four characters, each the letter of "exit" or of "quit" in either ASCII case |
| Terminal.Classify | src/platform/terminal.rs:28-39 | an empty read is end of input; a trimmed exit command stops; an all-white-space line is skipped; any other line is asked as its trimmed, non-blank, non-command text |
| Terminal.Render | src/platform/terminal.rs:45-55 | a reply is printed followed by a newline, an error as "Error: " + message + newline |
| Terminal.Feed | src/platform/terminal.rs:22-57 | each iteration prints the prompt first; a stopped loop reads nothing more; an asked line sends one more request and prints the rendered answer to all requests so far; output is only appended to |
| Terminal.GreetingComesFirst | src/platform/terminal.rs:14-15 | the greeting and the exit hint stay the first two outputs whatever is read |
| Terminal.TranscriptFrame | src/platform/terminal.rs:14-59 | the output opens with the greeting and the hint, before any input is read, and closes with "Goodbye!" |
| Terminal.StoppedSessionIgnoresInput | src/platform/terminal.rs:28-35 | after end of input or an exit command, later lines change nothing |
| Terminal.RequestsAreTrimmedLines | src/platform/terminal.rs:41-43 | every bot call is in session "terminal-session", with no user id, and carries a trimmed, non-blank line that is not an exit command |
| Terminal.HandleLine | src/platform/terminal.rs:23-56 | one imperative iteration computes exactly Feed |
| Terminal.Run | src/platform/terminal.rs:13-61 | the loop prints exactly the transcript and makes exactly the bot calls of the fold over the input lines, stopping at end of input or at an exit command |
| OneBot.NaturalRoundTrip | src/platform/onebot.rs:99 | reading the decimal digits of a number back gives the number |
| OneBot.Decimal | src/platform/onebot.rs:99 | the decimal text has a leading minus exactly for negative numbers and never contains ':' |
| OneBot.DecimalInjective | src/platform/onebot.rs:99 | distinct user ids have distinct decimal texts |
| OneBot.SessionId | src/platform/onebot.rs:83-87 | "onebot:group:{gid}:{uid}" when a group id is present, else "onebot:private:{uid}" |
| OneBot.SessionIdInjective | src/platform/onebot.rs:82-87 | distinct (user, group) pairs, including private versus group, never share a session |
| OneBot.Accept | src/platform/onebot.rs:72-80 | only text frames parsing as an event with post type "message" reach the bot; a missing raw message becomes "", a missing user id 0, a missing message type "private" |
| OneBot.Reply | src/platform/onebot.rs:105-116 | the reply call has action "send_msg", the reply as message and the event's message type; the group id is passed through and the user id is set exactly when there is no group id |
| OneBot.Step | src/platform/onebot.rs:63-127 | a read error is logged and the loop goes on; a frame that is not a message event makes no bot call and sends nothing; a message event makes exactly one bot call; a bot error is logged, nothing is sent and the loop goes on; a reply is sent as Reply(event, answer), to the event's group or sender; a failed send sends nothing and ends the loop with that error; sent calls are never taken back; a failed loop stays failed |
| OneBot.FailedBridgeIgnoresFrames | src/platform/onebot.rs:119-120 | after a failed send, later frames change nothing |
| OneBot.RepliesAreAddressed | src/platform/onebot.rs:105-116 | every sent call is "send_msg" with exactly one of user id and group id, and there are never more replies than bot calls |
| OneBot.ToRequest | src/platform/onebot.rs:95-100 | the bot is called with the event's session, its raw message as text input, and the sender's id in decimal |
| OneBot.RequestsCarrySender | src/platform/onebot.rs:72-100 | every bot call is the request of some message event among the frames: that event's session, raw text and sender's decimal id |
| OneBot.HandleFrame | src/platform/onebot.rs:64-124 | one imperative iteration computes exactly Step: a read error is logged, a bot error is logged and nothing is sent, a reply is sent |
| OneBot.Run | src/platform/onebot.rs:52-130 | a connection error is returned at once; otherwise the loop makes the bot calls, sends the replies and logs the errors of the fold over the frames, and returns the first send error |

## Left out

- src/memory/postgres.rs is not part of this model: it is SQL through sqlx, ordered by timestamps. The abstract `Memory` class stands for it. Its CREATE TABLE (src/memory/postgres.rs:22-29) has no `user_id` column, yet its SELECT and INSERT use one (src/memory/postgres.rs:42, 60).
- The provider clients (src/llm/deepseek.rs, src/llm/grok.rs, and Doubao's image call) are HTTP/JSON exchanges. They appear only as the functions they compute. Only Doubao's fixed placeholders are modelled.
- src/main.rs (environment-driven wiring) is not part of this model. Which optional backends are present is a constructor argument of `Bot`.
- Orchestrator.Bot: the memory handle is the abstract `MemoryStore`. `RedisMemory` is not plugged into `Bot`. Its write ends as the abstract store's faults describe: a connection, serialisation or RPUSH error is a rejected write; an EXPIRE error after the RPUSH is a write that failed after storing.
- Redis.ListStore: time and key expiry are not modelled. `Expire` records the 24-hour time to live, but no key ever expires, so a history the real server drops after a day without writes stays in the model, and histories only grow.
- Redis.Serialize and Redis.Deserialize: the JSON text layer (serde_json's rendering and parsing) is abstract. Properties that need parsing to undo rendering state that assumption as `Faithful`.
- PersonaRegistry.New: reading the directory and each file is I/O. Each entry carries the outcome of reading and parsing its file. The `anyhow` context text added to those errors is not modelled.
- PersonaRegistry.PersonaManager.GetDefaultPersona: `HashMap` iteration order is not modelled. The entry returned when the default name is missing is `firstKey`, an arbitrary existing key fixed at construction.
- Terminal.Run: errors writing to stdout or reading stdin (the `?` on write, flush and read_line) are not modelled. Standard input is a list of reads, and output is a list of written strings.
- OneBot.Run: the WebSocket URL (ONEBOT_WS_URL) and `info!` logging are not modelled. Frames arrive already split into read error, text frame with or without a parsed event, and other frames.
- OneBot.Run: serialising an `ApiCall` to JSON is treated as infallible, and its wire text is not modelled. The calls sent are kept as values.
- Redis.RedisMemory: REDIS_URL and client creation are not modelled. Each operation takes the outcome of opening its connection.
- Integer widths: user and group ids are bounded to `i64` in the OneBot event. Other integers are unbounded, because no core operation can overflow.
- async/await, `Arc` and `Send + Sync` are not modelled. Each turn is sequential, and concurrent turns are not modelled.
- `VoiceClient::text_to_speech` is never called by the bot. It appears only in `DoubaoVoice`.
