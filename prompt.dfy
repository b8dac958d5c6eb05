/** The values that flow through the bot: inputs and chat messages (src/prompt/mod.rs). */
module Prompt {
  import opened Common

  /** One incoming payload; exactly one modality per turn. */
  datatype Input =
    | Text(text: string)
    | Image(reference: string)   // URL, base64 data or path
    | Audio(data: seq<byte>)     // raw audio bytes
    | Video(reference: string)   // URL or path

  /** A chat message: a role ("system", "user", "assistant"), its text and who sent it. */
  datatype Message = Message(role: string, content: string, userId: Option<string>)

  function NewMessage(role: string, content: string, userId: Option<string>): (m: Message)
    ensures m.role == role && m.content == content && m.userId == userId
  {
    Message(role, content, userId)
  }

  function SystemMessage(content: string): (m: Message)
    ensures m.role == "system" && m.content == content && m.userId == None
  {
    NewMessage("system", content, None)
  }

  function UserMessage(content: string, userId: Option<string>): (m: Message)
    ensures m.role == "user" && m.content == content && m.userId == userId
  {
    NewMessage("user", content, userId)
  }

  function AssistantMessage(content: string): (m: Message)
    ensures m.role == "assistant" && m.content == content && m.userId == None
  {
    NewMessage("assistant", content, None)
  }

  /** The three constructors never produce the same message: their roles differ. */
  lemma ConstructorsDistinct(a: string, b: string, c: string, u: Option<string>)
    ensures SystemMessage(a) != UserMessage(b, u)
    ensures UserMessage(b, u) != AssistantMessage(c)
    ensures AssistantMessage(c) != SystemMessage(a)
  {
    assert SystemMessage(a).role[0] == 's';
    assert UserMessage(b, u).role[0] == 'u';
    assert AssistantMessage(c).role[0] == 'a';
  }

  // ---------------------------------------------------------------------------
  // The serde view of a Message: a JSON object whose members are named by the
  // struct's fields. The rendering of such an object as text is left abstract
  // (see module Redis).

  /** The JSON values a Message field can meet: a string, `null`, or anything else. */
  datatype JsonValue = JString(s: string) | JNull | JOther

  type JsonObject = map<string, JsonValue>

  /** `#[derive(Serialize)]` with `skip_serializing_if = "Option::is_none"` on `user_id`. */
  function ToJson(m: Message): (o: JsonObject)
    ensures o.Keys == {"role", "content"} + (if m.userId.Some? then {"user_id"} else {})
    ensures "user_id" !in o <==> m.userId == None
    ensures FromJson(o) == Some(m)
  {
    var base := map["role" := JString(m.role), "content" := JString(m.content)];
    match m.userId
    case None => base
    case Some(u) => base["user_id" := JString(u)]
  }

  /**
   * `#[derive(Deserialize)]`: "role" and "content" must be strings, "user_id"
   * may be missing or null (None) or a string; other members are ignored.
   */
  function FromJson(o: JsonObject): (r: Option<Message>)
    ensures r.Some? <==> ("role" in o && o["role"].JString? && "content" in o && o["content"].JString?
                          && ("user_id" in o ==> !o["user_id"].JOther?))
    ensures r.Some? ==> r.value.role == o["role"].s && r.value.content == o["content"].s
    ensures r.Some? ==> (r.value.userId == None <==> "user_id" !in o || o["user_id"].JNull?)
  {
    if "role" !in o || !o["role"].JString? || "content" !in o || !o["content"].JString? then None
    else if "user_id" !in o then Some(Message(o["role"].s, o["content"].s, None))
    else match o["user_id"]
      case JNull => Some(Message(o["role"].s, o["content"].s, None))
      case JString(u) => Some(Message(o["role"].s, o["content"].s, Some(u)))
      case JOther => None
  }
}
