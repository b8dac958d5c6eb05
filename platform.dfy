/**
 * The boundary between a platform adapter and the bot (src/platform/mod.rs):
 * an adapter hands the bot `(session_id, Input, Option<user_id>)` and gets a
 * reply or an error back.
 */
module Platform {
  import opened Common
  import opened Prompt

  /** The arguments of one `handle_message` call. */
  datatype Request = Request(session: string, input: Input, userId: Option<string>)

  /**
   * The bot as an adapter sees it: its greeting, and its answer to a request
   * given every request it has received so far, the last one included. The
   * answer may depend on that history (through the memory store) and on the
   * backends, which the adapter cannot see.
   */
  datatype BotView = BotView(greeting: string, respond: seq<Request> -> Result<string>)
}
