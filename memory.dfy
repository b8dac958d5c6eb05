/**
 * The conversation store as the bot sees it (src/memory/mod.rs): a history per
 * session id, read whole and extended one message at a time. The interface has
 * no update and no delete.
 *
 * Whether a backend call fails is decided outside the program (a network or
 * database error); each operation takes that decision as its `fault`
 * parameter.
 */
module Memory {
  import opened Common
  import opened Prompt

  /** The history of a session in a map of histories; a session never written to has none. */
  function Lookup(histories: map<string, seq<Message>>, session: string): seq<Message>
  {
    if session in histories then histories[session] else []
  }

  /** The histories after appending `message` to `session`. */
  function Appended(histories: map<string, seq<Message>>, session: string, message: Message): (r: map<string, seq<Message>>)
    ensures Lookup(r, session) == Lookup(histories, session) + [message]
    ensures forall s :: s != session ==> Lookup(r, s) == Lookup(histories, s)
  {
    histories[session := Lookup(histories, session) + [message]]
  }

  /** A sequence of successful writes, applied in order. */
  function Replay(histories: map<string, seq<Message>>, writes: seq<(string, Message)>): map<string, seq<Message>>
  {
    if writes == [] then histories
    else
      var last := writes[|writes| - 1];
      Appended(Replay(histories, writes[..|writes| - 1]), last.0, last.1)
  }

  /** The messages among `writes` addressed to `session`, in write order. */
  function AddressedTo(writes: seq<(string, Message)>, session: string): seq<Message>
  {
    if writes == [] then []
    else
      var last := writes[|writes| - 1];
      AddressedTo(writes[..|writes| - 1], session) + (if last.0 == session then [last.1] else [])
  }

  /**
   * Writes only ever append: after any sequence of writes a session's history
   * is its old history followed by exactly the messages written to it, in
   * order; writes to other sessions leave it alone.
   */
  lemma {:induction false} ReplayAppendsPerSession(histories: map<string, seq<Message>>, writes: seq<(string, Message)>, session: string)
    ensures Lookup(Replay(histories, writes), session) == Lookup(histories, session) + AddressedTo(writes, session)
  {
    if writes != [] {
      ReplayAppendsPerSession(histories, writes[..|writes| - 1], session);
    }
  }

  /**
   * How a write failed: rejected before anything was stored, or failing after
   * the message was stored (the Redis store appends first and then sets the
   * key's expiry, whose error is returned with the message already in place).
   */
  datatype WriteFault = Rejected(error: Error) | FailedAfterStoring(error: Error)

  /** A session's history after an attempted append: the message is kept unless the write was rejected. */
  function AfterWrite(history: seq<Message>, message: Message, fault: Option<WriteFault>): seq<Message>
  {
    if fault.Some? && fault.value.Rejected? then history else history + [message]
  }

  /** An instance of the store. */
  class MemoryStore {
    var histories: map<string, seq<Message>>

    constructor ()
      ensures histories == map[]
    {
      histories := map[];
    }

    function History(session: string): seq<Message>
      reads this
    {
      Lookup(histories, session)
    }

    /** `get_history`: the session's whole history in insertion order, or the backend's error. */
    method GetHistory(session: string, fault: Option<Error>) returns (r: Result<seq<Message>>)
      ensures fault.Some? ==> r == Failure(fault.value)
      ensures fault.None? ==> r == Success(History(session))
    {
      if fault.Some? {
        return Failure(fault.value);
      }
      r := Success(History(session));
    }

    /**
     * `add_message`: appends to the session's history, or fails. A write
     * rejected outright changes nothing; a write that fails after storing
     * (a Redis EXPIRE error after the RPUSH) keeps the message.
     */
    method AddMessage(session: string, message: Message, fault: Option<WriteFault>) returns (r: Outcome)
      modifies this
      ensures fault.None? ==> r == Pass && histories == Appended(old(histories), session, message)
      ensures fault.Some? ==> r == Fail(fault.value.error)
      ensures fault.Some? && fault.value.Rejected? ==> histories == old(histories)
      ensures fault.Some? && fault.value.FailedAfterStoring? ==> histories == Appended(old(histories), session, message)
    {
      if fault.Some? && fault.value.Rejected? {
        return Fail(fault.value.error);
      }
      histories := Appended(histories, session, message);
      r := if fault.Some? then Fail(fault.value.error) else Pass;
    }
  }
}
