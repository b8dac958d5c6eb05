/**
 * The Redis-backed store (src/memory/redis.rs) over an abstract Redis: one
 * list of JSON strings per key "chat:<session>", appended with RPUSH, read
 * with LRANGE 0 -1, and given a one-day expiry on every write.
 *
 * serde_json's text layer is left abstract: a renderer and a parser of JSON
 * objects, with the stated assumption `Faithful` (parsing what was rendered
 * gives back the object) where a property depends on it. The mapping between
 * a Message and its JSON object is the concrete one of module Prompt.
 */
module Redis {
  import opened Common
  import opened Prompt

  /** `serde_json::to_string` and `serde_json::from_str` on JSON objects. */
  datatype JsonText = JsonText(render: JsonObject -> Result<string>, parse: string -> Option<JsonObject>)

  /** The assumption that parsing undoes rendering. */
  ghost predicate Faithful(json: JsonText) {
    forall o :: json.render(o).Success? ==> json.parse(json.render(o).value) == Some(o)
  }

  function Serialize(json: JsonText, m: Message): Result<string> {
    json.render(ToJson(m))
  }

  /** `serde_json::from_str::<Message>`: None when the text is not a Message. */
  function Deserialize(json: JsonText, raw: string): (r: Option<Message>)
    ensures r.Some? ==> json.parse(raw).Some? && FromJson(json.parse(raw).value) == r
  {
    match json.parse(raw)
    case None => None
    case Some(o) => FromJson(o)
  }

  /** Under the assumption, a stored message reads back as itself. */
  lemma SerializeRoundTrip(json: JsonText, m: Message)
    requires Faithful(json) && Serialize(json, m).Success?
    ensures Deserialize(json, Serialize(json, m).value) == Some(m)
  {
    assert json.parse(json.render(ToJson(m)).value) == Some(ToJson(m));
  }

  /** The messages of a stored list that decode, in list order; the others are dropped. */
  function DecodeAll(json: JsonText, raws: seq<string>): (ms: seq<Message>)
    ensures |ms| <= |raws|
    ensures forall i :: 0 <= i < |ms| ==> exists j :: 0 <= j < |raws| && Deserialize(json, raws[j]) == Some(ms[i])
  {
    if raws == [] then []
    else
      var init := DecodeAll(json, raws[..|raws| - 1]);
      var last := raws[|raws| - 1];
      assert forall j :: 0 <= j < |raws| - 1 ==> raws[..|raws| - 1][j] == raws[j];
      match Deserialize(json, last)
      case None => init
      case Some(m) => init + [m]
  }

  /** Decoding distributes over concatenation: dropping entries keeps the others' relative order. */
  lemma {:induction false} DecodeAllConcat(json: JsonText, a: seq<string>, b: seq<string>)
    ensures DecodeAll(json, a + b) == DecodeAll(json, a) + DecodeAll(json, b)
  {
    if b == [] {
      assert a + b == a;
    } else {
      var b' := b[..|b| - 1];
      assert (a + b)[..|a + b| - 1] == a + b';
      DecodeAllConcat(json, a, b');
    }
  }

  /** A single entry decodes to its message when it can, and to nothing otherwise. */
  lemma DecodeOne(json: JsonText, raw: string)
    ensures DecodeAll(json, [raw]) == (if Deserialize(json, raw).Some? then [Deserialize(json, raw).value] else [])
  {
    assert [raw][..0] == [];
  }

  /**
   * An entry that decodes is kept, in its place: the history is what decodes
   * before it, then its message, then what decodes after it.
   */
  lemma DecodeKeeps(json: JsonText, raws: seq<string>, j: nat)
    requires j < |raws| && Deserialize(json, raws[j]).Some?
    ensures DecodeAll(json, raws) == DecodeAll(json, raws[..j]) + [Deserialize(json, raws[j]).value] + DecodeAll(json, raws[j + 1..])
    ensures Deserialize(json, raws[j]).value in DecodeAll(json, raws)
  {
    assert raws == raws[..j] + ([raws[j]] + raws[j + 1..]);
    DecodeAllConcat(json, raws[..j], [raws[j]] + raws[j + 1..]);
    DecodeAllConcat(json, [raws[j]], raws[j + 1..]);
    DecodeOne(json, raws[j]);
  }

  const KeyPrefix: string := "chat:"

  /** The Redis key of a session, the same for reads and writes. */
  function SessionKey(session: string): (key: string)
    ensures |key| == |KeyPrefix| + |session|
    ensures key[..|KeyPrefix|] == KeyPrefix && key[|KeyPrefix|..] == session
  {
    KeyPrefix + session
  }

  /** Distinct sessions never share a list. */
  lemma SessionKeyInjective(a: string, b: string)
    ensures SessionKey(a) == SessionKey(b) ==> a == b
  {
    if SessionKey(a) == SessionKey(b) {
      assert a == SessionKey(a)[|KeyPrefix|..] == SessionKey(b)[|KeyPrefix|..] == b;
    }
  }

  /** LRANGE's index rules: negative indices count from the end, out-of-range ones are clamped. */
  function Range(list: seq<string>, start: int, stop: int): (r: seq<string>)
    ensures |r| <= |list|
  {
    var n := |list|;
    var s0 := if start < 0 then n + start else start;
    var e0 := if stop < 0 then n + stop else stop;
    var s := if s0 < 0 then 0 else s0;
    if s > e0 || s >= n then []
    else
      var e := if e0 >= n then n - 1 else e0;
      list[s..e + 1]
  }

  /** `LRANGE key 0 -1` is the whole list. */
  lemma WholeRange(list: seq<string>)
    ensures Range(list, 0, -1) == list
  {
    if list != [] {
      assert list[0..|list|] == list;
    }
  }

  /** Expiry set on every successful write: 24 hours. */
  const HistoryTtl: nat := 3600 * 24

  /**
   * The Redis server's data, reduced to what the store touches: lists of
   * strings and the expiry (in seconds) last set on a key. Each command takes
   * the outcome of its round trip as `fault`.
   */
  class ListStore {
    var lists: map<string, seq<string>>
    var expiry: map<string, nat>

    constructor ()
      ensures lists == map[] && expiry == map[]
    {
      lists, expiry := map[], map[];
    }

    function List(key: string): seq<string>
      reads this
    {
      if key in lists then lists[key] else []
    }

    /** RPUSH: appends at the tail, creating the list if needed. */
    method RPush(key: string, value: string, fault: Option<Error>) returns (r: Outcome)
      modifies this
      ensures fault.Some? ==> r == Fail(fault.value) && unchanged(this)
      ensures fault.None? ==> r == Pass && lists == old(lists)[key := old(List(key)) + [value]] && expiry == old(expiry)
    {
      if fault.Some? {
        return Fail(fault.value);
      }
      lists := lists[key := List(key) + [value]];
      r := Pass;
    }

    /** LRANGE: a slice of the list under `key` (an absent key reads as empty). */
    method LRange(key: string, start: int, stop: int, fault: Option<Error>) returns (r: Result<seq<string>>)
      ensures fault.Some? ==> r == Failure(fault.value)
      ensures fault.None? ==> r == Success(Range(List(key), start, stop))
    {
      if fault.Some? {
        return Failure(fault.value);
      }
      r := Success(Range(List(key), start, stop));
    }

    /** EXPIRE: sets the key's time to live if the key exists. */
    method Expire(key: string, seconds: nat, fault: Option<Error>) returns (r: Outcome)
      modifies this
      ensures fault.Some? ==> r == Fail(fault.value) && unchanged(this)
      ensures fault.None? ==> r == Pass && lists == old(lists)
      ensures fault.None? ==> expiry == if key in lists then old(expiry)[key := seconds] else old(expiry)
    {
      if fault.Some? {
        return Fail(fault.value);
      }
      if key in lists {
        expiry := expiry[key := seconds];
      }
      r := Pass;
    }
  }

  /** `RedisMemory`: the Memory interface on top of a ListStore. */
  class RedisMemory {
    const store: ListStore
    const json: JsonText

    constructor (store: ListStore, json: JsonText)
      ensures this.store == store && this.json == json
    {
      this.store := store;
      this.json := json;
    }

    /** The history the interface exposes: the decodable entries of the session's list. */
    function History(session: string): seq<Message>
      reads store
    {
      DecodeAll(json, store.List(SessionKey(session)))
    }

    /**
     * `get_history`: connect, read the whole list, keep what decodes. A
     * connection or command error is returned as is.
     */
    method GetHistory(session: string, connect: Option<Error>, fault: Option<Error>) returns (r: Result<seq<Message>>)
      ensures connect.Some? ==> r == Failure(connect.value)
      ensures connect.None? && fault.Some? ==> r == Failure(fault.value)
      ensures connect.None? && fault.None? ==> r == Success(History(session))
    {
      if connect.Some? {
        return Failure(connect.value);
      }
      var key := SessionKey(session);
      var raw := store.LRange(key, 0, -1, fault);
      if raw.Failure? {
        return Failure(raw.error);
      }
      WholeRange(store.List(key));
      var raws := raw.value;
      var messages: seq<Message> := [];
      for i := 0 to |raws|
        invariant messages == DecodeAll(json, raws[..i])
      {
        assert raws[..i + 1][..i] == raws[..i];
        match Deserialize(json, raws[i])
        case Some(m) => messages := messages + [m];
        case None =>
      }
      assert raws[..|raws|] == raws;
      r := Success(messages);
    }

    /**
     * `add_message`: connect, serialise, RPUSH, then EXPIRE. Nothing is
     * written unless the RPUSH succeeds; when the EXPIRE then fails, the
     * message stays pushed and the error is still returned.
     */
    method AddMessage(session: string, message: Message, connect: Option<Error>, push: Option<Error>, expire: Option<Error>)
      returns (r: Outcome)
      modifies store
      ensures connect.Some? ==> r == Fail(connect.value) && unchanged(store)
      ensures connect.None? && Serialize(json, message).Failure? ==>
                r == Fail(Serialize(json, message).error) && unchanged(store)
      ensures connect.None? && Serialize(json, message).Success? && push.Some? ==>
                r == Fail(push.value) && unchanged(store)
      ensures connect.None? && Serialize(json, message).Success? && push.None? ==>
                && store.lists == old(store.lists)[SessionKey(session) := old(store.List(SessionKey(session))) + [Serialize(json, message).value]]
                && (expire.Some? ==> r == Fail(expire.value) && store.expiry == old(store.expiry))
                && (expire.None? ==> r == Pass && store.expiry == old(store.expiry)[SessionKey(session) := HistoryTtl])
      ensures connect.None? && push.None? && Faithful(json) && Serialize(json, message).Success? ==>
                History(session) == old(History(session)) + [message]
      ensures forall s :: s != session ==> History(s) == old(History(s))
    {
      if connect.Some? {
        return Fail(connect.value);
      }
      var key := SessionKey(session);
      var encoded := Serialize(json, message);
      if encoded.Failure? {
        return Fail(encoded.error);
      }
      ghost var before := store.List(key);
      var pushed := store.RPush(key, encoded.value, push);
      if pushed.Fail? {
        return Fail(pushed.error);
      }
      assert store.List(key) == before + [encoded.value];
      forall s | s != session
        ensures History(s) == old(History(s))
      {
        SessionKeyInjective(s, session);
      }
      DecodeAllConcat(json, before, [encoded.value]);
      if Faithful(json) {
        SerializeRoundTrip(json, message);
      }
      var expired := store.Expire(key, HistoryTtl, expire);
      if expired.Fail? {
        return Fail(expired.error);
      }
      r := Pass;
    }
  }
}
