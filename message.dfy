/** The envelope exchanged on the bus (src/AgentSystem/Core/Message.cs): a
    message object with identity, addressing, a subject, a keyed payload of
    boxed values, and the id of the message it answers. */
module Messages {
  import opened Util

  datatype MessageType = Request | Response | Notification | Command

  /** A boxed payload value (`object` in the source); Null is the boxed null
      and Obj an object, seen through its properties. */
  datatype Value =
    | Int(i: int32)
    | Str(s: string)
    | Bool(b: bool)
    | Time(ticks: int)
    | List(items: seq<Value>)
    | Obj(fields: map<string, Value>)
    | Null

  /** The run-time type a `GetContent<T>` call asks for. */
  datatype Kind = IntKind | StrKind | BoolKind | TimeKind | ListKind | ObjKind

  /** C#'s `value is T`: a type test, false for null whatever T is. */
  predicate HasKind(v: Value, k: Kind)
  {
    match v
    case Int(_) => k == IntKind
    case Str(_) => k == StrKind
    case Bool(_) => k == BoolKind
    case Time(_) => k == TimeKind
    case List(_) => k == ListKind
    case Obj(_) => k == ObjKind
    case Null => false
  }

  type Payload = map<string, Value>

  /** AddContent: overwrite when the key is present, add it otherwise. */
  function Upsert(c: Payload, key: string, v: Value): Payload
  {
    c[key := v]
  }

  /** The key holds the new value, every other key keeps its own, and no key
      is lost: storing never fails, whether or not the key was present. */
  lemma UpsertSetsOnlyKey(c: Payload, key: string, v: Value)
    ensures key in Upsert(c, key, v) && Upsert(c, key, v)[key] == v
    ensures forall k :: k in c && k != key ==> k in Upsert(c, key, v) && Upsert(c, key, v)[k] == c[k]
    ensures Upsert(c, key, v).Keys == c.Keys + {key}
  {
  }

  /** GetContent: the stored value when the key is present and holds the asked
      type, the caller's default otherwise. It never fails, and what it returns
      is always of the asked type unless it is the default. */
  function Lookup(c: Payload, key: string, kind: Kind, default: Value): (r: Value)
    ensures HasKind(r, kind) || r == default
    ensures key !in c ==> r == default
  {
    if key in c && HasKind(c[key], kind) then c[key] else default
  }

  /** Upserting the same pair twice is upserting it once. */
  lemma UpsertIdempotent(c: Payload, key: string, v: Value)
    ensures Upsert(Upsert(c, key, v), key, v) == Upsert(c, key, v)
  {
  }

  /** A value read back under the key it was stored at is the value stored,
      provided it is read at its own type; read at another type it is the default. */
  lemma LookupAfterUpsert(c: Payload, key: string, v: Value, kind: Kind, default: Value)
    ensures HasKind(v, kind) ==> Lookup(Upsert(c, key, v), key, kind, default) == v
    ensures !HasKind(v, kind) ==> Lookup(Upsert(c, key, v), key, kind, default) == default
  {
  }

  /** Storing under one key does not change what another key reads. */
  lemma LookupOtherKey(c: Payload, key: string, v: Value, other: string, kind: Kind, default: Value)
    requires other != key
    ensures Lookup(Upsert(c, key, v), other, kind, default) == Lookup(c, other, kind, default)
  {
  }

  /** Draws message ids. Stands for Guid.NewGuid(): a counter never repeats. */
  class IdSource {
    var next: nat

    constructor ()
      ensures next == 0
    {
      next := 0;
    }

    method Fresh() returns (id: nat)
      modifies this
      ensures id == old(next) && next == old(next) + 1
    {
      id := next;
      next := next + 1;
    }
  }

  class Message {
    const id: nat
    var sender: string
    var receiver: string
    var kind: MessageType
    var subject: string
    var content: Payload
    const createdAt: int
    var isProcessed: bool
    var replyTo: Option<nat>

    /** `new Message()`: a fresh id and timestamp, empty content, not processed.
        The string properties are left null, written "" here. */
    constructor Blank(ids: IdSource, now: int)
      modifies ids
      ensures id == old(ids.next) && ids.next == old(ids.next) + 1 && createdAt == now
      ensures sender == "" && receiver == "" && subject == "" && kind == Request
      ensures content == map[] && !isProcessed && replyTo == None
    {
      var drawn := ids.Fresh();
      id, createdAt := drawn, now;
      sender, receiver, subject, kind := "", "", "", Request;
      content, isProcessed, replyTo := map[], false, None;
    }

    /** `new Message(sender, receiver, type, subject)`. */
    constructor (ids: IdSource, now: int, sender: string, receiver: string, kind: MessageType, subject: string)
      modifies ids
      ensures id == old(ids.next) && ids.next == old(ids.next) + 1 && createdAt == now
      ensures this.sender == sender && this.receiver == receiver
      ensures this.kind == kind && this.subject == subject
      ensures content == map[] && !isProcessed && replyTo == None
    {
      var drawn := ids.Fresh();
      id, createdAt := drawn, now;
      this.sender, this.receiver, this.subject, this.kind := sender, receiver, subject, kind;
      content, isProcessed, replyTo := map[], false, None;
    }

    method AddContent(key: string, value: Value)
      modifies this`content
      ensures content == Upsert(old(content), key, value)
    {
      // both branches of the source (overwrite a present key, add a new one)
      content := content[key := value];
    }

    function GetContent(key: string, kind: Kind, default: Value): Value
      reads this
    {
      Lookup(content, key, kind, default)
    }

    /** `GetContent<int>(key, default)`. */
    function GetInt(key: string, default: int32): (r: int32)
      reads this
      ensures key in content && content[key].Int? ==> r == content[key].i
      ensures !(key in content && content[key].Int?) ==> r == default
    {
      var v := GetContent(key, IntKind, Int(default));
      if v.Int? then v.i else default
    }

    /** `GetContent<int?>(key, null)`. */
    function GetNullableInt(key: string): (r: Option<int32>)
      reads this
      ensures key in content && content[key].Int? ==> r == Some(content[key].i)
      ensures !(key in content && content[key].Int?) ==> r == None
    {
      var v := GetContent(key, IntKind, Null);
      if v.Int? then Some(v.i) else None
    }

    /** `GetContent<string>(key, default)`; a null default is written "". */
    function GetString(key: string, default: string): (r: string)
      reads this
      ensures key in content && content[key].Str? ==> r == content[key].s
      ensures !(key in content && content[key].Str?) ==> r == default
    {
      var v := GetContent(key, StrKind, Str(default));
      if v.Str? then v.s else default
    }

    /** A new Response addressed back to this message's sender and correlated
        with it by `replyTo`; this message is not changed. */
    method CreateResponse(ids: IdSource, now: int, subject: Option<string>) returns (r: Message)
      modifies ids
      ensures fresh(r) && r.id == old(ids.next) && ids.next == old(ids.next) + 1
      ensures r.sender == receiver && r.receiver == sender && r.kind == Response
      ensures r.subject == (if subject.Some? then subject.value else "Re: " + this.subject)
      ensures r.replyTo == Some(id)
      ensures r.content == map[] && !r.isProcessed && r.createdAt == now
    {
      r := new Message.Blank(ids, now);
      r.sender := receiver;
      r.receiver := sender;
      r.kind := Response;
      r.subject := if subject.Some? then subject.value else "Re: " + this.subject;
      r.replyTo := Some(id);
    }
  }

  /** `request` answered by `resp` as CreateResponse() builds it, with the given content. */
  ghost predicate Responds(resp: Message, request: Message, content: Payload)
    reads resp, request
  {
    resp.receiver == request.sender && resp.kind == Response && resp.subject == "Re: " + request.subject
    && resp.replyTo == Some(request.id) && resp.content == content && !resp.isProcessed
  }

  /** `request.CreateResponse()` followed by one AddContent call. */
  method Reply1(request: Message, ids: IdSource, now: int, k1: string, v1: Value) returns (resp: Message)
    modifies ids
    ensures fresh(resp) && Responds(resp, request, map[k1 := v1])
  {
    resp := request.CreateResponse(ids, now, None);
    resp.AddContent(k1, v1);
  }

  /** `request.CreateResponse()` followed by two AddContent calls. */
  method Reply2(request: Message, ids: IdSource, now: int, k1: string, v1: Value, k2: string, v2: Value)
    returns (resp: Message)
    modifies ids
    ensures fresh(resp) && Responds(resp, request, map[k1 := v1, k2 := v2])
  {
    resp := request.CreateResponse(ids, now, None);
    resp.AddContent(k1, v1);
    resp.AddContent(k2, v2);
  }

  /** `request.CreateResponse()` followed by four AddContent calls. */
  method Reply4(request: Message, ids: IdSource, now: int, k1: string, v1: Value, k2: string, v2: Value,
                k3: string, v3: Value, k4: string, v4: Value)
    returns (resp: Message)
    modifies ids
    ensures fresh(resp) && Responds(resp, request, map[k1 := v1, k2 := v2, k3 := v3, k4 := v4])
  {
    resp := request.CreateResponse(ids, now, None);
    resp.AddContent(k1, v1);
    resp.AddContent(k2, v2);
    resp.AddContent(k3, v3);
    resp.AddContent(k4, v4);
  }
}
