/** The wire protocol between the host and the embedded shell: one record per
    message type, with the fields that type carries. */
module Messages {
  import opened Values

  /** A correlation id echoed verbatim by the reply it solicits. */
  type EventId = string

  /** An inbound EMBED_EVENT without an `eventId` carries the empty id, which is
      falsy exactly like a missing field. */
  datatype Message =
    | Init(config: Value)                                        // INIT: the init-time config cache
    | Embed(embedType: Option<Value>, viewConfig: map<string, Value>)  // EMBED
    | HostEvent(eventName: string, eventId: EventId, payload: Option<Value>)   // HOST_EVENT
    | HostEventReply(eventId: EventId, payload: Option<Value>)  // HOST_EVENT_REPLY
    | EmbedEvent(eventName: string, payload: Option<Value>, eventId: EventId, hasResponder: bool)  // EMBED_EVENT
    | EmbedEventReply(eventId: EventId, payload: Option<Value>) // EMBED_EVENT_REPLY
    | RequestAuthToken                                           // REQUEST_AUTH_TOKEN
    | AuthTokenResponse(token: string)                           // AUTH_TOKEN_RESPONSE
    | InitVercelShell                                            // INIT_VERCEL_SHELL, the readiness announcement
    | Unknown(typeName: string)                                  // any other `type`

  /** What parsing yields: a message of a protocol type is always its own
      constructor, so `Unknown` never carries one of the protocol's names. */
  predicate WellFormed(m: Message)
  {
    m.Unknown? ==> m.typeName !in ProtocolTypeNames
  }

  const ProtocolTypeNames: set<string> :=
    {"INIT", "EMBED", "HOST_EVENT", "HOST_EVENT_REPLY", "EMBED_EVENT", "EMBED_EVENT_REPLY",
     "REQUEST_AUTH_TOKEN", "AUTH_TOKEN_RESPONSE", "INIT_VERCEL_SHELL"}

  /** The `type` discriminant a message is serialised with. */
  function TypeName(m: Message): string
  {
    match m
    case Init(_) => "INIT"
    case Embed(_, _) => "EMBED"
    case HostEvent(_, _, _) => "HOST_EVENT"
    case HostEventReply(_, _) => "HOST_EVENT_REPLY"
    case EmbedEvent(_, _, _, _) => "EMBED_EVENT"
    case EmbedEventReply(_, _) => "EMBED_EVENT_REPLY"
    case RequestAuthToken => "REQUEST_AUTH_TOKEN"
    case AuthTokenResponse(_) => "AUTH_TOKEN_RESPONSE"
    case InitVercelShell => "INIT_VERCEL_SHELL"
    case Unknown(t) => t
  }

  /** On well-formed messages the `type` discriminant tells the protocol's own
      messages from every other. */
  lemma TypeNameClassifies(m: Message)
    requires WellFormed(m)
    ensures TypeName(m) in ProtocolTypeNames <==> !m.Unknown?
  {
  }

  function DigitChar(d: nat): char
    requires d < 10
  {
    "0123456789"[d]
  }

  /** Decimal notation of `n`, never empty. */
  function Decimal(n: nat): (s: string)
    ensures 1 <= |s|
    ensures n < 10 <==> |s| == 1
  {
    if n < 10 then [DigitChar(n)] else Decimal(n / 10) + [DigitChar(n % 10)]
  }

  /** The id a bridge issues for its `n`-th host event. */
  function IssuedId(n: nat): EventId
  {
    Decimal(n)
  }

  lemma DigitCharInjective(a: nat, b: nat)
    requires a < 10 && b < 10 && DigitChar(a) == DigitChar(b)
    ensures a == b
  {
  }

  /** Distinct counters give distinct ids, so an issued id is never reissued. */
  lemma {:induction false} IssuedIdInjective(a: nat, b: nat)
    requires IssuedId(a) == IssuedId(b)
    ensures a == b
  {
    var s := Decimal(a);
    if a < 10 {
      assert b < 10;
      DigitCharInjective(a, b);
    } else {
      assert 10 <= b;
      var n := |s|;
      assert s[n - 1] == DigitChar(a % 10) && s[n - 1] == DigitChar(b % 10);
      DigitCharInjective(a % 10, b % 10);
      assert s[..n - 1] == Decimal(a / 10) && s[..n - 1] == Decimal(b / 10);
      IssuedIdInjective(a / 10, b / 10);
    }
  }

  /** Every id issued before the counter reached `n`. */
  function IssuedBelow(n: nat): set<EventId>
  {
    set k | 0 <= k < n :: IssuedId(k)
  }

  /** The id issued at `n` is not among the earlier ones. */
  lemma IssuedIdFresh(n: nat)
    ensures IssuedId(n) !in IssuedBelow(n)
    ensures IssuedBelow(n + 1) == IssuedBelow(n) + {IssuedId(n)}
  {
    forall k | 0 <= k < n
      ensures IssuedId(k) != IssuedId(n)
    {
      if IssuedId(k) == IssuedId(n) {
        IssuedIdInjective(k, n);
      }
    }
  }
}
