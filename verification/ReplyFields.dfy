/**
 Which field of a reply says what (realtime/protocol.go): replies written
 field by field with the numbers of the Centrifugo protocol decode to the id,
 the error, the token lifetime and the messages they were written from, or to
 the error of the first number out of range.
 */
module ReplyFields {
  import opened Basics
  import opened Wire
  import opened Replies

  /** Numbers are written in at most 64 bits. */
  type Uint64 = x: int | 0 <= x < 0x1_0000_0000_0000_0000

  // ---------- Small messages ----------

  lemma VarintFieldLength(number: nat, value: Uint64)
    requires number < 0x2000_0000
    ensures |EncodeVarintField(number, value)| <= 20
  {
    VarintLength(number * 8);
    VarintLength(value);
  }

  lemma BytesFieldLength(number: nat, bytes: Bytes)
    requires number < 0x2000_0000 && |bytes| <= MAX_MESSAGE
    ensures |bytes| <= |EncodeBytesField(number, bytes)| <= |bytes| + 20
  {
    VarintLength(number * 8 + 2);
    VarintLength(|bytes|);
  }

  /** A frame of one record within the cap. */
  lemma FrameReads(message: Bytes)
    requires |LengthDelimit(message)| <= MAX_MESSAGE
    ensures DecodeReplies(LengthDelimit(message)) == DecodeReply(message, [])
  {
    OneRecord(message, []);
  }

  /** Reading one field written in front of a message. */
  lemma FieldFirst<A>(step: (A, Field) -> Result<A, WireError>, acc: A, a: Bytes, f: Field, b: Bytes)
    requires Fields(a) == Parsed([f], None)
    ensures Decode(step, acc, a + b) == match step(acc, f) case Err(e) => Err(e) case Ok(next) => Decode(step, next, b)
  {
    FieldsConcat(a, b);
    FoldConcat(step, acc, [f], Fields(b).fields);
    assert [f][1..] == [];
    if step(acc, f).Ok? { assert Fold(step, step(acc, f).value, []) == Ok(step(acc, f).value); }
  }

  /** A reply of its id and one field more. */
  function WithId(id: Uint64, rest: Bytes): Bytes {
    EncodeVarintField(1, id) + rest
  }

  /** What follows the id is read with the id noted, unless the id is out of range. */
  lemma IdFirst(id: Uint64, rest: Bytes, f: Field)
    requires Fields(rest) == Parsed([f], None)
    ensures DecodeReply(WithId(id, rest), []) ==
      if id > 0xFFFF_FFFF then Err(IdTooLarge)
      else match ReplyStep(StartReply([]).(id := id), f) case Err(e) => Err(e) case Ok(reply) => Ok(ReplyDone(reply))
  {
    VarintFieldReads(1, id);
    FieldFirst(ReplyStep, StartReply([]), EncodeVarintField(1, id), Field(1, 0, Number(id)), rest);
    OneField(ReplyStep, StartReply([]).(id := id), rest, f);
  }

  // ---------- Ids ----------

  /** An id beyond 32 bits is refused. */
  lemma IdRange(id: Uint64)
    ensures DecodeReplies(OKReply(id)) ==
      if id > 0xFFFF_FFFF then Err(IdTooLarge) else Ok([Reply(id, None, false, 0)])
  {
    if id <= 0xFFFF_FFFF {
      OKReplyRoundTrip(id);
    } else {
      VarintFieldReads(1, id);
      VarintFieldLength(1, id);
      VarintLength(|EncodeVarintField(1, id)|);
      FrameReads(EncodeVarintField(1, id));
      OneField(ReplyStep, StartReply([]), EncodeVarintField(1, id), Field(1, 0, Number(id)));
    }
  }

  // ---------- Token lifetimes ----------

  /** A result that says whether its token expires, and in how many seconds. */
  function ResultFrame(id: Uint64, result: nat, expiresField: nat, ttlField: nat, expires: Uint64, ttl: Uint64): Bytes {
    LengthDelimit(WithId(id, EncodeBytesField(result, LifetimeBody(expiresField, ttlField, expires, ttl))))
  }

  function LifetimeBody(expiresField: nat, ttlField: nat, expires: Uint64, ttl: Uint64): Bytes {
    EncodeVarintField(expiresField, expires) + EncodeVarintField(ttlField, ttl)
  }

  /** What the frame of a token lifetime decodes to. */
  function LifetimeReply(id: Uint64, expires: Uint64, ttl: Uint64): Result<seq<Message>, WireError> {
    if id > 0xFFFF_FFFF then Err(IdTooLarge)
    else if ttl > 0xFFFF_FFFF then Err(TtlTooLarge)
    else Ok([Reply(id, None, expires != 0, ttl)])
  }

  lemma LifetimeBodyReads(result: nat, expiresField: nat, ttlField: nat, expires: Uint64, ttl: Uint64)
    requires 0 < expiresField < 100 && 0 < ttlField < 100 && expiresField != ttlField
    requires ExpiryFields(result) == (expiresField, ttlField)
    ensures DecodeExpiry(LifetimeBody(expiresField, ttlField, expires, ttl), result) ==
      if ttl > 0xFFFF_FFFF then Err(TtlTooLarge) else Ok(Expiry(expires != 0, ttl))
  {
    VarintFieldReads(expiresField, expires);
    VarintFieldReads(ttlField, ttl);
    TwoFields(ExpiryStep(result), Expiry(false, 0), EncodeVarintField(expiresField, expires),
              EncodeVarintField(ttlField, ttl), Field(expiresField, 0, Number(expires)),
                Field(ttlField, 0, Number(ttl)));
  }

  lemma LifetimeReads(id: Uint64, result: nat, expiresField: nat, ttlField: nat, expires: Uint64, ttl: Uint64)
    requires 0 < expiresField < 100 && 0 < ttlField < 100 && expiresField != ttlField
    requires ExpiryField(result) && ExpiryFields(result) == (expiresField, ttlField)
    ensures DecodeReplies(ResultFrame(id, result, expiresField, ttlField, expires, ttl)) ==
      LifetimeReply(id, expires, ttl)
  {
    hide EncodeVarint, Fields, Fold, Decode, DecodeReplies;
    assert forall m: Message :: [] + [m] == [m];
    var body := LifetimeBody(expiresField, ttlField, expires, ttl);
    LifetimeBodyReads(result, expiresField, ttlField, expires, ttl);
    VarintFieldLength(expiresField, expires);
    VarintFieldLength(ttlField, ttl);
    VarintFieldLength(1, id);
    BytesFieldLength(result, body);
    BytesFieldReads(result, body);
    var message := WithId(id, EncodeBytesField(result, body));
    VarintLength(|message|);
    FrameReads(message);
    IdFirst(id, EncodeBytesField(result, body), Field(result, 2, Blob(body)));
  }

  /** A connect result (field 5) and a refresh result (14) carry the lifetime in fields 3 and 4. */
  lemma ConnectionLifetime(id: Uint64, expires: Uint64, ttl: Uint64)
    ensures DecodeReplies(ResultFrame(id, 5, 3, 4, expires, ttl)) == LifetimeReply(id, expires, ttl)
    ensures DecodeReplies(ResultFrame(id, 14, 3, 4, expires, ttl)) == LifetimeReply(id, expires, ttl)
  {
    LifetimeReads(id, 5, 3, 4, expires, ttl);
    LifetimeReads(id, 14, 3, 4, expires, ttl);
  }

  /** A subscribe result (field 6) and a sub refresh result (15) carry it in fields 1 and 2. */
  lemma SubscriptionLifetime(id: Uint64, expires: Uint64, ttl: Uint64)
    ensures DecodeReplies(ResultFrame(id, 6, 1, 2, expires, ttl)) == LifetimeReply(id, expires, ttl)
    ensures DecodeReplies(ResultFrame(id, 15, 1, 2, expires, ttl)) == LifetimeReply(id, expires, ttl)
  {
    LifetimeReads(id, 6, 1, 2, expires, ttl);
    LifetimeReads(id, 15, 1, 2, expires, ttl);
  }

  // ---------- Errors ----------

  function ErrorBody(code: Uint64, message: Bytes, temporary: Uint64): Bytes {
    EncodeVarintField(1, code) + (EncodeBytesField(2, message) + EncodeVarintField(3, temporary))
  }

  function ErrorFrame(id: Uint64, code: Uint64, message: Bytes, temporary: Uint64): Bytes {
    LengthDelimit(WithId(id, EncodeBytesField(2, ErrorBody(code, message, temporary))))
  }

  lemma ErrorBodyReads(code: Uint64, message: Bytes, temporary: Uint64)
    requires |message| <= MAX_MESSAGE
    ensures DecodeError(ErrorBody(code, message, temporary)) ==
      if code > 0xFFFF_FFFF then Err(CodeTooLarge) else Ok(ProtocolError(code, message, temporary != 0))
  {
    VarintFieldReads(1, code);
    BytesFieldReads(2, message);
    VarintFieldReads(3, temporary);
    var start := ProtocolError(0, [], false);
    FieldFirst(ErrorStep, start, EncodeVarintField(1, code), Field(1, 0, Number(code)),
               EncodeBytesField(2, message) + EncodeVarintField(3, temporary));
    TwoFields(ErrorStep, start.(code := code), EncodeBytesField(2, message), EncodeVarintField(3, temporary),
              Field(2, 2, Blob(message)), Field(3, 0, Number(temporary)));
  }

  /** A reply's error is field 2: its code, its message, and whether it is temporary. */
  lemma ErrorRoundTrip(id: Uint64, code: Uint64, message: Bytes, temporary: Uint64)
    requires |ErrorFrame(id, code, message, temporary)| <= MAX_MESSAGE
    ensures DecodeReplies(ErrorFrame(id, code, message, temporary)) ==
      if id > 0xFFFF_FFFF then Err(IdTooLarge)
      else if code > 0xFFFF_FFFF then Err(CodeTooLarge)
      else Ok([Reply(id, Some(ProtocolError(code, message, temporary != 0)), false, 0)])
  {
    hide EncodeVarint, Fields, Fold, Decode, DecodeReplies;
    assert forall m: Message :: [] + [m] == [m];
    var body := ErrorBody(code, message, temporary);
    ErrorBodyReads(code, message, temporary);
    BytesFieldReads(2, body);
    FrameReads(WithId(id, EncodeBytesField(2, body)));
    IdFirst(id, EncodeBytesField(2, body), Field(2, 2, Blob(body)));
  }

  // ---------- Pushes ----------

  function PublicationPush(data: Bytes): Bytes {
    EncodeBytesField(4, EncodeBytesField(4, data))
  }

  lemma PublicationPushReads(data: Bytes)
    requires |PublicationPush(data)| <= MAX_MESSAGE
    ensures DecodePush(PublicationPush(data), []) == Ok([Publication(data)])
  {
    BytesFieldReads(4, data);
    OneField(PublicationStep, [], EncodeBytesField(4, data), Field(4, 2, Blob(data)));
    BytesFieldReads(4, EncodeBytesField(4, data));
    OneField(PushStep, Push([], None, []), PublicationPush(data), Field(4, 2, Blob(EncodeBytesField(4, data))));
    assert [] + [Publication(data)] == [Publication(data)];
  }

  /** A push with an id is a reply too, after its messages; without an id it is not. */
  lemma PushWithId(id: Uint64, data: Bytes)
    requires |LengthDelimit(WithId(id, EncodeBytesField(4, PublicationPush(data))))| <= MAX_MESSAGE
    ensures DecodeReplies(LengthDelimit(WithId(id, EncodeBytesField(4, PublicationPush(data))))) ==
      if id > 0xFFFF_FFFF then Err(IdTooLarge)
      else if id == 0 then Ok([Publication(data)])
      else Ok([Publication(data), Reply(id, None, false, 0)])
  {
    hide EncodeVarint, Fields, Fold, Decode, DecodeReplies, DecodePush;
    assert [Publication(data)] + [Reply(id, None, false, 0)] == [Publication(data), Reply(id, None, false, 0)];
    var push := PublicationPush(data);
    PublicationPushReads(data);
    BytesFieldReads(4, push);
    FrameReads(WithId(id, EncodeBytesField(4, push)));
    IdFirst(id, EncodeBytesField(4, push), Field(4, 2, Blob(push)));
  }

  /** An unsubscribe written before the publication and the channel of its push comes last and names that channel. */
  lemma UnsubscribeLast(channel: Bytes, code: nat, reason: Bytes, data: Bytes)
    requires code <= MAX_UINT32
    requires |channel| <= MAX_MESSAGE && |UnsubscribeBody(code, reason)| <= MAX_MESSAGE
    requires |EncodeBytesField(4, data)| <= MAX_MESSAGE
    ensures DecodePush(
        EncodeBytesField(7, UnsubscribeBody(code, reason)) + (PublicationPush(data) + EncodeBytesField(2, channel)), [])
      == Ok([Publication(data), Unsubscribe(channel, code, reason)])
  {
    hide EncodeVarint, Fields, Fold, Decode;
    var body, pub := UnsubscribeBody(code, reason), EncodeBytesField(4, data);
    UnsubscribeBodyReads(code, reason);
    BytesFieldReads(4, data);
    OneField(PublicationStep, [], pub, Field(4, 2, Blob(data)));
    BytesFieldReads(7, body);
    BytesFieldReads(4, pub);
    BytesFieldReads(2, channel);
    var start := Push([], None, []);
    FieldFirst(PushStep, start, EncodeBytesField(7, body), Field(7, 2, Blob(body)),
               PublicationPush(data) + EncodeBytesField(2, channel));
    TwoFields(PushStep, start.(unsubscribe := Some(Ended(code, reason))), PublicationPush(data),
              EncodeBytesField(2, channel), Field(4, 2, Blob(pub)), Field(2, 2, Blob(channel)));
    assert [] + [Publication(data)] == [Publication(data)];
    assert [Publication(data)] + [Unsubscribe(channel, code, reason)]
        == [Publication(data), Unsubscribe(channel, code, reason)];
  }

  /** An unsubscribe code beyond 32 bits is refused. */
  lemma UnsubscribeCodeRange(code: Uint64, reason: Bytes)
    requires |reason| <= MAX_MESSAGE && code > 0xFFFF_FFFF
    ensures DecodeUnsubscribe(UnsubscribeBody(code, reason)) == Err(CodeTooLarge)
  {
    VarintFieldReads(2, code);
    FieldFirst(UnsubscribeStep, Ended(0, []), EncodeVarintField(2, code), Field(2, 0, Number(code)),
               EncodeBytesField(3, reason));
  }

  // ---------- Fields passed over ----------

  function WireKey(number: nat, wire: nat): Bytes {
    EncodeVarint(number * 8 + wire)
  }

  lemma FixedReads(number: nat, wire: nat, value: Bytes)
    requires 0 < number < 0x2000_0000 && (wire == 1 || wire == 5) && |value| == (if wire == 1 then 8 else 4)
    ensures var s := WireKey(number, wire) + value; NextField(s) == Ok(Read(Field(number, wire, Blob(value)), |s|))
  {
    hide EncodeVarint, Varint, Key;
    var key := WireKey(number, wire);
    KeyRoundTrip(number, wire, value);
    assert (key + value)[|key|..] == value && value[..|value|] == value;
  }

  lemma OneFixed(s: Bytes, f: Field)
    requires NextField(s) == Ok(Read(f, |s|))
    ensures Fields(s) == Parsed([f], None)
  {
    assert s[|s|..] == [] && Fields([]) == Parsed([], None);
  }

  /** A 64-bit field (wire type 1) is passed with eight bytes, a 32-bit one (5) with four, whatever follows. */
  lemma FixedPassed(number: nat, wire: nat, value: Bytes, rest: Bytes)
    requires 0 < number < 0x2000_0000 && (wire == 1 || wire == 5) && |value| == (if wire == 1 then 8 else 4)
    ensures Fields(WireKey(number, wire) + value + rest) ==
      Before([Field(number, wire, Blob(value))], Fields(rest))
  {
    hide NextField, WireKey, Fields, Before;
    var s := WireKey(number, wire) + value;
    FixedReads(number, wire, value);
    OneFixed(s, Field(number, wire, Blob(value)));
    FieldsConcat(s, rest);
  }

  /** A fixed field cut short is an error, and so is every other wire type. */
  lemma FixedRefused(number: nat, wire: nat, rest: Bytes)
    requires 0 < number < 0x2000_0000 && wire < 8
    ensures wire == 1 && |rest| < 8 ==> Fields(WireKey(number, wire) + rest) == Parsed([], Some(Truncated))
    ensures wire == 5 && |rest| < 4 ==> Fields(WireKey(number, wire) + rest) == Parsed([], Some(Truncated))
    ensures wire !in {0, 1, 2, 5} ==> Fields(WireKey(number, wire) + rest) == Parsed([], Some(UnsupportedWire(wire)))
  {
    var key := WireKey(number, wire);
    KeyRoundTrip(number, wire, rest);
    assert (key + rest)[|key|..] == rest;
  }

  /** A field numbered zero is an error, whatever its wire type. */
  lemma ZeroRefused(wire: nat, rest: Bytes)
    requires wire < 8
    ensures Fields(WireKey(0, wire) + rest) == Parsed([], Some(ZeroField))
  {
    hide EncodeVarint, Varint;
    VarintRoundTrip(wire, rest);
  }

  lemma WrappedParts(number: nat, beyond: nat, wire: nat)
    requires number < 0x1_0000_0000 && wire < 8
    ensures var key := (number + 0x1_0000_0000 * beyond) * 8 + wire;
      key % 8 == wire && key / 8 == number + 0x1_0000_0000 * beyond && key / 8 % 0x1_0000_0000 == number
  {
  }

  /** A field number keeps its 32 low bits. */
  lemma NumberWraps(number: nat, beyond: nat, wire: nat, rest: Bytes)
    requires 0 < number < 0x1_0000_0000 && beyond < 0x2000_0000 && wire < 8
    ensures Key(WireKey(number + 0x1_0000_0000 * beyond, wire) + rest) ==
      Ok(Read((number, wire), |WireKey(number + 0x1_0000_0000 * beyond, wire)|))
  {
    hide EncodeVarint, Varint;
    WrappedParts(number, beyond, wire);
    VarintRoundTrip((number + 0x1_0000_0000 * beyond) * 8 + wire, rest);
  }

  /**
   A field, and a record of a frame, is as long as its length says: beyond eight megabytes or the bytes there
   are it is refused.
   */
  lemma LengthRange(length: Uint64, rest: Bytes)
    ensures LengthDelimited(EncodeVarint(length) + rest) ==
      if length > 8388608 then Err(FieldTooLong)
      else if length > |rest| then Err(Truncated)
      else Ok(Read(rest[..length], |EncodeVarint(length)| + length))
    ensures NextRecord(EncodeVarint(length) + rest) ==
      if length > 8388608 then Err(RecordTooLong)
      else if length > |rest| then Err(Truncated)
      else Ok(Read(rest[..length], |EncodeVarint(length)| + length))
  {
    hide EncodeVarint, Varint;
    VarintRoundTrip(length, rest);
    assert (EncodeVarint(length) + rest)[|EncodeVarint(length)|..] == rest;
  }

  // ---------- Unknown fields of the messages inside ----------

  predicate KnownInError(f: Field) {
    (f.wire == 0 && (f.number == 1 || f.number == 3)) || (f.wire == 2 && f.number == 2)
  }

  lemma UnknownInError(a: Bytes, u: Bytes, b: Bytes)
    requires Fields(a).error.None? && OneWellFormed(u) && !KnownInError(Fields(u).fields[0])
    ensures DecodeError(a + u + b) == DecodeError(a + b)
  {
    InsertIgnored(ErrorStep, ProtocolError(0, [], false), a, u, b);
  }

  lemma UnknownInPublication(a: Bytes, u: Bytes, b: Bytes, incoming: seq<Message>)
    requires Fields(a).error.None? && OneWellFormed(u)
    requires Fields(u).fields[0].wire != 2 || Fields(u).fields[0].number != 4
    ensures DecodePublication(a + u + b, incoming) == DecodePublication(a + b, incoming)
  {
    InsertIgnored(PublicationStep, incoming, a, u, b);
  }

  predicate KnownInLifetime(result: nat, f: Field) {
    f.wire == 0 && if result in {5, 14} then f.number in {3, 4} else f.number in {1, 2}
  }

  lemma LifetimeIgnores(result: nat, f: Field)
    requires result in {5, 6, 14, 15} && !KnownInLifetime(result, f)
    ensures Ignores(ExpiryStep(result), f)
  {
    forall acc: Expiry ensures ExpiryStep(result)(acc, f) == Ok(acc) {
      var (expiresField, ttlField) := ExpiryFields(result);
      assert f.wire != 0 || (f.number != expiresField && f.number != ttlField);
    }
  }

  lemma InsertUnread(step: (Expiry, Field) -> Result<Expiry, WireError>, result: nat, a: Bytes, u: Bytes, b: Bytes)
    requires step == ExpiryStep(result) && Fields(a).error.None? && OneWellFormed(u)
      && Ignores(step, Fields(u).fields[0])
    ensures DecodeExpiry(a + u + b, result) == DecodeExpiry(a + b, result)
  {
    hide Fold, Fields, Ignores;
    InsertIgnored(step, Expiry(false, 0), a, u, b);
  }

  /** Connect and refresh results are read for fields 3 and 4 only, subscribe and sub refresh results for 1 and 2. */
  lemma UnknownInLifetime(result: nat, a: Bytes, u: Bytes, b: Bytes)
    requires Fields(a).error.None? && OneWellFormed(u)
    requires result in {5, 6, 14, 15} && !KnownInLifetime(result, Fields(u).fields[0])
    ensures DecodeExpiry(a + u + b, result) == DecodeExpiry(a + b, result)
  {
    LifetimeIgnores(result, Fields(u).fields[0]);
    InsertUnread(ExpiryStep(result), result, a, u, b);
  }
}
