/**
 What the reply decoder of realtime/protocol.go makes of a frame: each message
 is a fold over its fields in which unknown ones do nothing. Round trips with
 the encoders in hardening/ and with the command encoders, compositionality,
 and the effect of unknown fields.
 */
module Replies {
  import opened Basics
  import opened Wire

  const MAX_UINT32: int := 0xFFFF_FFFF

  datatype ProtocolError = ProtocolError(code: int, message: Bytes, temporary: bool)

  datatype Message =
    | Ping
    | Reply(id: int, err: Option<ProtocolError>, expires: bool, ttl: int)
    | Publication(data: Bytes)
    | Unsubscribe(channel: Bytes, code: int, reason: Bytes)

  // ---------- Folding fields ----------

  function Fold<A>(step: (A, Field) -> Result<A, WireError>, acc: A, fields: seq<Field>): Result<A, WireError> {
    if fields == [] then Ok(acc)
    else match step(acc, fields[0])
      case Err(e) => Err(e)
      case Ok(next) => Fold(step, next, fields[1..])
  }

  /** A message read field by field; its end may be an error. */
  function Decode<A>(step: (A, Field) -> Result<A, WireError>, acc: A, data: Bytes): Result<A, WireError> {
    match Fold(step, acc, Fields(data).fields)
    case Err(e) => Err(e)
    case Ok(end) => if Fields(data).error.Some? then Err(Fields(data).error.value) else Ok(end)
  }

  lemma {:induction false} FoldConcat<A>(step: (A, Field) -> Result<A, WireError>, acc: A, a: seq<Field>, b: seq<Field>)
    ensures Fold(step, acc, a + b) == match Fold(step, acc, a) case Err(e) => Err(e) case Ok(mid) => Fold(step, mid, b)
    decreases |a|
  {
    if a == [] {
      assert a + b == b;
    } else {
      assert (a + b)[0] == a[0] && (a + b)[1..] == a[1..] + b;
      if step(acc, a[0]).Ok? {
        FoldConcat(step, step(acc, a[0]).value, a[1..], b);
      }
    }
  }

  /** Reading one field, then the rest. */
  lemma DecodeNext<A>(step: (A, Field) -> Result<A, WireError>, acc: A, data: Bytes)
    requires data != []
    ensures Decode(step, acc, data) ==
      match NextField(data)
      case Err(e) => Err(e)
      case Ok(f) =>
        match step(acc, f.value)
        case Err(e) => Err(e)
        case Ok(next) => Decode(step, next, data[f.used..])
  {
    if NextField(data).Ok? {
      var f := NextField(data).value;
      FieldsStep(data, f);
      var rest := Fields(data[f.used..]).fields;
      assert ([f.value] + rest)[1..] == rest;
    }
  }

  /** A step that ignores a field. */
  ghost predicate Ignores<A(!new)>(step: (A, Field) -> Result<A, WireError>, f: Field) {
    forall acc :: step(acc, f) == Ok(acc)
  }

  /** Inserting an ignored field between two fields of a message changes nothing. */
  lemma InsertIgnored<A(!new)>(step: (A, Field) -> Result<A, WireError>, acc: A, a: Bytes, u: Bytes, b: Bytes)
    requires Fields(a).error.None? && |Fields(u).fields| == 1 && Fields(u).error.None?
    requires Ignores(step, Fields(u).fields[0])
    ensures Decode(step, acc, a + u + b) == Decode(step, acc, a + b)
  {
    FieldsConcat(a, u);
    FieldsConcat(a + u, b);
    FieldsConcat(a, b);
    var fa, f, fb := Fields(a).fields, Fields(u).fields, Fields(b).fields;
    FoldConcat(step, acc, fa + f, fb);
    FoldConcat(step, acc, fa, f);
    FoldConcat(step, acc, fa, fb);
    if Fold(step, acc, fa).Ok? {
      var mid := Fold(step, acc, fa).value;
      assert f[1..] == [];
      assert Fold(step, mid, f) == Ok(mid);
    }
  }

  // ---------- Protocol errors ----------

  function ErrorStep(acc: ProtocolError, f: Field): Result<ProtocolError, WireError> {
    match f
    case Field(1, 0, Number(n)) => if n > MAX_UINT32 then Err(CodeTooLarge) else Ok(acc.(code := n))
    case Field(2, 2, Blob(bytes)) => Ok(acc.(message := bytes))
    case Field(3, 0, Number(n)) => Ok(acc.(temporary := n != 0))
    case _ => Ok(acc)
  }

  function DecodeError(data: Bytes): Result<ProtocolError, WireError> {
    Decode(ErrorStep, ProtocolError(0, [], false), data)
  }

  // ---------- Token lifetimes ----------

  datatype Expiry = Expiry(expires: bool, ttl: int)

  /** Connect and refresh results number the two fields 3 and 4, subscribe results 1 and 2. */
  function ExpiryFields(resultField: int): (int, int) {
    if resultField == 5 || resultField == 14 then (3, 4) else (1, 2)
  }

  function ExpiryStep(resultField: int): (Expiry, Field) -> Result<Expiry, WireError> {
    (acc: Expiry, f: Field) =>
      var (expiresField, ttlField) := ExpiryFields(resultField);
      if f.number == expiresField && f.wire == 0 && f.value.Number? then Ok(acc.(expires := f.value.n != 0))
      else if f.number == ttlField && f.wire == 0 && f.value.Number? then
        if f.value.n > MAX_UINT32 then Err(TtlTooLarge) else Ok(acc.(ttl := f.value.n))
      else Ok(acc)
  }

  function DecodeExpiry(data: Bytes, resultField: int): Result<Expiry, WireError> {
    Decode(ExpiryStep(resultField), Expiry(false, 0), data)
  }

  // ---------- Unsubscribe ----------

  datatype Ended = Ended(code: int, reason: Bytes)

  function UnsubscribeStep(acc: Ended, f: Field): Result<Ended, WireError> {
    match f
    case Field(2, 0, Number(n)) => if n > MAX_UINT32 then Err(CodeTooLarge) else Ok(acc.(code := n))
    case Field(3, 2, Blob(bytes)) => Ok(acc.(reason := bytes))
    case _ => Ok(acc)
  }

  function DecodeUnsubscribe(data: Bytes): Result<Ended, WireError> {
    Decode(UnsubscribeStep, Ended(0, []), data)
  }

  // ---------- Publications ----------

  function PublicationStep(acc: seq<Message>, f: Field): Result<seq<Message>, WireError> {
    match f
    case Field(4, 2, Blob(bytes)) => Ok(acc + [Publication(bytes)])
    case _ => Ok(acc)
  }

  function DecodePublication(data: Bytes, incoming: seq<Message>): Result<seq<Message>, WireError> {
    Decode(PublicationStep, incoming, data)
  }

  // ---------- Pushes ----------

  datatype Push = Push(channel: Bytes, unsubscribe: Option<Ended>, incoming: seq<Message>)

  function PushStep(acc: Push, f: Field): Result<Push, WireError> {
    match f
    case Field(2, 2, Blob(bytes)) => Ok(acc.(channel := bytes))
    case Field(4, 2, Blob(bytes)) =>
      (match DecodePublication(bytes, acc.incoming)
       case Err(e) => Err(e)
       case Ok(incoming) => Ok(acc.(incoming := incoming)))
    case Field(7, 2, Blob(bytes)) =>
      (match DecodeUnsubscribe(bytes)
       case Err(e) => Err(e)
       case Ok(unsubscribe) => Ok(acc.(unsubscribe := Some(unsubscribe))))
    case _ => Ok(acc)
  }

  /** The unsubscribe, wherever it stood, comes last and names the push's channel. */
  function PushDone(acc: Push): seq<Message> {
    match acc.unsubscribe
    case Some(ended) => acc.incoming + [Unsubscribe(acc.channel, ended.code, ended.reason)]
    case None => acc.incoming
  }

  function DecodePush(data: Bytes, incoming: seq<Message>): Result<seq<Message>, WireError> {
    match Decode(PushStep, Push([], None, incoming), data)
    case Err(e) => Err(e)
    case Ok(acc) => Ok(PushDone(acc))
  }

  // ---------- Replies ----------

  datatype ReplyState = ReplyState(id: int, err: Option<ProtocolError>, expiry: Expiry, sawPush: bool,
      incoming: seq<Message>)

  predicate ExpiryField(number: int) {
    number == 5 || number == 6 || number == 14 || number == 15
  }

  function ReplyStep(acc: ReplyState, f: Field): Result<ReplyState, WireError> {
    match f
    case Field(1, 0, Number(n)) => if n > MAX_UINT32 then Err(IdTooLarge) else Ok(acc.(id := n))
    case Field(2, 2, Blob(bytes)) =>
      (match DecodeError(bytes)
       case Err(e) => Err(e)
       case Ok(err) => Ok(acc.(err := Some(err))))
    case Field(4, 2, Blob(bytes)) =>
      (match DecodePush(bytes, acc.incoming)
       case Err(e) => Err(e)
       case Ok(incoming) => Ok(acc.(incoming := incoming, sawPush := true)))
    case Field(number, 2, Blob(bytes)) =>
      if ExpiryField(number) then
        match DecodeExpiry(bytes, number)
        case Err(e) => Err(e)
        case Ok(expiry) => Ok(acc.(expiry := expiry))
      else Ok(acc)
    case _ => Ok(acc)
  }

  function ReplyDone(acc: ReplyState): seq<Message> {
    if acc.id != 0 || acc.err.Some? || !acc.sawPush
    then acc.incoming + [Reply(acc.id, acc.err, acc.expiry.expires, acc.expiry.ttl)]
    else acc.incoming
  }

  function StartReply(incoming: seq<Message>): ReplyState {
    ReplyState(0, None, Expiry(false, 0), false, incoming)
  }

  /** An empty reply is a ping. */
  function DecodeReply(data: Bytes, incoming: seq<Message>): Result<seq<Message>, WireError> {
    if data == [] then Ok(incoming + [Ping])
    else match Decode(ReplyStep, StartReply(incoming), data)
      case Err(e) => Err(e)
      case Ok(acc) => Ok(ReplyDone(acc))
  }

  // ---------- Frames ----------

  /** The next record of a frame: its length, then that many bytes. */
  function NextRecord(s: Bytes): (r: Result<Read<Bytes>, WireError>)
    ensures r.Ok? ==> 1 <= r.value.used <= |s|
  {
    match Varint(s, 0)
    case Err(e) => Err(e)
    case Ok(length) =>
      if length.value > MAX_MESSAGE then Err(RecordTooLong)
      else match Take(s[length.used..], length.value)
        case Err(e) => Err(e)
        case Ok(record) => Ok(Read(record.value, length.used + record.used))
  }

  function Records(s: Bytes, incoming: seq<Message>): Result<seq<Message>, WireError>
    decreases |s|
  {
    if s == [] then Ok(incoming)
    else match NextRecord(s)
      case Err(e) => Err(e)
      case Ok(record) =>
        match DecodeReply(record.value, incoming)
        case Err(e) => Err(e)
        case Ok(next) => Records(s[record.used..], next)
  }

  function DecodeReplies(frame: Bytes): Result<seq<Message>, WireError> {
    if |frame| > MAX_MESSAGE then Err(FrameTooLong) else Records(frame, [])
  }

  // ---------- Messages already read ----------

  function Lifted<A>(lift: A -> A, r: Result<A, WireError>): Result<A, WireError> {
    match r case Ok(v) => Ok(lift(v)) case Err(e) => Err(e)
  }

  lemma {:induction false} FoldLift<A(!new)>(step: (A, Field) -> Result<A, WireError>, lift: A -> A, acc: A,
      fields: seq<Field>)
    requires forall acc, f :: step(lift(acc), f) == Lifted(lift, step(acc, f))
    ensures Fold(step, lift(acc), fields) == Lifted(lift, Fold(step, acc, fields))
    decreases |fields|
  {
    if fields != [] && step(acc, fields[0]).Ok? {
      FoldLift(step, lift, step(acc, fields[0]).value, fields[1..]);
    }
  }

  function After(before: seq<Message>): seq<Message> -> seq<Message> {
    (messages: seq<Message>) => before + messages
  }

  lemma PublicationAfter(before: seq<Message>, data: Bytes, incoming: seq<Message>)
    ensures DecodePublication(data, before + incoming) == Lifted(After(before), DecodePublication(data, incoming))
  {
    var lift := After(before);
    forall acc: seq<Message>, f: Field ensures PublicationStep(lift(acc), f) == Lifted(lift, PublicationStep(acc, f)) {
      if f.number == 4 && f.wire == 2 && f.value.Blob? {
        assert before + (acc + [Publication(f.value.bytes)]) == before + acc + [Publication(f.value.bytes)];
      }
    }
    FoldLift(PublicationStep, lift, incoming, Fields(data).fields);
  }

  function PushAfter(before: seq<Message>): Push -> Push {
    (push: Push) => push.(incoming := before + push.incoming)
  }

  lemma DecodePushAfter(before: seq<Message>, data: Bytes, incoming: seq<Message>)
    ensures DecodePush(data, before + incoming) == Lifted(After(before), DecodePush(data, incoming))
  {
    var lift := PushAfter(before);
    forall acc: Push, f: Field ensures PushStep(lift(acc), f) == Lifted(lift, PushStep(acc, f)) {
      if f.number == 4 && f.wire == 2 && f.value.Blob? {
        PublicationAfter(before, f.value.bytes, acc.incoming);
      }
    }
    var start := Push([], None, incoming);
    FoldLift(PushStep, lift, start, Fields(data).fields);
    assert lift(start) == Push([], None, before + incoming);
    if DecodePush(data, incoming).Ok? {
      var push := Decode(PushStep, start, data).value;
      if push.unsubscribe.Some? {
        var last := [Unsubscribe(push.channel, push.unsubscribe.value.code, push.unsubscribe.value.reason)];
        assert before + (push.incoming + last) == before + push.incoming + last;
      }
    }
  }

  function ReplyAfter(before: seq<Message>): ReplyState -> ReplyState {
    (reply: ReplyState) => reply.(incoming := before + reply.incoming)
  }

  lemma DecodeReplyAfter(before: seq<Message>, data: Bytes, incoming: seq<Message>)
    ensures DecodeReply(data, before + incoming) == Lifted(After(before), DecodeReply(data, incoming))
  {
    var lift := ReplyAfter(before);
    forall acc: ReplyState, f: Field ensures ReplyStep(lift(acc), f) == Lifted(lift, ReplyStep(acc, f)) {
      if f.number == 4 && f.wire == 2 && f.value.Blob? {
        DecodePushAfter(before, f.value.bytes, acc.incoming);
      }
    }
    FoldLift(ReplyStep, lift, StartReply(incoming), Fields(data).fields);
    assert lift(StartReply(incoming)) == StartReply(before + incoming);
    forall last: Message ensures before + (incoming + [last]) == before + incoming + [last] {}
    if data != [] && DecodeReply(data, incoming).Ok? {
      var reply := Decode(ReplyStep, StartReply(incoming), data).value;
      forall last: Message ensures before + (reply.incoming + [last]) == before + reply.incoming + [last] {}
    }
  }

  // ---------- Compositionality ----------

  lemma NextRecordPrefix(a: Bytes, b: Bytes)
    requires NextRecord(a).Ok?
    ensures NextRecord(a + b) == NextRecord(a)
  {
    VarintPrefix(a, b, 0);
    var n := Varint(a, 0).value;
    TakePrefix(a[n.used..], b, n.value);
    assert (a + b)[n.used..] == a[n.used..] + b;
  }

  lemma {:induction false} RecordsConcat(a: Bytes, b: Bytes, incoming: seq<Message>)
    requires Records(a, incoming).Ok?
    ensures Records(a + b, incoming) == Records(b, Records(a, incoming).value)
    decreases |a|
  {
    if a == [] {
      assert a + b == b;
    } else {
      var record := NextRecord(a).value;
      NextRecordPrefix(a, b);
      assert (a + b)[record.used..] == a[record.used..] + b;
      RecordsConcat(a[record.used..], b, DecodeReply(record.value, incoming).value);
    }
  }

  lemma {:induction false} RecordsAfter(before: seq<Message>, s: Bytes, incoming: seq<Message>)
    ensures Records(s, before + incoming) == Lifted(After(before), Records(s, incoming))
    decreases |s|
  {
    if s != [] && NextRecord(s).Ok? {
      var record := NextRecord(s).value;
      DecodeReplyAfter(before, record.value, incoming);
      if DecodeReply(record.value, incoming).Ok? {
        RecordsAfter(before, s[record.used..], DecodeReply(record.value, incoming).value);
      }
    }
  }

  /** Decoding concatenated frames is concatenating what they decode to; the second one's error is the whole's. */
  lemma RepliesCompose(a: Bytes, b: Bytes)
    requires DecodeReplies(a).Ok? && |a| + |b| <= MAX_MESSAGE
    ensures DecodeReplies(a + b) ==
      match DecodeReplies(b)
      case Err(e) => Err(e)
      case Ok(messages) => Ok(DecodeReplies(a).value + messages)
  {
    RecordsConcat(a, b, []);
    var first := DecodeReplies(a).value;
    RecordsAfter(first, b, []);
    assert first + [] == first;
  }

  // ---------- Encoders ----------

  function OKReply(id: nat): Bytes {
    LengthDelimit(EncodeVarintField(1, id))
  }

  function PublicationFrame(data: Bytes): Bytes {
    LengthDelimit(EncodeBytesField(4, EncodeBytesField(4, EncodeBytesField(4, data))))
  }

  function UnsubscribeBody(code: nat, reason: Bytes): Bytes {
    EncodeVarintField(2, code) + EncodeBytesField(3, reason)
  }

  function PushBody(channel: Bytes, code: nat, reason: Bytes): Bytes {
    EncodeBytesField(2, channel) + EncodeBytesField(7, UnsubscribeBody(code, reason))
  }

  function UnsubscribeFrame(channel: Bytes, code: nat, reason: Bytes): Bytes {
    LengthDelimit(EncodeBytesField(4, PushBody(channel, code, reason)))
  }

  /** A frame of one record. */
  lemma OneRecord(message: Bytes, incoming: seq<Message>)
    requires |message| <= MAX_MESSAGE
    ensures Records(LengthDelimit(message), incoming) == DecodeReply(message, incoming)
  {
    var s := LengthDelimit(message);
    VarintRoundTrip(|message|, message);
    var head := EncodeVarint(|message|);
    assert s[|head|..] == message && message[..|message|] == message;
    assert s[|s|..] == [];
  }

  /** Decoding a message of one field. */
  lemma OneField<A>(step: (A, Field) -> Result<A, WireError>, acc: A, data: Bytes, f: Field)
    requires Fields(data) == Parsed([f], None)
    ensures Decode(step, acc, data) == step(acc, f)
  {
    assert [f][1..] == [];
    if step(acc, f).Ok? {
      assert Fold(step, step(acc, f).value, []) == Ok(step(acc, f).value);
    }
  }

  /** Decoding a message of two fields. */
  lemma TwoFields<A>(step: (A, Field) -> Result<A, WireError>, acc: A, a: Bytes, b: Bytes, f: Field, g: Field)
    requires Fields(a) == Parsed([f], None) && Fields(b) == Parsed([g], None)
    requires step(acc, f).Ok?
    ensures Decode(step, acc, a + b) == step(step(acc, f).value, g)
  {
    FieldsConcat(a, b);
    FoldConcat(step, acc, [f], [g]);
    OneField(step, acc, a, f);
    OneField(step, step(acc, f).value, b, g);
  }

  /** The decoder inverts the encoder of an OK reply, for every id. */
  lemma OKReplyRoundTrip(id: nat)
    requires id <= MAX_UINT32
    ensures DecodeReplies(OKReply(id)) == Ok([Reply(id, None, false, 0)])
  {
    var message := EncodeVarintField(1, id);
    VarintFieldReads(1, id);
    VarintLength(id);
    VarintLength(8);
    VarintLength(|message|);
    OneRecord(message, []);
    OneField(ReplyStep, StartReply([]), message, Field(1, 0, Number(id)));
    assert [] + [Reply(id, None, false, 0)] == [Reply(id, None, false, 0)];
  }

  /** A varint takes as many bytes as its sevens of bits, ten at most. */
  lemma VarintLength(v: nat)
    requires v < 0x1_0000_0000_0000_0000
    ensures |EncodeVarint(v)| <= 10
  {
    VarintRoundTrip(v, []);
  }

  lemma PushFieldReads(bytes: Bytes)
    requires |bytes| <= MAX_MESSAGE
    ensures DecodeReply(EncodeBytesField(4, bytes), []) ==
      match DecodePush(bytes, [])
      case Err(e) => Err(e)
      case Ok(incoming) => Ok(incoming)
  {
    BytesFieldReads(4, bytes);
    OneField(ReplyStep, StartReply([]), EncodeBytesField(4, bytes), Field(4, 2, Blob(bytes)));
  }

  /** The decoder inverts the encoder of a publication, whenever the frame is within the cap. */
  lemma PublicationRoundTrip(data: Bytes)
    ensures DecodeReplies(PublicationFrame(data)) ==
      if |PublicationFrame(data)| <= MAX_MESSAGE then Ok([Publication(data)]) else Err(FrameTooLong)
  {
    if |PublicationFrame(data)| <= MAX_MESSAGE {
      var pub := EncodeBytesField(4, data);
      var push := EncodeBytesField(4, pub);
      OneRecord(EncodeBytesField(4, push), []);
      PushFieldReads(push);
      BytesFieldReads(4, pub);
      OneField(PushStep, Push([], None, []), push, Field(4, 2, Blob(pub)));
      BytesFieldReads(4, data);
      OneField(PublicationStep, [], pub, Field(4, 2, Blob(data)));
      assert [] + [Publication(data)] == [Publication(data)];
    }
  }

  lemma UnsubscribeBodyReads(code: nat, reason: Bytes)
    requires code <= MAX_UINT32 && |reason| <= MAX_MESSAGE
    ensures DecodeUnsubscribe(UnsubscribeBody(code, reason)) == Ok(Ended(code, reason))
  {
    VarintFieldReads(2, code);
    BytesFieldReads(3, reason);
    TwoFields(UnsubscribeStep, Ended(0, []), EncodeVarintField(2, code), EncodeBytesField(3, reason),
              Field(2, 0, Number(code)), Field(3, 2, Blob(reason)));
  }

  lemma PushBodyReads(channel: Bytes, code: nat, reason: Bytes)
    requires code <= MAX_UINT32 && |PushBody(channel, code, reason)| <= MAX_MESSAGE
    ensures DecodePush(PushBody(channel, code, reason), []) == Ok([Unsubscribe(channel, code, reason)])
  {
    var body := UnsubscribeBody(code, reason);
    UnsubscribeBodyReads(code, reason);
    BytesFieldReads(2, channel);
    BytesFieldReads(7, body);
    TwoFields(PushStep, Push([], None, []), EncodeBytesField(2, channel), EncodeBytesField(7, body),
              Field(2, 2, Blob(channel)), Field(7, 2, Blob(body)));
    assert [] + [Unsubscribe(channel, code, reason)] == [Unsubscribe(channel, code, reason)];
  }

  /** The decoder inverts the encoder of an unsubscribe, whenever the frame is within the cap. */
  lemma UnsubscribeRoundTrip(channel: Bytes, code: nat, reason: Bytes)
    requires code <= MAX_UINT32
    ensures DecodeReplies(UnsubscribeFrame(channel, code, reason)) ==
      if |UnsubscribeFrame(channel, code, reason)| <= MAX_MESSAGE then Ok([Unsubscribe(channel, code, reason)])
        else Err(FrameTooLong)
  {
    if |UnsubscribeFrame(channel, code, reason)| <= MAX_MESSAGE {
      var push := PushBody(channel, code, reason);
      OneRecord(EncodeBytesField(4, push), []);
      PushFieldReads(push);
      PushBodyReads(channel, code, reason);
    }
  }

  // ---------- Commands ----------

  function CommandBody(id: nat, field: nat, request: Bytes): Bytes {
    EncodeVarintField(1, id) + EncodeBytesField(field, request)
  }

  function Command(id: nat, field: nat, request: Bytes): Bytes {
    LengthDelimit(CommandBody(id, field, request))
  }

  function ConnectRequest(token: Bytes): Bytes {
    if token == [] then [] else EncodeBytesField(1, token)
  }

  /** Subscribe and sub-refresh requests name the channel and the token; a subscribe without token leaves it out. */
  function ChannelRequest(channel: Bytes, token: Bytes, optional: bool): Bytes {
    if optional && token == [] then EncodeBytesField(1, channel)
      else EncodeBytesField(1, channel) + EncodeBytesField(2, token)
  }

  lemma RecordReads(body: Bytes)
    requires |body| <= MAX_MESSAGE
    ensures NextRecord(LengthDelimit(body)) == Ok(Read(body, |LengthDelimit(body)|))
  {
    hide EncodeVarint, Varint;
    VarintRoundTrip(|body|, body);
    assert LengthDelimit(body)[|EncodeVarint(|body|)|..] == body && body[..|body|] == body;
  }

  /** A command is one record whose fields are the id and the request. */
  lemma CommandReads(id: nat, field: nat, request: Bytes)
    requires id <= MAX_UINT32 && 0 < field < 0x2000_0000 && |Command(id, field, request)| <= MAX_MESSAGE
    ensures NextRecord(Command(id, field, request)) ==
      Ok(Read(CommandBody(id, field, request), |Command(id, field, request)|))
    ensures Fields(CommandBody(id, field, request)) ==
      Parsed([Field(1, 0, Number(id)), Field(field, 2, Blob(request))], None)
  {
    hide EncodeVarint, NextRecord, Fields;
    RecordReads(CommandBody(id, field, request));
    VarintFieldReads(1, id);
    BytesFieldReads(field, request);
    FieldsConcat(EncodeVarintField(1, id), EncodeBytesField(field, request));
  }

  /** What a connect request says: its token, unless there is none. */
  lemma ConnectRequestReads(token: Bytes)
    requires |token| <= MAX_MESSAGE
    ensures Fields(ConnectRequest(token)) == Parsed(if token == [] then [] else [Field(1, 2, Blob(token))], None)
  {
    if token != [] { BytesFieldReads(1, token); }
  }

  /** What a channel request says: its channel, and its token unless it was left out. */
  lemma ChannelRequestReads(channel: Bytes, token: Bytes, optional: bool)
    requires |ChannelRequest(channel, token, optional)| <= MAX_MESSAGE
    ensures Fields(ChannelRequest(channel, token, optional)) ==
      Parsed([Field(1, 2, Blob(channel))] + if optional && token == [] then [] else [Field(2, 2, Blob(token))], None)
  {
    BytesFieldReads(1, channel);
    if !(optional && token == []) {
      BytesFieldReads(2, token);
      FieldsConcat(EncodeBytesField(1, channel), EncodeBytesField(2, token));
    }
  }

  /** A pong is the empty record, which a reader takes for a ping. */
  lemma PongReads()
    ensures DecodeReplies([0]) == Ok([Ping])
  {
    OneRecord([], []);
    assert LengthDelimit([]) == [0];
    assert [] + [Ping] == [Ping];
  }

  // ---------- Unknown fields ----------

  /** Field numbers and wire types each message looks at. */
  predicate KnownInReply(f: Field) {
    (f.number == 1 && f.wire == 0) || (f.wire == 2 && (f.number == 2 || f.number == 4 || ExpiryField(f.number)))
  }

  predicate KnownInPush(f: Field) {
    f.wire == 2 && (f.number == 2 || f.number == 4 || f.number == 7)
  }

  predicate KnownInUnsubscribe(f: Field) {
    (f.number == 2 && f.wire == 0) || (f.number == 3 && f.wire == 2)
  }

  /** One well-formed field. */
  ghost predicate OneWellFormed(u: Bytes) {
    Fields(u).error.None? && |Fields(u).fields| == 1
  }

  lemma UnknownInPush(a: Bytes, u: Bytes, b: Bytes, incoming: seq<Message>)
    requires Fields(a).error.None? && OneWellFormed(u) && !KnownInPush(Fields(u).fields[0])
    ensures DecodePush(a + u + b, incoming) == DecodePush(a + b, incoming)
  {
    InsertIgnored(PushStep, Push([], None, incoming), a, u, b);
  }

  lemma UnknownInUnsubscribe(a: Bytes, u: Bytes, b: Bytes)
    requires Fields(a).error.None? && OneWellFormed(u) && !KnownInUnsubscribe(Fields(u).fields[0])
    ensures DecodeUnsubscribe(a + u + b) == DecodeUnsubscribe(a + b)
  {
    InsertIgnored(UnsubscribeStep, Ended(0, []), a, u, b);
  }

  /** An unknown field changes a reply exactly when the reply was empty: a ping then reads as a reply without id. */
  lemma UnknownInReply(a: Bytes, u: Bytes, b: Bytes, incoming: seq<Message>)
    requires Fields(a).error.None? && OneWellFormed(u) && !KnownInReply(Fields(u).fields[0])
    ensures DecodeReply(a + u + b, incoming) == DecodeReply(a + b, incoming) <==> a + b != []
    ensures a + b == [] ==>
      && DecodeReply(a + b, incoming) == Ok(incoming + [Ping])
      && DecodeReply(a + u + b, incoming) == Ok(incoming + [Reply(0, None, false, 0)])
  {
    InsertIgnored(ReplyStep, StartReply(incoming), a, u, b);
    assert u != [];
    if a + b == [] {
      assert Decode(ReplyStep, StartReply(incoming), []) == Ok(StartReply(incoming));
      assert (incoming + [Ping])[|incoming|] != (incoming + [Reply(0, None, false, 0)])[|incoming|];
    }
  }

  /** Any field a newer server may add, with a number below 2^29, is such an unknown field. */
  lemma AddedFieldWellFormed(number: nat, value: Bytes)
    requires 0 < number < 0x2000_0000 && |value| <= MAX_MESSAGE
    ensures OneWellFormed(EncodeBytesField(number, value))
      && Fields(EncodeBytesField(number, value)).fields[0].number == number
  {
    BytesFieldReads(number, value);
  }
}
