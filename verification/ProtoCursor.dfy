/**
 The decoder of realtime/protocol.go as it runs: a cursor that advances over a
 buffer, loops that switch on one key after the other, and the encoders that
 grow a buffer. Every loop is proved to compute the function of `Wire` and
 `Replies` it stands for, so the cursor never leaves its buffer and always
 moves.
 */
module ProtoCursor {
  import opened Basics
  import opened Wire
  import opened Replies
  import R = Replies

  class ProtoCursor {
    const data: Bytes
    var offset: nat

    constructor (data: Bytes)
      ensures this.data == data && offset == 0 && Left() == data
    {
      this.data := data;
      offset := 0;
      new;
      assert data[0..] == data;
    }

    predicate Valid()
      reads this
    {
      offset <= |data|
    }

    /** What is still to be read. */
    function Left(): Bytes
      reads this
      requires Valid()
    {
      data[offset..]
    }

    function Remaining(): nat
      reads this
      requires Valid()
    {
      |data| - offset
    }

    /** The section of the buffer from `from` to the cursor was read, the rest is left. */
    twostate predicate Advanced(used: nat)
      reads this
    {
      old(Valid()) && Valid() && offset == old(offset) + used && Left() == old(Left())[used..]
    }

    method Varint() returns (r: Result<nat, WireError>)
      requires Valid()
      modifies this
      ensures Valid() && offset >= old(offset)
      ensures match Wire.Varint(old(Left()), 0)
        case Err(e) => r == Err(e)
        case Ok(v) => r == Ok(v.value) && Advanced(v.used)
    {
      var value: nat, scale: nat, i: nat := 0, 1, 0;
      ghost var start := Left();
      assert start[0..] == start;
      assert Partway(start, 0, 0, 1);
      hide Partway, Wire.Varint;
      while i < 10
        invariant Valid() && i <= 10 && offset == old(offset) + i && i <= |start| && Left() == start[i..]
        invariant Partway(start, i, value, scale)
      {
        VarintByte(start, i, value, scale);
        if Remaining() == 0 {
          return Err(Truncated);
        }
        var current := data[offset];
        assert current == start[i..][0];
        offset := offset + 1;
        if i == 9 && current > 1 {
          return Err(VarintOverflow);
        }
        value := value + scale * (current % 128);
        if current < 128 {
          return Ok(value);
        }
        scale, i := scale * 128, i + 1;
      }
      VarintByte(start, i, value, scale);
      return Err(VarintOverflow);
    }

    method Key() returns (r: Result<(int, int), WireError>)
      requires Valid()
      modifies this
      ensures Valid() && offset >= old(offset)
      ensures match Wire.Key(old(Left()))
        case Err(e) => r == Err(e)
        case Ok(key) => r == Ok(key.value) && Advanced(key.used)
    {
      var key := Varint();
      if key.Err? {
        return Err(key.error);
      }
      var number := key.value / 8 % 0x1_0000_0000;
      if number == 0 {
        return Err(ZeroField);
      }
      return Ok((number, key.value % 8));
    }

    method Take(length: nat) returns (r: Result<Bytes, WireError>)
      requires Valid()
      modifies this
      ensures Valid() && offset >= old(offset)
      ensures match Wire.Take(old(Left()), length)
        case Err(e) => r == Err(e)
        case Ok(v) => r == Ok(v.value) && Advanced(v.used)
    {
      if offset + length > |data| {
        return Err(Truncated);
      }
      var value := data[offset..offset + length];
      assert value == Left()[..length];
      offset := offset + length;
      return Ok(value);
    }

    method LengthDelimited() returns (r: Result<Bytes, WireError>)
      requires Valid()
      modifies this
      ensures Valid() && offset >= old(offset)
      ensures match Wire.LengthDelimited(old(Left()))
        case Err(e) => r == Err(e)
        case Ok(v) => r == Ok(v.value) && Advanced(v.used)
    {
      ghost var start := Left();
      var length := Varint();
      if length.Err? {
        return Err(length.error);
      }
      if length.value > MAX_MESSAGE {
        return Err(FieldTooLong);
      }
      if length.value > Remaining() {
        return Err(Truncated);
      }
      r := Take(length.value);
      assert Left() == start[Wire.LengthDelimited(start).value.used..];
    }

    method Skip(wire: int) returns (r: Option<WireError>)
      requires Valid()
      modifies this
      ensures Valid() && offset >= old(offset)
      ensures match ValueOf(old(Left()), wire)
        case Err(e) => r == Some(e)
        case Ok(v) => r == None && Advanced(v.used)
    {
      if wire == 0 {
        var v := Varint();
        return if v.Err? then Some(v.error) else None;
      } else if wire == 1 {
        var v := Take(8);
        return if v.Err? then Some(v.error) else None;
      } else if wire == 2 {
        var v := LengthDelimited();
        return if v.Err? then Some(v.error) else None;
      } else if wire == 5 {
        var v := Take(4);
        return if v.Err? then Some(v.error) else None;
      }
      return Some(UnsupportedWire(wire));
    }
  }

  /** After `i` bytes of a varint: what they contributed, and the weight of the next one. */
  predicate Partway(start: Bytes, i: nat, value: nat, scale: nat)
    requires i <= |start|
  {
    match Wire.Varint(start, 0)
    case Err(e) => Wire.Varint(start[i..], i) == Err(e)
    case Ok(v) =>
      var rest := Wire.Varint(start[i..], i);
      rest.Ok? && v.used == i + rest.value.used && v.value == value + scale * rest.value.value
  }

  lemma VarintNext(s: Bytes, done: nat)
    requires done < 10 && s != []
    ensures done == 9 && s[0] > 1 ==> Wire.Varint(s, done) == Err(VarintOverflow)
    ensures !(done == 9 && s[0] > 1) && s[0] < 128 ==>
      Wire.Varint(s, done).Ok? && Wire.Varint(s, done).value.value == s[0] && Wire.Varint(s, done).value.used == 1
    ensures !(done == 9 && s[0] > 1) && s[0] >= 128 ==>
      match Wire.Varint(s[1..], done + 1)
      case Err(e) => Wire.Varint(s, done) == Err(e)
      case Ok(rest) =>
        && Wire.Varint(s, done).Ok? && Wire.Varint(s, done).value.used == rest.used + 1
        && Wire.Varint(s, done).value.value == s[0] - 128 + 128 * rest.value
  {
  }

  /** The next byte ends the varint, one way or the other, or carries it on. */
  lemma VarintByte(start: Bytes, i: nat, value: nat, scale: nat)
    requires i <= |start| && i <= 10 && Partway(start, i, value, scale)
    ensures i == 10 ==> Wire.Varint(start, 0) == Err(VarintOverflow)
    ensures i < 10 && i == |start| ==> Wire.Varint(start, 0) == Err(Truncated)
    ensures i == 9 && i < |start| && start[i] > 1 ==> Wire.Varint(start, 0) == Err(VarintOverflow)
    ensures i < 10 && i < |start| && !(i == 9 && start[i] > 1) ==>
      var sum: nat := value + scale * (start[i] % 128);
      if start[i] < 128 then Wire.Varint(start, 0) == Ok(Read(sum, i + 1))
      else Partway(start, i + 1, sum, scale * 128)
  {
    if i < 10 && i < |start| {
      assert start[i..][0] == start[i] && start[i..][1..] == start[i + 1..];
      VarintNext(start[i..], i);
      hide Wire.Varint;
      var rest := Wire.Varint(start[i + 1..], i + 1);
      if start[i] >= 128 && rest.Ok? {
        Carry(scale, start[i], rest.value.value, Wire.Varint(start[i..], i).value.value);
      }
    }
  }

  lemma Carry(scale: nat, current: Byte, rest: nat, value: nat)
    requires current >= 128 && value == current - 128 + 128 * rest
    ensures scale * value == scale * (current % 128) + scale * 128 * rest
  {
    assert current % 128 == current - 128;
    assert scale * 128 * rest == scale * (128 * rest);
  }

  // ---------- Decoders ----------

  // Each decoder is a loop that reads one field per turn, and the switch of that loop.

  method ErrorField(cursor: ProtoCursor, acc: ProtocolError) returns (r: Result<ProtocolError, WireError>)
    requires cursor.Valid() && cursor.Left() != []
    modifies cursor
    ensures cursor.Valid()
    ensures match NextField(old(cursor.Left()))
      case Err(e) => r == Err(e)
      case Ok(f) => r == ErrorStep(acc, f.value) && (r.Ok? ==> cursor.Advanced(f.used))
  {
    var key := cursor.Key();
    if key.Err? {
      return Err(key.error);
    }
    var (field, wire) := key.value;
    if field == 1 && wire == 0 {
      var value := cursor.Varint();
      if value.Err? {
        return Err(value.error);
      }
      if value.value > MAX_UINT32 {
        return Err(CodeTooLarge);
      }
      return Ok(acc.(code := value.value));
    } else if field == 2 && wire == 2 {
      var value := cursor.LengthDelimited();
      if value.Err? {
        return Err(value.error);
      }
      return Ok(acc.(message := value.value));
    } else if field == 3 && wire == 0 {
      var value := cursor.Varint();
      if value.Err? {
        return Err(value.error);
      }
      return Ok(acc.(temporary := value.value != 0));
    } else {
      var skipped := cursor.Skip(wire);
      return if skipped.Some? then Err(skipped.value) else Ok(acc);
    }
  }

  method DecodeProtocolError(data: Bytes) returns (r: Result<ProtocolError, WireError>)
    ensures r == R.DecodeError(data)
  {
    var cursor := new ProtoCursor(data);
    var out := ProtocolError(0, [], false);
    while cursor.Remaining() > 0
      invariant fresh(cursor) && cursor.Valid()
      invariant Decode(ErrorStep, out, cursor.Left()) == Decode(ErrorStep, ProtocolError(0, [], false), data)
      decreases cursor.Remaining()
    {
      DecodeNext(ErrorStep, out, cursor.Left());
      var next := ErrorField(cursor, out);
      if next.Err? {
        return Err(next.error);
      }
      out := next.value;
    }
    return Ok(out);
  }

  method LifetimeField(cursor: ProtoCursor, acc: Expiry, resultField: int) returns (r: Result<Expiry, WireError>)
    requires cursor.Valid() && cursor.Left() != []
    modifies cursor
    ensures cursor.Valid()
    ensures match NextField(old(cursor.Left()))
      case Err(e) => r == Err(e)
      case Ok(f) => r == ExpiryStep(resultField)(acc, f.value) && (r.Ok? ==> cursor.Advanced(f.used))
  {
    var key := cursor.Key();
    if key.Err? {
      return Err(key.error);
    }
    var (field, wire) := key.value;
    var (expiresField, ttlField) := ExpiryFields(resultField);
    if field == expiresField && wire == 0 {
      var value := cursor.Varint();
      if value.Err? {
        return Err(value.error);
      }
      return Ok(acc.(expires := value.value != 0));
    } else if field == ttlField && wire == 0 {
      var value := cursor.Varint();
      if value.Err? {
        return Err(value.error);
      }
      if value.value > MAX_UINT32 {
        return Err(TtlTooLarge);
      }
      return Ok(acc.(ttl := value.value));
    } else {
      var skipped := cursor.Skip(wire);
      return if skipped.Some? then Err(skipped.value) else Ok(acc);
    }
  }

  method DecodeExpiry(data: Bytes, resultField: int) returns (r: Result<Expiry, WireError>)
    ensures r == R.DecodeExpiry(data, resultField)
  {
    var cursor := new ProtoCursor(data);
    var out := Expiry(false, 0);
    while cursor.Remaining() > 0
      invariant fresh(cursor) && cursor.Valid()
      invariant Decode(ExpiryStep(resultField), out, cursor.Left()) ==
        Decode(ExpiryStep(resultField), Expiry(false, 0), data)
      decreases cursor.Remaining()
    {
      DecodeNext(ExpiryStep(resultField), out, cursor.Left());
      var next := LifetimeField(cursor, out, resultField);
      if next.Err? {
        return Err(next.error);
      }
      out := next.value;
    }
    return Ok(out);
  }

  method UnsubscribeField(cursor: ProtoCursor, acc: Ended) returns (r: Result<Ended, WireError>)
    requires cursor.Valid() && cursor.Left() != []
    modifies cursor
    ensures cursor.Valid()
    ensures match NextField(old(cursor.Left()))
      case Err(e) => r == Err(e)
      case Ok(f) => r == UnsubscribeStep(acc, f.value) && (r.Ok? ==> cursor.Advanced(f.used))
  {
    var key := cursor.Key();
    if key.Err? {
      return Err(key.error);
    }
    var (field, wire) := key.value;
    if field == 2 && wire == 0 {
      var value := cursor.Varint();
      if value.Err? {
        return Err(value.error);
      }
      if value.value > MAX_UINT32 {
        return Err(CodeTooLarge);
      }
      return Ok(acc.(code := value.value));
    } else if field == 3 && wire == 2 {
      var value := cursor.LengthDelimited();
      if value.Err? {
        return Err(value.error);
      }
      return Ok(acc.(reason := value.value));
    } else {
      var skipped := cursor.Skip(wire);
      return if skipped.Some? then Err(skipped.value) else Ok(acc);
    }
  }

  method DecodeUnsubscribe(data: Bytes) returns (r: Result<Ended, WireError>)
    ensures r == R.DecodeUnsubscribe(data)
  {
    var cursor := new ProtoCursor(data);
    var out := Ended(0, []);
    while cursor.Remaining() > 0
      invariant fresh(cursor) && cursor.Valid()
      invariant Decode(UnsubscribeStep, out, cursor.Left()) == Decode(UnsubscribeStep, Ended(0, []), data)
      decreases cursor.Remaining()
    {
      DecodeNext(UnsubscribeStep, out, cursor.Left());
      var next := UnsubscribeField(cursor, out);
      if next.Err? {
        return Err(next.error);
      }
      out := next.value;
    }
    return Ok(out);
  }

  method PublicationField(cursor: ProtoCursor, acc: seq<Message>) returns (r: Result<seq<Message>, WireError>)
    requires cursor.Valid() && cursor.Left() != []
    modifies cursor
    ensures cursor.Valid()
    ensures match NextField(old(cursor.Left()))
      case Err(e) => r == Err(e)
      case Ok(f) => r == PublicationStep(acc, f.value) && (r.Ok? ==> cursor.Advanced(f.used))
  {
    var key := cursor.Key();
    if key.Err? {
      return Err(key.error);
    }
    var (field, wire) := key.value;
    if field == 4 && wire == 2 {
      var value := cursor.LengthDelimited();
      if value.Err? {
        return Err(value.error);
      }
      return Ok(acc + [Publication(value.value)]);
    } else {
      var skipped := cursor.Skip(wire);
      return if skipped.Some? then Err(skipped.value) else Ok(acc);
    }
  }

  method DecodePublication(data: Bytes, incoming: seq<Message>) returns (r: Result<seq<Message>, WireError>)
    ensures r == R.DecodePublication(data, incoming)
  {
    var cursor := new ProtoCursor(data);
    var out := incoming;
    while cursor.Remaining() > 0
      invariant fresh(cursor) && cursor.Valid()
      invariant Decode(PublicationStep, out, cursor.Left()) == Decode(PublicationStep, incoming, data)
      decreases cursor.Remaining()
    {
      DecodeNext(PublicationStep, out, cursor.Left());
      var next := PublicationField(cursor, out);
      if next.Err? {
        return Err(next.error);
      }
      out := next.value;
    }
    return Ok(out);
  }

  method PushField(cursor: ProtoCursor, acc: Push) returns (r: Result<Push, WireError>)
    requires cursor.Valid() && cursor.Left() != []
    modifies cursor
    ensures cursor.Valid()
    ensures match NextField(old(cursor.Left()))
      case Err(e) => r == Err(e)
      case Ok(f) => r == PushStep(acc, f.value) && (r.Ok? ==> cursor.Advanced(f.used))
  {
    hide Wire.Varint, Wire.Take;
    var key := cursor.Key();
    if key.Err? {
      return Err(key.error);
    }
    var (field, wire) := key.value;
    if field == 2 && wire == 2 {
      var value := cursor.LengthDelimited();
      if value.Err? {
        return Err(value.error);
      }
      return Ok(acc.(channel := value.value));
    } else if field == 4 && wire == 2 {
      var value := cursor.LengthDelimited();
      if value.Err? {
        return Err(value.error);
      }
      var published := DecodePublication(value.value, acc.incoming);
      return if published.Err? then Err(published.error) else Ok(acc.(incoming := published.value));
    } else if field == 7 && wire == 2 {
      var value := cursor.LengthDelimited();
      if value.Err? {
        return Err(value.error);
      }
      var ended := DecodeUnsubscribe(value.value);
      return if ended.Err? then Err(ended.error) else Ok(acc.(unsubscribe := Some(ended.value)));
    } else {
      var skipped := cursor.Skip(wire);
      return if skipped.Some? then Err(skipped.value) else Ok(acc);
    }
  }

  method DecodePush(data: Bytes, incoming: seq<Message>) returns (r: Result<seq<Message>, WireError>)
    ensures r == R.DecodePush(data, incoming)
  {
    var cursor := new ProtoCursor(data);
    var out := Push([], None, incoming);
    while cursor.Remaining() > 0
      invariant fresh(cursor) && cursor.Valid()
      invariant Decode(PushStep, out, cursor.Left()) == Decode(PushStep, Push([], None, incoming), data)
      decreases cursor.Remaining()
    {
      DecodeNext(PushStep, out, cursor.Left());
      var next := PushField(cursor, out);
      if next.Err? {
        return Err(next.error);
      }
      out := next.value;
    }
    return Ok(PushDone(out));
  }

  method ReplyField(cursor: ProtoCursor, acc: ReplyState) returns (r: Result<ReplyState, WireError>)
    requires cursor.Valid() && cursor.Left() != []
    modifies cursor
    ensures cursor.Valid()
    ensures match NextField(old(cursor.Left()))
      case Err(e) => r == Err(e)
      case Ok(f) => r == ReplyStep(acc, f.value) && (r.Ok? ==> cursor.Advanced(f.used))
  {
    hide Wire.Varint, Wire.Take;
    var key := cursor.Key();
    if key.Err? {
      return Err(key.error);
    }
    var (field, wire) := key.value;
    if field == 1 && wire == 0 {
      var value := cursor.Varint();
      if value.Err? {
        return Err(value.error);
      }
      if value.value > MAX_UINT32 {
        return Err(IdTooLarge);
      }
      return Ok(acc.(id := value.value));
    } else if (field == 2 || field == 4 || ExpiryField(field)) && wire == 2 {
      var value := cursor.LengthDelimited();
      if value.Err? {
        return Err(value.error);
      }
      r := ReplyBlob(acc, field, value.value);
    } else {
      var skipped := cursor.Skip(wire);
      return if skipped.Some? then Err(skipped.value) else Ok(acc);
    }
  }

  method DecodeReply(data: Bytes, incoming: seq<Message>) returns (r: Result<seq<Message>, WireError>)
    ensures r == R.DecodeReply(data, incoming)
  {
    if |data| == 0 {
      return Ok(incoming + [Ping]);
    }
    var cursor := new ProtoCursor(data);
    var out := StartReply(incoming);
    while cursor.Remaining() > 0
      invariant fresh(cursor) && cursor.Valid()
      invariant Decode(ReplyStep, out, cursor.Left()) == Decode(ReplyStep, StartReply(incoming), data)
      decreases cursor.Remaining()
    {
      DecodeNext(ReplyStep, out, cursor.Left());
      var next := ReplyField(cursor, out);
      if next.Err? {
        return Err(next.error);
      }
      out := next.value;
    }
    return Ok(ReplyDone(out));
  }

  /** The length-delimited fields of a reply: its error, a push, a result's token lifetime. */
  method ReplyBlob(acc: ReplyState, field: int, value: Bytes) returns (r: Result<ReplyState, WireError>)
    requires field == 2 || field == 4 || ExpiryField(field)
    ensures r == ReplyStep(acc, Field(field, 2, Blob(value)))
  {
    if field == 2 {
      var err := DecodeProtocolError(value);
      return if err.Err? then Err(err.error) else Ok(acc.(err := Some(err.value)));
    } else if field == 4 {
      var pushed := DecodePush(value, acc.incoming);
      return if pushed.Err? then Err(pushed.error) else Ok(acc.(incoming := pushed.value, sawPush := true));
    } else {
      var expiry := DecodeExpiry(value, field);
      return if expiry.Err? then Err(expiry.error) else Ok(acc.(expiry := expiry.value));
    }
  }

  method DecodeReplies(frame: Bytes) returns (r: Result<seq<Message>, WireError>)
    ensures r == R.DecodeReplies(frame)
  {
    if |frame| > MAX_MESSAGE {
      return Err(FrameTooLong);
    }
    var cursor := new ProtoCursor(frame);
    var incoming: seq<Message> := [];
    while cursor.Remaining() > 0
      invariant fresh(cursor) && cursor.Valid()
      invariant Records(cursor.Left(), incoming) == R.DecodeReplies(frame)
      decreases cursor.Remaining()
    {
      ghost var left := cursor.Left();
      var length := cursor.Varint();
      if length.Err? {
        return Err(length.error);
      }
      if length.value > MAX_MESSAGE {
        return Err(RecordTooLong);
      }
      var reply := cursor.Take(length.value);
      if reply.Err? {
        return Err(reply.error);
      }
      assert cursor.Left() == left[NextRecord(left).value.used..];
      var next := DecodeReply(reply.value, incoming);
      if next.Err? {
        return Err(next.error);
      }
      incoming := next.value;
    }
    return Ok(incoming);
  }

  // ---------- Encoders ----------

  /** `appendVarint` of realtime/protocol.go. */
  method AppendVarint(out: Bytes, value: nat) returns (r: Bytes)
    ensures r == out + EncodeVarint(value)
  {
    r := out;
    var v := value;
    while v >= 128
      invariant r + EncodeVarint(v) == out + EncodeVarint(value)
      decreases v
    {
      assert r + EncodeVarint(v) == r + [v % 128 + 128] + EncodeVarint(v / 128);
      r, v := r + [v % 128 + 128], v / 128;
    }
    r := r + [v];
  }

  /** `appendVarint` of hardening/centrifugo.go, which tests after the shift: the same bytes. */
  method AppendVarintShifting(buf: Bytes, value: nat) returns (r: Bytes)
    ensures r == buf + EncodeVarint(value)
  {
    r := buf;
    var v := value;
    var more := true;
    while more
      invariant more ==> r + EncodeVarint(v) == buf + EncodeVarint(value)
      invariant !more ==> v == 0 && r == buf + EncodeVarint(value)
      decreases more, v
    {
      var low := v % 128;
      if v >= 128 {
        assert r + EncodeVarint(v) == r + [low + 128] + EncodeVarint(v / 128);
      }
      v := v / 128;
      more := v != 0;
      r := r + [if more then low + 128 else low];
    }
  }

  method AppendBytesField(out: Bytes, number: nat, value: Bytes) returns (r: Bytes)
    ensures r == out + EncodeBytesField(number, value)
  {
    r := AppendVarint(out, number * 8 + 2);
    r := AppendVarint(r, |value|);
    r := r + value;
  }
}
