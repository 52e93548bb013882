/**
 The wire format read by realtime/protocol.go: base 128 varints, keys and
 length-delimited fields, as functions of a byte string. A decoder there reads
 fields one by one and may fail at any of them, so a message is described by
 the fields it starts with and the error, if any, that ends it.
 */
module Wire {
  import opened Basics

  type Byte = x: int | 0 <= x < 256
  type Bytes = seq<Byte>

  const MAX_MESSAGE: int := 8 * 1024 * 1024

  datatype WireError =
    | Truncated
    | VarintOverflow
    | ZeroField
    | FieldTooLong
    | UnsupportedWire(wire: int)
    | FrameTooLong
    | RecordTooLong
    | IdTooLarge
    | CodeTooLarge
    | TtlTooLarge

  /** Something read from the front of a byte string, and the bytes it took. */
  datatype Read<T> = Read(value: T, used: nat)

  // ---------- Varints ----------

  /**
   A varint whose first `done` bytes have been read: seven bits a byte, least significant first, at most 64 in
   all.
   */
  function Varint(s: Bytes, done: nat): (r: Result<Read<nat>, WireError>)
    ensures r.Ok? ==> 1 <= r.value.used <= |s| && r.value.used + done <= 10
  {
    if done >= 10 then Err(VarintOverflow)
    else if s == [] then Err(Truncated)
    else if done == 9 && s[0] > 1 then Err(VarintOverflow)
    else if s[0] < 128 then Ok(Read(s[0], 1))
    else match Varint(s[1..], done + 1)
      case Ok(rest) => Ok(Read(s[0] - 128 + 128 * rest.value, rest.used + 1))
      case Err(e) => Err(e)
  }

  function EncodeVarint(v: nat): (s: Bytes)
    ensures s != []
  {
    if v < 128 then [v] else [v % 128 + 128] + EncodeVarint(v / 128)
  }

  /** What is left of 64 bits once `done` bytes are read. */
  function Room(done: nat): nat
    requires done <= 9
    decreases 9 - done
  {
    if done == 9 then 2 else 128 * Room(done + 1)
  }

  lemma RoomIs64Bits()
    ensures Room(0) == 0x1_0000_0000_0000_0000
  {
    assert Room(9) == 2;
    assert Room(8) == 256;
    assert Room(7) == 128 * Room(8);
    assert Room(6) == 128 * Room(7);
    assert Room(5) == 128 * Room(6);
    assert Room(4) == 128 * Room(5);
    assert Room(3) == 128 * Room(4);
    assert Room(2) == 128 * Room(3);
    assert Room(1) == 128 * Room(2);
  }

  lemma {:induction false} VarintRoom(s: Bytes, done: nat)
    requires done <= 9 && Varint(s, done).Ok?
    ensures Varint(s, done).value.value < Room(done)
    decreases 9 - done
  {
    if s[0] >= 128 {
      assert done < 9;
      VarintRoom(s[1..], done + 1);
    } else if done < 9 {
      assert Room(done + 1) >= 1 by { RoomPositive(done + 1); }
    }
  }

  lemma {:induction false} RoomPositive(done: nat)
    requires done <= 9
    ensures Room(done) >= 2
    decreases 9 - done
  {
    if done < 9 { RoomPositive(done + 1); }
  }

  /** Decoding inverts encoding for every value of 64 bits, whatever follows. */
  lemma {:induction false} VarintRoundTripFrom(v: nat, rest: Bytes, done: nat)
    requires done <= 9 && v < Room(done)
    ensures Varint(EncodeVarint(v) + rest, done) == Ok(Read(v, |EncodeVarint(v)|))
    decreases 9 - done
  {
    var s := EncodeVarint(v) + rest;
    if v < 128 {
      assert s[0] == v;
    } else {
      assert done < 9;
      VarintRoundTripFrom(v / 128, rest, done + 1);
      assert s[1..] == EncodeVarint(v / 128) + rest;
    }
  }

  lemma VarintRoundTrip(v: nat, rest: Bytes)
    requires v < 0x1_0000_0000_0000_0000
    ensures Varint(EncodeVarint(v) + rest, 0) == Ok(Read(v, |EncodeVarint(v)|))
  {
    RoomIs64Bits();
    VarintRoundTripFrom(v, rest, 0);
  }

  /** `s` starts with a varint of `n` bytes: continuation bits, then none; the tenth byte holds one bit. */
  predicate StartsWithVarint(s: Bytes, n: nat) {
    && 1 <= n <= 10 && n <= |s|
    && (forall i :: 0 <= i < n - 1 ==> s[i] >= 128)
    && s[n - 1] < 128
    && (n == 10 ==> s[9] <= 1)
  }

  /** Exactly the varints of at most 64 bits are accepted. */
  lemma VarintAccepts(s: Bytes)
    ensures Varint(s, 0).Ok? <==> exists n :: StartsWithVarint(s, n)
    ensures Varint(s, 0).Ok? ==>
      StartsWithVarint(s, Varint(s, 0).value.used) && Varint(s, 0).value.value < 0x1_0000_0000_0000_0000
  {
    if Varint(s, 0).Ok? {
      VarintShape(s, 0);
      RoomIs64Bits();
      VarintRoom(s, 0);
      assert StartsWithVarint(s, Varint(s, 0).value.used);
    }
    if n :| StartsWithVarint(s, n) {
      VarintReads(s, 0, n);
    }
  }

  lemma {:induction false} VarintShape(s: Bytes, done: nat)
    requires Varint(s, done).Ok?
    ensures var n := Varint(s, done).value.used;
      (forall i :: 0 <= i < n - 1 ==> s[i] >= 128) && s[n - 1] < 128 && (n + done == 10 ==> s[n - 1] <= 1)
    decreases |s|
  {
    if s[0] >= 128 {
      VarintShape(s[1..], done + 1);
      var n := Varint(s, done).value.used;
      forall i | 0 < i < n - 1 ensures s[i] >= 128 { assert s[i] == s[1..][i - 1]; }
      assert s[n - 1] == s[1..][n - 2];
    }
  }

  lemma {:induction false} VarintReads(s: Bytes, done: nat, n: nat)
    requires 1 <= n <= |s| && n + done <= 10
    requires (forall i :: 0 <= i < n - 1 ==> s[i] >= 128) && s[n - 1] < 128 && (n + done == 10 ==> s[n - 1] <= 1)
    ensures Varint(s, done).Ok? && Varint(s, done).value.used == n
    decreases n
  {
    if n > 1 {
      VarintReads(s[1..], done + 1, n - 1);
    }
  }

  lemma {:induction false} VarintPrefix(a: Bytes, b: Bytes, done: nat)
    requires Varint(a, done).Ok?
    ensures Varint(a + b, done) == Varint(a, done)
    decreases |a|
  {
    if a[0] >= 128 {
      assert (a + b)[1..] == a[1..] + b;
      VarintPrefix(a[1..], b, done + 1);
    }
  }

  // ---------- Fields ----------

  datatype Value = Number(n: nat) | Blob(bytes: Bytes)

  datatype Field = Field(number: int, wire: int, value: Value)

  /** A key: the field number keeps 32 bits and may not be zero; three bits say how the value is written. */
  function Key(s: Bytes): (r: Result<Read<(int, int)>, WireError>)
    ensures r.Ok? ==> 1 <= r.value.used <= |s|
  {
    match Varint(s, 0)
    case Err(e) => Err(e)
    case Ok(key) =>
      var number := key.value / 8 % 0x1_0000_0000;
      if number == 0 then Err(ZeroField) else Ok(Read((number, key.value % 8), key.used))
  }

  function Take(s: Bytes, length: nat): (r: Result<Read<Bytes>, WireError>)
    ensures r.Ok? ==> r.value.used == length <= |s|
  {
    if length > |s| then Err(Truncated) else Ok(Read(s[..length], length))
  }

  function LengthDelimited(s: Bytes): (r: Result<Read<Bytes>, WireError>)
    ensures r.Ok? ==> 1 <= r.value.used <= |s|
  {
    match Varint(s, 0)
    case Err(e) => Err(e)
    case Ok(length) =>
      if length.value > MAX_MESSAGE then Err(FieldTooLong)
      else match Take(s[length.used..], length.value)
        case Err(e) => Err(e)
        case Ok(bytes) => Ok(Read(bytes.value, length.used + bytes.used))
  }

  function ValueOf(s: Bytes, wire: int): (r: Result<Read<Value>, WireError>)
    ensures r.Ok? ==> r.value.used <= |s|
  {
    if wire == 0 then
      match Varint(s, 0) case Err(e) => Err(e) case Ok(v) => Ok(Read(Number(v.value), v.used))
    else if wire == 2 then
      match LengthDelimited(s) case Err(e) => Err(e) case Ok(v) => Ok(Read(Blob(v.value), v.used))
    else if wire == 1 || wire == 5 then
      match Take(s, if wire == 1 then 8 else 4) case Err(e) => Err(e) case Ok(v) => Ok(Read(Blob(v.value), v.used))
    else Err(UnsupportedWire(wire))
  }

  function NextField(s: Bytes): (r: Result<Read<Field>, WireError>)
    ensures r.Ok? ==> 1 <= r.value.used <= |s|
  {
    match Key(s)
    case Err(e) => Err(e)
    case Ok(key) =>
      match ValueOf(s[key.used..], key.value.1)
      case Err(e) => Err(e)
      case Ok(v) => Ok(Read(Field(key.value.0, key.value.1, v.value), key.used + v.used))
  }

  /** The fields a message starts with, and the error that ends it early. */
  datatype Parsed = Parsed(fields: seq<Field>, error: Option<WireError>)

  function Fields(s: Bytes): Parsed
    decreases |s|
  {
    if s == [] then Parsed([], None)
    else match NextField(s)
      case Err(e) => Parsed([], Some(e))
      case Ok(f) => Before([f.value], Fields(s[f.used..]))
  }

  function Before(fields: seq<Field>, rest: Parsed): Parsed {
    Parsed(fields + rest.fields, rest.error)
  }

  lemma BeforeBefore(a: seq<Field>, b: seq<Field>, rest: Parsed)
    ensures Before(a, Before(b, rest)) == Before(a + b, rest)
  {
    assert a + (b + rest.fields) == a + b + rest.fields;
  }

  lemma LengthDelimitedPrefix(a: Bytes, b: Bytes)
    requires LengthDelimited(a).Ok?
    ensures LengthDelimited(a + b) == LengthDelimited(a)
  {
    VarintPrefix(a, b, 0);
    var n := Varint(a, 0).value.used;
    TakePrefix(a[n..], b, Varint(a, 0).value.value);
    assert (a + b)[n..] == a[n..] + b;
  }

  lemma TakePrefix(a: Bytes, b: Bytes, length: nat)
    requires length <= |a|
    ensures Take(a + b, length) == Take(a, length)
  {
    assert (a + b)[..length] == a[..length];
  }

  /** What can be read does not depend on what follows. */
  lemma NextFieldPrefix(a: Bytes, b: Bytes)
    requires NextField(a).Ok?
    ensures NextField(a + b) == NextField(a)
  {
    VarintPrefix(a, b, 0);
    var key := Key(a).value;
    var rest := a[key.used..];
    assert (a + b)[key.used..] == rest + b;
    if key.value.1 == 0 {
      VarintPrefix(rest, b, 0);
    } else if key.value.1 == 2 {
      LengthDelimitedPrefix(rest, b);
    } else {
      TakePrefix(rest, b, if key.value.1 == 1 then 8 else 4);
    }
  }

  lemma FieldsStep(s: Bytes, f: Read<Field>)
    requires NextField(s) == Ok(f)
    ensures Fields(s) == Before([f.value], Fields(s[f.used..]))
  {
  }

  lemma FieldsJoin(a: Bytes, b: Bytes, f: Read<Field>)
    requires NextField(a) == Ok(f)
    requires Fields(a[f.used..] + b) == Before(Fields(a[f.used..]).fields, Fields(b))
    ensures Fields(a + b) == Before(Fields(a).fields, Fields(b))
  {
    FieldsBeyond(a, b, f);
    FieldsStep(a, f);
    BeforeBefore([f.value], Fields(a[f.used..]).fields, Fields(b));
  }

  lemma FieldsBeyond(a: Bytes, b: Bytes, f: Read<Field>)
    requires NextField(a) == Ok(f)
    ensures Fields(a + b) == Before([f.value], Fields(a[f.used..] + b))
  {
    NextFieldPrefix(a, b);
    assert (a + b)[f.used..] == a[f.used..] + b;
    FieldsStep(a + b, f);
  }

  /** The fields of a concatenation. */
  lemma {:induction false} FieldsConcat(a: Bytes, b: Bytes)
    requires Fields(a).error.None?
    ensures Fields(a + b) == Before(Fields(a).fields, Fields(b))
    decreases |a|
  {
    if a == [] {
      assert a + b == b;
      assert Before([], Fields(b)) == Fields(b);
    } else {
      var f := NextField(a).value;
      FieldsConcat(a[f.used..], b);
      FieldsJoin(a, b, f);
    }
  }

  // ---------- Printing fields ----------

  function EncodeBytesField(number: nat, value: Bytes): Bytes {
    EncodeVarint(number * 8 + 2) + EncodeVarint(|value|) + value
  }

  function EncodeVarintField(number: nat, value: nat): Bytes {
    EncodeVarint(number * 8) + EncodeVarint(value)
  }

  function LengthDelimit(message: Bytes): Bytes {
    EncodeVarint(|message|) + message
  }

  lemma KeyRoundTrip(number: nat, wire: nat, rest: Bytes)
    requires 0 < number < 0x2000_0000 && wire < 8
    ensures Key(EncodeVarint(number * 8 + wire) + rest) == Ok(Read((number, wire), |EncodeVarint(number * 8 + wire)|))
  {
    KeyParts(number, wire);
    VarintRoundTrip(number * 8 + wire, rest);
  }

  lemma KeyParts(number: nat, wire: nat)
    requires number < 0x2000_0000 && wire < 8
    ensures (number * 8 + wire) / 8 % 0x1_0000_0000 == number && (number * 8 + wire) % 8 == wire
  {
  }

  lemma LengthDelimitedRoundTrip(value: Bytes, rest: Bytes)
    requires |value| <= MAX_MESSAGE
    ensures LengthDelimited(LengthDelimit(value) + rest) == Ok(Read(value, |LengthDelimit(value)|))
  {
    var head := EncodeVarint(|value|);
    var s := LengthDelimit(value) + rest;
    assert s == head + (value + rest);
    VarintRoundTrip(|value|, value + rest);
    assert s[|head|..] == value + rest;
    assert (value + rest)[..|value|] == value;
  }

  lemma BytesFieldReads(number: nat, value: Bytes)
    requires 0 < number < 0x2000_0000 && |value| <= MAX_MESSAGE
    ensures Fields(EncodeBytesField(number, value)) == Parsed([Field(number, 2, Blob(value))], None)
  {
    var s, key, body := EncodeBytesField(number, value), EncodeVarint(number * 8 + 2), LengthDelimit(value);
    assert s == key + body;
    KeyRoundTrip(number, 2, body);
    assert s[|key|..] == body && body + [] == body;
    LengthDelimitedRoundTrip(value, []);
    assert s[|s|..] == [];
    assert Fields(s[|s|..]) == Parsed([], None);
  }

  lemma VarintFieldReads(number: nat, value: nat)
    requires 0 < number < 0x2000_0000 && value < 0x1_0000_0000_0000_0000
    ensures Fields(EncodeVarintField(number, value)) == Parsed([Field(number, 0, Number(value))], None)
  {
    var s, key, body := EncodeVarintField(number, value), EncodeVarint(number * 8), EncodeVarint(value);
    KeyRoundTrip(number, 0, body);
    assert s[|key|..] == body && body + [] == body;
    VarintRoundTrip(value, []);
    assert s[|s|..] == [];
    assert Fields(s[|s|..]) == Parsed([], None);
  }
}
