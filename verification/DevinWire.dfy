/**
 Devin's message encoding: tagged fields with variable-length integers. Reading what was
 written gives the same fields, and what was read can be written again in no more space.
 */
module DevinWire {
  import opened Wrappers

  newtype byte = b: int | 0 <= b < 256

  type Bytes = seq<byte>

  const TWO_TO_THE_32: nat := 0x1_0000_0000
  const TWO_TO_THE_64: nat := 0x1_0000_0000_0000_0000

  datatype FieldValue = Varint(amount: nat) | Fixed64(octets: Bytes) | Delimited(bytes: Bytes) | Fixed32(octets: Bytes)

  datatype Field = Field(number: nat, value: FieldValue)

  /** The program's machine types: a 32-bit number, 64-bit amounts and lengths, arrays of 8 and 4 bytes. */
  predicate Representable(field: Field) {
    && field.number < TWO_TO_THE_32
    && match field.value
       case Varint(amount) => amount < TWO_TO_THE_64
       case Fixed64(octets) => |octets| == 8
       case Delimited(bytes) => |bytes| < TWO_TO_THE_64
       case Fixed32(octets) => |octets| == 4
  }

  // Variable-length integers: seven bits a byte, lowest first.

  function Encoded(value: nat): (bytes: Bytes)
    ensures bytes != []
  {
    if value < 128 then [value as byte] else [(value % 128 + 128) as byte] + Encoded(value / 128)
  }

  /** One more than what the bytes from position `index` on can say; ten bytes say 64 bits. */
  function Limit(index: nat): nat
    requires index <= 9
    decreases 9 - index
  {
    if index == 9 then 2 else 128 * Limit(index + 1)
  }

  /** The amount from `offset` on as the byte at position `index` begins it, and the offset behind it. */
  function Decoded(payload: Bytes, offset: nat, index: nat): (r: Option<(nat, nat)>)
    requires index <= 10
    ensures r.Some? ==> offset < r.value.1 <= |payload|
    decreases 10 - index
  {
    if index == 10 || offset >= |payload| || (index == 9 && payload[offset] > 1) then None
    else if payload[offset] < 128 then Some((payload[offset] as nat, offset + 1))
    else
      match Decoded(payload, offset + 1, index + 1)
      case None => None
      case Some((rest, end)) => Some((payload[offset] as nat - 128 + 128 * rest, end))
  }

  lemma {:induction false} DecodeEncoded(before: Bytes, value: nat, after: Bytes, index: nat)
    requires index <= 9 && value < Limit(index)
    ensures Decoded(before + Encoded(value) + after, |before|, index) == Some((value, |before| + |Encoded(value)|))
    decreases 9 - index
  {
    var payload := before + Encoded(value) + after;
    assert payload[|before|] == Encoded(value)[0];
    if value >= 128 {
      var first := [(value % 128 + 128) as byte];
      assert payload == before + first + Encoded(value / 128) + after;
      DecodeEncoded(before + first, value / 128, after, index + 1);
    }
  }

  /** What was read fits the width, and its own encoding is no longer than what was read. */
  lemma {:induction false} DecodedFits(payload: Bytes, offset: nat, index: nat)
    requires index <= 9 && Decoded(payload, offset, index).Some?
    ensures var (value, end) := Decoded(payload, offset, index).value;
            value < Limit(index) && |Encoded(value)| <= end - offset
    decreases 9 - index
  {
    if index < 9 && payload[offset] >= 128 {
      DecodedFits(payload, offset + 1, index + 1);
      EncodedGrows(payload[offset] as nat - 128, Decoded(payload, offset + 1, index + 1).value.0);
    } else if index < 9 {
      LimitIsLarge(index);
    }
  }

  lemma LimitIsLarge(index: nat)
    requires index < 9
    ensures Limit(index) >= 128
    decreases 9 - index
  {
    if index < 8 {
      LimitIsLarge(index + 1);
    }
  }

  lemma EncodedGrows(low: nat, rest: nat)
    requires low < 128
    ensures |Encoded(low + 128 * rest)| <= 1 + |Encoded(rest)|
  {
    if low + 128 * rest >= 128 {
      assert (low + 128 * rest) / 128 == rest;
    }
  }

  method EncodeVarint(value: nat, output: Bytes) returns (now: Bytes)
    ensures now == output + Encoded(value)
  {
    now := output;
    var rest := value;
    while rest >= 128
      invariant now + Encoded(rest) == output + Encoded(value)
    {
      ghost var before := now;
      now := now + [(rest % 128 + 128) as byte];
      assert before + ([(rest % 128 + 128) as byte] + Encoded(rest / 128)) == now + Encoded(rest / 128);
      rest := rest / 128;
    }
    now := now + [rest as byte];
  }

  /** An amount of which the low part has been read. */
  function Continued(value: nat, scale: nat, rest: Option<(nat, nat)>): Option<(nat, nat)> {
    match rest
    case None => None
    case Some((high, end)) => Product(scale, high); Some((value + scale * high, end))
  }

  lemma Product(a: nat, b: nat)
    ensures a * b >= 0
  {
  }

  lemma ContinuedFrom(rest: Option<(nat, nat)>)
    ensures Continued(0, 1, rest) == rest
  {
  }

  /** One more byte of the loop. */
  lemma ContinuedByte(value: nat, scale: nat, payload: Bytes, offset: nat, index: nat)
    requires index < 10 && offset < |payload| && payload[offset] >= 128 && !(index == 9 && payload[offset] > 1)
    ensures var low: nat := payload[offset] as nat - 128;
            scale * low >= 0 &&
            Continued(value, scale, Decoded(payload, offset, index)) ==
            Continued(value + scale * low, 128 * scale, Decoded(payload, offset + 1, index + 1))
  {
    var low: nat := payload[offset] as nat - 128;
    Product(scale, low);
    match Decoded(payload, offset + 1, index + 1)
    case None =>
    case Some((high, _)) => Distribute(scale, low, high);
  }

  lemma Distribute(scale: nat, low: nat, high: nat)
    ensures scale * (low + 128 * high) == scale * low + 128 * scale * high
  {
  }

  lemma ContinuedEnd(value: nat, scale: nat, payload: Bytes, offset: nat, index: nat)
    requires index <= 10
    ensures index == 10 || offset >= |payload| || (index == 9 && payload[offset] > 1) ==>
              Continued(value, scale, Decoded(payload, offset, index)).None?
    ensures index < 10 && offset < |payload| && payload[offset] < 128 && !(index == 9 && payload[offset] > 1) ==>
              Continued(value, scale, Decoded(payload, offset, index)) == Some((value + scale * (payload[offset] as nat), offset + 1))
  {
  }

  /** The amount and the offset behind it, byte by byte. */
  method DecodeVarint(payload: Bytes, start: nat) returns (r: Option<(nat, nat)>)
    ensures r == Decoded(payload, start, 0)
  {
    hide Continued, Decoded;
    var value: nat, scale: nat, offset, index := 0, 1, start, 0;
    ContinuedFrom(Decoded(payload, start, 0));
    while index < 10
      invariant 0 <= index <= 10 && offset == start + index
      invariant Decoded(payload, start, 0) == Continued(value, scale, Decoded(payload, offset, index))
    {
      ContinuedEnd(value, scale, payload, offset, index);
      if offset >= |payload| {
        return None;
      }
      var b := payload[offset];
      if index == 9 && b > 1 {
        return None;
      }
      if b < 128 {
        return Some((value + scale * (b as nat), offset + 1));
      }
      ContinuedByte(value, scale, payload, offset, index);
      value, scale := value + scale * (b as nat - 128), 128 * scale;
      offset, index := offset + 1, index + 1;
    }
    ContinuedEnd(value, scale, payload, offset, index);
    r := None;
  }

  // Fields.

  function TypeOf(value: FieldValue): nat {
    match value
    case Varint(_) => 0
    case Fixed64(_) => 1
    case Delimited(_) => 2
    case Fixed32(_) => 5
  }

  function ValueBytes(value: FieldValue): Bytes {
    match value
    case Varint(amount) => Encoded(amount)
    case Fixed64(octets) => octets
    case Delimited(bytes) => Encoded(|bytes|) + bytes
    case Fixed32(octets) => octets
  }

  function FieldBytes(field: Field): Bytes {
    Encoded(field.number * 8 + TypeOf(field.value)) + ValueBytes(field.value)
  }

  function Serialized(fields: seq<Field>): Bytes {
    if fields == [] then [] else FieldBytes(fields[0]) + Serialized(fields[1..])
  }

  ghost predicate Serializable(fields: seq<Field>) {
    forall f <- fields :: f.number != 0
  }

  /** The body of the loop over the fields. */
  method SerializeField(field: Field, output: Bytes) returns (now: Bytes)
    ensures now == output + FieldBytes(field)
  {
    hide Encoded;
    now := EncodeVarint(field.number * 8 + TypeOf(field.value), output);
    match field.value
    case Varint(amount) => now := EncodeVarint(amount, now);
    case Fixed64(octets) => now := now + octets;
    case Delimited(bytes) =>
      now := EncodeVarint(|bytes|, now);
      now := now + bytes;
    case Fixed32(octets) => now := now + octets;
  }

  method SerializeFields(fields: seq<Field>) returns (r: Option<Bytes>)
    ensures r.Some? <==> Serializable(fields)
    ensures r.Some? ==> r.value == Serialized(fields)
  {
    var output: Bytes := [];
    var i := 0;
    while i < |fields|
      invariant 0 <= i <= |fields|
      invariant Serializable(fields[..i])
      invariant output + Serialized(fields[i..]) == Serialized(fields)
    {
      var field := fields[i];
      if field.number == 0 {
        assert field in fields;
        return None;
      }
      ghost var before := output;
      output := SerializeField(field, output);
      SerializedStep(fields, i, before, output);
      i := i + 1;
    }
    assert fields[..i] == fields && output + [] == output;
    r := Some(output);
  }

  lemma SerializedStep(fields: seq<Field>, i: nat, before: Bytes, output: Bytes)
    requires i < |fields| && fields[i].number != 0 && Serializable(fields[..i])
    requires before + Serialized(fields[i..]) == Serialized(fields)
    requires output == before + FieldBytes(fields[i])
    ensures output + Serialized(fields[i + 1..]) == Serialized(fields)
    ensures Serializable(fields[..i + 1])
  {
    hide FieldBytes;
    assert fields[i..][1..] == fields[i + 1..];
    assert before + (FieldBytes(fields[i]) + Serialized(fields[i + 1..])) == output + Serialized(fields[i + 1..]);
    assert fields[..i + 1] == fields[..i] + [fields[i]];
  }

  /** The value with this wire type at `offset`, and the offset behind it. */
  function ParsedValue(payload: Bytes, offset: nat, wireType: nat): (r: Option<(FieldValue, nat)>)
    requires offset <= |payload|
    ensures r.Some? ==> offset <= r.value.1 <= |payload|
  {
    match wireType
    case 0 => (match Decoded(payload, offset, 0) case None => None case Some((amount, end)) => Some((Varint(amount), end)))
    case 1 => if offset + 8 > |payload| then None else Some((Fixed64(payload[offset..offset + 8]), offset + 8))
    case 2 =>
      (match Decoded(payload, offset, 0)
       case None => None
       case Some((length, from)) =>
         if from + length > |payload| then None else Some((Delimited(payload[from..from + length]), from + length)))
    case 5 => if offset + 4 > |payload| then None else Some((Fixed32(payload[offset..offset + 4]), offset + 4))
    case _ => None
  }

  function ParsedField(payload: Bytes, offset: nat): (r: Option<(Field, nat)>)
    ensures r.Some? ==> offset < r.value.1 <= |payload|
  {
    match Decoded(payload, offset, 0)
    case None => None
    case Some((head, from)) =>
      if head / 8 >= TWO_TO_THE_32 || head / 8 == 0 then None
      else
        match ParsedValue(payload, from, head % 8)
        case None => None
        case Some((value, end)) => Some((Field(head / 8, value), end))
  }

  function Parsed(payload: Bytes, offset: nat): Option<seq<Field>>
    decreases |payload| - offset
  {
    if offset >= |payload| then Some([])
    else
      match ParsedField(payload, offset)
      case None => None
      case Some((field, end)) =>
        match Parsed(payload, end)
        case None => None
        case Some(rest) => Some([field] + rest)
  }

  method ParseFields(payload: Bytes) returns (r: Option<seq<Field>>)
    ensures r == Parsed(payload, 0)
  {
    hide Decoded, ParsedValue;
    var offset, fields := 0, [];
    assert Parsed(payload, 0).Some? ==> fields + Parsed(payload, 0).value == Parsed(payload, 0).value;
    while offset < |payload|
      invariant 0 <= offset
      invariant Parsed(payload, 0) == match Parsed(payload, offset) case None => None case Some(rest) => Some(fields + rest)
    {
      var head := DecodeVarint(payload, offset);
      if head.None? || head.value.0 / 8 >= TWO_TO_THE_32 || head.value.0 / 8 == 0 {
        return None;
      }
      var value := ParseValue(payload, head.value.1, head.value.0 % 8);
      if value.None? {
        return None;
      }
      var field := Field(head.value.0 / 8, value.value.0);
      assert Parsed(payload, value.value.1).Some? ==>
               fields + ([field] + Parsed(payload, value.value.1).value) == fields + [field] + Parsed(payload, value.value.1).value;
      fields := fields + [field];
      offset := value.value.1;
    }
    assert fields + [] == fields;
    r := Some(fields);
  }

  method ParseValue(payload: Bytes, offset: nat, wireType: nat) returns (r: Option<(FieldValue, nat)>)
    requires offset <= |payload|
    ensures r == ParsedValue(payload, offset, wireType)
  {
    match wireType
    case 0 =>
      var amount := DecodeVarint(payload, offset);
      r := if amount.None? then None else Some((Varint(amount.value.0), amount.value.1));
    case 1 =>
      r := if offset + 8 > |payload| then None else Some((Fixed64(payload[offset..offset + 8]), offset + 8));
    case 2 =>
      var length := DecodeVarint(payload, offset);
      if length.None? || length.value.1 + length.value.0 > |payload| {
        return None;
      }
      var end := length.value.1 + length.value.0;
      r := Some((Delimited(payload[length.value.1..end]), end));
    case 5 =>
      r := if offset + 4 > |payload| then None else Some((Fixed32(payload[offset..offset + 4]), offset + 4));
    case _ => r := None;
  }

  // Round trips.

  lemma LimitIs64Bits()
    ensures Limit(0) == TWO_TO_THE_64
  {
    assert Limit(9) == 2 && Limit(8) == 0x100 && Limit(7) == 0x8000 && Limit(6) == 0x40_0000 && Limit(5) == 0x2000_0000;
    assert Limit(4) == 0x10_0000_0000 && Limit(3) == 0x800_0000_0000 && Limit(2) == 0x4_0000_0000_0000;
    assert Limit(1) == 0x200_0000_0000_0000;
  }

  lemma ParseValueBytes(before: Bytes, value: FieldValue, after: Bytes)
    requires Representable(Field(1, value))
    ensures ParsedValue(before + ValueBytes(value) + after, |before|, TypeOf(value)) ==
            Some((value, |before| + |ValueBytes(value)|))
  {
    hide Encoded, Decoded, Limit;
    LimitIs64Bits();
    var payload := before + ValueBytes(value) + after;
    match value
    case Varint(amount) => DecodeEncoded(before, amount, after, 0);
    case Fixed64(octets) => assert payload[|before|..|before| + 8] == octets;
    case Fixed32(octets) => assert payload[|before|..|before| + 4] == octets;
    case Delimited(bytes) =>
      assert payload == before + Encoded(|bytes|) + (bytes + after);
      DecodeEncoded(before, |bytes|, bytes + after, 0);
      var from := |before| + |Encoded(|bytes|)|;
      assert payload[from..from + |bytes|] == bytes;
  }

  lemma ParseFieldBytes(before: Bytes, field: Field, after: Bytes)
    requires Representable(field) && field.number != 0
    ensures FieldBytes(field) != []
    ensures ParsedField(before + FieldBytes(field) + after, |before|) == Some((field, |before| + |FieldBytes(field)|))
  {
    hide Encoded, Decoded, ValueBytes, ParsedValue, Limit;
    LimitIs64Bits();
    var head := Encoded(field.number * 8 + TypeOf(field.value));
    var payload := before + FieldBytes(field) + after;
    assert payload == before + head + (ValueBytes(field.value) + after);
    DecodeEncoded(before, field.number * 8 + TypeOf(field.value), ValueBytes(field.value) + after, 0);
    assert payload == before + head + ValueBytes(field.value) + after;
    ParseValueBytes(before + head, field.value, after);
  }

  lemma SerializedCons(fields: seq<Field>)
    requires fields != []
    ensures Serialized(fields) == FieldBytes(fields[0]) + Serialized(fields[1..])
  {
  }

  lemma ParsedCons(payload: Bytes, offset: nat, field: Field, end: nat)
    requires offset < |payload| && ParsedField(payload, offset) == Some((field, end))
    ensures Parsed(payload, offset) == match Parsed(payload, end) case None => None case Some(rest) => Some([field] + rest)
  {
  }

  lemma ParsedEnd(before: Bytes)
    ensures Parsed(before + Serialized([]), |before|) == Some([])
  {
    assert before + [] == before;
  }

  lemma {:induction false} ParseSerialized(before: Bytes, fields: seq<Field>)
    requires Serializable(fields) && forall f <- fields :: Representable(f)
    ensures Parsed(before + Serialized(fields), |before|) == Some(fields)
    decreases |fields|
  {
    hide FieldBytes, ParsedField, Parsed, Serialized;
    if fields == [] {
      ParsedEnd(before);
    } else {
      var first, rest := FieldBytes(fields[0]), Serialized(fields[1..]);
      SerializedCons(fields);
      assert before + (first + rest) == before + first + rest;
      ParseFieldBytes(before, fields[0], rest);
      ParseSerialized(before + first, fields[1..]);
      ParsedCons(before + first + rest, |before|, fields[0], |before| + |first|);
      assert fields == [fields[0]] + fields[1..];
    }
  }

  /** Reading what was written gives the same fields, for all fields that can be written. */
  lemma RoundTrip(fields: seq<Field>)
    requires Serializable(fields) && forall f <- fields :: Representable(f)
    ensures Parsed(Serialized(fields), 0) == Some(fields)
  {
    assert [] + Serialized(fields) == Serialized(fields);
    ParseSerialized([], fields);
  }

  lemma ParsedValueFits(payload: Bytes, offset: nat, wireType: nat)
    requires offset <= |payload| < TWO_TO_THE_64 && ParsedValue(payload, offset, wireType).Some?
    ensures var (value, end) := ParsedValue(payload, offset, wireType).value;
            TypeOf(value) == wireType && Representable(Field(1, value)) && |ValueBytes(value)| <= end - offset
  {
    LimitIs64Bits();
    if wireType == 0 || wireType == 2 {
      DecodedFits(payload, offset, 0);
    }
  }

  /** Whatever can be read can be written again, and in no more space: the writer's form is the shortest. */
  lemma {:induction false} ParsedIsSerializable(payload: Bytes, offset: nat)
    requires offset <= |payload| < TWO_TO_THE_64 && Parsed(payload, offset).Some?
    ensures var fields := Parsed(payload, offset).value;
            && Serializable(fields) && (forall f <- fields :: Representable(f))
            && |Serialized(fields)| <= |payload| - offset
    decreases |payload| - offset
  {
    if offset < |payload| {
      var (head, from) := Decoded(payload, offset, 0).value;
      var (field, end) := ParsedField(payload, offset).value;
      DecodedFits(payload, offset, 0);
      ParsedValueFits(payload, from, head % 8);
      assert field.number * 8 + TypeOf(field.value) == head;
      ParsedIsSerializable(payload, end);
      var rest := Parsed(payload, end).value;
      assert ([field] + rest)[1..] == rest;
    }
  }

  /** A message survives being read and written again, even when its bytes were not in the writer's form. */
  lemma RewritingKeepsFields(payload: Bytes)
    requires |payload| < TWO_TO_THE_64 && Parsed(payload, 0).Some?
    ensures var again := Serialized(Parsed(payload, 0).value);
            Parsed(again, 0) == Parsed(payload, 0) && |again| <= |payload|
  {
    ParsedIsSerializable(payload, 0);
    RoundTrip(Parsed(payload, 0).value);
  }
}
