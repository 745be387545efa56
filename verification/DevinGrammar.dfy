/** The message format as a grammar, and the reader and writer against it. */
module DevinGrammar {
  import opened Wrappers
  import opened DevinWire

  // The grammar.

  /** Seven bits a byte, lowest first. */
  function Weight(bytes: Bytes): nat {
    if bytes == [] then 0 else bytes[0] as nat % 128 + 128 * Weight(bytes[1..])
  }

  /** All bytes but the last have the top bit. */
  predicate Chained(bytes: Bytes) {
    && bytes != [] && bytes[|bytes| - 1] < 128
    && forall i | 0 <= i < |bytes| - 1 :: bytes[i] >= 128
  }

  /** At most ten bytes for an amount of 64 bits; not only the shortest form counts. */
  predicate SpellsAmount(bytes: Bytes, amount: nat) {
    |bytes| <= 10 && Chained(bytes) && Weight(bytes) == amount < 0x1_0000_0000_0000_0000
  }

  ghost predicate SpellsValue(bytes: Bytes, value: FieldValue) {
    match value
    case Varint(amount) => SpellsAmount(bytes, amount)
    case Fixed64(octets) => bytes == octets && |octets| == 8
    case Delimited(content) => exists length :: SpellsAmount(length, |content|) && bytes == length + content
    case Fixed32(octets) => bytes == octets && |octets| == 4
  }

  function Code(value: FieldValue): nat {
    if value.Varint? then 0 else if value.Fixed64? then 1 else if value.Delimited? then 2 else 5
  }

  /** A number from 1 to 32 bits with the code of the value's type, then the value. */
  ghost predicate SpellsField(bytes: Bytes, field: Field) {
    && 0 < field.number < 0x1_0000_0000
    && exists head, value :: bytes == head + value && SpellsAmount(head, field.number * 8 + Code(field.value)) && SpellsValue(value, field.value)
  }

  ghost predicate Spells(bytes: Bytes, fields: seq<Field>)
    decreases |fields|
  {
    if fields == [] then bytes == []
    else exists first, rest :: bytes == first + rest && SpellsField(first, fields[0]) && Spells(rest, fields[1..])
  }

  // Amounts.

  /** An amount of which the bytes before position `index` are known. */
  predicate SpellsFrom(bytes: Bytes, amount: nat, index: nat)
    requires index <= 9
  {
    |bytes| <= 10 - index && Chained(bytes) && Weight(bytes) == amount < Limit(index)
  }

  lemma WeightCons(bytes: Bytes, amount: nat, index: nat)
    requires |bytes| > 1 && index < 9
    ensures SpellsFrom(bytes, amount, index) <==>
            bytes[0] >= 128 && exists rest: nat :: SpellsFrom(bytes[1..], rest, index + 1) && amount == bytes[0] as nat - 128 + 128 * rest
  {
    var tail := bytes[1..];
    assert forall i | 0 <= i < |tail| :: tail[i] == bytes[i + 1];
    assert forall i | 1 <= i < |bytes| :: bytes[i] == tail[i - 1];
    assert Chained(bytes) <==> bytes[0] >= 128 && Chained(tail);
    assert Limit(index) == 128 * Limit(index + 1);
    if SpellsFrom(bytes, amount, index) {
      assert SpellsFrom(tail, Weight(tail), index + 1);
    }
  }

  lemma WeightOne(bytes: Bytes)
    requires |bytes| == 1 && bytes[0] < 128
    ensures Weight(bytes) == bytes[0] as nat
  {
    assert bytes[1..] == [];
  }

  lemma {:induction false} DecodedSpells(payload: Bytes, offset: nat, index: nat)
    requires index <= 9 && Decoded(payload, offset, index).Some?
    ensures var (amount, end) := Decoded(payload, offset, index).value; SpellsFrom(payload[offset..end], amount, index)
    decreases 9 - index
  {
    var (amount, end) := Decoded(payload, offset, index).value;
    var bytes := payload[offset..end];
    if payload[offset] < 128 {
      WeightOne(bytes);
      if index < 9 {
        LimitIsLarge(index);
      }
    } else {
      DecodedSpells(payload, offset + 1, index + 1);
      assert bytes[1..] == payload[offset + 1..end];
      WeightCons(bytes, amount, index);
    }
  }

  lemma {:induction false} SpelledDecodes(payload: Bytes, offset: nat, end: nat, amount: nat, index: nat)
    requires index <= 9 && offset <= end <= |payload| && SpellsFrom(payload[offset..end], amount, index)
    ensures Decoded(payload, offset, index) == Some((amount, end))
    decreases 9 - index
  {
    var bytes := payload[offset..end];
    if |bytes| == 1 {
      WeightOne(bytes);
      assert payload[offset] == bytes[0];
    } else {
      assert bytes[0] == payload[offset] && bytes[1..] == payload[offset + 1..end];
      WeightCons(bytes, amount, index);
      SpelledDecodes(payload, offset + 1, end, Weight(bytes[1..]), index + 1);
    }
  }

  lemma AmountIff(payload: Bytes, offset: nat, amount: nat, end: nat)
    ensures Decoded(payload, offset, 0) == Some((amount, end)) <==>
            offset <= end <= |payload| && SpellsAmount(payload[offset..end], amount)
  {
    hide Limit;
    LimitIs64Bits();
    if Decoded(payload, offset, 0) == Some((amount, end)) {
      DecodedSpells(payload, offset, 0);
    }
    if offset <= end <= |payload| && SpellsAmount(payload[offset..end], amount) {
      SpelledDecodes(payload, offset, end, amount, 0);
    }
  }

  // Values and fields.

  lemma Slices(payload: Bytes, offset: nat, end: nat, head: Bytes, rest: Bytes)
    requires offset <= end <= |payload| && payload[offset..end] == head + rest
    ensures payload[offset..offset + |head|] == head && payload[offset + |head|..end] == rest
  {
    var bytes := payload[offset..end];
    assert payload[offset..offset + |head|] == bytes[..|head|];
    assert payload[offset + |head|..end] == bytes[|head|..];
  }

  lemma ValueIff(payload: Bytes, offset: nat, value: FieldValue, end: nat)
    requires offset <= end <= |payload|
    ensures ParsedValue(payload, offset, Code(value)) == Some((value, end)) <==> SpellsValue(payload[offset..end], value)
  {
    hide Decoded, SpellsAmount;
    var bytes := payload[offset..end];
    match value
    case Varint(amount) => AmountIff(payload, offset, amount, end);
    case Fixed64(octets) =>
    case Fixed32(octets) =>
    case Delimited(content) =>
      if ParsedValue(payload, offset, 2) == Some((value, end)) {
        var (length, from) := Decoded(payload, offset, 0).value;
        AmountIff(payload, offset, length, from);
        assert bytes == payload[offset..from] + content;
      }
      if length :| SpellsAmount(length, |content|) && bytes == length + content {
        Slices(payload, offset, end, length, content);
        AmountIff(payload, offset, |content|, offset + |length|);
      }
  }

  lemma CodeOfParsed(payload: Bytes, offset: nat, wireType: nat)
    requires offset <= |payload| && ParsedValue(payload, offset, wireType).Some?
    ensures Code(ParsedValue(payload, offset, wireType).value.0) == wireType
  {
  }

  lemma Heads(field: Field)
    ensures var head := field.number * 8 + Code(field.value); head / 8 == field.number && head % 8 == Code(field.value)
  {
  }

  lemma FieldIff(payload: Bytes, offset: nat, field: Field, end: nat)
    requires offset <= end <= |payload|
    ensures ParsedField(payload, offset) == Some((field, end)) <==> SpellsField(payload[offset..end], field)
  {
    hide Decoded, SpellsAmount, SpellsValue, ParsedValue, Code;
    var bytes := payload[offset..end];
    Heads(field);
    if ParsedField(payload, offset) == Some((field, end)) {
      var (amount, from) := Decoded(payload, offset, 0).value;
      AmountIff(payload, offset, amount, from);
      CodeOfParsed(payload, from, amount % 8);
      ValueIff(payload, from, field.value, end);
      assert bytes == payload[offset..from] + payload[from..end];
    }
    if SpellsField(bytes, field) {
      var head, value :| bytes == head + value && SpellsAmount(head, field.number * 8 + Code(field.value)) && SpellsValue(value, field.value);
      var from := offset + |head|;
      Slices(payload, offset, end, head, value);
      AmountIff(payload, offset, field.number * 8 + Code(field.value), from);
      ValueIff(payload, from, field.value, end);
    }
  }

  // Messages.

  /** A message is read as some fields exactly if it spells them; any other message is refused. */
  lemma {:induction false} ParsedIff(payload: Bytes, offset: nat, fields: seq<Field>)
    requires offset <= |payload|
    ensures Parsed(payload, offset) == Some(fields) <==> Spells(payload[offset..], fields)
    decreases |fields|
  {
    hide ParsedField, SpellsField;
    var bytes := payload[offset..];
    if Parsed(payload, offset) == Some(fields) && fields != [] {
      var (field, end) := ParsedField(payload, offset).value;
      FieldIff(payload, offset, field, end);
      ParsedIff(payload, end, fields[1..]);
      assert bytes == payload[offset..end] + payload[end..] && fields[0] == field;
    }
    if Spells(bytes, fields) && fields != [] {
      var first, rest :| bytes == first + rest && SpellsField(first, fields[0]) && Spells(rest, fields[1..]);
      var end := offset + |first|;
      assert payload[offset..] == payload[offset..|payload|] && payload[end..] == payload[end..|payload|];
      Slices(payload, offset, |payload|, first, rest);
      FieldIff(payload, offset, fields[0], end);
      ParsedIff(payload, end, fields[1..]);
      assert fields == [fields[0]] + fields[1..];
    }
  }

  /** What is written spells the fields. */
  lemma WrittenSpells(fields: seq<Field>)
    requires Serializable(fields) && forall f <- fields :: Representable(f)
    ensures Spells(Serialized(fields), fields)
  {
    RoundTrip(fields);
    assert Serialized(fields)[0..] == Serialized(fields);
    ParsedIff(Serialized(fields), 0, fields);
  }
}
