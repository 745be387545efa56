/** What one value of a message names, and when a message is nested in it. */
module AssignmentNames {
  import opened Wrappers
  import opened DevinWire
  import opened Assignment

  predicate Hex(b: byte) {
    (b as char) in "0123456789abcdefABCDEF"
  }

  predicate AllHex(bytes: Bytes) {
    forall b | b in bytes :: Hex(b)
  }

  const DASH: Bytes := ['-' as byte]

  /** Five groups of hexadecimal digits with dashes between them. */
  ghost predicate Groups(value: Bytes, a: Bytes, b: Bytes, c: Bytes, d: Bytes, e: Bytes) {
    && value == a + DASH + b + DASH + c + DASH + d + DASH + e
    && |a| == 8 && |b| == |c| == |d| == 4 && |e| == 12
    && AllHex(a) && AllHex(b) && AllHex(c) && AllHex(d) && AllHex(e)
  }

  lemma HexDigits(b: byte)
    ensures IsHexDigit(b) <==> Hex(b)
  {
    var digits := "0123456789abcdefABCDEF";
    if 48 <= b <= 57 {
      assert digits[b as int - 48] == b as char;
    } else if 97 <= b <= 102 {
      assert digits[b as int - 87] == b as char;
    } else if 65 <= b <= 70 {
      assert digits[b as int - 49] == b as char;
    }
  }

  lemma TokenGroups(value: Bytes, a: Bytes, b: Bytes, c: Bytes, d: Bytes, e: Bytes)
    requires Groups(value, a, b, c, d, e)
    ensures LooksLikeToken(value)
  {
    hide IsHexDigit, Hex;
    forall i | 0 <= i < 36
      ensures if i in {8, 13, 18, 23} then value[i] == 45 else IsHexDigit(value[i])
    {
      HexDigits(value[i]);
    }
  }

  /** The text form of a UUID. */
  lemma TokenShape(value: Bytes)
    ensures LooksLikeToken(value) <==> exists a, b, c, d, e :: Groups(value, a, b, c, d, e)
  {
    hide IsHexDigit, Hex;
    if LooksLikeToken(value) {
      var a, b, c, d, e := value[..8], value[9..13], value[14..18], value[19..23], value[24..];
      forall i | 0 <= i < 36
        ensures IsHexDigit(value[i]) <==> Hex(value[i])
      {
        HexDigits(value[i]);
      }
      assert value == a + DASH + b + DASH + c + DASH + d + DASH + e;
      assert Groups(value, a, b, c, d, e);
    }
    if a, b, c, d, e :| Groups(value, a, b, c, d, e) {
      TokenGroups(value, a, b, c, d, e);
    }
  }

  /** A known model names itself; any other text in the form of a token names the model of that token while it lives. */
  ghost predicate Names(w: Scope, live: map<string, string>, value: Bytes, uid: string, source: Source) {
    && w.utf8(value).Some?
    && var text := w.utf8(value).value;
       if text in w.models then uid == text && source == ModelUid
       else (exists a, b, c, d, e :: Groups(value, a, b, c, d, e)) && Lookup(live, text) == Some(uid) && source == TokenField
  }

  lemma NamesIff(w: Scope, live: map<string, string>, value: Bytes, uid: string, source: Source)
    ensures Names(w, live, value, uid, source) <==> Named(w, live, value) == Some((uid, source))
  {
    hide LooksLikeToken, Groups;
    TokenShape(value);
  }

  /** A message of at most two megabytes of text. */
  predicate Holds(w: Scope, value: Bytes, fields: seq<Field>) {
    w.utf8(value).Some? && value != [] && |value| <= 2097152 && Parsed(value, 0) == Some(fields)
  }

  lemma HoldsIff(w: Scope, value: Bytes, fields: seq<Field>)
    ensures Holds(w, value, fields) <==> Inside(w, value) == Some(fields)
  {
  }
}
