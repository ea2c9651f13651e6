/**
 The category cursor: the category id in unpadded base64url (section 5 of RFC 4648), accepted only in canonical
 form (section 3.5 of RFC 4648). Ids are ASCII, so their UTF-8 bytes are their characters.
 */
module CategoryCursor {
  import opened Outcomes
  import opened Texts

  const MAX_CATEGORY_CURSOR_LENGTH := 512
  const MAX_CATEGORY_ID_LENGTH := 160

  type Digit = n: int | 0 <= n < 64

  // ---------- the alphabet ----------

  function CharOf(d: Digit): char {
    if d < 26 then 'A' + d as char
    else if d < 52 then 'a' + (d - 26) as char
    else if d < 62 then '0' + (d - 52) as char
    else if d == 62 then '-'
    else '_'
  }

  function DigitOf(c: char): Option<Digit> {
    if 'A' <= c <= 'Z' then Some((c - 'A') as int)
    else if 'a' <= c <= 'z' then Some(26 + (c - 'a') as int)
    else if '0' <= c <= '9' then Some(52 + (c - '0') as int)
    else if c == '-' then Some(62)
    else if c == '_' then Some(63)
    else None
  }

  lemma AlphabetRoundTrip(d: Digit)
    ensures DigitOf(CharOf(d)) == Some(d)
  {
  }

  /** The digits are the letters of the alphabet and nothing else, each one once. */
  lemma AlphabetExact(c: char)
    ensures DigitOf(c).Some? <==> 'A' <= c <= 'Z' || 'a' <= c <= 'z' || '0' <= c <= '9' || c == '-' || c == '_'
    ensures DigitOf(c).Some? ==> CharOf(DigitOf(c).value) == c
  {
  }

  // ---------- groups of three bytes ----------

  function EncodeBytes(bytes: seq<Byte>): seq<Digit> {
    if bytes == [] then []
    else
      var a: Byte := bytes[0];
      if |bytes| == 1 then [a / 4, a % 4 * 16]
      else
        var b: Byte := bytes[1];
        if |bytes| == 2 then [a / 4, a % 4 * 16 + b / 16, b % 16 * 4]
        else
          var c: Byte := bytes[2];
          [a / 4, a % 4 * 16 + b / 16, b % 16 * 4 + c / 64, c % 64] + EncodeBytes(bytes[3..])
  }

  /** `Buffer.from(value, "base64url")`: left-over low bits of the last digit are dropped. */
  function DecodeDigits(digits: seq<Digit>): seq<Byte> {
    if |digits| < 2 then []
    else
      var a: int, b: int := digits[0], digits[1];
      if |digits| == 2 then [a * 4 + b / 16]
      else
        var c: int := digits[2];
        if |digits| == 3 then [a * 4 + b / 16, b % 16 * 16 + c / 4]
        else [a * 4 + b / 16, b % 16 * 16 + c / 4, c % 4 * 64 + digits[3]] + DecodeDigits(digits[4..])
  }

  lemma {:induction false} BytesRoundTrip(bytes: seq<Byte>)
    ensures DecodeDigits(EncodeBytes(bytes)) == bytes
  {
    if |bytes| >= 3 {
      BytesRoundTrip(bytes[3..]);
      var head := EncodeBytes(bytes)[..4];
      assert EncodeBytes(bytes)[4..] == EncodeBytes(bytes[3..]);
      assert bytes == bytes[..3] + bytes[3..];
      GroupRoundTrip(bytes[0], bytes[1], bytes[2]);
    }
  }

  lemma GroupRoundTrip(a: Byte, b: Byte, c: Byte)
    ensures var d1, d2 := a % 4 * 16 + b / 16, b % 16 * 4 + c / 64;
            && a / 4 * 4 + d1 / 16 == a && d1 % 16 * 16 + d2 / 4 == b && d2 % 4 * 64 + c % 64 == c
  {
  }

  /** What the digits spell, read as one number. */
  function NumberOf(digits: seq<Digit>): int {
    if digits == [] then 0 else NumberOf(digits[..|digits| - 1]) * 64 + digits[|digits| - 1]
  }

  /** The digits are the bits of the bytes, six at a time, filled up with zeros: each group is one number. */
  lemma GroupValue(bytes: seq<Byte>)
    requires 1 <= |bytes| <= 3
    ensures var number, a: int := NumberOf(EncodeBytes(bytes)), bytes[0];
            && (|bytes| == 1 ==> number == a * 16)
            && (|bytes| == 2 ==> var b: int := bytes[1]; number == (a * 256 + b) * 4)
            && (|bytes| == 3 ==> var b: int, c: int := bytes[1], bytes[2]; number == (a * 256 + b) * 256 + c)
  {
    var d := EncodeBytes(bytes);
    assert |bytes| == 3 ==> EncodeBytes(bytes[3..]) == [];
    FewDigits(d);
  }

  lemma FewDigits(d: seq<Digit>)
    ensures |d| == 2 ==> var x: int := d[0]; NumberOf(d) == x * 64 + d[1]
    ensures |d| == 3 ==> var x: int, y: int := d[0], d[1]; NumberOf(d) == (x * 64 + y) * 64 + d[2]
    ensures |d| == 4 ==>
              var x: int, y: int, z: int := d[0], d[1], d[2]; NumberOf(d) == ((x * 64 + y) * 64 + z) * 64 + d[3]
  {
    if |d| >= 2 {
      assert d[..|d| - 1][..|d| - 2] == d[..|d| - 2];
    }
    if |d| >= 3 {
      assert d[..|d| - 2][..|d| - 3] == d[..|d| - 3];
    }
    if |d| == 4 {
      assert d[..1][..0] == [];
    }
  }

  /** Four characters for every three bytes, and no padding: never a length that is 1 modulo 4. */
  lemma {:induction false} EncodedLength(bytes: seq<Byte>)
    ensures |EncodeBytes(bytes)| == (4 * |bytes| + 2) / 3 && |EncodeBytes(bytes)| % 4 != 1
  {
    if |bytes| >= 3 {
      EncodedLength(bytes[3..]);
    }
  }

  // ---------- text ----------

  function ToText(digits: seq<Digit>): string {
    seq(|digits|, i requires 0 <= i < |digits| => CharOf(digits[i]))
  }

  predicate InAlphabet(text: string) {
    forall i :: 0 <= i < |text| ==> DigitOf(text[i]).Some?
  }

  function FromText(text: string): Option<seq<Digit>> {
    if !InAlphabet(text) then None
    else Some(seq(|text|, i requires 0 <= i < |text| => DigitOf(text[i]).value))
  }

  lemma TextRoundTrip(digits: seq<Digit>)
    ensures FromText(ToText(digits)) == Some(digits)
  {
    forall i | 0 <= i < |digits| ensures DigitOf(ToText(digits)[i]) == Some(digits[i]) {
      AlphabetRoundTrip(digits[i]);
    }
    assert FromText(ToText(digits)).value == digits;
  }

  predicate Ascii(bytes: seq<Byte>) {
    forall i :: 0 <= i < |bytes| ==> bytes[i] < 128
  }

  function BytesOf(text: string): seq<Byte>
    requires forall i :: 0 <= i < |text| ==> text[i] as int < 128
  {
    seq(|text|, i requires 0 <= i < |text| => text[i] as int)
  }

  function TextOf(bytes: seq<Byte>): string
    requires Ascii(bytes)
  {
    seq(|bytes|, i requires 0 <= i < |bytes| => bytes[i] as char)
  }

  // ---------- the cursor ----------

  predicate ValidId(id: string) {
    Identifier(id, MAX_CATEGORY_ID_LENGTH)
  }

  /** `encodeCategoryCursor` on a valid id. */
  function Encode(id: string): string
    requires ValidId(id)
  {
    ToText(EncodeBytes(BytesOf(id)))
  }

  /** The parsed superseded form: the id inside a JSON object, or nothing when the text is no such object. */
  type LegacyParser = seq<Byte> -> Option<string>

  predicate StartsWithBrace(bytes: seq<Byte>) {
    bytes != [] && bytes[0] == '{' as int
  }

  /** `decodeCategoryCursor`. Bytes beyond ASCII give characters that no id contains. */
  function Decode(cursor: string, legacy: LegacyParser): (id: Result<string>)
    ensures id.Ok? ==> ValidId(id.value)
  {
    if cursor == "" || |cursor| > MAX_CATEGORY_CURSOR_LENGTH then Err(Validation)
    else
      var digits := FromText(cursor);
      if digits.None? || |cursor| % 4 == 1 then Err(Validation)
      else
        var bytes := DecodeDigits(digits.value);
        if ToText(EncodeBytes(bytes)) != cursor then Err(Validation)
        else if StartsWithBrace(bytes) then
          var named := legacy(bytes);
          if named.None? || !ValidId(named.value) then Err(Validation) else Ok(named.value)
        else if !Ascii(bytes) || !ValidId(TextOf(bytes)) then Err(Validation)
        else Ok(TextOf(bytes))
  }

  /** A cursor that is not in the superseded JSON form. */
  predicate Compact(cursor: string) {
    var digits := FromText(cursor);
    digits.Some? && !StartsWithBrace(DecodeDigits(digits.value))
  }

  /** Every valid id survives the trip, within the length bound, whatever the old form meant. */
  lemma RoundTrip(id: string, legacy: LegacyParser)
    requires ValidId(id)
    ensures Decode(Encode(id), legacy) == Ok(id)
    ensures Compact(Encode(id)) && 1 <= |Encode(id)| <= 214
  {
    var bytes := BytesOf(id);
    EncodedLength(bytes);
    TextRoundTrip(EncodeBytes(bytes));
    BytesRoundTrip(bytes);
    assert TextOf(bytes) == id;
    assert bytes[0] == id[0] as int;
  }

  /** An accepted compact cursor is the one that encoding its id gives. */
  lemma AcceptedIsCanonical(cursor: string, legacy: LegacyParser)
    requires Compact(cursor) && Decode(cursor, legacy).Ok?
    ensures ValidId(Decode(cursor, legacy).value) && Encode(Decode(cursor, legacy).value) == cursor
  {
    var bytes := DecodeDigits(FromText(cursor).value);
    assert BytesOf(TextOf(bytes)) == bytes;
  }

  /** A compact cursor is accepted exactly when it encodes some valid id. */
  lemma AcceptedIff(cursor: string, legacy: LegacyParser)
    ensures Compact(cursor) && Decode(cursor, legacy).Ok? <==> exists id :: ValidId(id) && Encode(id) == cursor
  {
    if Compact(cursor) && Decode(cursor, legacy).Ok? {
      AcceptedIsCanonical(cursor, legacy);
    }
    if id :| ValidId(id) && Encode(id) == cursor {
      RoundTrip(id, legacy);
    }
  }

  /** No two compact cursors name the same category. */
  lemma AcceptedInjective(a: string, b: string, legacy: LegacyParser)
    requires Compact(a) && Compact(b)
    requires Decode(a, legacy).Ok? && Decode(a, legacy) == Decode(b, legacy)
    ensures a == b
  {
    AcceptedIsCanonical(a, legacy);
    AcceptedIsCanonical(b, legacy);
  }
}
