/** The value helpers of the owner conversation controller: what counts as a
    scope, a message text and a message identifier. Strings are sequences of
    UTF-16 code units, as in the original. */
module ConversationValues {
  import opened Wrappers

  newtype CodeUnit = n: int | 0 <= n < 0x1_0000
  type Text = seq<CodeUnit>

  const PLUS: CodeUnit := 43
  const HYPHEN: CodeUnit := 45
  const BYTE_ORDER_MARK: CodeUnit := 0xFEFF
  const FIELD_LIMIT := 128
  const BODY_LIMIT := 32768

  datatype Field = Account | Session | Interval | Device | Line | Generation | Peer | Reader | Manifest

  /** A JavaScript value as far as the controller looks at it. */
  datatype Value = Str(text: Text) | NotString

  /** A scope holds a text for each of the nine fields. A field that is
      missing, or is no string, is not a key of the raw input. */
  type Scope = map<Field, Text>

  predicate Digit(c: CodeUnit) { 48 <= c <= 57 }

  predicate NonZeroDigit(c: CodeUnit) { 49 <= c <= 57 }

  predicate AllDigits(t: Text) { forall i | 0 <= i < |t| :: Digit(t[i]) }

  /** `^\+[1-9][0-9]{1,14}$` */
  predicate PhoneNumber(t: Text) {
    3 <= |t| <= 16 && t[0] == PLUS && NonZeroDigit(t[1]) && AllDigits(t[2..])
  }

  /** `^[1-9][0-9]*$` */
  predicate PositiveDecimal(t: Text) {
    1 <= |t| && NonZeroDigit(t[0]) && AllDigits(t[1..])
  }

  predicate ValidScope(raw: map<Field, Text>) {
    && (forall f: Field :: f in raw && 1 <= |raw[f]| <= FIELD_LIMIT)
    && PhoneNumber(raw[Peer])
    && PositiveDecimal(raw[Generation])
  }

  predicate HighSurrogate(c: CodeUnit) { 0xD800 <= c < 0xDC00 }

  predicate LowSurrogate(c: CodeUnit) { 0xDC00 <= c < 0xE000 }

  /** Every surrogate stands in a high-low pair. */
  predicate WellFormed(t: Text) {
    forall i | 0 <= i < |t| ::
      && (HighSurrogate(t[i]) ==> i + 1 < |t| && LowSurrogate(t[i + 1]))
      && (LowSurrogate(t[i]) ==> 0 < i && HighSurrogate(t[i - 1]))
  }

  /** The number of bytes `TextEncoder` writes. */
  function Utf8Length(t: Text): (n: nat)
    ensures |t| <= n <= 3 * |t|
  {
    if t == [] then 0
    else if t[0] < 0x80 then 1 + Utf8Length(t[1..])
    else if t[0] < 0x800 then 2 + Utf8Length(t[1..])
    else if HighSurrogate(t[0]) && 1 < |t| && LowSurrogate(t[1]) then 4 + Utf8Length(t[2..])
    else 3 + Utf8Length(t[1..])
  }

  predicate ValidBody(v: Value) {
    && v.Str?
    && v.text != []
    && v.text[0] != BYTE_ORDER_MARK
    && 0 !in v.text
    && WellFormed(v.text)
    && Utf8Length(v.text) <= BODY_LIMIT
  }

  predicate HexDigit(c: CodeUnit) { Digit(c) || 97 <= c <= 102 }

  /** The lower-case 8-4-4-4-12 form. */
  predicate Uuid(t: Text) {
    |t| == 36 && forall i | 0 <= i < 36 ::
      if i in {8, 13, 18, 23} then t[i] == HYPHEN else HexDigit(t[i])
  }
}
