/**
 The 24-byte MQ identifiers of faststream_mq/helpers/ids.py: their hex text form,
 its normal form, and the conversions between text and bytes.
 */
module MqIds {
  import opened Wrappers

  newtype byte = b: int | 0 <= b < 256

  type MqId = seq<byte>

  const MQ_ID_BYTES_LENGTH := 24
  const MQ_ID_HEX_LENGTH := 48

  datatype IdError = NotAnMqId

  /** What `try_parse_mq_id` may be handed: it inspects the Python type. */
  datatype PyValue = PyNone | PyStr(text: string) | PyBytes(bytes: seq<byte>) | PyByteArray(content: seq<byte>) | PyOther

  // ---------- hexadecimal text ----------

  /** The characters `bytes.fromhex` skips between two bytes: ASCII whitespace. */
  predicate IsGap(c: char) {
    c == ' ' || 9 <= c as int <= 13
  }

  predicate IsHexDigit(c: char) {
    '0' <= c <= '9' || 'a' <= c <= 'f' || 'A' <= c <= 'F'
  }

  function DigitValue(c: char): (v: nat)
    requires IsHexDigit(c)
    ensures v < 16
  {
    if '0' <= c <= '9' then c as int - '0' as int
    else if 'a' <= c <= 'f' then c as int - 'a' as int + 10
    else c as int - 'A' as int + 10
  }

  function DigitChar(v: nat): (c: char)
    requires v < 16
    ensures IsHexDigit(c) && DigitValue(c) == v && !IsGap(c)
  {
    if v < 10 then ('0' as int + v) as char else ('a' as int + v - 10) as char
  }

  function High(b: byte): (h: nat)
    ensures h < 16
  {
    b as int / 16
  }

  function Low(b: byte): (l: nat)
    ensures l < 16
  {
    b as int % 16
  }

  function ByteOf(high: nat, low: nat): (b: byte)
    requires high < 16 && low < 16
    ensures High(b) == high && Low(b) == low
  {
    (16 * high + low) as byte
  }

  /** `bytes.fromhex`: gaps are skipped before each byte; a byte is two adjacent digits. */
  function FromHex(s: string): Option<seq<byte>> {
    if s == "" then Some([])
    else if IsGap(s[0]) then FromHex(s[1..])
    else if |s| >= 2 && IsHexDigit(s[0]) && IsHexDigit(s[1]) then
      match FromHex(s[2..])
      case None => None
      case Some(rest) => Some([ByteOf(DigitValue(s[0]), DigitValue(s[1]))] + rest)
    else None
  }

  /** `bytes.hex`. */
  function ToHex(raw: seq<byte>): (s: string)
    ensures |s| == 2 * |raw|
  {
    if raw == [] then ""
    else [DigitChar(High(raw[0])), DigitChar(Low(raw[0]))] + ToHex(raw[1..])
  }

  // ---------- the functions of ids.py ----------

  /** `normalize_mq_id`: None and "" mean "no id"; anything else must be the hex text of 24 bytes. */
  function NormalizeMqId(value: Option<string>): Result<Option<string>, IdError> {
    if value == None || value == Some("") then Ok(None)
    else
      match FromHex(value.value)
      case None => Err(NotAnMqId)
      case Some(raw) => if |raw| != MQ_ID_BYTES_LENGTH then Err(NotAnMqId) else Ok(Some(ToHex(raw)))
  }

  /** `mq_id_to_bytes`. The last error branch is never taken: see `NormalFormIsCanonical`. */
  function MqIdToBytes(value: Option<string>): Result<Option<MqId>, IdError> {
    match NormalizeMqId(value)
    case Err(e) => Err(e)
    case Ok(None) => Ok(None)
    case Ok(Some(normal)) =>
      match FromHex(normal)
      case None => Err(NotAnMqId)
      case Some(raw) => Ok(Some(raw))
  }

  /** `not any(raw)` */
  predicate AllZero(raw: seq<byte>) {
    raw == [] || (raw[0] == 0 && AllZero(raw[1..]))
  }

  lemma {:induction false} AllZeroMeans(raw: seq<byte>)
    ensures AllZero(raw) <==> forall i :: 0 <= i < |raw| ==> raw[i] == 0
  {
    if raw != [] {
      AllZeroMeans(raw[1..]);
      if AllZero(raw) {
        forall i | 0 < i < |raw| ensures raw[i] == 0 {
          assert raw[i] == raw[1..][i - 1];
        }
      }
    }
  }

  /** `try_parse_mq_id`. */
  function TryParseMqId(value: PyValue): Option<string> {
    var raw :=
      match value
      case PyStr(text) => FromHex(text)
      case PyBytes(bytes) => Some(bytes)
      case PyByteArray(content) => Some(content)
      case _ => None;
    if raw.None? || |raw.value| != MQ_ID_BYTES_LENGTH || AllZero(raw.value) then None
    else Some(ToHex(raw.value))
  }

  // ---------- what hex text is, without reference to a scan ----------

  function Squeeze(s: string): string {
    if s == "" then ""
    else if IsGap(s[0]) then Squeeze(s[1..])
    else [s[0]] + Squeeze(s[1..])
  }

  function LowerDigit(c: char): char {
    if 'A' <= c <= 'F' then (c as int - 'A' as int + 'a' as int) as char else c
  }

  function Lower(s: string): string {
    seq(|s|, i requires 0 <= i < |s| => LowerDigit(s[i]))
  }

  predicate Even(n: nat) {
    n % 2 == 0
  }

  /** Every character is a digit or a gap, the digits pair up, and no gap splits a pair. */
  ghost predicate IsHexText(s: string) {
    IsHexTextAfter(true, s)
  }

  /** The same, for what follows an even, or an odd, number of digits. */
  ghost predicate IsHexTextAfter(even: bool, s: string) {
    && (forall i :: 0 <= i < |s| ==> IsGap(s[i]) || IsHexDigit(s[i]))
    && (forall i :: 0 <= i < |s| && IsGap(s[i]) ==> Even(|Squeeze(s[..i])|) == even)
    && Even(|Squeeze(s)|) == even
  }

  predicate IsLowerHex(s: string) {
    forall i :: 0 <= i < |s| ==> '0' <= s[i] <= '9' || 'a' <= s[i] <= 'f'
  }

  lemma EvenStep(n: nat)
    ensures Even(n + 1) == !Even(n)
  {
  }

  lemma SqueezePrefix(s: string, i: nat)
    requires 0 < i <= |s|
    ensures |Squeeze(s[..i])| == (if IsGap(s[0]) then 0 else 1) + |Squeeze(s[1..][..i - 1])|
  {
    assert s[..i][1..] == s[1..][..i - 1];
  }

  lemma HexTextStep(even: bool, s: string)
    requires s != ""
    ensures IsHexTextAfter(even, s) <==>
            if IsGap(s[0]) then even && IsHexTextAfter(even, s[1..])
            else IsHexDigit(s[0]) && IsHexTextAfter(!even, s[1..])
  {
    var t := s[1..];
    var even' := if IsGap(s[0]) then even else !even;
    forall i | 0 < i <= |s|
      ensures Even(|Squeeze(s[..i])|) == even <==> Even(|Squeeze(t[..i - 1])|) == even'
    {
      SqueezePrefix(s, i);
      EvenStep(|Squeeze(t[..i - 1])|);
    }
    assert s[..|s|] == s && t[..|t|] == t && Squeeze(s[..0]) == "";
    assert forall i :: 0 <= i < |t| ==> t[i] == s[i + 1];
    if IsHexTextAfter(even', t) {
      forall i | 0 < i < |s| ensures s[i] == t[i - 1] {}
    }
  }

  /** `bytes.fromhex` accepts exactly hex text, and keeps exactly its digits. */
  lemma {:induction false} FromHexExact(s: string)
    ensures FromHex(s).Some? <==> IsHexText(s)
    ensures FromHex(s).Some? ==> ToHex(FromHex(s).value) == Lower(Squeeze(s))
  {
    if s != "" {
      HexTextStep(true, s);
      if IsGap(s[0]) {
        FromHexExact(s[1..]);
      } else if |s| >= 2 {
        HexTextStep(false, s[1..]);
        assert s[1..][1..] == s[2..];
        FromHexExact(s[2..]);
        if FromHex(s).Some? {
          FromHexPair(s);
          LowerSqueezePair(s);
        }
      }
    }
  }

  /** One byte of accepted text: its two digits come back in lower case. */
  lemma FromHexPair(s: string)
    requires |s| >= 2 && IsHexDigit(s[0]) && IsHexDigit(s[1]) && FromHex(s).Some?
    ensures FromHex(s[2..]).Some?
    ensures ToHex(FromHex(s).value) == [LowerDigit(s[0]), LowerDigit(s[1])] + ToHex(FromHex(s[2..]).value)
  {
    ToHexCons(ByteOf(DigitValue(s[0]), DigitValue(s[1])), FromHex(s[2..]).value);
    DigitCase(s[0]);
    DigitCase(s[1]);
  }

  lemma LowerSqueezePair(s: string)
    requires |s| >= 2 && !IsGap(s[0]) && !IsGap(s[1])
    ensures Lower(Squeeze(s)) == [LowerDigit(s[0]), LowerDigit(s[1])] + Lower(Squeeze(s[2..]))
  {
    SqueezePair(s);
    LowerPair(s[0], s[1], Squeeze(s[2..]));
  }

  lemma SqueezePair(s: string)
    requires |s| >= 2 && !IsGap(s[0]) && !IsGap(s[1])
    ensures Squeeze(s) == [s[0], s[1]] + Squeeze(s[2..])
  {
    assert s[1..][1..] == s[2..];
  }

  lemma LowerPair(c: char, d: char, t: string)
    ensures Lower([c, d] + t) == [LowerDigit(c), LowerDigit(d)] + Lower(t)
  {
  }

  lemma ToHexCons(b: byte, rest: seq<byte>)
    ensures ToHex([b] + rest) == [DigitChar(High(b)), DigitChar(Low(b))] + ToHex(rest)
  {
    assert ([b] + rest)[1..] == rest;
  }

  lemma DigitCase(c: char)
    requires IsHexDigit(c)
    ensures DigitChar(DigitValue(c)) == LowerDigit(c)
  {
  }

  lemma ByteOfDigits(b: byte)
    ensures ByteOf(High(b), Low(b)) == b
  {
  }

  lemma {:induction false} HexRoundTrip(raw: seq<byte>)
    ensures FromHex(ToHex(raw)) == Some(raw)
    ensures IsLowerHex(ToHex(raw))
  {
    if raw != [] {
      HexRoundTrip(raw[1..]);
      ByteOfDigits(raw[0]);
      assert ToHex(raw)[2..] == ToHex(raw[1..]);
      assert raw == [raw[0]] + raw[1..];
    }
  }

  // ---------- the promises of ids.py ----------

  /** A non-empty text is accepted exactly when it is hex text of 24 bytes; the result is its digits in lower case. */
  lemma NormalizeAccepts(s: string, normal: string)
    requires s != ""
    ensures NormalizeMqId(Some(s)) == Ok(Some(normal)) <==>
            IsHexText(s) && |Squeeze(s)| == MQ_ID_HEX_LENGTH && normal == Lower(Squeeze(s))
    ensures NormalizeMqId(Some(s)).Err? <==> !(IsHexText(s) && |Squeeze(s)| == MQ_ID_HEX_LENGTH)
  {
    FromHexExact(s);
  }

  /** The normal form is 48 lower-case digits, is its own normal form, and is the same for two texts exactly when their bytes are. */
  lemma NormalFormIsCanonical(s: string, t: string)
    requires NormalizeMqId(Some(s)).Ok? && NormalizeMqId(Some(t)).Ok? && s != "" && t != ""
    ensures var n := NormalizeMqId(Some(s)).value.value;
            && |n| == MQ_ID_HEX_LENGTH && IsLowerHex(n)
            && NormalizeMqId(Some(n)) == Ok(Some(n))
            && MqIdToBytes(Some(s)).Ok? && MqIdToBytes(Some(s)).value.Some?
            && |MqIdToBytes(Some(s)).value.value| == MQ_ID_BYTES_LENGTH
            && ToHex(MqIdToBytes(Some(s)).value.value) == n
    ensures NormalizeMqId(Some(s)) == NormalizeMqId(Some(t)) <==> MqIdToBytes(Some(s)) == MqIdToBytes(Some(t))
  {
    HexRoundTrip(FromHex(s).value);
    HexRoundTrip(FromHex(t).value);
  }

  /** 48 lower-case digits are the only fixed points of normalisation. */
  lemma NormalFormsAreTheLowerHexTexts(n: string)
    requires n != ""
    ensures NormalizeMqId(Some(n)) == Ok(Some(n)) <==> |n| == MQ_ID_HEX_LENGTH && IsLowerHex(n)
  {
    if NormalizeMqId(Some(n)) == Ok(Some(n)) {
      NormalFormIsCanonical(n, n);
    }
    if |n| == MQ_ID_HEX_LENGTH && IsLowerHex(n) {
      DigitsAreTheirOwnSqueeze(n);
      forall i | 0 <= i < |n| ensures !IsGap(n[i]) && IsHexDigit(n[i]) {}
      assert IsHexText(n);
      assert Lower(n) == n;
      NormalizeAccepts(n, n);
    }
  }

  lemma {:induction false} DigitsAreTheirOwnSqueeze(n: string)
    requires forall i :: 0 <= i < |n| ==> !IsGap(n[i])
    ensures Squeeze(n) == n
  {
    if n != "" {
      DigitsAreTheirOwnSqueeze(n[1..]);
    }
  }

  /** Text to bytes and back: the normal form, except that the all-zero id reads as "no id". */
  lemma TextSurvivesBytes(s: string)
    requires s != "" && NormalizeMqId(Some(s)).Ok?
    ensures MqIdToBytes(Some(s)).Ok? && MqIdToBytes(Some(s)).value.Some?
    ensures var raw := MqIdToBytes(Some(s)).value.value;
            TryParseMqId(PyBytes(raw)) == if AllZero(raw) then None else NormalizeMqId(Some(s)).value
  {
    NormalFormIsCanonical(s, s);
  }

  /** Bytes to text and back, for every identifier but the all-zero one. */
  lemma BytesSurviveText(raw: MqId)
    requires |raw| == MQ_ID_BYTES_LENGTH
    ensures TryParseMqId(PyBytes(raw)).Some? <==> !AllZero(raw)
    ensures !AllZero(raw) ==> MqIdToBytes(TryParseMqId(PyBytes(raw))) == Ok(Some(raw))
    ensures TryParseMqId(PyByteArray(raw)) == TryParseMqId(PyBytes(raw))
    ensures TryParseMqId(PyStr(ToHex(raw))) == TryParseMqId(PyBytes(raw))
  {
    HexRoundTrip(raw);
  }
}
