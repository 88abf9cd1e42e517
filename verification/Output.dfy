/** Truncating command output at a byte limit (remote_cmd/service/_host_runner.py,
    truncate_output), with UTF-8 after section 3 of RFC 3629. A `char` is a Unicode scalar
    value. */
module Output {
  import opened Octets
  import opened Options

  // -------------------------------------------------------------------- UTF-8

  function Encode(c: char): (bytes: seq<Byte>)
    ensures 1 <= |bytes| <= 4
  {
    var v := c as int;
    if v < 0x80 then [v]
    else if v < 0x800 then [0xC0 + v / 0x40, 0x80 + v % 0x40]
    else if v < 0x1_0000 then [0xE0 + v / 0x1000, 0x80 + v / 0x40 % 0x40, 0x80 + v % 0x40]
    else [0xF0 + v / 0x4_0000, 0x80 + v / 0x1000 % 0x40, 0x80 + v / 0x40 % 0x40, 0x80 + v % 0x40]
  }

  function EncodeAll(text: string): seq<Byte> {
    if text == [] then [] else Encode(text[0]) + EncodeAll(text[1..])
  }

  /** The length of the sequence that a first byte announces; 0 if no sequence starts so. */
  function Width(b: Byte): nat {
    if b < 0x80 then 1 else if b < 0xC0 then 0 else if b < 0xE0 then 2 else if b < 0xF0 then 3
    else if b < 0xF8 then 4 else 0
  }

  /** The number that `n` bytes stand for. */
  function Number(bytes: seq<Byte>, n: nat): int
    requires n <= |bytes| && 1 <= n <= 4
  {
    if n == 1 then bytes[0]
    else if n == 2 then 0x40 * (bytes[0] as int - 0xC0) + (bytes[1] as int - 0x80)
    else if n == 3 then 0x1000 * (bytes[0] as int - 0xE0) + 0x40 * (bytes[1] as int - 0x80) + (bytes[2] as int - 0x80)
    else 0x4_0000 * (bytes[0] as int - 0xF0) + 0x1000 * (bytes[1] as int - 0x80) + 0x40 * (bytes[2] as int - 0x80) + (bytes[3] as int - 0x80)
  }

  predicate IsScalar(v: int) {
    0 <= v < 0xD800 || 0xE000 <= v < 0x11_0000
  }

  /** The character at the front of `bytes`: only its own, shortest encoding counts. */
  function DecodeFirst(bytes: seq<Byte>): (c: Option<char>)
    requires bytes != []
    ensures c.Some? ==> |Encode(c.value)| <= |bytes| && bytes[..|Encode(c.value)|] == Encode(c.value)
  {
    var n := Width(bytes[0]);
    if n == 0 || n > |bytes| || !IsScalar(Number(bytes, n)) then None
    else
      var c := Number(bytes, n) as char;
      if Encode(c) == bytes[..n] then Some(c) else None
  }

  /** bytes.decode("utf-8", errors="ignore"): what is not a character is skipped. */
  function DecodeIgnore(bytes: seq<Byte>): string
    decreases |bytes|
  {
    if bytes == [] then []
    else
      match DecodeFirst(bytes)
      case Some(c) => [c] + DecodeIgnore(bytes[|Encode(c)|..])
      case None => DecodeIgnore(bytes[1..])
  }

  /** The digits of a number in base 64. */
  lemma Digits(v: nat)
    ensures v == 0x40 * (v / 0x40) + v % 0x40
    ensures v == 0x1000 * (v / 0x1000) + 0x40 * (v / 0x40 % 0x40) + v % 0x40
    ensures v == 0x4_0000 * (v / 0x4_0000) + 0x1000 * (v / 0x1000 % 0x40) + 0x40 * (v / 0x40 % 0x40) + v % 0x40
  {
    var q := v / 0x40;
    var p := q / 0x40;
    assert v == 0x40 * q + v % 0x40 && q == 0x40 * p + q % 0x40 && p == 0x40 * (p / 0x40) + p % 0x40;
    assert p == v / 0x1000 && p / 0x40 == v / 0x4_0000;
  }

  lemma EncodedWidth(c: char)
    ensures Width(Encode(c)[0]) == |Encode(c)|
    ensures forall i :: 1 <= i < |Encode(c)| ==> Width(Encode(c)[i]) == 0
  {
  }

  lemma EncodedNumber(c: char)
    ensures Number(Encode(c), |Encode(c)|) == c as int
  {
    Digits(c as int);
  }

  lemma DecodeEncoded(c: char, rest: seq<Byte>)
    ensures DecodeFirst(Encode(c) + rest) == Some(c)
  {
    var bytes, n := Encode(c) + rest, |Encode(c)|;
    EncodedNumber(c);
    EncodedWidth(c);
    assert forall i :: 0 <= i < n ==> bytes[i] == Encode(c)[i];
    assert Number(bytes, n) == Number(Encode(c), n);
    assert bytes[..n] == Encode(c);
  }

  lemma {:induction false} DecodeTail(bytes: seq<Byte>)
    requires forall i :: 0 <= i < |bytes| ==> Width(bytes[i]) == 0
    ensures DecodeIgnore(bytes) == []
    decreases |bytes|
  {
    if bytes != [] {
      DecodeTail(bytes[1..]);
    }
  }

  /** A character that has been cut decodes to nothing. */
  lemma DecodeCut(c: char, k: nat)
    requires k < |Encode(c)|
    ensures DecodeIgnore(Encode(c)[..k]) == []
  {
    if k > 0 {
      EncodedWidth(c);
      var bytes := Encode(c)[..k];
      assert DecodeFirst(bytes) == None;
      DecodeTail(bytes[1..]);
    }
  }

  // --------------------------------------------------------------- truncation

  /** How many whole characters of `text` fit into `limit` bytes. */
  function Fitting(text: string, limit: nat): (m: nat)
    ensures m <= |text|
  {
    if text == [] || |Encode(text[0])| > limit then 0
    else 1 + Fitting(text[1..], limit - |Encode(text[0])|)
  }

  lemma {:induction false} FittingIsLongest(text: string, limit: nat)
    ensures |EncodeAll(text[..Fitting(text, limit)])| <= limit
    ensures Fitting(text, limit) < |text| ==> |EncodeAll(text[..Fitting(text, limit) + 1])| > limit
    ensures |EncodeAll(text)| > limit ==> Fitting(text, limit) < |text|
    decreases |text|
  {
    var m := Fitting(text, limit);
    if m > 0 {
      FittingIsLongest(text[1..], limit - |Encode(text[0])|);
      assert text[..m][1..] == text[1..][..m - 1];
      if m < |text| { assert text[..m + 1][1..] == text[1..][..m]; }
    } else if text != [] {
      assert text[..1][1..] == [];
    }
  }

  lemma {:induction false} EncodeAppend(a: string, b: string)
    ensures EncodeAll(a + b) == EncodeAll(a) + EncodeAll(b)
    decreases |a|
  {
    if a == [] {
      assert a + b == b;
    } else {
      assert (a + b)[0] == a[0] && (a + b)[1..] == a[1..] + b;
      EncodeAppend(a[1..], b);
    }
  }

  /** Cutting the encoding at any byte and decoding what is left gives the characters that
      fit whole. */
  lemma {:induction false} DecodePrefix(text: string, limit: nat)
    requires limit <= |EncodeAll(text)|
    ensures DecodeIgnore(EncodeAll(text)[..limit]) == text[..Fitting(text, limit)]
    decreases |text|
  {
    if text != [] {
      var first, rest := Encode(text[0]), EncodeAll(text[1..]);
      if limit < |first| {
        assert (first + rest)[..limit] == first[..limit];
        DecodeCut(text[0], limit);
      } else {
        var left := limit - |first|;
        assert (first + rest)[..limit] == first + rest[..left];
        DecodeEncoded(text[0], rest[..left]);
        assert (first + rest[..left])[|first|..] == rest[..left];
        DecodePrefix(text[1..], left);
        assert text[..Fitting(text, limit)] == [text[0]] + text[1..][..Fitting(text[1..], left)];
      }
    }
  }

  /** Decoding undoes encoding. */
  lemma DecodeAll(text: string)
    ensures DecodeIgnore(EncodeAll(text)) == text
  {
    var n := |EncodeAll(text)|;
    assert EncodeAll(text)[..n] == EncodeAll(text);
    DecodePrefix(text, n);
    FittingIsLongest(text, n);
    FitsWhole(text);
  }

  lemma {:induction false} FitsWhole(text: string)
    ensures Fitting(text, |EncodeAll(text)|) == |text|
    decreases |text|
  {
    if text != [] { FitsWhole(text[1..]); }
  }

  function Decimal(n: nat): string {
    if n < 10 then ['0' + n as char] else Decimal(n / 10) + ['0' + (n % 10) as char]
  }

  /** The number that a string of digits stands for. */
  function Value(digits: string): int {
    if digits == [] then 0 else 10 * Value(digits[..|digits| - 1]) + (digits[|digits| - 1] as int - '0' as int)
  }

  /** Numbers are written in decimal digits, without leading zeros. */
  lemma {:induction false} DecimalReads(n: nat)
    ensures Value(Decimal(n)) == n
    ensures |Decimal(n)| > 0 && forall i :: 0 <= i < |Decimal(n)| ==> '0' <= Decimal(n)[i] <= '9'
    ensures n > 0 ==> Decimal(n)[0] != '0'
  {
    if n >= 10 {
      DecimalReads(n / 10);
      var last := ['0' + (n % 10) as char];
      assert (Decimal(n / 10) + last)[..|Decimal(n / 10) + last| - 1] == Decimal(n / 10);
    } else {
      assert Decimal(n)[..0] == [];
    }
  }

  function Marker(omitted: nat): string {
    "\n[output truncated: " + Decimal(omitted) + " bytes omitted]"
  }

  /** truncate_output. Output within the limit is returned as it is; otherwise the longest
      prefix of whole characters within the limit, and a marker with the number of bytes
      that were left out. */
  method TruncateOutput(text: string, maxBytes: Option<nat>) returns (r: string)
    ensures maxBytes.None? || |EncodeAll(text)| <= maxBytes.value ==> r == text
    ensures maxBytes.Some? && |EncodeAll(text)| > maxBytes.value ==>
              exists m, digits :: 0 <= m < |text| && KeepsPrefix(text, maxBytes.value, m, digits, r)
  {
    if maxBytes.None? || text == [] {
      return text;
    }
    var encoded := EncodeAll(text);
    if |encoded| <= maxBytes.value {
      return text;
    }
    var prefix := DecodeIgnore(encoded[..maxBytes.value]);
    DecodePrefix(text, maxBytes.value);
    FittingKeeps(text, maxBytes.value);
    var omitted := |encoded| - |EncodeAll(prefix)|;
    r := prefix + Marker(omitted);
    assert KeepsPrefix(text, maxBytes.value, Fitting(text, maxBytes.value), Decimal(omitted), r);
  }

  lemma FittingSizes(text: string, limit: nat)
    requires |EncodeAll(text)| > limit
    ensures var m := Fitting(text, limit);
            && m < |text| && |EncodeAll(text[..m])| < |EncodeAll(text)|
            && |EncodeAll(text[..m])| <= limit < |EncodeAll(text[..m + 1])| && limit < |EncodeAll(text[..m])| + 4
  {
    var m := Fitting(text, limit);
    FittingIsLongest(text, limit);
    EncodeAppend(text[..m], text[m..]);
    EncodeAppend(text[..m], [text[m]]);
    assert text[..m] + text[m..] == text && text[..m] + [text[m]] == text[..m + 1];
    assert EncodeAll([text[m]]) == Encode(text[m]);
  }

  lemma FittingKeeps(text: string, limit: nat)
    requires |EncodeAll(text)| > limit
    ensures var m := Fitting(text, limit);
            && m < |text| && |EncodeAll(text[..m])| < |EncodeAll(text)|
            && var omitted := |EncodeAll(text)| - |EncodeAll(text[..m])|;
               KeepsPrefix(text, limit, m, Decimal(omitted), text[..m] + Marker(omitted))
  {
    FittingSizes(text, limit);
    DecimalReads(|EncodeAll(text)| - |EncodeAll(text[..Fitting(text, limit)])|);
  }

  /** `r` keeps the first `m` characters: no more fit, fewer than four bytes of room are
      wasted, and the digits in the marker are those of the number of missing bytes. */
  predicate KeepsPrefix(text: string, limit: nat, m: nat, digits: string, r: string)
    requires m < |text|
  {
    var kept, total := |EncodeAll(text[..m])|, |EncodeAll(text)|;
    && kept <= limit < |EncodeAll(text[..m + 1])| && limit < kept + 4
    && digits != "" && digits[0] != '0' && (forall i :: 0 <= i < |digits| ==> '0' <= digits[i] <= '9')
    && Value(digits) == total - kept
    && r == text[..m] + "\n[output truncated: " + digits + " bytes omitted]"
  }

  /** There is only one such prefix, so the result is determined. */
  lemma PrefixIsUnique(text: string, limit: nat, m: nat, n: nat, ds: string, es: string, r: string, r': string)
    requires m < |text| && n < |text| && KeepsPrefix(text, limit, m, ds, r) && KeepsPrefix(text, limit, n, es, r')
    ensures m == n && r == r'
  {
    if m < n { LongerTakesMore(text, m + 1, n); }
    if n < m { LongerTakesMore(text, n + 1, m); }
    SameDigits(ds, es);
  }

  predicate IsDigits(s: string) {
    forall i :: 0 <= i < |s| ==> '0' <= s[i] <= '9'
  }

  lemma {:induction false} PositiveValue(s: string)
    requires IsDigits(s) && s != "" && s[0] != '0'
    ensures Value(s) > 0
  {
    if |s| > 1 { PositiveValue(s[..|s| - 1]); } else { assert s[..0] == []; }
  }

  /** A number has one numeral. */
  lemma {:induction false} SameDigits(s: string, t: string)
    requires IsDigits(s) && IsDigits(t) && Value(s) == Value(t)
    requires (s != "" ==> s[0] != '0') && (t != "" ==> t[0] != '0')
    ensures s == t
    decreases |s|
  {
    if s != "" { PositiveValue(s); }
    if t != "" { PositiveValue(t); }
    if s != "" && t != "" {
      var u, v := s[..|s| - 1], t[..|t| - 1];
      assert Value(u) == Value(v);
      SameDigits(u, v);
      assert s == u + [s[|s| - 1]] && t == v + [t[|t| - 1]];
    }
  }

  lemma LongerTakesMore(text: string, m: nat, n: nat)
    requires m <= n <= |text|
    ensures |EncodeAll(text[..m])| <= |EncodeAll(text[..n])|
  {
    assert text[..n] == text[..m] + text[m..n];
    EncodeAppend(text[..m], text[m..n]);
  }
}
