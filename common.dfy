/** Shared vocabulary of the job tracker model: optional values, the HTTP errors the
    controllers report, and the few JavaScript string and number operations the
    source relies on (`includes`, `toLowerCase`, `trim`, `toString`, `padStart`,
    `Math.round`). */
module Common {

  /** A value that may be absent (`undefined`/`null` in the source). */
  datatype Option<T> = None | Some(value: T) {
    function GetOr(default: T): T {
      if Some? then value else default
    }
  }

  /** The error statuses the controllers send: 400, 401, 404 and 500. */
  datatype HttpError = BadRequest | Unauthorized | NotFound | ServerError

  /** One day in milliseconds. */
  const DayMs := 86400000

  /** The outcome of a handler that only succeeds or fails. */
  datatype Outcome = Pass | Fail(error: HttpError)

  /** The outcome of a handler that produces a value on success. */
  datatype Result<T> = Ok(value: T) | Err(error: HttpError)

  /** Document identifiers (Mongo ObjectIds compared by their hex string). */
  type Id = string

  /** JavaScript truthiness of an optional number: present and non-zero. */
  predicate TruthyNum(x: Option<real>) {
    x.Some? && x.value != 0.0
  }

  /** JavaScript truthiness of an optional string: present and non-empty. */
  predicate TruthyStr(x: Option<string>) {
    x.Some? && x.value != ""
  }

  /** `x || 0` for an optional number. */
  function NumOrZero(x: Option<real>): real {
    if x.Some? then x.value else 0.0
  }

  // ---------------------------------------------------------------------------
  // Strings

  function LowerChar(c: char): char {
    if 'A' <= c <= 'Z' then (c as int + 32) as char else c
  }

  /** `s.toLowerCase()` over ASCII letters. */
  function ToLower(s: string): (r: string)
    ensures |r| == |s|
    ensures forall i :: 0 <= i < |s| ==> r[i] == LowerChar(s[i])
  {
    seq(|s|, i requires 0 <= i < |s| => LowerChar(s[i]))
  }

  /** `hay.includes(needle)`: some window of `hay` equals `needle`. */
  predicate Contains(hay: string, needle: string)
    decreases |hay|
  {
    |needle| <= |hay| && (hay[..|needle|] == needle || Contains(hay[1..], needle))
  }

  lemma {:induction false} ContainsAt(hay: string, needle: string, i: nat)
    requires i + |needle| <= |hay| && hay[i..i + |needle|] == needle
    ensures Contains(hay, needle)
    decreases i
  {
    if i > 0 {
      assert hay[1..][i - 1..i - 1 + |needle|] == needle;
      ContainsAt(hay[1..], needle, i - 1);
    }
  }

  /** `needle` occurs in `hay` at position `i`. */
  predicate WindowAt(hay: string, needle: string, i: int) {
    0 <= i <= |hay| - |needle| && hay[i..i + |needle|] == needle
  }

  /** A string that contains `needle` has it as a window at some position. */
  lemma {:induction false} ContainsWitness(hay: string, needle: string)
    requires Contains(hay, needle)
    ensures exists i :: WindowAt(hay, needle, i)
    decreases |hay|
  {
    if hay[..|needle|] == needle {
      assert WindowAt(hay, needle, 0);
    } else {
      ContainsWitness(hay[1..], needle);
      var i :| WindowAt(hay[1..], needle, i);
      assert hay[i + 1..i + 1 + |needle|] == hay[1..][i..i + |needle|];
      assert WindowAt(hay, needle, i + 1);
    }
  }

  lemma ContainsTransitive(a: string, b: string, c: string)
    requires Contains(a, b) && Contains(b, c)
    ensures Contains(a, c)
  {
    ContainsWitness(a, b);
    ContainsWitness(b, c);
    var i :| WindowAt(a, b, i);
    var k :| WindowAt(b, c, k);
    forall j | 0 <= j < |c|
      ensures a[i + k + j] == c[j]
    {
      assert a[i + k + j] == a[i..i + |b|][k + j] == b[k + j];
    }
    assert a[i + k..i + k + |c|] == c;
    ContainsAt(a, c, i + k);
  }

  lemma ContainsSelf(s: string)
    ensures Contains(s, s)
  {
    assert s[..|s|] == s;
  }

  /** A string contains no window longer than itself, and the only window of its own
      length is itself. */
  lemma ContainedNoLonger(hay: string, needle: string)
    requires Contains(hay, needle)
    ensures |needle| <= |hay|
    ensures |needle| == |hay| ==> needle == hay
  {
  }

  /** The characters JavaScript's `trim` removes: WhiteSpace and LineTerminator. */
  predicate IsSpace(c: char) {
    c == ' ' || c == '\t' || c == '\n' || c == '\r' || c == '\U{000B}' || c == '\U{000C}'
    || c == '\U{00A0}' || c == '\U{1680}' || ('\U{2000}' <= c <= '\U{200A}')
    || c == '\U{2028}' || c == '\U{2029}' || c == '\U{202F}' || c == '\U{205F}'
    || c == '\U{3000}' || c == '\U{FEFF}'
  }

  /** `trimStart`: drops the leading white space. */
  function TrimStart(s: string): (r: string)
    ensures |r| <= |s|
  {
    if s != [] && IsSpace(s[0]) then TrimStart(s[1..]) else s
  }

  /** `trimEnd`: drops the trailing white space. */
  function TrimEnd(s: string): (r: string)
    ensures |r| <= |s|
  {
    if s != [] && IsSpace(s[|s| - 1]) then TrimEnd(s[..|s| - 1]) else s
  }

  /** `s.trim()`. */
  function Trim(s: string): string {
    TrimEnd(TrimStart(s))
  }

  predicate AllSpace(s: string) {
    forall i :: 0 <= i < |s| ==> IsSpace(s[i])
  }

  /** TrimStart keeps a suffix that does not start with white space, and drops only
      white space. */
  lemma {:induction false} TrimStartShape(s: string)
    ensures var r := TrimStart(s);
      r == s[|s| - |r|..] && (r == [] || !IsSpace(r[0]))
      && forall i :: 0 <= i < |s| - |r| ==> IsSpace(s[i])
    decreases |s|
  {
    if s != [] && IsSpace(s[0]) {
      TrimStartShape(s[1..]);
    }
  }

  /** TrimEnd keeps a prefix that does not end with white space, and drops only white
      space. */
  lemma {:induction false} TrimEndShape(s: string)
    ensures var r := TrimEnd(s);
      r == s[..|r|] && (r == [] || !IsSpace(r[|r| - 1]))
      && forall i :: |r| <= i < |s| ==> IsSpace(s[i])
    decreases |s|
  {
    if s != [] && IsSpace(s[|s| - 1]) {
      TrimEndShape(s[..|s| - 1]);
    }
  }

  /** `!s.trim()` holds exactly for the strings made only of white space. */
  lemma TrimEmptyIffBlank(s: string)
    ensures Trim(s) == [] <==> AllSpace(s)
  {
    var t := TrimStart(s);
    TrimStartShape(s);
    TrimEndShape(t);
  }

  /** Trimming leaves a string with no white space at either end. */
  lemma TrimmedEnds(s: string)
    ensures Trim(s) == [] || (!IsSpace(Trim(s)[0]) && !IsSpace(Trim(s)[|Trim(s)| - 1]))
  {
    var t := TrimStart(s);
    var r := TrimEnd(t);
    TrimStartShape(s);
    TrimEndShape(t);
    if r != [] {
      assert r[0] == t[0];
    }
  }

  // ---------------------------------------------------------------------------
  // Schema string fields

  /** No white space at either end: what `trim` leaves. */
  predicate Trimmed(s: string) {
    s == [] || (!IsSpace(s[0]) && !IsSpace(s[|s| - 1]))
  }

  lemma TrimIsTrimmed(s: string)
    ensures Trimmed(Trim(s))
  {
    TrimmedEnds(s);
  }

  /** The trimmed strings are exactly the ones `trim` leaves unchanged. */
  lemma TrimmedIffFixed(s: string)
    ensures Trimmed(s) <==> Trim(s) == s
  {
    TrimmedEnds(s);
    if Trimmed(s) && s != [] {
      assert TrimStart(s) == s;
      assert TrimEnd(s) == s;
    }
  }

  /** A required, trimmed string with a maximum length, as stored. */
  predicate ValidRequiredText(s: string, maxLength: nat) {
    s != "" && Utf16Length(s) <= maxLength && Trimmed(s)
  }

  /** A required string field after its trim setter: present, and non-empty and within
      `maxLength` once trimmed. */
  predicate RequiredTextAccepted(s: Option<string>, maxLength: nat) {
    s.Some? && Trim(s.value) != "" && Utf16Length(Trim(s.value)) <= maxLength
  }

  /** The length JavaScript gives a string, which `maxlength` checks: its UTF-16 code
      units, one per character up to U+FFFF and two (a surrogate pair) per character
      beyond. */
  function Utf16Length(s: string): (n: nat)
    ensures |s| <= n <= 2 * |s|
  {
    if s == [] then 0 else Utf16Length(s[..|s| - 1]) + (if s[|s| - 1] as int >= 0x1_0000 then 2 else 1)
  }

  /** A string whose characters all lie in the basic multilingual plane has as many code
      units as characters. */
  lemma {:induction false} Utf16LengthBasic(s: string)
    requires forall i :: 0 <= i < |s| ==> s[i] as int < 0x1_0000
    ensures Utf16Length(s) == |s|
  {
    if s != [] {
      Utf16LengthBasic(s[..|s| - 1]);
    }
  }

  /** A character beyond U+FFFF counts twice, so fifty of them exceed a limit of 99. */
  lemma AstralCountsTwice(c: char)
    requires c as int >= 0x1_0000
    ensures Utf16Length([c]) == 2
    ensures Utf16Length(seq(50, _ => c)) == 100
  {
    Utf16LengthRepeat(c, 50);
  }

  lemma {:induction false} Utf16LengthRepeat(c: char, n: nat)
    requires c as int >= 0x1_0000
    ensures Utf16Length(seq(n, _ => c)) == 2 * n
  {
    if n > 0 {
      assert seq(n, _ => c)[..n - 1] == seq(n - 1, _ => c);
      Utf16LengthRepeat(c, n - 1);
    }
  }

  function TrimOpt(s: Option<string>): Option<string> {
    if s.Some? then Some(Trim(s.value)) else None
  }

  lemma TrimIdempotent(s: string)
    ensures Trim(Trim(s)) == Trim(s)
  {
    TrimIsTrimmed(s);
    TrimmedIffFixed(Trim(s));
  }

  lemma TrimOptIdempotent(s: Option<string>)
    ensures TrimOpt(s).Some? ==> Trim(TrimOpt(s).value) == TrimOpt(s).value
    ensures TrimOpt(s).Some? ==> Trimmed(TrimOpt(s).value)
  {
    if s.Some? {
      TrimIdempotent(s.value);
      TrimIsTrimmed(s.value);
    }
  }

  /** A required field accepted by its validators is stored in valid form. */
  lemma AcceptedTextIsValid(s: Option<string>, maxLength: nat)
    requires RequiredTextAccepted(s, maxLength)
    ensures ValidRequiredText(Trim(s.value), maxLength)
  {
    TrimIsTrimmed(s.value);
  }

  // ---------------------------------------------------------------------------
  // Numbers as text

  function DigitChar(d: nat): (c: char)
    requires d < 10
    ensures '0' <= c <= '9'
  {
    "0123456789"[d]
  }

  function DigitValue(c: char): nat {
    if '0' <= c <= '9' then c as int - '0' as int else 0
  }

  /** `n.toString()` for a non-negative integer. */
  function NatToString(n: nat): (s: string)
    ensures |s| >= 1
    ensures forall i :: 0 <= i < |s| ==> '0' <= s[i] <= '9'
    decreases n
  {
    if n < 10 then [DigitChar(n)] else NatToString(n / 10) + [DigitChar(n % 10)]
  }

  /** Reads a string of decimal digits (the inverse of `NatToString`). */
  function ParseDigits(s: string): nat
    decreases |s|
  {
    if s == [] then 0 else 10 * ParseDigits(s[..|s| - 1]) + DigitValue(s[|s| - 1])
  }

  lemma {:induction false} ParseNatToString(n: nat)
    ensures ParseDigits(NatToString(n)) == n
    decreases n
  {
    var s := NatToString(n);
    if n < 10 {
      assert DigitValue(DigitChar(n)) == n;
    } else {
      ParseNatToString(n / 10);
      assert s[..|s| - 1] == NatToString(n / 10);
      assert DigitValue(DigitChar(n % 10)) == n % 10;
    }
  }

  /** Leading zeros do not change the value a digit string denotes. */
  lemma {:induction false} ParseLeadingZero(s: string)
    ensures ParseDigits("0" + s) == ParseDigits(s)
    decreases |s|
  {
    if s != [] {
      assert ("0" + s)[..|"0" + s| - 1] == "0" + s[..|s| - 1];
      ParseLeadingZero(s[..|s| - 1]);
    }
  }

  /** `s.padStart(width, fill)`. */
  function PadStart(s: string, width: nat, fill: char): (r: string)
    ensures |r| == if |s| >= width then |s| else width
    ensures r[|r| - |s|..] == s
    ensures forall i :: 0 <= i < |r| - |s| ==> r[i] == fill
  {
    if |s| >= width then s else seq(width - |s|, _ => fill) + s
  }

  /** `Math.round(x)` over exact reals: the nearest integer, halves rounded up. */
  function Round(x: real): int {
    (x + 0.5).Floor
  }

  lemma RoundMonotone(x: real, y: real)
    requires x <= y
    ensures Round(x) <= Round(y)
  {
  }

  lemma RoundInt(n: int)
    ensures Round(n as real) == n
  {
  }
}
