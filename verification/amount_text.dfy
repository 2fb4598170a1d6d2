/** The amount grammar of the bot: `valid_amount` (a full match of the regular
    expression `\d+`) and the `int(text)` conversion applied to accepted text.
    Digits are the ASCII digits '0'..'9'. */
module AmountText {

  predicate IsDigit(c: char) {
    '0' <= c <= '9'
  }

  /** Every character of `s` is a digit; the empty text qualifies. This is the
      `\d*` tail of the pattern, consumed one character at a time. */
  function AllDigits(s: string): (ok: bool)
    ensures ok <==> forall i :: 0 <= i < |s| ==> IsDigit(s[i])
  {
    if s == [] then true else IsDigit(s[0]) && AllDigits(s[1..])
  }

  /** `valid_amount(text)`: `re.fullmatch(r"\d+", text)` succeeds. A full match
      leaves nothing unconsumed, so a trailing newline is rejected too. */
  function ValidAmount(text: string): (ok: bool)
    ensures ok <==> |text| > 0 && forall i :: 0 <= i < |text| ==> IsDigit(text[i])
    ensures ok ==> '-' !in text && '+' !in text && '.' !in text
    ensures ok ==> ' ' !in text && '\n' !in text && '\t' !in text
  {
    |text| > 0 && IsDigit(text[0]) && AllDigits(text[1..])
  }

  function DigitValue(c: char): (d: nat)
    requires IsDigit(c)
    ensures d < 10
  {
    c as int - '0' as int
  }

  function DigitChar(d: nat): (c: char)
    requires d < 10
    ensures IsDigit(c) && DigitValue(c) == d
  {
    ('0' as int + d) as char
  }

  function Pow10(k: nat): (p: nat)
    ensures p >= 1
  {
    if k == 0 then 1 else 10 * Pow10(k - 1)
  }

  /** `int(text)` on a digit string: the decimal value, read most significant
      digit first. The empty string reads as 0 (only reached by recursion). */
  function Parse(s: string): (n: nat)
    requires AllDigits(s)
    ensures n < Pow10(|s|)
  {
    if s == [] then 0
    else Parse(s[..|s| - 1]) * 10 + DigitValue(s[|s| - 1])
  }

  /** The decimal text of `n` (`str(n)` / an f-string field): no sign, no
      leading zeros. */
  function Show(n: nat): (s: string)
    ensures ValidAmount(s)
    ensures |s| == 1 || s[0] != '0'
  {
    if n < 10 then [DigitChar(n)] else Show(n / 10) + [DigitChar(n % 10)]
  }

  /** Text with no superfluous leading zero: the form `Show` produces. */
  predicate Canonical(s: string) {
    |s| == 1 || (|s| > 1 && s[0] != '0')
  }

  function Zeros(k: nat): (z: string)
    ensures |z| == k && AllDigits(z)
  {
    if k == 0 then [] else Zeros(k - 1) + ['0']
  }

  /** Reading back what `Show` wrote gives the number again. */
  lemma {:induction false} ParseShow(n: nat)
    ensures Parse(Show(n)) == n
  {
    var s := Show(n);
    if n >= 10 {
      ParseShow(n / 10);
      assert s[..|s| - 1] == Show(n / 10);
    }
  }

  /** A canonical amount text is exactly what `Show` writes for its value, so
      accepted texts without leading zeros and numbers are in bijection. */
  lemma {:induction false} ShowParse(s: string)
    requires ValidAmount(s) && Canonical(s)
    ensures Show(Parse(s)) == s
  {
    if |s| > 1 {
      var p := s[..|s| - 1];
      assert AllDigits(p);
      assert ValidAmount(p);
      assert p[0] == s[0];
      ParsePositive(p);
      ShowParse(p);
      var n := Parse(s);
      assert n == Parse(p) * 10 + DigitValue(s[|s| - 1]);
      assert n / 10 == Parse(p) && n % 10 == DigitValue(s[|s| - 1]);
      assert Show(n) == Show(n / 10) + [DigitChar(n % 10)];
    }
  }

  /** A digit string that does not start with '0' reads as a positive number. */
  lemma {:induction false} ParsePositive(s: string)
    requires ValidAmount(s) && s[0] != '0'
    ensures Parse(s) >= 1
  {
    if |s| > 1 {
      var p := s[..|s| - 1];
      assert p[0] == s[0];
      ParsePositive(p);
    }
  }

  /** `int` ignores leading zeros: "007" and "7" are the same amount. */
  lemma {:induction false} LeadingZeros(k: nat, s: string)
    requires AllDigits(s)
    ensures Parse(Zeros(k) + s) == Parse(s)
    decreases |s|, k
  {
    var t := Zeros(k) + s;
    if s == [] {
      assert t == Zeros(k);
      if k > 0 {
        assert t[..|t| - 1] == Zeros(k - 1) + [];
        LeadingZeros(k - 1, []);
      }
    } else {
      var p := s[..|s| - 1];
      assert t[..|t| - 1] == Zeros(k) + p;
      assert t[|t| - 1] == s[|s| - 1];
      LeadingZeros(k, p);
    }
  }

  /** The grammar on sample texts, including the ones the bot's error message
      rules out: signs, decimal points and spaces. */
  lemma ValidAmountExamples()
    ensures ValidAmount("120") && ValidAmount("0") && ValidAmount("007")
    ensures !ValidAmount("") && !ValidAmount("12.5") && !ValidAmount("-5")
    ensures !ValidAmount("+5") && !ValidAmount("12 ") && !ValidAmount(" 12")
    ensures !ValidAmount("12\n") && !ValidAmount("1 000") && !ValidAmount("abc")
  {
    assert "12.5"[2] == '.';
    assert "12 "[2] == ' ';
    assert "12\n"[2] == '\n';
    assert "1 000"[1] == ' ';
  }

}
