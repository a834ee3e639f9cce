/** The configuration values a caller may put in `env_config`, and Python's str() of them. */
module PyValues {

  datatype Value = Int(i: int) | Text(s: string) | Bool(b: bool) | NoneValue

  function DigitChar(d: nat): (c: char)
    requires d < 10
    ensures '0' <= c <= '9' && c as int == 48 + d
  {
    (48 + d) as char
  }

  /** The decimal digits of `n`, most significant first, without leading zeros. */
  function Digits(n: nat): (s: string)
    ensures |s| >= 1
    ensures |s| == 1 <==> n < 10
    ensures forall k :: 0 <= k < |s| ==> '0' <= s[k] <= '9'
  {
    if n < 10 then [DigitChar(n)] else Digits(n / 10) + [DigitChar(n % 10)]
  }

  /** Python's `str(v)`. */
  function Str(v: Value): string
  {
    match v
    case Int(i) => if i < 0 then "-" + Digits(-i) else Digits(i)
    case Text(s) => s
    case Bool(b) => if b then "True" else "False"
    case NoneValue => "None"
  }

  /** `str(v) == "17"` holds for the integer 17 and the string "17" and for nothing else. */
  lemma {:induction false} StrIs17(v: Value)
    ensures Str(v) == "17" <==> v == Int(17) || v == Text("17")
  {
    match v
    case Int(i) =>
      if i < 0 {
        assert Str(v)[0] == '-';
      } else if Str(v) == "17" {
        var d := Digits(i);
        assert |d| == 2;
        assert d == Digits(i / 10) + [DigitChar(i % 10)];
        assert Digits(i / 10) == d[..1];
        assert |Digits(i / 10)| == 1 && i / 10 < 10;
        assert Digits(i / 10) == [DigitChar(i / 10)] == "1";
        assert DigitChar(i % 10) == '7';
      } else {
        assert Digits(1) == "1";
        assert Digits(17) == Digits(1) + ['7'];
      }
    case Text(s) =>
    case Bool(b) =>
    case NoneValue =>
  }
}
