/**
 * Resolution of the `--source` command-line value (run.py, `main`).
 *
 * The value is either the integer default 0 or a string given on the
 * command line. A string made only of decimal digits that does not name an
 * existing file is taken as a camera index; every other value is kept as it
 * is (a device index, a file path or a stream URL).
 */
module SourceResolution {

  /** The value of `args["source"]`: a Python int or a Python str. */
  datatype Source = Int(n: nat) | Str(s: string)

  /** The argparse default of `--source`. */
  const DefaultSource: Source := Int(0)

  // A digit here is an ASCII '0'..'9'. Python's str.isdigit also accepts
  // other Unicode digits: int() reads decimal ones such as Arabic-Indic or
  // fullwidth digits, and raises ValueError on others such as superscripts.
  // Neither case is modelled.
  predicate IsDigit(c: char) {
    '0' <= c <= '9'
  }

  predicate AllDigits(s: string) {
    forall i :: 0 <= i < |s| ==> IsDigit(s[i])
  }

  /** `s.isdigit()`: true only for a non-empty string of digits. */
  predicate IsDigits(s: string) {
    |s| > 0 && AllDigits(s)
  }

  function DigitValue(c: char): (d: nat)
    requires IsDigit(c)
    ensures d < 10
  {
    c as int - '0' as int
  }

  function DigitChar(d: nat): (c: char)
    requires d < 10
    ensures IsDigit(c) && DigitValue(c) == d
  {
    ('0' as int + d) as char
  }

  function Pow10(k: nat): (p: nat)
    ensures p >= 1
  {
    if k == 0 then 1 else 10 * Pow10(k - 1)
  }

  /** `int(s)` for a string of digits, read most significant digit first. */
  function DecimalValue(s: string): (n: nat)
    requires AllDigits(s)
    ensures n < Pow10(|s|)
  {
    if s == [] then 0 else DecimalValue(s[..|s| - 1]) * 10 + DigitValue(s[|s| - 1])
  }

  /** The canonical decimal spelling of `n`: `str(n)`. */
  function Decimal(n: nat): (s: string)
    ensures IsDigits(s)
    ensures s[0] == '0' ==> s == "0"
  {
    if n < 10 then [DigitChar(n)] else Decimal(n / 10) + [DigitChar(n % 10)]
  }

  /** `s` without its leading zeros, keeping at least one digit. */
  function StripLeadingZeros(s: string): (t: string)
    ensures |t| <= |s|
  {
    if |s| > 1 && s[0] == '0' then StripLeadingZeros(s[1..]) else s
  }

  /**
   * The conditional of run.py:67-72. `fileExists` stands for
   * `os.path.isfile`, asked about the string itself.
   */
  function ResolveSource(src: Source, fileExists: string -> bool): (r: Source)
    // a non-string value (the default 0) passes through unchanged
    ensures src.Int? ==> r == src
    // whatever stays a string is the input unchanged: a path or a URL
    ensures r.Str? ==> r == src
    // a string becomes an integer exactly when it is all digits and names no file
    ensures src.Str? ==> (r.Int? <==> IsDigits(src.s) && !fileExists(src.s))
    // and the integer is the one the string spells, up to leading zeros
    ensures src.Str? && r.Int? ==> Decimal(r.n) == StripLeadingZeros(src.s)
  {
    match src
    case Int(_) => src
    case Str(s) =>
      if IsDigits(s) && !fileExists(s) then
        DecimalOfValue(s);
        Int(DecimalValue(s))
      else
        src
  }

  /** A leading zero does not change the value of a digit string. */
  lemma {:induction false} LeadingZeroValue(t: string)
    requires AllDigits(t)
    ensures AllDigits("0" + t) && DecimalValue("0" + t) == DecimalValue(t)
  {
    var s := "0" + t;
    assert AllDigits(s) by {
      forall i | 0 <= i < |s| ensures IsDigit(s[i]) {
        if i > 0 { assert s[i] == t[i - 1]; }
      }
    }
    if t != [] {
      var p := t[..|t| - 1];
      assert s[..|s| - 1] == "0" + p;
      LeadingZeroValue(p);
    }
  }

  /** A digit string whose first digit is not '0' has a positive value. */
  lemma {:induction false} NonZeroLeadValue(s: string)
    requires IsDigits(s) && s[0] != '0'
    ensures DecimalValue(s) > 0
  {
    if |s| > 1 {
      var p := s[..|s| - 1];
      assert p[0] == s[0];
      NonZeroLeadValue(p);
    } else {
      assert s == [s[0]];
    }
  }

  /** A digit string without leading zeros is the canonical spelling of its value. */
  lemma {:induction false} CanonicalDigits(s: string)
    requires IsDigits(s) && (s[0] == '0' ==> |s| == 1)
    ensures Decimal(DecimalValue(s)) == s
  {
    var p := s[..|s| - 1];
    var d := DigitValue(s[|s| - 1]);
    if |s| == 1 {
      assert p == [];
      assert DigitChar(d) == s[0];
    } else {
      assert p[0] == s[0];
      NonZeroLeadValue(p);
      CanonicalDigits(p);
      var n := DecimalValue(s);
      assert n / 10 == DecimalValue(p) && n % 10 == d;
      assert DigitChar(d) == s[|s| - 1];
      assert s == p + [s[|s| - 1]];
    }
  }

  /** Reading a digit string and printing the number back strips its leading zeros. */
  lemma {:induction false} DecimalOfValue(s: string)
    requires IsDigits(s)
    ensures Decimal(DecimalValue(s)) == StripLeadingZeros(s)
  {
    if |s| > 1 && s[0] == '0' {
      var t := s[1..];
      assert s == "0" + t;
      LeadingZeroValue(t);
      DecimalOfValue(t);
    } else {
      CanonicalDigits(s);
    }
  }

  /** Printing a number and reading it back gives the number. */
  lemma {:induction false} DecimalRoundTrip(n: nat)
    ensures DecimalValue(Decimal(n)) == n
  {
    if n >= 10 {
      var s := Decimal(n);
      assert s[..|s| - 1] == Decimal(n / 10);
      DecimalRoundTrip(n / 10);
    }
  }

  /** The canonical spelling of any camera index, with no such file, resolves to that index. */
  lemma ResolveCanonical(n: nat, fileExists: string -> bool)
    requires !fileExists(Decimal(n))
    ensures ResolveSource(Str(Decimal(n)), fileExists) == Int(n)
  {
    DecimalRoundTrip(n);
  }

  /**
   * Resolution does not round-trip the other way: "007" resolves to 7,
   * whose spelling is "7".
   */
  lemma LeadingZerosNotKept(fileExists: string -> bool)
    requires !fileExists("007")
    ensures ResolveSource(Str("007"), fileExists) == Int(7)
    ensures Decimal(7) != "007"
  {
  }

  /** Two strings that resolve to the same index differ at most in their leading zeros. */
  lemma SameIndexSameDigits(s: string, t: string, fileExists: string -> bool)
    requires ResolveSource(Str(s), fileExists).Int?
    requires ResolveSource(Str(s), fileExists) == ResolveSource(Str(t), fileExists)
    ensures StripLeadingZeros(s) == StripLeadingZeros(t)
  {
  }
}
