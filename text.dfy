/**
 * Text helpers of the report: decimal rendering, `padStart(2, "0")`, the
 * `m:ss` duration format (src/App.js:14-19, 161), JavaScript's `trim` and the
 * comma replacement of the comment line (src/App.js:180).
 */
module Text {

  predicate IsDigit(c: char)
  {
    '0' <= c <= '9'
  }

  predicate AllDigits(s: string)
  {
    forall i :: 0 <= i < |s| ==> IsDigit(s[i])
  }

  function DigitChar(d: nat): (c: char)
    requires d < 10
    ensures IsDigit(c)
  {
    (48 + d) as char
  }

  function DigitValue(c: char): (d: nat)
    requires IsDigit(c)
    ensures d < 10
  {
    c as int - 48
  }

  /** `n.toString()` for a non-negative integer. */
  function NatToString(n: nat): (s: string)
    ensures |s| >= 1 && AllDigits(s)
    ensures n < 10 <==> |s| == 1
    decreases n
  {
    if n < 10 then [DigitChar(n)] else NatToString(n / 10) + [DigitChar(n % 10)]
  }

  /** The value of a string of decimal digits. */
  function ParseDigits(s: string): nat
    requires AllDigits(s)
  {
    if s == [] then 0 else ParseDigits(s[..|s| - 1]) * 10 + DigitValue(s[|s| - 1])
  }

  /** Decimal rendering is undone by reading the digits back. */
  lemma {:induction false} ParseNatToString(n: nat)
    ensures ParseDigits(NatToString(n)) == n
    decreases n
  {
    var s := NatToString(n);
    if n >= 10 {
      var p := NatToString(n / 10);
      assert s[..|s| - 1] == p;
      ParseNatToString(n / 10);
    }
  }

  /** Numbers from 1000 to 9999 render with exactly four digits. */
  lemma FourDigits(n: nat)
    requires 1000 <= n < 10000
    ensures |NatToString(n)| == 4
  {
    assert |NatToString(n / 10)| == 3 by {
      assert |NatToString(n / 100)| == 2;
    }
  }

  /** `n.toString().padStart(2, "0")`. */
  function Pad2(n: nat): string
  {
    var s := NatToString(n);
    if |s| >= 2 then s else "0" + s
  }

  /** Below 100, padding gives exactly two digits that read back as the number. */
  lemma Pad2Small(n: nat)
    requires n < 100
    ensures |Pad2(n)| == 2 && AllDigits(Pad2(n)) && ParseDigits(Pad2(n)) == n
  {
    ParseNatToString(n);
    var s := NatToString(n);
    if n < 10 {
      assert Pad2(n) == ['0', s[0]];
      assert Pad2(n)[..1] == "0";
    } else {
      assert |NatToString(n / 10)| == 1;
    }
  }

  /** `formatTime(ms)`: whole minutes, a colon, and the seconds padded to two digits. */
  function FormatTime(ms: nat): string
  {
    var totalSeconds := ms / 1000;
    NatToString(totalSeconds / 60) + ":" + Pad2(totalSeconds % 60)
  }

  /**
   * The `m:ss` text reads back as the duration in whole seconds: a digit
   * string of minutes, a colon, and exactly two digits of seconds below 60.
   */
  lemma FormatTimeMeaning(ms: nat)
    ensures var r := FormatTime(ms);
      && |r| >= 4 && r[|r| - 3] == ':'
      && AllDigits(r[..|r| - 3]) && AllDigits(r[|r| - 2..])
      && ParseDigits(r[|r| - 2..]) < 60
      && ParseDigits(r[..|r| - 3]) * 60 + ParseDigits(r[|r| - 2..]) == ms / 1000
  {
    var total := ms / 1000;
    var m := NatToString(total / 60);
    var p := Pad2(total % 60);
    Pad2Small(total % 60);
    ParseNatToString(total / 60);
    var r := FormatTime(ms);
    assert r == m + ":" + p;
    assert r[..|r| - 3] == m;
    assert r[|r| - 2..] == p;
  }

  /** The characters JavaScript's `String.prototype.trim` removes: white space and line terminators. */
  predicate IsJsSpace(c: char)
  {
    || c == '\t' || c == '\n' || c == '\U{000B}' || c == '\U{000C}' || c == '\r'
    || c == ' ' || c == '\U{00A0}' || c == '\U{1680}'
    || ('\U{2000}' <= c <= '\U{200A}')
    || c == '\U{2028}' || c == '\U{2029}' || c == '\U{202F}' || c == '\U{205F}'
    || c == '\U{3000}' || c == '\U{FEFF}'
  }

  predicate IsBlank(s: string)
  {
    forall i :: 0 <= i < |s| ==> IsJsSpace(s[i])
  }

  function TrimStart(s: string): string
  {
    if s != [] && IsJsSpace(s[0]) then TrimStart(s[1..]) else s
  }

  function TrimEnd(s: string): string
  {
    if s != [] && IsJsSpace(s[|s| - 1]) then TrimEnd(s[..|s| - 1]) else s
  }

  /** `s.trim()`. */
  function Trim(s: string): string
  {
    TrimEnd(TrimStart(s))
  }

  /** `TrimStart(s)` drops a blank prefix `s[..k]` and stops at a non-space character. */
  lemma {:induction false} TrimStartShape(s: string) returns (k: nat)
    ensures k <= |s| && TrimStart(s) == s[k..]
    ensures forall i :: 0 <= i < k ==> IsJsSpace(s[i])
    ensures k < |s| ==> !IsJsSpace(s[k])
  {
    if s != [] && IsJsSpace(s[0]) {
      var j := TrimStartShape(s[1..]);
      k := j + 1;
      assert s[1..][j..] == s[k..];
      forall i | 0 < i < k ensures IsJsSpace(s[i]) {
        assert s[i] == s[1..][i - 1];
      }
    } else {
      k := 0;
    }
  }

  lemma {:induction false} TrimEndBlank(s: string)
    ensures TrimEnd(s) == [] <==> IsBlank(s)
  {
    if s != [] && IsJsSpace(s[|s| - 1]) {
      TrimEndBlank(s[..|s| - 1]);
      assert IsBlank(s[..|s| - 1]) ==> IsBlank(s) by {
        if IsBlank(s[..|s| - 1]) {
          forall i | 0 <= i < |s| ensures IsJsSpace(s[i]) {
            if i < |s| - 1 { assert s[i] == s[..|s| - 1][i]; }
          }
        }
      }
    }
  }

  /** The comment line's guard: `comment.trim() !== ""` exactly when some character is not white space. */
  lemma TrimEmptyIffBlank(s: string)
    ensures Trim(s) == [] <==> IsBlank(s)
  {
    var k := TrimStartShape(s);
    var t := TrimStart(s);
    TrimEndBlank(t);
    if k < |s| {
      assert t[0] == s[k];
      assert !IsBlank(s);
    } else {
      assert t == [];
    }
  }

  /** `s.replace(/,/g, " ")`: every comma becomes a space, every other character is kept. */
  function ReplaceCommas(s: string): (r: string)
    ensures |r| == |s|
    ensures forall i :: 0 <= i < |s| ==> r[i] == if s[i] == ',' then ' ' else s[i]
  {
    if s == [] then []
    else [if s[0] == ',' then ' ' else s[0]] + ReplaceCommas(s[1..])
  }

  lemma NoCommaLeft(s: string)
    ensures ',' !in ReplaceCommas(s)
  {
    var r := ReplaceCommas(s);
    forall i | 0 <= i < |r| ensures r[i] != ',' {
    }
  }
}
