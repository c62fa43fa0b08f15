/** Decimal numerals as Python's f-strings print them, and their inverse. */
module Numerals {
  import opened Wrappers

  function Digit(d: nat): (c: char)
    requires d < 10
    ensures '0' <= c <= '9' && c as int == '0' as int + d
  {
    ('0' as int + d) as char
  }

  function Print(n: nat): (s: string)
    ensures s != [] && IsNumeral(s)
  {
    if n < 10 then [Digit(n)] else Print(n / 10) + [Digit(n % 10)]
  }

  predicate IsNumeral(s: string) {
    forall i :: 0 <= i < |s| ==> '0' <= s[i] <= '9'
  }

  function Parse(s: string): nat
    requires IsNumeral(s)
  {
    if s == [] then 0
    else 10 * Parse(s[..|s| - 1]) + (s[|s| - 1] as int - '0' as int)
  }

  lemma {:induction false} ParsePrint(n: nat)
    ensures Parse(Print(n)) == n
  {
    if n < 10 {
      assert Print(n)[..0] == [];
    } else {
      ParsePrint(n / 10);
      assert Print(n)[..|Print(n)| - 1] == Print(n / 10);
    }
  }

  lemma PrintInjective(m: nat, n: nat)
    requires Print(m) == Print(n)
    ensures m == n
  {
    ParsePrint(m);
    ParsePrint(n);
  }

  lemma LastHyphen(a: string, x: string)
    requires IsNumeral(x)
    ensures (a + "-" + x)[|a|] == '-'
    ensures forall k :: |a| < k < |a| + 1 + |x| ==> (a + "-" + x)[k] != '-'
  {
  }

  lemma FirstHyphen(x: string, a: string)
    requires IsNumeral(x)
    ensures (x + "-" + a)[|x|] == '-'
    ensures forall k :: 0 <= k < |x| ==> (x + "-" + a)[k] != '-'
  {
  }

  /** A numeral set off by a hyphen can be read back off the end of any text. */
  lemma SuffixSplits(a: string, m: nat, b: string, n: nat)
    requires a + "-" + Print(m) == b + "-" + Print(n)
    ensures a == b && m == n
  {
    var s, t := a + "-" + Print(m), b + "-" + Print(n);
    LastHyphen(a, Print(m));
    LastHyphen(b, Print(n));
    assert |a| == |b|;
    assert s[..|a|] == a && t[..|b|] == b;
    assert s[|a| + 1..] == Print(m) && t[|b| + 1..] == Print(n);
    PrintInjective(m, n);
  }

  /** A numeral set off by a hyphen can be read back off the front of any text. */
  lemma PrefixSplits(m: nat, a: string, n: nat, b: string)
    requires Print(m) + "-" + a == Print(n) + "-" + b
    ensures a == b && m == n
  {
    var s, t := Print(m) + "-" + a, Print(n) + "-" + b;
    var p, q := |Print(m)|, |Print(n)|;
    FirstHyphen(Print(m), a);
    FirstHyphen(Print(n), b);
    assert p == q;
    assert s[..p] == Print(m) && t[..q] == Print(n);
    assert s[p + 1..] == a && t[q + 1..] == b;
    PrintInjective(m, n);
  }

  // ----- Python's int() on text

  // Longer numerals are refused by the interpreter.
  const MAX_DIGITS: nat := 4300

  predicate IsSpace(c: char) {
    c == ' ' || 9 <= c as int <= 13
  }

  function Strip(s: string): string {
    if s != [] && IsSpace(s[0]) then Strip(s[1..])
    else if s != [] && IsSpace(s[|s| - 1]) then Strip(s[..|s| - 1])
    else s
  }

  predicate IsDigit(c: char) {
    '0' <= c <= '9'
  }

  /** Digits, with single underscores between them. */
  predicate IsGrouped(s: string)
    decreases |s|
  {
    s != [] && IsDigit(s[0]) && (|s| == 1 || IsGrouped(if s[1] == '_' then s[2..] else s[1..]))
  }

  function Digits(s: string): (d: string)
    ensures IsNumeral(d)
  {
    if s == [] then [] else (if IsDigit(s[0]) then [s[0]] else []) + Digits(s[1..])
  }

  function ReadDigits(s: string): Option<nat> {
    if IsGrouped(s) && |Digits(s)| <= MAX_DIGITS then Some(Parse(Digits(s))) else None
  }

  /** White space around it, at most one sign, and digits that may be grouped. */
  function ReadInt(s: string): Option<int> {
    var t := Strip(s);
    if t == [] then None
    else
      match ReadDigits(if t[0] == '-' || t[0] == '+' then t[1..] else t)
      case None => None
      case Some(n) => Some(if t[0] == '-' then -(n as int) else n)
  }

  lemma {:induction false} DigitsOfNumeral(s: string)
    requires IsNumeral(s)
    ensures Digits(s) == s
    decreases |s|
  {
    if s == [] {
    } else {
      DigitsOfNumeral(s[1..]);
    }
  }

  lemma {:induction false} NumeralIsGrouped(s: string)
    requires s != [] && IsNumeral(s)
    ensures IsGrouped(s)
    decreases |s|
  {
    if |s| == 1 {
    } else {
      NumeralIsGrouped(s[1..]);
    }
  }

  lemma ReadsPrinted(n: nat)
    requires |Print(n)| <= MAX_DIGITS
    ensures ReadDigits(Print(n)) == Some(n)
  {
    NumeralIsGrouped(Print(n));
    DigitsOfNumeral(Print(n));
    ParsePrint(n);
  }

  lemma NothingToStrip(s: string)
    requires s != [] && !IsSpace(s[0]) && !IsSpace(s[|s| - 1])
    ensures Strip(s) == s
  {
  }

  /** `int` reads back what `str` prints, with a sign or without. */
  lemma ReadPrint(n: nat)
    requires |Print(n)| <= MAX_DIGITS
    ensures ReadInt(Print(n)) == Some(n)
    ensures ReadInt(['-'] + Print(n)) == Some(-(n as int))
  {
    var p := Print(n);
    var t := ['-'] + p;
    ReadsPrinted(n);
    assert t[1..] == p && t[|t| - 1] == p[|p| - 1];
    NothingToStrip(p);
    NothingToStrip(t);
  }

  predicate IsIntChar(c: char) {
    IsDigit(c) || c in {'-', '+', '_'}
  }

  predicate AllIntChars(s: string) {
    forall i :: 0 <= i < |s| ==> IsIntChar(s[i])
  }

  predicate HasDigit(s: string) {
    exists i :: 0 <= i < |s| && IsDigit(s[i])
  }

  lemma {:induction false} GroupedChars(s: string)
    requires IsGrouped(s)
    ensures AllIntChars(s) && IsDigit(s[0])
    decreases |s|
  {
    if |s| == 1 {
    } else {
      GroupedChars(if s[1] == '_' then s[2..] else s[1..]);
      forall i | 0 <= i < |s|
        ensures IsIntChar(s[i])
      {
        if i >= 1 && s[1] != '_' {
          assert s[i] == s[1..][i - 1];
        } else if i >= 2 {
          assert s[i] == s[2..][i - 2];
        }
      }
    }
  }

  lemma {:induction false} StripKeeps(s: string)
    ensures forall i :: 0 <= i < |s| && !IsSpace(s[i]) ==> s[i] in Strip(s)
    ensures forall i :: 0 <= i < |Strip(s)| ==> Strip(s)[i] in s
    decreases |s|
  {
    if s != [] && IsSpace(s[0]) {
      StripKeeps(s[1..]);
      assert forall i :: 1 <= i < |s| ==> s[i] == s[1..][i - 1];
    } else if s != [] && IsSpace(s[|s| - 1]) {
      StripKeeps(s[..|s| - 1]);
      assert forall i :: 0 <= i < |s| - 1 ==> s[i] == s[..|s| - 1][i];
    } else {
    }
  }

  /** Text that `int` reads has a digit, and nothing but digits, signs, underscores
      and white space. */
  lemma ReadIntReads(s: string)
    requires ReadInt(s).Some?
    ensures HasDigit(s)
    ensures forall i :: 0 <= i < |s| ==> IsIntChar(s[i]) || IsSpace(s[i])
  {
    var t := Strip(s);
    var body := if t[0] == '-' || t[0] == '+' then t[1..] else t;
    GroupedChars(body);
    StripKeeps(s);
    assert body[0] in t;
    forall i | 0 <= i < |t|
      ensures IsIntChar(t[i])
    {
      if body != t && i > 0 {
        assert t[i] == body[i - 1];
      }
    }
  }

  /** Blank, tab, line feed, vertical tab, form feed and carriage return. */
  lemma SpacesAre(c: char)
    ensures IsSpace(c) <==> c in {' ', '\t', '\n', '\U{0B}', '\U{0C}', '\r'}
  {
  }

  /** The interpreter refuses numerals beyond 4300 digits. */
  lemma RefusesLong(s: string)
    requires IsNumeral(s) && |s| > 4300
    ensures ReadInt(s).None?
  {
    NothingToStrip(s);
    DigitsOfNumeral(s);
  }

  /** White space in front is skipped. */
  lemma SkipsSpaceBefore(c: char, s: string)
    requires IsSpace(c)
    ensures ReadInt([c] + s) == ReadInt(s)
  {
    assert ([c] + s)[1..] == s;
  }

  lemma {:induction false} StripsBehind(s: string, c: char)
    requires IsSpace(c)
    ensures Strip(s + [c]) == Strip(s)
    decreases |s|
  {
    if s == [] {
      assert [] + [c] == [c] && [c][1..] == [];
    } else if IsSpace(s[0]) {
      assert (s + [c])[1..] == s[1..] + [c];
      StripsBehind(s[1..], c);
    } else {
      assert (s + [c])[..|s|] == s;
    }
  }

  /** And so is white space behind. */
  lemma SkipsSpaceBehind(s: string, c: char)
    requires IsSpace(c)
    ensures ReadInt(s + [c]) == ReadInt(s)
  {
    StripsBehind(s, c);
  }

  lemma ReadsSigned(s: string)
    requires |s| >= 2 && (s[0] == '-' || s[0] == '+') && !IsSpace(s[|s| - 1])
    ensures ReadInt(s) == match ReadDigits(s[1..])
                          case None => None
                          case Some(n) => Some(if s[0] == '-' then -(n as int) else n)
  {
    NothingToStrip(s);
  }

  /** Single underscores between digits are read over, others refused; so is a second
      sign, and white space inside. */
  lemma ReadsGroups()
    ensures ReadInt("+40") == Some(40) && ReadInt("4_0") == Some(40) && ReadInt("-1_2") == Some(-12)
    ensures ReadInt("4__0").None? && ReadInt("_4").None? && ReadInt("4_").None?
    ensures ReadInt("+-4").None? && ReadInt("4 0").None? && ReadInt("").None? && ReadInt("-").None?
  {
    ReadsPlus();
    ReadsMinus();
    ReadsGroup();
    RefusesGroups();
  }

  lemma ReadsPlus()
    ensures ReadInt("+40") == Some(40)
  {
    ReadsTwo('4', '0');
    assert "+40"[1..] == ['4', '0'];
    ReadsSigned("+40");
  }

  lemma ReadsMinus()
    ensures ReadInt("-1_2") == Some(-12)
  {
    ReadsTwo('1', '2');
    assert "-1_2"[1..] == ['1', '_', '2'];
    ReadsSigned("-1_2");
  }

  lemma ReadsGroup()
    ensures ReadInt("4_0") == Some(40)
  {
    ReadsTwo('4', '0');
    assert "4_0" == ['4', '_', '0'];
    NothingToStrip("4_0");
  }

  lemma ParsesTwo(a: char, b: char)
    requires IsDigit(a) && IsDigit(b)
    ensures Parse([a, b]) == 10 * (a as int - '0' as int) + (b as int - '0' as int)
  {
    assert [a, b][..1] == [a] && [a][..0] == [];
    assert Parse([a]) == a as int - '0' as int;
  }

  lemma DigitsOfTwo(a: char, b: char)
    requires IsDigit(a) && IsDigit(b)
    ensures Digits([a, b]) == [a, b] && Digits([a, '_', b]) == [a, b]
    ensures IsGrouped([a, b]) && IsGrouped([a, '_', b])
  {
    assert [a, b][1..] == [b] && [a, '_', b][1..] == ['_', b] && ['_', b][1..] == [b] && [b][1..] == [];
    assert [a, '_', b][2..] == [b];
    assert Digits([b]) == [b] && Digits(['_', b]) == [b];
  }

  lemma ReadsTwo(a: char, b: char)
    requires IsDigit(a) && IsDigit(b)
    ensures ReadDigits([a, b]) == ReadDigits([a, '_', b])
    ensures ReadDigits([a, b]) == Some(10 * (a as int - '0' as int) + (b as int - '0' as int))
  {
    ParsesTwo(a, b);
    DigitsOfTwo(a, b);
  }

  lemma RefusesGroups()
    ensures ReadInt("4__0").None? && ReadInt("_4").None? && ReadInt("4_").None?
    ensures ReadInt("+-4").None? && ReadInt("4 0").None? && ReadInt("").None? && ReadInt("-").None?
  {
    assert "4__0"[2..] == "_0" && "4_"[2..] == "" && "+-4"[1..] == "-4" && "4 0"[1..] == " 0" && "-"[1..] == "";
    NothingToStrip("4__0");
    NothingToStrip("_4");
    NothingToStrip("4_");
    NothingToStrip("+-4");
    NothingToStrip("4 0");
    NothingToStrip("-");
  }
}
