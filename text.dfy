/** The Python string primitives the record codec is built from:
    `str.split(sep)`, `str(int)`, `int(str)` and `str.format` with
    positional `{}` placeholders. */
module Text {
  import opened Wrappers

  /** `s.split(sep)` for a non-empty separator: the pieces between the
      leftmost non-overlapping occurrences of `sep`. */
  function Split(s: string, sep: string): (parts: seq<string>)
    requires |sep| > 0
    ensures |parts| >= 1
  {
    SplitFrom(s, sep, "", [])
  }

  /** The scan behind `Split`: `cur` is the piece being read, `acc` the
      pieces already closed by a separator. */
  function SplitFrom(s: string, sep: string, cur: string, acc: seq<string>): (parts: seq<string>)
    requires |sep| > 0
    ensures |parts| > |acc| && parts[..|acc|] == acc
    decreases |s|
  {
    if |s| < |sep| then acc + [cur + s]
    else if s[..|sep|] == sep then SplitFrom(s[|sep|..], sep, "", acc + [cur])
    else SplitFrom(s[1..], sep, cur + [s[0]], acc)
  }

  predicate NoChar(s: string, c: char) {
    forall i :: 0 <= i < |s| ==> s[i] != c
  }

  /** The closed pieces are only carried along. */
  lemma {:induction false} SplitFromAcc(s: string, sep: string, cur: string, acc: seq<string>)
    requires |sep| > 0
    ensures SplitFrom(s, sep, cur, acc) == acc + SplitFrom(s, sep, cur, [])
    decreases |s|
  {
    if |s| < |sep| {
      assert [] + [cur + s] == [cur + s];
    } else if s[..|sep|] == sep {
      SplitFromAcc(s[|sep|..], sep, "", acc + [cur]);
      SplitFromAcc(s[|sep|..], sep, "", [] + [cur]);
      assert [] + [cur] == [cur];
      assert acc + [cur] + SplitFrom(s[|sep|..], sep, "", []) == acc + ([cur] + SplitFrom(s[|sep|..], sep, "", []));
    } else {
      SplitFromAcc(s[1..], sep, cur + [s[0]], acc);
    }
  }

  lemma {:induction false} SplitFromNone(s: string, sep: string, cur: string, acc: seq<string>)
    requires |sep| > 0 && NoChar(s, sep[0])
    ensures SplitFrom(s, sep, cur, acc) == acc + [cur + s]
    decreases |s|
  {
    if |s| >= |sep| {
      assert s[..|sep|][0] == s[0];
      SplitFromNone(s[1..], sep, cur + [s[0]], acc);
      assert cur + [s[0]] + s[1..] == cur + s;
    }
  }

  lemma {:induction false} SplitFromJoin(a: string, sep: string, b: string, cur: string, acc: seq<string>)
    requires |sep| > 0 && NoChar(a, sep[0])
    ensures SplitFrom(a + sep + b, sep, cur, acc) == SplitFrom(b, sep, "", acc + [cur + a])
    decreases |a|
  {
    var s := a + sep + b;
    if a == [] {
      assert s == sep + b;
      assert s[..|sep|] == sep;
      assert s[|sep|..] == b;
      assert cur + a == cur;
    } else {
      assert |s| >= |sep|;
      assert s[..|sep|][0] == a[0];
      assert s[1..] == a[1..] + sep + b;
      SplitFromJoin(a[1..], sep, b, cur + [s[0]], acc);
      assert cur + [s[0]] + a[1..] == cur + a;
    }
  }

  /** A string that never shows the separator's first character is one piece. */
  lemma SplitNone(s: string, sep: string)
    requires |sep| > 0 && NoChar(s, sep[0])
    ensures Split(s, sep) == [s]
  {
    SplitFromNone(s, sep, "", []);
    var none: string := [];
    assert none + s == s;
  }

  /** Splitting `a + sep + b`, where `a` never shows the separator's first
      character, cuts exactly at the separator written between them. */
  lemma SplitJoin(a: string, sep: string, b: string)
    requires |sep| > 0 && NoChar(a, sep[0])
    ensures Split(a + sep + b, sep) == [a] + Split(b, sep)
  {
    var none: string := [];
    var closed: seq<string> := [];
    SplitFromJoin(a, sep, b, none, closed);
    assert none + a == a;
    assert closed + [none + a] == [a];
    SplitFromAcc(b, sep, none, [a]);
  }

  // ---------------------------------------------------------------------
  // str(int) and int(str)

  function DigitChar(d: int): (c: char)
    requires 0 <= d < 10
    ensures IsDigit(c) && DigitValue(c) == d
  {
    ('0' as int + d) as char
  }

  function DigitValue(c: char): int {
    if '0' <= c <= '9' then (c as int) - ('0' as int) else -1
  }

  predicate IsDigit(c: char) { '0' <= c <= '9' }

  /** Decimal digits of a natural number, most significant first. */
  function Digits(n: nat): (s: string)
    ensures |s| >= 1 && forall i :: 0 <= i < |s| ==> IsDigit(s[i])
  {
    if n < 10 then [DigitChar(n)] else Digits(n / 10) + [DigitChar(n % 10)]
  }

  /** `str(n)` for an integer `n`. */
  function Str(n: int): (s: string)
    ensures NoChar(s, ':')
  {
    if n < 0 then "-" + Digits(-n) else Digits(n)
  }

  function DigitsValue(s: string): int
    requires |s| >= 1
  {
    if |s| == 1 then DigitValue(s[0])
    else DigitsValue(s[..|s| - 1]) * 10 + DigitValue(s[|s| - 1])
  }

  predicate AllDigits(s: string) {
    |s| >= 1 && forall i :: 0 <= i < |s| ==> IsDigit(s[i])
  }

  /** `int(s)`: an optional sign followed by one or more decimal digits;
      anything else raises, which is `None` here. */
  function ParseInt(s: string): (r: Option<int>)
    ensures r.Some? <==> (AllDigits(s) || (|s| >= 2 && s[0] in "+-" && AllDigits(s[1..])))
  {
    if |s| >= 1 && s[0] == '-' && AllDigits(s[1..]) then Some(-DigitsValue(s[1..]))
    else if |s| >= 1 && s[0] == '+' && AllDigits(s[1..]) then Some(DigitsValue(s[1..]))
    else if AllDigits(s) then Some(DigitsValue(s))
    else None
  }

  lemma {:induction false} DigitsRoundTrip(n: nat)
    ensures DigitsValue(Digits(n)) == n
  {
    if n >= 10 {
      DigitsRoundTrip(n / 10);
      DigitsValueLast(Digits(n / 10), DigitChar(n % 10));
    }
  }

  /** Appending a digit multiplies the value by ten and adds the digit. */
  lemma DigitsValueLast(p: string, c: char)
    requires |p| >= 1
    ensures DigitsValue(p + [c]) == DigitsValue(p) * 10 + DigitValue(c)
  {
    var s := p + [c];
    assert s[..|s| - 1] == p;
  }

  /** `int(str(n)) == n` for every integer. */
  lemma StrRoundTrip(n: int)
    ensures ParseInt(Str(n)) == Some(n)
  {
    var s := Str(n);
    if n < 0 {
      DigitsRoundTrip(-n);
      assert s[1..] == Digits(-n);
      assert s[0] == '-' && AllDigits(s[1..]);
    } else {
      DigitsRoundTrip(n);
      assert IsDigit(s[0]);
      assert s[0] != '-' && s[0] != '+';
      assert AllDigits(s);
    }
  }

  // ---------------------------------------------------------------------
  // str.format with positional {} placeholders

  /** Number of `{}` placeholders in a template. */
  function Holes(t: string): nat {
    if |t| < 2 then 0
    else if t[0] == '{' && t[1] == '}' then 1 + Holes(t[2..])
    else Holes(t[1..])
  }

  /** `t.format(*args)` for templates whose only braces are `{}` pairs:
      each placeholder takes the next argument; surplus arguments are
      ignored and too few raise (`None`). */
  function Format(t: string, args: seq<string>): (r: Option<string>)
    ensures r.Some? <==> |args| >= Holes(t)
  {
    if |t| < 2 then Some(t)
    else if t[0] == '{' && t[1] == '}' then
      if args == [] then None
      else match Format(t[2..], args[1..])
        case Some(rest) => Some(args[0] + rest)
        case None => None
    else match Format(t[1..], args)
      case Some(rest) => Some([t[0]] + rest)
      case None => None
  }

  predicate NoBrace(s: string) { NoChar(s, '{') }

  /** A literal run without braces is copied through unchanged. */
  lemma {:induction false} FormatLiteral(lit: string, rest: string, args: seq<string>)
    requires NoBrace(lit)
    ensures Format(lit + rest, args) ==
            match Format(rest, args) case Some(r) => Some(lit + r) case None => None
    decreases |lit|
  {
    if lit == [] {
      assert lit + rest == rest;
      match Format(rest, args)
      case Some(r) => assert lit + r == r;
      case None =>
    } else {
      var t := lit + rest;
      if |t| < 2 {
        assert lit == t && rest == [];
      } else {
        assert t[0] == lit[0] != '{';
        assert t[1..] == lit[1..] + rest;
        FormatLiteral(lit[1..], rest, args);
        var tail := Format(t[1..], args);
        assert Format(t, args) == (match tail case Some(x) => Some([t[0]] + x) case None => None);
        match Format(rest, args)
        case Some(r) =>
          assert tail == Some(lit[1..] + r);
          assert [t[0]] + (lit[1..] + r) == lit + r;
        case None =>
          assert tail == None;
      }
    }
  }

  /** A placeholder takes the first argument. */
  lemma FormatHole(rest: string, a: string, args: seq<string>)
    ensures Format("{}" + rest, [a] + args) ==
            match Format(rest, args) case Some(r) => Some(a + r) case None => None
  {
    var t := "{}" + rest;
    assert t[2..] == rest;
    assert ([a] + args)[1..] == args;
  }

  /** `'{}' + mid + '{}'` formats two arguments around the literal middle. */
  lemma FormatPair(mid: string, a: string, b: string)
    requires NoBrace(mid)
    ensures Format("{}" + mid + "{}", [a, b]) == Some(a + mid + b)
  {
    assert "{}" + mid + "{}" == "{}" + (mid + "{}");
    FormatHole(mid + "{}", a, [b]);
    FormatLiteral(mid, "{}", [b]);
    assert "{}" == "{}" + [];
    FormatHole([], b, []);
    assert Format([], []) == Some([]);
    assert a + (mid + (b + [])) == a + mid + b;
  }

  /** `head + '{}'` formats one argument after the literal head. */
  lemma FormatSuffix(head: string, a: string)
    requires NoBrace(head)
    ensures Format(head + "{}", [a]) == Some(head + a)
  {
    FormatLiteral(head, "{}", [a]);
    assert "{}" == "{}" + [];
    FormatHole([], a, []);
    assert Format([], []) == Some([]);
    assert a + [] == a;
  }

  /** A template without braces formats to itself whatever the arguments. */
  lemma FormatNoHoles(t: string, args: seq<string>)
    requires NoBrace(t)
    ensures Format(t, args) == Some(t)
  {
    FormatLiteral(t, [], args);
    assert t + [] == t;
  }
}
