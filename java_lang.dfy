/** The few pieces of the Java platform the core relies on, with the semantics the
    core sees: 32-bit `int` arithmetic, `String.valueOf(int)`, `Integer.parseInt`,
    `String.split("\\.")`, upper-casing of one character, and the exception classes
    the core throws or expects generated tests to throw. */
module JavaLang {
  import opened Wrappers

  // ---------------------------------------------------------------------------
  // Exceptions

  datatype ExceptionClass =
    | NullPointerException
    | IllegalArgumentException
    | IllegalStateException
    | TestGenerationException
    | IncorrectOperationException
  {
    /** `Class.getSimpleName()` */
    function SimpleName(): string {
      match this
      case NullPointerException => NPE_NAME
      case IllegalArgumentException => IAE_NAME
      case IllegalStateException => ISE_NAME
      case TestGenerationException => TGE_NAME
      case IncorrectOperationException => IOE_NAME
    }
  }

  const NPE_NAME := "NullPointerException"
  const IAE_NAME := "IllegalArgumentException"
  const ISE_NAME := "IllegalStateException"
  const TGE_NAME := "TestGenerationException"
  /** Thrown by the host when asked to create an element from malformed text. */
  const IOE_NAME := "IncorrectOperationException"

  /** An exception as thrown: its class and its message. */
  datatype Thrown = Thrown(cls: ExceptionClass, message: string)

  /** The outcome of a Java call that returns a `T` or throws. */
  type Throws<T> = Result<T, Thrown>

  // ---------------------------------------------------------------------------
  // 32-bit int

  const INT_MIN: int := -0x8000_0000
  const INT_MAX: int := 0x7fff_ffff
  const TWO_32: int := 0x1_0000_0000

  type Int32 = x: int | INT_MIN <= x <= INT_MAX

  /** Two's-complement wrap-around of an exact result into Java's `int` range. */
  function Wrap32(x: int): (r: Int32)
    ensures INT_MIN <= x <= INT_MAX ==> r == x
    ensures x == INT_MAX + 1 ==> r == INT_MIN
    ensures x == INT_MIN - 1 ==> r == INT_MAX
  {
    (x - INT_MIN) % TWO_32 + INT_MIN
  }

  // ---------------------------------------------------------------------------
  // Decimal text

  predicate IsDigit(c: char) {
    '0' <= c <= '9'
  }

  predicate AllDigits(s: string) {
    forall i :: 0 <= i < |s| ==> IsDigit(s[i])
  }

  function DigitValue(c: char): nat
    requires IsDigit(c)
  {
    c as int - '0' as int
  }

  function DigitChar(d: nat): (c: char)
    requires d < 10
    ensures IsDigit(c) && DigitValue(c) == d
  {
    (d + '0' as int) as char
  }

  /** The decimal digits of `n`, most significant first, without leading zeros. */
  function Digits(n: nat): (s: string)
    ensures |s| >= 1 && AllDigits(s)
    ensures s[0] == '0' ==> n == 0
    decreases n
  {
    if n < 10 then [DigitChar(n)] else Digits(n / 10) + [DigitChar(n % 10)]
  }

  /** The number a string of decimal digits denotes. */
  function DecimalValue(s: string): nat
    requires AllDigits(s)
  {
    if s == [] then 0 else DecimalValue(s[..|s| - 1]) * 10 + DigitValue(s[|s| - 1])
  }

  lemma {:induction false} DecimalValueOfDigits(n: nat)
    ensures DecimalValue(Digits(n)) == n
    decreases n
  {
    if n >= 10 {
      var s := Digits(n);
      assert s[..|s| - 1] == Digits(n / 10);
      DecimalValueOfDigits(n / 10);
    }
  }

  /** `String.valueOf(int)`: an optional minus sign followed by the digits. */
  function ValueOf(n: int): string {
    if n < 0 then "-" + Digits(-n) else Digits(n)
  }

  // ---------------------------------------------------------------------------
  // Identifiers

  /** `Character.isJavaIdentifierStart` on ASCII: a letter, '_' or '$'. Characters
      outside ASCII are accepted. */
  predicate IsIdentifierStart(c: char) {
    'a' <= c <= 'z' || 'A' <= c <= 'Z' || c == '_' || c == '$' || c as int >= 128
  }

  /** `Character.isJavaIdentifierPart` on ASCII: a start character or a digit. */
  predicate IsIdentifierPart(c: char) {
    IsIdentifierStart(c) || IsDigit(c)
  }

  predicate AllIdentifierParts(s: string) {
    forall i :: 0 <= i < |s| ==> IsIdentifierPart(s[i])
  }

  /** A name the host accepts for a new method. */
  predicate IsJavaIdentifier(s: string) {
    |s| >= 1 && IsIdentifierStart(s[0]) && AllIdentifierParts(s[1..])
  }

  lemma IdentifierPartsAppend(a: string, b: string)
    ensures AllIdentifierParts(a + b) <==> AllIdentifierParts(a) && AllIdentifierParts(b)
  {
    if AllIdentifierParts(a + b) {
      forall i | 0 <= i < |a| ensures IsIdentifierPart(a[i]) {
        assert (a + b)[i] == a[i];
      }
      forall i | 0 <= i < |b| ensures IsIdentifierPart(b[i]) {
        assert (a + b)[|a| + i] == b[i];
      }
    }
    if AllIdentifierParts(a) && AllIdentifierParts(b) {
      forall i | 0 <= i < |a + b| ensures IsIdentifierPart((a + b)[i]) {
        if i < |a| {
          assert (a + b)[i] == a[i];
        } else {
          assert (a + b)[i] == b[i - |a|];
        }
      }
    }
  }

  /** The text of an `int` is made of identifier characters iff it has no minus
      sign, that is iff the `int` is not negative. */
  lemma ValueOfIdentifierParts(n: int)
    ensures AllIdentifierParts(ValueOf(n)) <==> n >= 0
  {
    if n < 0 {
      assert ValueOf(n)[0] == '-';
    }
  }

  /** Every exception's simple name is made of identifier characters. */
  lemma SimpleNameIdentifierParts(e: ExceptionClass)
    ensures AllIdentifierParts(e.SimpleName())
  {
  }

  /** `Integer.parseInt(s)`, with its NumberFormatException as `None`: an optional
      sign, then at least one ASCII decimal digit, and a value that fits in an `int`. */
  function ParseInt(s: string): Option<Int32> {
    if |s| == 0 then None
    else
      var digits := if s[0] == '-' || s[0] == '+' then s[1..] else s;
      if |digits| == 0 || !AllDigits(digits) then None
      else
        var magnitude: int := DecimalValue(digits);
        var v: int := if s[0] == '-' then -magnitude else magnitude;
        if INT_MIN <= v <= INT_MAX then Some(v) else None
  }

  /** Reading back the text `String.valueOf` writes gives the same `int`. */
  lemma ParseIntValueOf(n: Int32)
    ensures ParseInt(ValueOf(n)) == Some(n)
  {
    if n < 0 {
      ParseIntNegative(n);
    } else {
      ParseIntNonNegative(n);
    }
  }

  lemma ParseIntNegative(n: int)
    requires INT_MIN <= n < 0
    ensures ParseInt("-" + Digits(-n)) == Some(n)
  {
    var d := Digits(-n);
    var s := "-" + d;
    assert s[0] == '-' && s[1..] == d;
    DecimalValueOfDigits(-n);
  }

  lemma ParseIntNonNegative(n: int)
    requires 0 <= n <= INT_MAX
    ensures ParseInt(Digits(n)) == Some(n)
  {
    var d := Digits(n);
    assert d[0] != '-' && d[0] != '+';
    DecimalValueOfDigits(n);
  }

  /** Different `int`s are written as different texts. */
  lemma ValueOfInjective(m: Int32, n: Int32)
    requires m != n
    ensures ValueOf(m) != ValueOf(n)
  {
    ParseIntValueOf(m);
    ParseIntValueOf(n);
  }

  // ---------------------------------------------------------------------------
  // String.split("\\.")

  /** Every piece of `s` between '.' characters, empty pieces included. */
  function SplitAtDots(s: string): (pieces: seq<string>)
    ensures |pieces| >= 1
    ensures forall i :: 0 <= i < |pieces| ==> '.' !in pieces[i]
  {
    if s == [] then [[]]
    else
      var rest := SplitAtDots(s[1..]);
      if s[0] == '.' then [[]] + rest else [[s[0]] + rest[0]] + rest[1..]
  }

  function DropTrailingEmpty(pieces: seq<string>): (r: seq<string>)
    ensures r <= pieces
    ensures r == [] || r[|r| - 1] != []
    ensures forall i :: |r| <= i < |pieces| ==> pieces[i] == []
  {
    if pieces != [] && pieces[|pieces| - 1] == [] then DropTrailingEmpty(pieces[..|pieces| - 1])
    else pieces
  }

  /** `s.split("\\.")`: a string without a '.' is its own single piece (so the
      empty string gives one empty piece); otherwise the pieces between dots,
      with trailing empty pieces removed. */
  function Split(s: string): seq<string> {
    if '.' in s then DropTrailingEmpty(SplitAtDots(s)) else [s]
  }

  /** The segments written back with '.' between them. */
  function JoinWithDots(segments: seq<string>): string
    requires |segments| >= 1
  {
    if |segments| == 1 then segments[0] else segments[0] + "." + JoinWithDots(segments[1..])
  }

  lemma {:induction false} SplitAtDotsPrefix(w: string, t: string)
    requires '.' !in w
    ensures SplitAtDots(w + t) == [w + SplitAtDots(t)[0]] + SplitAtDots(t)[1..]
  {
    if w != [] {
      var p := SplitAtDots(t);
      var s := w + t;
      assert s[0] == w[0] != '.';
      assert s[1..] == w[1..] + t;
      var rest := SplitAtDots(s[1..]);
      assert SplitAtDots(s) == [[s[0]] + rest[0]] + rest[1..];
      assert rest == [w[1..] + p[0]] + p[1..] by {
        SplitAtDotsPrefix(w[1..], t);
      }
      assert [w[0]] + (w[1..] + p[0]) == w + p[0];
    } else {
      var p := SplitAtDots(t);
      assert w + t == t && w + p[0] == p[0];
      assert [p[0]] + p[1..] == p;
    }
  }

  lemma {:induction false} SplitAtDotsJoin(segments: seq<string>)
    requires |segments| >= 1
    requires forall i :: 0 <= i < |segments| ==> '.' !in segments[i]
    ensures SplitAtDots(JoinWithDots(segments)) == segments
    ensures '.' in JoinWithDots(segments) <==> |segments| > 1
    decreases |segments|
  {
    if |segments| == 1 {
      SplitAtDotsPrefix(segments[0], []);
      assert segments[0] + [] == segments[0];
    } else {
      var tail := JoinWithDots(segments[1..]);
      SplitAtDotsJoin(segments[1..]);
      assert segments[0] + "." + tail == segments[0] + ("." + tail);
      SplitAtDotsPrefix(segments[0], "." + tail);
      assert ("." + tail)[0] == '.' && ("." + tail)[1..] == tail;
      assert SplitAtDots("." + tail) == [[]] + segments[1..];
      assert segments[0] + [] == segments[0];
      assert [segments[0]] + segments[1..] == segments;
      assert '.' in segments[0] + "." + tail by {
        assert (segments[0] + "." + tail)[|segments[0]|] == '.';
      }
    }
  }

  /** A dotted name whose segments are non-empty splits back into its segments. */
  lemma SplitJoin(segments: seq<string>)
    requires |segments| >= 1
    requires forall i :: 0 <= i < |segments| ==> segments[i] != [] && '.' !in segments[i]
    ensures Split(JoinWithDots(segments)) == segments
  {
    SplitAtDotsJoin(segments);
  }

  // ---------------------------------------------------------------------------
  // Joining with a separator

  /** The items with `sep` between consecutive ones: what a StringBuilder loop that
      appends `sep` before every item but the first writes. */
  function Join(items: seq<string>, sep: string): string {
    if |items| == 0 then ""
    else if |items| == 1 then items[0]
    else Join(items[..|items| - 1], sep) + sep + items[|items| - 1]
  }

  /** Joining one more item appends the separator (unless it is the first item)
      and the item. */
  lemma JoinStep(items: seq<string>, sep: string, i: nat)
    requires i < |items|
    ensures Join(items[..i + 1], sep) == Join(items[..i], sep) + (if i == 0 then "" else sep) + items[i]
  {
    assert items[..i + 1][..i] == items[..i];
    if i == 0 {
      assert Join(items[..0], sep) == "";
    }
  }

  /** Every item appears in the joined text, at the position the items and
      separators before it put it. */
  lemma {:induction false} JoinContainsItems(items: seq<string>, sep: string, k: nat)
    requires k < |items|
    ensures var start := JoinOffset(items, sep, k);
            start + |items[k]| <= |Join(items, sep)| && Join(items, sep)[start..start + |items[k]|] == items[k]
    decreases |items|
  {
    var n := |items|;
    if n > 1 {
      var init := items[..n - 1];
      if k < n - 1 {
        JoinContainsItems(init, sep, k);
        assert JoinOffset(items, sep, k) == JoinOffset(init, sep, k) by {
          JoinOffsetPrefix(items, sep, k);
        }
      } else {
        JoinLength(init, sep);
        JoinOffsetLast(items, sep);
      }
    }
  }

  /** A slice of the middle part of a concatenation is a slice of that part. */
  lemma SliceOfMiddle(a: string, b: string, c: string, start: nat, len: nat)
    requires start + len <= |b|
    ensures |a| + start + len <= |a + b + c|
    ensures (a + b + c)[|a| + start..|a| + start + len] == b[start..start + len]
  {
    assert (a + b + c)[|a|..|a| + |b|] == b;
  }

  /** Between a head and a tail, the k-th joined item stands where the items
      and separators before it end. */
  lemma JoinedItemAt(head: string, items: seq<string>, sep: string, tail: string, k: nat)
    requires k < |items|
    ensures var start := |head| + JoinOffset(items, sep, k);
            start + |items[k]| <= |head + Join(items, sep) + tail|
            && (head + Join(items, sep) + tail)[start..start + |items[k]|] == items[k]
  {
    var joined := Join(items, sep);
    var offset := JoinOffset(items, sep, k);
    var len := |items[k]|;
    assert offset + len <= |joined| && joined[offset..offset + len] == items[k] by {
      JoinContainsItems(items, sep, k);
    }
    SliceOfMiddle(head, joined, tail, offset, len);
  }

  /** Where the `k`-th item starts in the joined text. */
  function JoinOffset(items: seq<string>, sep: string, k: nat): nat
    requires k <= |items|
  {
    if k == 0 then 0 else JoinOffset(items, sep, k - 1) + |items[k - 1]| + |sep|
  }

  lemma {:induction false} JoinOffsetPrefix(items: seq<string>, sep: string, k: nat)
    requires k < |items|
    ensures JoinOffset(items, sep, k) == JoinOffset(items[..|items| - 1], sep, k)
  {
    if k > 0 {
      JoinOffsetPrefix(items, sep, k - 1);
    }
  }

  lemma JoinOffsetLast(items: seq<string>, sep: string)
    requires |items| >= 2
    ensures JoinOffset(items, sep, |items| - 1) == |Join(items[..|items| - 1], sep)| + |sep|
  {
    JoinOffsetPrefix(items, sep, |items| - 2);
    JoinLength(items[..|items| - 1], sep);
  }

  /** The joined text is as long as the items and the separators between them. */
  lemma {:induction false} JoinLength(items: seq<string>, sep: string)
    requires |items| >= 1
    ensures |Join(items, sep)| == JoinOffset(items, sep, |items| - 1) + |items[|items| - 1]|
  {
    var n := |items|;
    if n > 1 {
      var init := items[..n - 1];
      JoinLength(init, sep);
      JoinOffsetPrefix(items, sep, n - 2);
    }
  }

  // ---------------------------------------------------------------------------
  // Characters

  /** `toUpperCase` of a one-character string, for ASCII characters. */
  function UpperAscii(c: char): char {
    if 'a' <= c <= 'z' then (c as int - 32) as char else c
  }

  // ---------------------------------------------------------------------------
  // String literals in generated code

  /** `Character.isWhitespace` on the characters below U+0080. */
  predicate IsWhitespace(c: char) {
    c == ' ' || '\t' <= c <= '\r' || '\U{001C}' <= c <= '\U{001F}'
  }

  /** A string a blank check rejects: nothing but whitespace. */
  predicate IsBlank(s: string) {
    forall i :: 0 <= i < |s| ==> IsWhitespace(s[i])
  }

  /** The characters the body of a Java string literal stands for, for the escapes
      `\n`, `\t`, `\\` and `\"`; `None` for a body that is not well formed. */
  function UnescapeJava(body: string): Option<string> {
    if body == [] then Some([])
    else if body[0] == '\\' then
      if |body| < 2 then None
      else
        var e := body[1];
        var c: Option<char> :=
          if e == 'n' then Some('\n')
          else if e == 't' then Some('\t')
          else if e == '\\' then Some('\\')
          else if e == '"' then Some('"')
          else None;
        match (c, UnescapeJava(body[2..]))
        case (Some(ch), Some(rest)) => Some([ch] + rest)
        case _ => None
    else if body[0] == '"' then None
    else
      match UnescapeJava(body[1..])
      case Some(rest) => Some([body[0]] + rest)
      case None => None
  }

  /** The value a Java string literal (quotes included) evaluates to. */
  function StringLiteralValue(text: string): Option<string> {
    if |text| >= 2 && text[0] == '"' && text[|text| - 1] == '"' then UnescapeJava(text[1..|text| - 1])
    else None
  }

  /** How a character is written inside a Java string literal: the four escapes
      `UnescapeJava` reads, and every other character as itself. */
  function EscapeChar(c: char): (r: string)
    ensures 1 <= |r| <= 2 && (|r| == 2 <==> r[0] == '\\')
  {
    if c == '\n' then "\\n"
    else if c == '\t' then "\\t"
    else if c == '\\' then "\\\\"
    else if c == '"' then "\\\""
    else [c]
  }

  /** The body of a Java string literal that stands for `s`. */
  function EscapeJava(s: string): string {
    if s == [] then [] else EscapeChar(s[0]) + EscapeJava(s[1..])
  }

  /** Reading an escaped body gives back the string it was written for. */
  lemma {:induction false} UnescapeEscape(s: string)
    ensures UnescapeJava(EscapeJava(s)) == Some(s)
  {
    if s != [] {
      UnescapeEscape(s[1..]);
      var head := EscapeChar(s[0]);
      var e := EscapeJava(s);
      assert e == head + EscapeJava(s[1..]);
      assert e[|head|..] == EscapeJava(s[1..]);
      assert [s[0]] + s[1..] == s;
    }
  }

  /** A literal body without backslashes or quotes stands for itself. */
  lemma {:induction false} UnescapePlain(body: string)
    requires forall i :: 0 <= i < |body| ==> body[i] != '\\' && body[i] != '"'
    ensures UnescapeJava(body) == Some(body)
  {
    if body != [] {
      UnescapePlain(body[1..]);
      assert [body[0]] + body[1..] == body;
    }
  }
}
