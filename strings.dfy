/** The pieces of .NET string handling that the client relies on: composite formatting
    with positional `{i}` items (string.Format), the decimal rendering of a non-negative
    Int32, and joining, splitting and cutting strings at a separator character. */
module Strings {
  import opened Results

  /** No `{` and no `}` anywhere in s, so string.Format copies s verbatim. */
  predicate NoBraces(s: string) {
    forall i :: 0 <= i < |s| ==> s[i] != '{' && s[i] != '}'
  }

  predicate IsDigit(c: char) { '0' <= c <= '9' }

  predicate AllDigits(s: string) {
    forall i :: 0 <= i < |s| ==> IsDigit(s[i])
  }

  function DigitChar(d: nat): (c: char)
    requires d < 10
    ensures IsDigit(c) && c as int - '0' as int == d
  {
    ('0' as int + d) as char
  }

  function DigitValue(c: char): (d: nat)
    requires IsDigit(c)
    ensures d < 10 && DigitChar(d) == c
  {
    (c as int - '0' as int) as nat
  }

  /** The decimal text of n, as Int32.ToString() writes a non-negative value. */
  function Decimal(n: nat): (s: string)
    decreases n
  {
    if n < 10 then [DigitChar(n)] else Decimal(n / 10) + [DigitChar(n % 10)]
  }

  /** The number that a run of decimal digits denotes. */
  function DigitsValue(s: string): nat
    requires AllDigits(s)
  {
    if s == [] then 0 else 10 * DigitsValue(s[..|s| - 1]) + DigitValue(s[|s| - 1])
  }

  /** The length of the run of decimal digits that starts s. */
  function DigitRun(s: string): (k: nat)
    ensures k <= |s|
    ensures AllDigits(s[..k])
    ensures k < |s| ==> !IsDigit(s[k])
  {
    if s != [] && IsDigit(s[0]) then 1 + DigitRun(s[1..]) else 0
  }

  lemma {:induction false} DecimalIsDigits(n: nat)
    ensures |Decimal(n)| >= 1 && AllDigits(Decimal(n))
    ensures DigitsValue(Decimal(n)) == n
    decreases n
  {
    if n >= 10 {
      var q, r := n / 10, n % 10;
      assert n == 10 * q + r;
      DecimalIsDigits(q);
      var s := Decimal(n);
      assert s == Decimal(q) + [DigitChar(r)];
      assert s[..|s| - 1] == Decimal(q);
      assert DigitValue(s[|s| - 1]) == r;
    }
  }

  lemma {:induction false} DigitRunOfDigits(d: string, rest: string)
    requires AllDigits(d)
    requires rest == [] || !IsDigit(rest[0])
    ensures DigitRun(d + rest) == |d|
    decreases |d|
  {
    if d != [] {
      assert (d + rest)[1..] == d[1..] + rest;
      DigitRunOfDigits(d[1..], rest);
    }
  }

  /** Prefixes a successful formatting result; a failure stays a failure. */
  function Prepend(p: string, r: Option<string>): Option<string>
  {
    match r
    case None => None
    case Some(s) => Some(p + s)
  }

  /** Composite formatting as string.Format(template, args) performs it on templates whose
      format items are `{index}`: `{{` and `}}` stand for literal braces, a format item is
      replaced by args[index], and None stands for the FormatException thrown for an index
      outside args or for a brace that opens or closes nothing. */
  function Format(t: string, args: seq<string>): Option<string>
    decreases |t|
  {
    if t == [] then Some([])
    else if t[0] == '{' then
      if |t| > 1 && t[1] == '{' then Prepend("{", Format(t[2..], args))
      else
        var k := DigitRun(t[1..]);
        if k == 0 || 1 + k >= |t| || t[1 + k] != '}' then None
        else
          assert t[1..1 + k] == t[1..][..k];
          var i := DigitsValue(t[1..1 + k]);
          if i >= |args| then None else Prepend(args[i], Format(t[k + 2..], args))
    else if t[0] == '}' then
      if |t| > 1 && t[1] == '}' then Prepend("}", Format(t[2..], args)) else None
    else Prepend([t[0]], Format(t[1..], args))
  }

  /** Text without braces passes through formatting unchanged, in front of what follows. */
  lemma {:induction false} FormatLiteral(x: string, t: string, args: seq<string>)
    requires NoBraces(x)
    ensures Format(x + t, args) == Prepend(x, Format(t, args))
    decreases |x|
  {
    if x == [] {
      assert x + t == t;
      match Format(t, args) {
        case None =>
        case Some(s) => assert x + s == s;
      }
    } else {
      assert (x + t)[0] == x[0];
      assert (x + t)[1..] == x[1..] + t;
      FormatLiteral(x[1..], t, args);
      match Format(t, args) {
        case None =>
        case Some(s) => assert [x[0]] + (x[1..] + s) == x + s;
      }
    }
  }

  /** A template without braces is its own formatting, whatever the arguments. */
  lemma BraceFreeFormat(x: string, args: seq<string>)
    requires NoBraces(x)
    ensures Format(x, args) == Some(x)
  {
    FormatLiteral(x, [], args);
    assert x + [] == x;
  }

  /** A format item `{i}` is replaced by args[i], or fails when args has no element i. */
  lemma FormatItem(i: nat, t: string, args: seq<string>)
    ensures Format("{" + Decimal(i) + "}" + t, args)
         == if i < |args| then Prepend(args[i], Format(t, args)) else None
  {
    var d := Decimal(i);
    DecimalIsDigits(i);
    var s := "{" + d + "}" + t;
    assert s[0] == '{';
    assert s[1] == d[0];
    assert s[1..] == d + ("}" + t);
    DigitRunOfDigits(d, "}" + t);
    var k := DigitRun(s[1..]);
    assert k == |d|;
    assert s[1 + k] == '}';
    assert s[1..1 + k] == d;
    assert s[k + 2..] == t;
  }

  /** A template described piece by piece: a literal character or a format item. */
  datatype Piece = Char(c: char) | Item(index: nat)

  /** The template text of a piece, with literal braces doubled. */
  function PieceText(p: Piece): string
  {
    match p
    case Char(c) => if c == '{' then "{{" else if c == '}' then "}}" else [c]
    case Item(i) => "{" + Decimal(i) + "}"
  }

  function TemplateText(ps: seq<Piece>): string
  {
    if ps == [] then [] else PieceText(ps[0]) + TemplateText(ps[1..])
  }

  predicate ItemsBelow(ps: seq<Piece>, n: nat) {
    forall j :: 0 <= j < |ps| && ps[j].Item? ==> ps[j].index < n
  }

  /** What a template means: every literal character kept, every item replaced by its
      argument, in order. */
  function Render(ps: seq<Piece>, args: seq<string>): string
    requires ItemsBelow(ps, |args|)
  {
    if ps == [] then []
    else
      (match ps[0] case Char(c) => [c] case Item(i) => args[i]) + Render(ps[1..], args)
  }

  /** string.Format replaces every `{i}` by args[i], in order, keeping everything else and
      ignoring arguments that no item names; it fails exactly when some item names an index
      at or beyond |args|. */
  lemma {:induction false} FormatTemplate(ps: seq<Piece>, args: seq<string>)
    ensures Format(TemplateText(ps), args)
         == if ItemsBelow(ps, |args|) then Some(Render(ps, args)) else None
    decreases |ps|
  {
    if ps != [] {
      var rest := TemplateText(ps[1..]);
      FormatTemplate(ps[1..], args);
      assert ItemsBelow(ps, |args|) <==>
             (ps[0].Item? ==> ps[0].index < |args|) && ItemsBelow(ps[1..], |args|) by {
        if (ps[0].Item? ==> ps[0].index < |args|) && ItemsBelow(ps[1..], |args|) {
          forall j | 0 <= j < |ps| && ps[j].Item? ensures ps[j].index < |args| {
            if j > 0 { assert ps[j] == ps[1..][j - 1]; }
          }
        }
      }
      match ps[0]
      case Char(c) =>
        var t := TemplateText(ps);
        if c == '{' || c == '}' {
          assert t == [c, c] + rest;
          assert t[2..] == rest;
        } else {
          assert t == [c] + rest;
          assert t[1..] == rest;
        }
        match Format(rest, args) {
          case None =>
          case Some(s) =>
        }
      case Item(i) =>
        FormatItem(i, rest, args);
    }
  }

  /** One item `{i}` between brace-free text. */
  lemma FormatItemBetween(pre: string, i: nat, post: string, args: seq<string>)
    requires NoBraces(pre) && NoBraces(post) && i < |args|
    ensures Format(pre + ("{" + Decimal(i) + "}") + post, args) == Some(pre + args[i] + post)
  {
    var item := "{" + Decimal(i) + "}";
    BraceFreeFormat(post, args);
    FormatItem(i, post, args);
    FormatLiteral(pre, item + post, args);
    assert pre + item + post == pre + (item + post);
    assert pre + (args[i] + post) == pre + args[i] + post;
  }

  /** A template with one item `{0}` between brace-free text. */
  lemma FormatOneItem(pre: string, post: string, args: seq<string>)
    requires NoBraces(pre) && NoBraces(post) && |args| >= 1
    ensures Format(pre + "{0}" + post, args) == Some(pre + args[0] + post)
  {
    assert "{" + Decimal(0) + "}" == "{0}";
    FormatItemBetween(pre, 0, post, args);
  }

  /** A template with the items `{0}` and `{1}` between brace-free text. */
  lemma FormatTwoItems(pre: string, mid: string, post: string, args: seq<string>)
    requires NoBraces(pre) && NoBraces(mid) && NoBraces(post) && |args| >= 2
    ensures Format(pre + "{0}" + mid + "{1}" + post, args) == Some(pre + args[0] + mid + args[1] + post)
  {
    var item0 := "{" + Decimal(0) + "}";
    var item1 := "{" + Decimal(1) + "}";
    assert item0 == "{0}" && item1 == "{1}";
    var tail := mid + item1 + post;
    FormatItemBetween(mid, 1, post, args);
    var done := mid + args[1] + post;
    FormatItem(0, tail, args);
    assert Format(item0 + tail, args) == Some(args[0] + done);
    FormatLiteral(pre, item0 + tail, args);
    assert Format(pre + (item0 + tail), args) == Some(pre + (args[0] + done));
    FiveParts(pre, item0, mid, item1, post);
    FiveParts(pre, args[0], mid, args[1], post);
  }

  /** Regrouping a concatenation of five strings. */
  lemma FiveParts(a: string, b: string, c: string, d: string, e: string)
    ensures a + (b + (c + d + e)) == a + b + c + d + e
  {
  }

  /** Int32.ToString() in the invariant culture. */
  function Int32Text(n: int): (s: string)
  {
    if n < 0 then "-" + Decimal(-n) else Decimal(n)
  }

  lemma Int32TextPlain(n: int)
    ensures '&' !in Int32Text(n) && '?' !in Int32Text(n) && '=' !in Int32Text(n)
  {
    DecimalIsDigits(if n < 0 then -n else n);
  }

  /** string.Join(sep, xs). */
  function Join(xs: seq<string>, sep: char): string
  {
    if |xs| == 0 then [] else if |xs| == 1 then xs[0] else xs[0] + [sep] + Join(xs[1..], sep)
  }

  /** The pieces of s between occurrences of sep (one more piece than separators). */
  function Split(s: string, sep: char): (parts: seq<string>)
    ensures |parts| >= 1
  {
    if s == [] then [[]]
    else
      var rest := Split(s[1..], sep);
      if s[0] == sep then [[]] + rest else [[s[0]] + rest[0]] + rest[1..]
  }

  /** s cut at its first occurrence of sep: what precedes it and what follows it. */
  function Cut(s: string, sep: char): (string, string)
  {
    if s == [] then ([], [])
    else if s[0] == sep then ([], s[1..])
    else var (a, b) := Cut(s[1..], sep); ([s[0]] + a, b)
  }

  lemma {:induction false} CutAfter(x: string, sep: char, y: string)
    requires sep !in x
    ensures Cut(x + [sep] + y, sep) == (x, y)
    decreases |x|
  {
    if x == [] {
      assert x + [sep] + y == [sep] + y;
    } else {
      assert (x + [sep] + y)[1..] == x[1..] + [sep] + y;
      CutAfter(x[1..], sep, y);
      assert [x[0]] + x[1..] == x;
    }
  }

  lemma {:induction false} SplitWithout(x: string, sep: char)
    requires sep !in x
    ensures Split(x, sep) == [x]
    decreases |x|
  {
    if x != [] {
      SplitWithout(x[1..], sep);
      assert [x[0]] + x[1..] == x;
    }
  }

  lemma {:induction false} SplitAfter(x: string, sep: char, y: string)
    requires sep !in x
    ensures Split(x + [sep] + y, sep) == [x] + Split(y, sep)
    decreases |x|
  {
    if x == [] {
      assert x + [sep] + y == [sep] + y;
      assert ([sep] + y)[1..] == y;
    } else {
      assert (x + [sep] + y)[1..] == x[1..] + [sep] + y;
      SplitAfter(x[1..], sep, y);
      assert [x[0]] + x[1..] == x;
    }
  }

  /** Splitting undoes joining, when no joined piece contains the separator. */
  lemma {:induction false} SplitJoin(xs: seq<string>, sep: char)
    requires |xs| >= 1
    requires forall i :: 0 <= i < |xs| ==> sep !in xs[i]
    ensures Split(Join(xs, sep), sep) == xs
    decreases |xs|
  {
    if |xs| == 1 {
      SplitWithout(xs[0], sep);
    } else {
      SplitJoin(xs[1..], sep);
      SplitAfter(xs[0], sep, Join(xs[1..], sep));
    }
  }
}
