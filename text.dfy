/**
 * The handful of Python string operations the bot relies on: `str.strip()`, `str.lower()`,
 * `str.split(sep)`, `str.endswith`, `int(text)` and `str(n)` for integers.
 * Only ASCII case mapping and ASCII decimal digits are modelled; whitespace is Python's full set.
 */
module Text {
  import opened Wrappers

  /**
   * The characters `str.isspace()` accepts, which `strip()` removes: the ASCII controls and
   * separators, NEL, the no-break space, and the Unicode space separators and line and paragraph
   * separators.
   */
  predicate IsSpace(c: char) {
    c == ' ' || c == '\t' || c == '\n' || c == '\r' || c == '\U{B}' || c == '\U{C}'
    || c == '\U{1C}' || c == '\U{1D}' || c == '\U{1E}' || c == '\U{1F}' || c == '\U{85}' || c == '\U{A0}'
    || c == '\U{1680}' || ('\U{2000}' <= c <= '\U{200A}') || c == '\U{2028}' || c == '\U{2029}'
    || c == '\U{202F}' || c == '\U{205F}' || c == '\U{3000}'
  }

  /** `s.lstrip()` */
  function TrimLeft(s: string): (r: string)
    ensures |r| <= |s| && r == s[|s| - |r|..]
    ensures r == [] || !IsSpace(r[0])
    ensures forall i :: 0 <= i < |s| - |r| ==> IsSpace(s[i])
  {
    if |s| > 0 && IsSpace(s[0]) then TrimLeft(s[1..]) else s
  }

  /** `s.rstrip()` */
  function TrimRight(s: string): (r: string)
    ensures |r| <= |s| && r == s[..|r|]
    ensures r == [] || !IsSpace(r[|r| - 1])
    ensures forall i :: |r| <= i < |s| ==> IsSpace(s[i])
  {
    if |s| > 0 && IsSpace(s[|s| - 1]) then TrimRight(s[..|s| - 1]) else s
  }

  /** `s.strip()`: the longest infix with no white space at either end. */
  function Strip(s: string): (r: string)
  {
    TrimRight(TrimLeft(s))
  }

  /** `r` is `s[i..j]`, and everything of `s` outside it is white space. */
  predicate SpaceAround(s: string, r: string, i: int, j: int)
  {
    && 0 <= i <= j <= |s| && r == s[i..j]
    && (forall k :: 0 <= k < i ==> IsSpace(s[k]))
    && (forall k :: j <= k < |s| ==> IsSpace(s[k]))
  }

  /** Stripping removes only white space, from the two ends. */
  lemma StripInfix(s: string)
    ensures exists i, j :: SpaceAround(s, Strip(s), i, j)
  {
    var l := TrimLeft(s);
    var r := TrimRight(l);
    assert r == Strip(s);
    TrimmedBothEnds(s, l, r);
  }

  /** A white-space suffix trimmed from a white-space-trimmed suffix leaves an infix between white space. */
  lemma TrimmedBothEnds(s: string, l: string, r: string)
    requires |l| <= |s| && l == s[|s| - |l|..] && forall k :: 0 <= k < |s| - |l| ==> IsSpace(s[k])
    requires |r| <= |l| && r == l[..|r|] && forall k :: |r| <= k < |l| ==> IsSpace(l[k])
    ensures SpaceAround(s, r, |s| - |l|, |s| - |l| + |r|)
    ensures exists i, j :: SpaceAround(s, r, i, j)
  {
    var i := |s| - |l|;
    forall k | i + |r| <= k < |s| ensures IsSpace(s[k]) {
      assert s[k] == l[k - i];
    }
  }

  /** The stripped text has no white space at either end. */
  lemma StripEnds(s: string)
    ensures var r := Strip(s); r == [] || (!IsSpace(r[0]) && !IsSpace(r[|r| - 1]))
  {
    var l := TrimLeft(s);
    var r := TrimRight(l);
    if r != [] {
      assert r[0] == l[0];
    }
  }

  /** Stripping twice is stripping once. */
  lemma StripIdempotent(s: string)
    ensures Strip(Strip(s)) == Strip(s)
  {
    var r := Strip(s);
    StripEnds(s);
    if r != [] {
      StripUnspaced(r);
    }
  }

  function LowerChar(c: char): (d: char)
  {
    if 'A' <= c <= 'Z' then (c as int - 'A' as int + 'a' as int) as char else c
  }

  /** `s.lower()` restricted to ASCII letters: the same length, every upper-case letter mapped down. */
  function Lower(s: string): (r: string)
    ensures |r| == |s|
    ensures forall i :: 0 <= i < |s| ==> r[i] == LowerChar(s[i])
  {
    seq(|s|, i requires 0 <= i < |s| => LowerChar(s[i]))
  }

  /** `sep.join(parts)` for a one-character separator. */
  function Join(parts: seq<string>, sep: char): string
  {
    if |parts| == 0 then ""
    else if |parts| == 1 then parts[0]
    else parts[0] + [sep] + Join(parts[1..], sep)
  }

  // ---- `repr` of strings and of lists of strings ----

  /** The quote `repr` uses: a single quote, unless the text has one and no double quote. */
  function ReprQuote(s: string): (q: char)
    ensures q == '\'' || q == '"'
    ensures q == '"' <==> '\'' in s && '"' !in s
  {
    if '\'' in s && '"' !in s then '"' else '\''
  }

  /** Characters `repr` writes as an escape: the ASCII controls and DEL. */
  predicate IsControl(c: char) { c < ' ' || c == '\U{7F}' }

  function HexDigit(d: nat): (c: char)
    requires d < 16
  {
    if d < 10 then DigitChar(d) else ('a' as int + d - 10) as char
  }

  /**
   * One character as `repr` writes it inside quotes `q`: the quote and the backslash behind a
   * backslash, tab, newline and carriage return by name, other controls as `\xhh`, everything
   * else as itself.
   */
  function EscapeChar(c: char, q: char): (e: string)
    ensures |e| >= 1
    ensures e == [c] <==> c != q && c != '\\' && !IsControl(c)
    ensures e != [c] ==> e[0] == '\\' && |e| >= 2
  {
    if c == q || c == '\\' then ['\\', c]
    else if c == '\t' then "\\t"
    else if c == '\n' then "\\n"
    else if c == '\r' then "\\r"
    else if IsControl(c) then ['\\', 'x', HexDigit(c as int / 16), HexDigit(c as int % 16)]
    else [c]
  }

  /** The text between the quotes of `repr(s)`. */
  function EscapeAll(s: string, q: char): (r: string)
    ensures |r| >= |s|
  {
    if |s| == 0 then "" else EscapeChar(s[0], q) + EscapeAll(s[1..], q)
  }

  /** A text that needs no escape is written as itself. */
  lemma {:induction false} EscapeAllPlain(s: string, q: char)
    requires forall i :: 0 <= i < |s| ==> s[i] != q && s[i] != '\\' && !IsControl(s[i])
    ensures EscapeAll(s, q) == s
  {
    if |s| > 0 {
      EscapeAllPlain(s[1..], q);
      assert s == [s[0]] + s[1..];
    }
  }

  /** Escaping lengthens the text exactly when some character needs an escape. */
  lemma {:induction false} EscapeAllGrows(s: string, q: char, i: nat)
    requires i < |s| && (s[i] == q || s[i] == '\\' || IsControl(s[i]))
    ensures |EscapeAll(s, q)| > |s|
  {
    if i > 0 {
      EscapeAllGrows(s[1..], q, i - 1);
    } else {
      assert |EscapeChar(s[0], q)| >= 2;
    }
  }

  /**
   * `repr(s)` for printable text: quoted, one character longer at each end at least, and
   * every original character kept or escaped.
   */
  function StrRepr(s: string): (r: string)
    ensures |r| >= |s| + 2
    ensures r[0] == ReprQuote(s) && r[|r| - 1] == ReprQuote(s)
  {
    var q := ReprQuote(s);
    [q] + EscapeAll(s, q) + [q]
  }

  /** `repr` of a plain text is that text between single quotes. */
  lemma StrReprPlain(s: string)
    requires forall i :: 0 <= i < |s| ==> s[i] != '\'' && s[i] != '\\' && !IsControl(s[i])
    ensures StrRepr(s) == "'" + s + "'"
  {
    EscapeAllPlain(s, '\'');
  }

  /** The items of `str(list)`: each element's `repr`, separated by a comma and a space. */
  function ReprItems(ms: seq<string>): (r: string)
  {
    if |ms| == 0 then ""
    else if |ms| == 1 then StrRepr(ms[0])
    else StrRepr(ms[0]) + ", " + ReprItems(ms[1..])
  }

  /** The total length of a list of texts. */
  function TotalLength(ms: seq<string>): nat
  {
    if |ms| == 0 then 0 else |ms[0]| + TotalLength(ms[1..])
  }

  /** The items of `str(list)` are longer than the texts themselves: two quotes each at least. */
  lemma {:induction false} ReprItemsLength(ms: seq<string>)
    ensures |ReprItems(ms)| >= TotalLength(ms) + 2 * |ms|
  {
    if |ms| > 1 {
      ReprItemsLength(ms[1..]);
    }
  }

  /** `str(ms)` for a list of strings: the elements' `repr`s between brackets. */
  function ListRepr(ms: seq<string>): (r: string)
    ensures |r| >= 2 && r[0] == '[' && r[|r| - 1] == ']'
    ensures |ms| > 0 ==> r[1] == ReprQuote(ms[0])
  {
    "[" + ReprItems(ms) + "]"
  }

  /** `str(ms)` holds every text of `ms`, quoted: it is longer than all of them together. */
  lemma ListReprLength(ms: seq<string>)
    ensures |ListRepr(ms)| >= TotalLength(ms) + 2 * |ms| + 2
  {
    ReprItemsLength(ms);
  }

  /** `s.split(sep)` for a one-character separator: never empty, no piece contains `sep`. */
  function Split(s: string, sep: char): (parts: seq<string>)
    ensures |parts| >= 1
    ensures forall p :: p in parts ==> sep !in p
    decreases |s|
  {
    if |s| == 0 then [""]
    else if s[0] == sep then [""] + Split(s[1..], sep)
    else
      var rest := Split(s[1..], sep);
      [[s[0]] + rest[0]] + rest[1..]
  }

  /** Joining the pieces of a split gives back the original text. */
  lemma {:induction false} JoinSplit(s: string, sep: char)
    ensures Join(Split(s, sep), sep) == s
    decreases |s|
  {
    if |s| == 0 {
    } else if s[0] == sep {
      JoinSplit(s[1..], sep);
      var rest := Split(s[1..], sep);
      assert Split(s, sep) == [""] + rest;
      assert ([""] + rest)[1..] == rest;
    } else {
      JoinSplit(s[1..], sep);
      var rest := Split(s[1..], sep);
      var parts := [[s[0]] + rest[0]] + rest[1..];
      assert Split(s, sep) == parts;
      assert s == [s[0]] + s[1..];
      if |rest| == 1 {
        assert Join(rest, sep) == rest[0];
        assert Join(parts, sep) == [s[0]] + rest[0];
      } else {
        assert parts[1..] == rest[1..];
        assert Join(rest, sep) == rest[0] + [sep] + Join(rest[1..], sep);
        assert Join(parts, sep) == ([s[0]] + rest[0]) + [sep] + Join(rest[1..], sep);
      }
    }
  }

  /** `s.endswith(suffix)` */
  predicate EndsWith(s: string, suffix: string)
  {
    |suffix| <= |s| && s[|s| - |suffix|..] == suffix
  }

  /** `s.split(sep)[-1]`: the text after the last separator. */
  function LastSegment(s: string, sep: char): (r: string)
    ensures sep !in r
  {
    var parts := Split(s, sep);
    parts[|parts| - 1]
  }

  /** Text free of the separator splits into itself alone. */
  lemma {:induction false} SplitNoSep(t: string, sep: char)
    requires sep !in t
    ensures Split(t, sep) == [t]
    decreases |t|
  {
    if |t| > 0 {
      SplitNoSep(t[1..], sep);
      assert [t[0]] + t[1..] == t;
    }
  }

  /** A leading separator starts an empty piece. */
  lemma SplitSep(t: string, sep: char)
    ensures Split([sep] + t, sep) == [""] + Split(t, sep)
  {
    assert ([sep] + t)[1..] == t;
  }

  /** A leading character other than the separator joins the first piece. */
  lemma SplitChar(c: char, t: string, sep: char)
    requires c != sep
    ensures var rest := Split(t, sep); Split([c] + t, sep) == [[c] + rest[0]] + rest[1..]
  {
    assert ([c] + t)[1..] == t;
  }

  /** Text holding the separator splits into at least two pieces. */
  lemma {:induction false} SplitSeveral(t: string, sep: char)
    requires sep in t
    ensures |Split(t, sep)| >= 2
    decreases |t|
  {
    if t[0] != sep {
      assert sep in t[1..] by {
        var k :| 0 <= k < |t| && t[k] == sep;
        assert t[1..][k - 1] == sep;
      }
      SplitSeveral(t[1..], sep);
    }
  }

  /** A character in front of text that holds the separator leaves the last piece alone. */
  lemma SplitLastCons(c: char, t: string, sep: char)
    requires sep in t
    ensures LastSegment([c] + t, sep) == LastSegment(t, sep)
  {
    SplitSeveral(t, sep);
    if c == sep {
      SplitSep(t, sep);
    } else {
      SplitChar(c, t, sep);
    }
  }

  /** A piece free of the separator, then the separator: the piece is split off first. */
  lemma {:induction false} SplitPiece(p: string, t: string, sep: char)
    requires sep !in p
    ensures Split(p + [sep] + t, sep) == [p] + Split(t, sep)
    decreases |p|
  {
    if |p| == 0 {
      assert p + [sep] + t == [sep] + t;
      SplitSep(t, sep);
    } else {
      SplitPiece(p[1..], t, sep);
      assert p + [sep] + t == [p[0]] + (p[1..] + [sep] + t);
      SplitChar(p[0], p[1..] + [sep] + t, sep);
      assert [p[0]] + p[1..] == p;
    }
  }

  /** Splitting undoes joining, as long as no piece holds the separator. */
  lemma {:induction false} SplitJoin(parts: seq<string>, sep: char)
    requires |parts| > 0 && forall p :: p in parts ==> sep !in p
    ensures Split(Join(parts, sep), sep) == parts
    decreases |parts|
  {
    if |parts| == 1 {
      SplitNoSep(parts[0], sep);
    } else {
      assert forall p :: p in parts[1..] ==> p in parts;
      SplitJoin(parts[1..], sep);
      assert parts[0] in parts;
      SplitPiece(parts[0], Join(parts[1..], sep), sep);
      assert parts == [parts[0]] + parts[1..];
    }
  }

  /** A joined text is made of the pieces' characters and the separator. */
  lemma {:induction false} JoinChars(parts: seq<string>, sep: char, ok: char -> bool)
    requires ok(sep) && forall p, i :: p in parts && 0 <= i < |p| ==> ok(p[i])
    ensures forall i :: 0 <= i < |Join(parts, sep)| ==> ok(Join(parts, sep)[i])
    decreases |parts|
  {
    if |parts| == 1 {
      assert parts[0] in parts;
    } else if |parts| > 1 {
      assert forall p :: p in parts[1..] ==> p in parts;
      JoinChars(parts[1..], sep, ok);
      var rest := Join(parts[1..], sep);
      var whole := parts[0] + [sep] + rest;
      assert parts[0] in parts;
      forall i | 0 <= i < |whole|
        ensures ok(whole[i])
      {
        if i > |parts[0]| {
          assert whole[i] == rest[i - |parts[0]| - 1];
        }
      }
    }
  }

  /** `prefix + [sep] + tail` ends in `tail` whenever `tail` holds no separator. */
  lemma {:induction false} LastSegmentAfter(prefix: string, sep: char, tail: string)
    requires sep !in tail
    ensures LastSegment(prefix + [sep] + tail, sep) == tail
    decreases |prefix|
  {
    if |prefix| == 0 {
      assert prefix + [sep] + tail == [sep] + tail;
      SplitSep(tail, sep);
      SplitNoSep(tail, sep);
    } else {
      var t := prefix[1..] + [sep] + tail;
      assert prefix + [sep] + tail == [prefix[0]] + t;
      assert t[|prefix| - 1] == sep;
      SplitLastCons(prefix[0], t, sep);
      LastSegmentAfter(prefix[1..], sep, tail);
    }
  }

  // ---- decimal numerals ----

  predicate IsDigit(c: char) { '0' <= c <= '9' }

  function DigitValue(c: char): nat
    requires IsDigit(c)
  {
    c as int - '0' as int
  }

  function DigitChar(d: nat): (c: char)
    requires d < 10
    ensures IsDigit(c) && DigitValue(c) == d
  {
    ('0' as int + d) as char
  }

  /** The value of a string of decimal digits (leading zeros allowed, as in `int("060")`). */
  function DigitsValue(s: string): nat
    requires forall i :: 0 <= i < |s| ==> IsDigit(s[i])
  {
    if |s| == 0 then 0 else 10 * DigitsValue(s[..|s| - 1]) + DigitValue(s[|s| - 1])
  }

  /** `str(n)` for a natural number: the shortest decimal numeral. */
  function NatToString(n: nat): (s: string)
    ensures |s| >= 1
    ensures forall i :: 0 <= i < |s| ==> IsDigit(s[i])
    ensures n > 0 ==> s[0] != '0'
  {
    if n < 10 then [DigitChar(n)] else NatToString(n / 10) + [DigitChar(n % 10)]
  }

  /** Reading back a rendered numeral gives the number: `int(str(n)) == n`. */
  lemma {:induction false} NatToStringRoundTrip(n: nat)
    ensures DigitsValue(NatToString(n)) == n
  {
    if n >= 10 {
      NatToStringRoundTrip(n / 10);
      var s := NatToString(n);
      assert s[..|s| - 1] == NatToString(n / 10);
    }
  }

  /** Rendering is injective. */
  lemma NatToStringInjective(m: nat, n: nat)
    requires NatToString(m) == NatToString(n)
    ensures m == n
  {
    NatToStringRoundTrip(m);
    NatToStringRoundTrip(n);
  }

  /** `str(n)` for any integer. */
  function IntToString(n: int): (s: string)
    ensures |s| >= 1 && (n < 0 <==> s[0] == '-')
  {
    if n < 0 then "-" + NatToString(-n) else NatToString(n)
  }

  /** A digit run in Python's integer-literal syntax: digits, with single underscores between them. */
  predicate IsDigitRun(s: string)
  {
    |s| > 0 && IsDigit(s[0]) && IsDigit(s[|s| - 1])
    && (forall i :: 0 <= i < |s| ==> IsDigit(s[i]) || s[i] == '_')
    && (forall i :: 0 <= i < |s| - 1 ==> !(s[i] == '_' && s[i + 1] == '_'))
  }

  /** The digits of a run with its underscores removed. */
  function DropUnderscores(s: string): (r: string)
    requires forall i :: 0 <= i < |s| ==> IsDigit(s[i]) || s[i] == '_'
    ensures forall i :: 0 <= i < |r| ==> IsDigit(r[i])
    ensures |r| <= |s|
  {
    if |s| == 0 then ""
    else if s[0] == '_' then DropUnderscores(s[1..])
    else [s[0]] + DropUnderscores(s[1..])
  }

  /** A run of plain digits keeps all its characters. */
  lemma {:induction false} DropUnderscoresPlain(s: string)
    requires forall i :: 0 <= i < |s| ==> IsDigit(s[i])
    ensures DropUnderscores(s) == s
  {
    if |s| > 0 {
      DropUnderscoresPlain(s[1..]);
    }
  }

  /**
   * `int(s)` for base-10 text: surrounding white space, an optional sign, then a digit run.
   * Anything else is the `ValueError` case, here `None`.
   */
  function ParseInt(s: string): (r: Option<int>)
  {
    var t := Strip(s);
    if |t| > 0 && (t[0] == '+' || t[0] == '-') then
      var body := t[1..];
      if IsDigitRun(body) then
        var v: int := DigitsValue(DropUnderscores(body));
        Some(if t[0] == '-' then -v else v)
      else None
    else if IsDigitRun(t) then Some(DigitsValue(DropUnderscores(t)))
    else None
  }

  /** Text that neither starts nor ends with white space is its own strip. */
  lemma StripUnspaced(s: string)
    requires |s| > 0 && !IsSpace(s[0]) && !IsSpace(s[|s| - 1])
    ensures Strip(s) == s
  {
    assert TrimLeft(s) == s;
    assert TrimRight(s) == s;
  }

  /** Text made only of digits reads as the number they spell. */
  lemma ParsePlainDigits(s: string)
    requires |s| > 0 && forall i :: 0 <= i < |s| ==> IsDigit(s[i])
    ensures ParseInt(s) == Some(DigitsValue(s))
  {
    StripUnspaced(s);
    assert IsDigitRun(s);
    DropUnderscoresPlain(s);
    assert s[0] != '+' && s[0] != '-';
    assert ParseInt(s) == Some(DigitsValue(DropUnderscores(s)));
  }

  /** Text whose stripped form starts with neither a sign nor a digit does not read as a number. */
  lemma ParseRejectsLeading(s: string)
    requires |Strip(s)| > 0
    requires !IsDigit(Strip(s)[0]) && Strip(s)[0] != '+' && Strip(s)[0] != '-'
    ensures ParseInt(s) == None
  {
  }

  /** A leading zero does not change the value of a digit string. */
  lemma {:induction false} DigitsLeadingZero(s: string)
    requires forall i :: 0 <= i < |s| ==> IsDigit(s[i])
    ensures forall i :: 0 <= i < |['0'] + s| ==> IsDigit((['0'] + s)[i])
    ensures DigitsValue(['0'] + s) == DigitsValue(s)
  {
    var z := ['0'] + s;
    assert forall i :: 0 <= i < |z| ==> IsDigit(z[i]);
    if |s| > 0 {
      DigitsLeadingZero(s[..|s| - 1]);
      assert z[..|z| - 1] == ['0'] + s[..|s| - 1];
    }
  }

  /** `int()` looks only at the stripped text. */
  lemma ParseIgnoresSpace(s: string)
    ensures ParseInt(s) == ParseInt(Strip(s))
  {
    StripIdempotent(s);
  }

  /** One blank on each side of unspaced text is stripped away again. */
  lemma StripSurrounded(s: string)
    requires |s| > 0 && !IsSpace(s[0]) && !IsSpace(s[|s| - 1])
    ensures Strip([' '] + s + [' ']) == s
  {
    var padded := [' '] + s + [' '];
    assert padded[1..] == s + [' '];
    assert TrimLeft(padded) == TrimLeft(s + [' ']);
    assert (s + [' '])[0] == s[0];
    assert TrimLeft(s + [' ']) == s + [' '];
    assert (s + [' '])[..|s|] == s;
    assert TrimRight(s + [' ']) == TrimRight(s);
    assert TrimRight(s) == s;
  }

  /** A rendered natural number parses back to itself. */
  lemma ParseNatToString(n: nat)
    ensures ParseInt(NatToString(n)) == Some(n)
  {
    var s := NatToString(n);
    assert IsDigit(s[0]) && IsDigit(s[|s| - 1]);
    StripUnspaced(s);
    assert IsDigitRun(s);
    DropUnderscoresPlain(s);
    NatToStringRoundTrip(n);
  }
  /** A rendered natural number behind a leading zero still parses back to itself. */
  lemma ParsePaddedNat(n: nat)
    ensures ParseInt(['0'] + NatToString(n)) == Some(n)
  {
    DigitsLeadingZero(NatToString(n));
    ParsePlainDigits(['0'] + NatToString(n));
    NatToStringRoundTrip(n);
  }

  /** A rendered natural number with one blank on each side still parses back to itself. */
  lemma ParseSpacedNat(n: nat)
    ensures ParseInt([' '] + NatToString(n) + [' ']) == Some(n)
  {
    var s := NatToString(n);
    assert IsDigit(s[0]) && IsDigit(s[|s| - 1]);
    assert Strip([' '] + s + [' ']) == s by { StripSurrounded(s); }
    ParseIgnoresSpace([' '] + s + [' ']);
    ParseNatToString(n);
  }

}
