/** Words in quotes: what Go's %q prints, and what a POSIX shell reads back
    (section 2.2.3 of the Shell Command Language of POSIX.1-2017). */
module Quoting {
  import opened Common

  /** strconv.IsPrint on Latin-1; every code point above U+00FF counts as printable here. */
  predicate IsPrint(c: char) {
    || ' ' <= c <= '~'
    || (c >= '\U{A1}' && c != '\U{AD}')
  }

  function HexDigit(n: nat): (c: char)
    requires n < 16
    ensures '0' <= c <= '9' || 'a' <= c <= 'f'
  {
    "0123456789abcdef"[n]
  }

  /** What %q prints for one character. */
  function EscapeChar(c: char): string {
    if c == '"' || c == '\\' then ['\\', c]
    else if IsPrint(c) then [c]
    else if c == '\U{07}' then "\\a"
    else if c == '\U{08}' then "\\b"
    else if c == '\U{0C}' then "\\f"
    else if c == '\n' then "\\n"
    else if c == '\r' then "\\r"
    else if c == '\t' then "\\t"
    else if c == '\U{0B}' then "\\v"
    else if c < ' ' then "\\x" + [HexDigit(c as int / 16), HexDigit(c as int % 16)]
    else "\\u00" + [HexDigit(c as int / 16), HexDigit(c as int % 16)]
  }

  function Escape(s: string): string {
    if s == [] then [] else EscapeChar(s[0]) + Escape(s[1..])
  }

  function Quote(s: string): string {
    ['"'] + Escape(s) + ['"']
  }

  /** Reading inside double quotes, up to and past the closing quote. An unescaped `$` or backquote
      starts an expansion, which is outside the fragment. */
  datatype QuotedRead = BadQuoted | QuotedRead(word: string, rest: string)

  function ReadQuoted(s: string): (r: QuotedRead)
    ensures r.QuotedRead? ==> |r.rest| < |s|
  {
    if s == [] then BadQuoted
    else if s[0] == '"' then QuotedRead([], s[1..])
    else if s[0] == '$' || s[0] == '`' then BadQuoted
    else if s[0] == '\\' && |s| > 1 && s[1] == '\n' then ReadQuoted(s[2..])
    else if s[0] == '\\' && |s| > 1 && s[1] in {'$', '`', '"', '\\'} then Follow(s[1], ReadQuoted(s[2..]))
    else Follow(s[0], ReadQuoted(s[1..]))
  }

  function Follow(c: char, r: QuotedRead): QuotedRead {
    match r
    case BadQuoted => BadQuoted
    case QuotedRead(word, rest) => QuotedRead([c] + word, rest)
  }

  /** The words that survive quoting and reading. */
  predicate Quotable(w: string) {
    forall c :: c in w ==> IsPrint(c) && c != '$' && c != '`'
  }

  /** No character of the word starts an expansion. */
  predicate NoExpansion(w: string) {
    forall c :: c in w ==> c != '$' && c != '`'
  }

  lemma NoExpansionCons(c: char, t: string)
    ensures NoExpansion([c] + t) <==> c != '$' && c != '`' && NoExpansion(t)
  {
    assert c in [c] + t && forall x :: x in t ==> x in [c] + t;
  }

  /** What a shell makes of a quoted word: the escapes of unprintable characters stay as they are. */
  function Garbled(w: string): string {
    if w == [] then [] else (if IsPrint(w[0]) then [w[0]] else EscapeChar(w[0])) + Garbled(w[1..])
  }

  function FollowAll(e: string, r: QuotedRead): QuotedRead {
    match r
    case BadQuoted => BadQuoted
    case QuotedRead(word, rest) => QuotedRead(e + word, rest)
  }

  lemma {:induction false} ReadOrdinary(e: string, t: string)
    requires forall c :: c in e ==> c !in {'"', '\\', '$', '`'}
    ensures ReadQuoted(e + t) == FollowAll(e, ReadQuoted(t))
  {
    if e == [] {
      assert e + t == t;
      assert ReadQuoted(t).QuotedRead? ==> [] + ReadQuoted(t).word == ReadQuoted(t).word;
    } else {
      assert e[0] in e && forall c :: c in e[1..] ==> c in e;
      assert (e + t)[1..] == e[1..] + t;
      ReadOrdinary(e[1..], t);
      assert ReadQuoted(t).QuotedRead? ==> [e[0]] + (e[1..] + ReadQuoted(t).word) == e + ReadQuoted(t).word;
    }
  }

  lemma EscapeShape(c: char)
    requires !IsPrint(c)
    ensures |EscapeChar(c)| >= 2 && EscapeChar(c)[0] == '\\'
    ensures forall i :: 1 <= i < |EscapeChar(c)| ==> EscapeChar(c)[i] !in {'$', '`', '"', '\\', '\n'}
  {
    hide HexDigit;
  }

  lemma KeepsBackslash(s: string)
    requires |s| > 1 && s[0] == '\\' && s[1] !in {'$', '`', '"', '\\', '\n'}
    ensures ReadQuoted(s) == Follow('\\', ReadQuoted(s[1..]))
  {}

  /** A backslash before an ordinary character stays. */
  lemma ReadBackslash(e: string, t: string)
    requires e != [] && e[0] != '\n' && forall c :: c in e ==> c !in {'"', '\\', '$', '`'}
    ensures ReadQuoted((['\\'] + e) + t) == FollowAll(['\\'] + e, ReadQuoted(t))
  {
    hide ReadQuoted;
    var s := (['\\'] + e) + t;
    assert s[1..] == e + t && s[1] == e[0] && e[0] in e;
    KeepsBackslash(s);
    ReadOrdinary(e, t);
    var r := ReadQuoted(t);
    assert r.QuotedRead? ==> ['\\'] + (e + r.word) == (['\\'] + e) + r.word;
  }

  lemma UnprintableReads(c: char, t: string)
    requires !IsPrint(c)
    ensures |EscapeChar(c)| >= 2
    ensures ReadQuoted(EscapeChar(c) + t) == FollowAll(EscapeChar(c), ReadQuoted(t))
  {
    EscapeShape(c);
    hide *;
    var e := EscapeChar(c);
    assert e == ['\\'] + e[1..];
    forall x | x in e[1..] ensures x !in {'"', '\\', '$', '`'} {
      var i :| 1 <= i < |e| && e[i] == x;
    }
    ReadBackslash(e[1..], t);
  }

  lemma PrintableReads(c: char, t: string)
    requires IsPrint(c)
    ensures c != '$' && c != '`' ==> ReadQuoted(EscapeChar(c) + t) == FollowAll([c], ReadQuoted(t))
    ensures c == '$' || c == '`' ==> ReadQuoted(EscapeChar(c) + t) == BadQuoted
  {
    var e := EscapeChar(c);
    assert (e + t)[|e|..] == t;
  }

  /** Reading a quoted word always stops at its closing quote, unless it runs into an expansion. */
  lemma {:induction false} QuotedReads(w: string, rest: string)
    ensures ReadQuoted(Escape(w) + ['"'] + rest) ==
            if NoExpansion(w) then QuotedRead(Garbled(w), rest) else BadQuoted
  {
    if w == [] {
      assert Escape(w) + ['"'] + rest == ['"'] + rest;
    } else {
      var c, tail := w[0], Escape(w[1..]) + ['"'] + rest;
      QuotedReads(w[1..], rest);
      assert Escape(w) + ['"'] + rest == EscapeChar(c) + tail;
      if IsPrint(c) {
        PrintableReads(c, tail);
      } else {
        UnprintableReads(c, tail);
      }
      assert w == [c] + w[1..];
      NoExpansionCons(c, w[1..]);
    }
  }

  lemma {:induction false} GarbledExact(w: string)
    ensures |Garbled(w)| >= |w|
    ensures Garbled(w) == w <==> forall c :: c in w ==> IsPrint(c)
    ensures |Garbled(w)| == |w| ==> forall c :: c in w ==> IsPrint(c)
  {
    if w != [] {
      GarbledExact(w[1..]);
      assert w == [w[0]] + w[1..];
      if !IsPrint(w[0]) {
        UnprintableReads(w[0], []);
        assert w[0] in w;
      }
    }
  }

  /** Quoting a word and reading it back gives the word exactly when it is printable and free of
      `$` and backquotes; whatever follows the closing quote is left alone. */
  lemma QuoteRoundTrip(w: string, rest: string)
    ensures ReadQuoted(Escape(w) + ['"'] + rest) == QuotedRead(w, rest) <==> Quotable(w)
    ensures Quotable(w) <==>
            forall c :: c in w ==> c !in {'$', '`', '\U{AD}'} && (' ' <= c <= '~' || c >= '\U{A1}')
  {
    QuotedReads(w, rest);
    GarbledExact(w);
  }

  lemma {:induction false} EscapeHasNoNewline(w: string)
    ensures '\n' !in Escape(w)
  {
    if w != [] {
      EscapeHasNoNewline(w[1..]);
    }
  }

  // ---- What %q prints is a Go string literal

  function HexValue(c: char): nat {
    if '0' <= c <= '9' then (c as int) - ('0' as int)
    else if 'a' <= c <= 'f' then (c as int) - ('a' as int) + 10
    else 0
  }

  function Prepend(c: char, o: Option<string>): Option<string> {
    if o.None? then None else Some([c] + o.value)
  }

  /** Reading the inside of a Go string literal, as far as %q makes use of its escapes. */
  function Unescape(s: string): Option<string> {
    if s == [] then Some([])
    else if s[0] != '\\' then Prepend(s[0], Unescape(s[1..]))
    else if |s| < 2 then None
    else
      match s[1]
      case '"' => Prepend('"', Unescape(s[2..]))
      case '\\' => Prepend('\\', Unescape(s[2..]))
      case 'a' => Prepend('\U{07}', Unescape(s[2..]))
      case 'b' => Prepend('\U{08}', Unescape(s[2..]))
      case 't' => Prepend('\U{09}', Unescape(s[2..]))
      case 'n' => Prepend('\U{0A}', Unescape(s[2..]))
      case 'v' => Prepend('\U{0B}', Unescape(s[2..]))
      case 'f' => Prepend('\U{0C}', Unescape(s[2..]))
      case 'r' => Prepend('\U{0D}', Unescape(s[2..]))
      case 'x' =>
        if |s| < 4 then None else Prepend((HexValue(s[2]) * 16 + HexValue(s[3])) as char, Unescape(s[4..]))
      case 'u' =>
        if |s| < 6 || s[2] != '0' || s[3] != '0' then None
        else Prepend((HexValue(s[4]) * 16 + HexValue(s[5])) as char, Unescape(s[6..]))
      case _ => None
  }

  lemma HexDigits(n: nat)
    requires n < 16
    ensures HexValue(HexDigit(n)) == n
  {}

  lemma UnescapeHex(c: char, prefix: string, t: string)
    requires c < '\U{100}' && (prefix == "\\x" || prefix == "\\u00")
    ensures Unescape(prefix + [HexDigit(c as int / 16), HexDigit(c as int % 16)] + t) == Prepend(c, Unescape(t))
  {
    hide HexDigit, HexValue;
    HexDigits(c as int / 16);
    HexDigits(c as int % 16);
    var s := prefix + [HexDigit(c as int / 16), HexDigit(c as int % 16)] + t;
    assert s[|prefix| + 2..] == t;
  }

  lemma UnescapeChar(c: char, t: string)
    ensures Unescape(EscapeChar(c) + t) == Prepend(c, Unescape(t))
  {
    var e := EscapeChar(c);
    if |e| <= 2 {
      assert (e + t)[|e|..] == t;
    } else if c < ' ' {
      UnescapeHex(c, "\\x", t);
    } else {
      UnescapeHex(c, "\\u00", t);
    }
  }

  /** Every word is what Go reads back from its quoted form. */
  lemma {:induction false} QuoteIsLiteral(w: string)
    ensures Unescape(Escape(w)) == Some(w)
  {
    if w != [] {
      QuoteIsLiteral(w[1..]);
      UnescapeChar(w[0], Escape(w[1..]));
      assert w == [w[0]] + w[1..];
    }
  }
}
