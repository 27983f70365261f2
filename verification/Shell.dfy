/** A fragment of the POSIX.1-2017 Shell Command Language: simple commands made of plain and
    double-quoted words (section 2.2.3), output redirections, and here-documents with an unquoted
    delimiter (section 2.7.4). Text outside the fragment is not given a meaning. */
module Shell {
  import opened Common
  import opened Quoting

  // ---- Words and operators

  datatype Token = Word(text: string, quoted: bool) | Great | DGreat | DLess

  predicate IsBlank(c: char) { c == ' ' || c == '\t' }

  /** Characters with no special meaning anywhere in an unquoted word. */
  predicate IsPlain(c: char) {
    || 'a' <= c <= 'z' || 'A' <= c <= 'Z' || '0' <= c <= '9'
    || c == '_' || c == '-' || c == '.' || c == '/' || c == ':' || c == ',' || c == '+' || c == '@' || c == '%'
  }

  predicate PlainWord(w: string) {
    w != [] && forall c :: c in w ==> IsPlain(c)
  }

  datatype WordRead = BadWord | WordRead(text: string, quoted: bool, rest: string)

  /** A word runs to the next blank and may mix plain and quoted parts. */
  function ReadWord(s: string): (r: WordRead)
    ensures r.WordRead? ==> |r.rest| <= |s|
    ensures r.WordRead? && s != [] && !IsBlank(s[0]) ==> |r.rest| < |s|
    decreases |s|
  {
    if s == [] || IsBlank(s[0]) then WordRead([], false, s)
    else if s[0] == '"' then
      match ReadQuoted(s[1..])
      case BadQuoted => BadWord
      case QuotedRead(w, after) =>
        match ReadWord(after)
        case BadWord => BadWord
        case WordRead(t, _, rest) => WordRead(w + t, true, rest)
    else if IsPlain(s[0]) then
      match ReadWord(s[1..])
      case BadWord => BadWord
      case WordRead(t, q, rest) => WordRead([s[0]] + t, q, rest)
    else BadWord
  }

  function PrependToken(t: Token, o: Option<seq<Token>>): Option<seq<Token>> {
    if o.None? then None else Some([t] + o.value)
  }

  function Lex(s: string): Option<seq<Token>>
    decreases |s|
  {
    if s == [] then Some([])
    else if IsBlank(s[0]) then Lex(s[1..])
    else if s[0] == '>' then
      if |s| > 1 && s[1] == '>' then PrependToken(DGreat, Lex(s[2..])) else PrependToken(Great, Lex(s[1..]))
    else if s[0] == '<' then
      if |s| > 2 && s[1] == '<' && IsBlank(s[2]) then PrependToken(DLess, Lex(s[2..])) else None
    else
      match ReadWord(s)
      case BadWord => None
      case WordRead(t, q, rest) => PrependToken(Word(t, q), Lex(rest))
  }

  // ---- Command lines

  datatype Redirection = Redirection(path: string, append: bool)

  /** A command line whose here-document, if any, is still to be read. */
  datatype Line = Line(words: seq<string>, out: Option<Redirection>, here: Option<string>)

  function Gather(ts: seq<Token>): Option<Line>
    decreases |ts|
  {
    if ts == [] then Some(Line([], None, None))
    else if ts[0].Word? then
      match Gather(ts[1..])
      case None => None
      case Some(l) => Some(l.(words := [ts[0].text] + l.words))
    else if |ts| == 1 || !ts[1].Word? then None
    else
      match Gather(ts[2..])
      case None => None
      case Some(l) =>
        if ts[0].DLess? then
          if l.here.None? && !ts[1].quoted then Some(l.(here := Some(ts[1].text))) else None
        else if l.out.None? then Some(l.(out := Some(Redirection(ts[1].text, ts[0].DGreat?))))
        else None
  }

  predicate Reserved(w: string) {
    w in {"if", "then", "else", "elif", "fi", "do", "done", "case", "esac", "while", "until", "for", "in"}
  }

  function ParseLine(s: string): Option<Line> {
    match Lex(s)
    case None => None
    case Some(ts) =>
      if ts == [] || !ts[0].Word? || (!ts[0].quoted && Reserved(ts[0].text)) then None else Gather(ts)
  }

  // ---- Here-documents

  /** One line of a here-document: as written with continuations removed, which is compared with the
      delimiter; and after backslash processing, which goes into the document. */
  datatype HereLine = BadLine | HereLine(raw: string, text: string, rest: string)

  function ReadHereLine(s: string): (r: HereLine)
    ensures r.HereLine? ==> |r.rest| <= |s|
    ensures r.HereLine? && s != [] ==> |r.rest| < |s|
    decreases |s|
  {
    if s == [] then HereLine([], [], [])
    else if s[0] == '\n' then HereLine([], [], s[1..])
    else if s[0] == '$' || s[0] == '`' then BadLine
    else if s[0] == '\\' && |s| > 1 && s[1] == '\n' then ReadHereLine(s[2..])
    else if s[0] == '\\' && |s| > 1 && s[1] in {'\\', '$', '`'} then
      match ReadHereLine(s[2..])
      case BadLine => BadLine
      case HereLine(raw, text, rest) => HereLine(s[..2] + raw, [s[1]] + text, rest)
    else
      match ReadHereLine(s[1..])
      case BadLine => BadLine
      case HereLine(raw, text, rest) => HereLine([s[0]] + raw, [s[0]] + text, rest)
  }

  datatype Document = Unfinished | Document(body: string, rest: string)

  function ReadHere(s: string, delimiter: string): (r: Document)
    ensures r.Document? ==> |r.rest| <= |s|
    decreases |s|
  {
    if s == [] then Unfinished
    else
      match ReadHereLine(s)
      case BadLine => Unfinished
      case HereLine(raw, text, rest) =>
        if raw == delimiter then Document([], rest)
        else
          match ReadHere(rest, delimiter)
          case Unfinished => Unfinished
          case Document(body, after) => Document(text + ['\n'] + body, after)
  }

  // ---- Scripts

  datatype Command = Command(words: seq<string>, out: Option<Redirection>, input: Option<string>)

  function LineLength(s: string): (n: nat)
    ensures n <= |s|
  {
    if s == [] || s[0] == '\n' then 0 else 1 + LineLength(s[1..])
  }

  /** What follows the first line and its newline. */
  function NextLines(s: string): (r: string)
    ensures s != [] ==> |r| < |s|
  {
    if LineLength(s) == |s| then [] else s[LineLength(s) + 1..]
  }

  /** Empty lines and comment lines. */
  predicate Skipped(line: string) {
    line == [] || line[0] == '#'
  }

  function After(cs: seq<Command>, o: Option<seq<Command>>): Option<seq<Command>> {
    if o.None? then None else Some(cs + o.value)
  }

  /** The commands of a script in the order the shell reads them. */
  function Parse(s: string): Option<seq<Command>>
    decreases |s|
  {
    if s == [] then Some([])
    else
      var line := s[..LineLength(s)];
      if Skipped(line) then Parse(NextLines(s))
      else
        match ParseLine(line)
        case None => None
        case Some(Line(words, out, here)) =>
          if here.None? then After([Command(words, out, None)], Parse(NextLines(s)))
          else
            match ReadHere(NextLines(s), here.value)
            case Unfinished => None
            case Document(body, rest) => After([Command(words, out, Some(body))], Parse(rest))
  }

  // ---- Here-documents: what they preserve

  predicate Special(c: char) { c == '\\' || c == '$' || c == '`' || c == '\n' }

  /** No character is expanded and no backslash is consumed. */
  ghost predicate CharsSafe(t: string) {
    && (forall c :: c in t ==> c != '$' && c != '`')
    && forall i :: 0 <= i < |t| - 1 && t[i] == '\\' ==> !Special(t[i + 1])
  }

  const END := "END"

  /** A line that reads END starts at position i. */
  ghost predicate EndLineAt(t: string, i: nat) {
    && i + 3 < |t| && (i == 0 || t[i - 1] == '\n')
    && t[i] == 'E' && t[i + 1] == 'N' && t[i + 2] == 'D' && t[i + 3] == '\n'
  }

  ghost predicate NoEndLine(t: string) {
    forall i: nat :: !EndLineAt(t, i)
  }

  ghost predicate NewlineTerminated(t: string) {
    t == [] || t[|t| - 1] == '\n'
  }

  /** A text that survives being a here-document ended by END. */
  ghost predicate HereSafe(t: string) {
    CharsSafe(t) && NoEndLine(t)
  }

  lemma CharsSafeCons(c: char, t: string)
    ensures CharsSafe([c] + t) <==>
            c != '$' && c != '`' && (c == '\\' && t != [] ==> !Special(t[0])) && CharsSafe(t)
  {
    var ct := [c] + t;
    assert forall i :: 0 <= i < |t| ==> ct[i + 1] == t[i];
    if CharsSafe(ct) {
      assert ct[0] in ct && forall x :: x in t ==> x in ct;
      assert c == '\\' && t != [] ==> !Special(ct[0 + 1]);
      forall i | 0 <= i < |t| - 1 && t[i] == '\\' ensures !Special(t[i + 1]) {
        assert ct[i + 1] == '\\';
      }
    }
    if CharsSafe(t) && c != '$' && c != '`' && (c == '\\' && t != [] ==> !Special(t[0])) {
      assert forall x :: x in ct ==> x == c || x in t;
      forall i | 0 <= i < |ct| - 1 && ct[i] == '\\' ensures !Special(ct[i + 1]) {
        if i > 0 { assert t[i - 1] == '\\'; }
      }
    }
  }

  lemma {:induction false} CharsSafeLine(l: string, t: string)
    ensures CharsSafe(l + ['\n'] + t) <==> CharsSafe(l + ['\n']) && CharsSafe(t)
  {
    if l == [] {
      CharsSafeCons('\n', t);
      CharsSafeCons('\n', []);
      assert l + ['\n'] + t == ['\n'] + t && l + ['\n'] == ['\n'] + [];
    } else {
      CharsSafeLine(l[1..], t);
      CharsSafeCons(l[0], l[1..] + ['\n'] + t);
      CharsSafeCons(l[0], l[1..] + ['\n']);
      assert l + ['\n'] + t == [l[0]] + (l[1..] + ['\n'] + t);
      assert l + ['\n'] == [l[0]] + (l[1..] + ['\n']);
      assert (l[1..] + ['\n'] + t)[0] == (l[1..] + ['\n'])[0];
    }
  }

  /** Splitting off the first line of a text. */
  lemma NoEndLineSplit(l: string, t: string)
    requires '\n' !in l
    ensures NoEndLine(l + ['\n'] + t) <==> l != END && NoEndLine(t)
  {
    var u := l + ['\n'] + t;
    var n := |l| + 1;
    assert forall i :: 0 <= i < |t| ==> u[i + n] == t[i];
    assert forall i :: 0 <= i < |l| ==> u[i] == l[i] && l[i] != '\n';
    if l == END {
      assert EndLineAt(u, 0);
    }
    if i: nat :| EndLineAt(t, i) {
      assert EndLineAt(u, i + n);
    }
    if i: nat :| EndLineAt(u, i) {
      if i == 0 {
        assert l == END;
      } else {
        assert i >= n;
        assert EndLineAt(t, i - n);
      }
    }
  }

  lemma HereSafeSplit(l: string, t: string)
    requires '\n' !in l
    ensures HereSafe(l + ['\n'] + t) <==> CharsSafe(l + ['\n']) && l != END && HereSafe(t)
  {
    CharsSafeLine(l, t);
    NoEndLineSplit(l, t);
  }

  /** A safe line is read as it stands. */
  lemma {:induction false} SafeLineReads(l: string, t: string)
    requires '\n' !in l && CharsSafe(l + ['\n'])
    ensures ReadHereLine(l + ['\n'] + t) == HereLine(l, l, t)
  {
    var s := l + ['\n'] + t;
    if l == [] {
      assert s == ['\n'] + t;
    } else {
      assert s[1..] == l[1..] + ['\n'] + t;
      CharsSafeCons(l[0], l[1..] + ['\n']);
      assert l + ['\n'] == [l[0]] + (l[1..] + ['\n']);
      SafeLineReads(l[1..], t);
      assert s[1] == (l[1..] + ['\n'])[0];
      assert l == [l[0]] + l[1..];
    }
  }

  /** A newline-terminated text is its first line and the rest. */
  lemma {:induction false} FirstLine(t: string) returns (l: string, u: string)
    requires t != [] && NewlineTerminated(t)
    ensures t == l + ['\n'] + u && '\n' !in l && NewlineTerminated(u) && |u| < |t|
  {
    if t[0] == '\n' {
      l, u := [], t[1..];
    } else {
      assert t[1..] != [] && t[1..][|t| - 2] == t[|t| - 1];
      l, u := FirstLine(t[1..]);
      assert t == [t[0]] + t[1..] == [t[0]] + l + ['\n'] + u;
      l := [t[0]] + l;
    }
  }

  lemma {:induction false} SafeDocumentReads(t: string, rest: string)
    requires NewlineTerminated(t) && HereSafe(t)
    ensures ReadHere(t + END + ['\n'] + rest, END) == Document(t, rest)
    decreases |t|
  {
    if t == [] {
      assert t + END + ['\n'] + rest == END + ['\n'] + rest;
      assert CharsSafe(END + ['\n']);
      SafeLineReads(END, rest);
    } else {
      var l, u := FirstLine(t);
      HereSafeSplit(l, u);
      assert t + END + ['\n'] + rest == l + ['\n'] + (u + END + ['\n'] + rest);
      SafeLineReads(l, u + END + ['\n'] + rest);
      SafeDocumentReads(u, rest);
    }
  }

  /** What reading one line spends: never less than it yields, in either form; and when it spends no
      more, the input is the line itself. */
  ghost predicate LineFair(s: string, raw: string, text: string, rest: string) {
    && NewlineTerminated(rest)
    && |s| >= |raw| + 1 + |rest| && |s| >= |text| + 1 + |rest|
    && (|s| == |raw| + 1 + |rest| ==> s == raw + ['\n'] + rest && '\n' !in raw)
    && (|s| == |text| + 1 + |rest| ==> raw == text && CharsSafe(text + ['\n']))
  }

  lemma LineFairCons(c: char, s: string, raw: string, text: string, rest: string)
    requires LineFair(s, raw, text, rest) && c != '\n' && c != '$' && c != '`'
    requires s != [] && (c == '\\' ==> !Special(s[0]))
    ensures LineFair([c] + s, [c] + raw, [c] + text, rest)
  {
    var cs := [c] + s;
    if |cs| == |[c] + raw| + 1 + |rest| {
      assert [c] + raw + ['\n'] + rest == [c] + (raw + ['\n'] + rest);
    }
    if |cs| == |[c] + text| + 1 + |rest| {
      assert s[0] == (text + ['\n'])[0];
      CharsSafeCons(c, text + ['\n']);
      assert [c] + text + ['\n'] == [c] + (text + ['\n']);
    }
  }

  lemma LineFairEscape(c: char, s: string, raw: string, text: string, rest: string)
    requires LineFair(s, raw, text, rest) && c != '\n'
    ensures LineFair(['\\', c] + s, ['\\', c] + raw, [c] + text, rest)
  {
    if |['\\', c] + s| == |['\\', c] + raw| + 1 + |rest| {
      assert ['\\', c] + raw + ['\n'] + rest == ['\\', c] + (raw + ['\n'] + rest);
    }
  }

  lemma {:induction false} LineCost(s: string)
    requires s != [] && NewlineTerminated(s) && ReadHereLine(s).HereLine?
    ensures LineFair(s, ReadHereLine(s).raw, ReadHereLine(s).text, ReadHereLine(s).rest)
    decreases |s|
  {
    var r := ReadHereLine(s);
    if s[0] == '\n' {
      assert s == [] + ['\n'] + r.rest;
      assert [] + ['\n'] == ['\n'];
    } else if s[0] == '\\' && |s| > 1 && s[1] in {'\\', '$', '`', '\n'} {
      if s[2..] != [] {
        assert s[2..][|s| - 3] == s[|s| - 1];
        LineCost(s[2..]);
        if s[1] != '\n' {
          var r' := ReadHereLine(s[2..]);
          LineFairEscape(s[1], s[2..], r'.raw, r'.text, r'.rest);
          assert s[..2] == ['\\', s[1]] && s == ['\\', s[1]] + s[2..];
        }
      }
    } else {
      assert s[1..] != [] && s[1..][|s| - 2] == s[|s| - 1];
      LineCost(s[1..]);
      var r' := ReadHereLine(s[1..]);
      LineFairCons(s[0], s[1..], r'.raw, r'.text, r'.rest);
      assert s == [s[0]] + s[1..];
    }
  }

  lemma {:induction false} DocumentCost(s: string)
    requires NewlineTerminated(s) && ReadHere(s, END).Document?
    ensures var d := ReadHere(s, END);
            && NewlineTerminated(d.body)
            && |s| >= |d.body| + 4 + |d.rest|
            && (|s| == |d.body| + 4 + |d.rest| ==> s == d.body + END + ['\n'] + d.rest && HereSafe(d.body))
    decreases |s|
  {
    var r, d := ReadHereLine(s), ReadHere(s, END);
    LineCost(s);
    if r.raw == END {
      assert |END| == 3;
      if |s| == 4 + |d.rest| {
        assert s == END + ['\n'] + r.rest == [] + END + ['\n'] + r.rest;
      }
    } else {
      DocumentCost(r.rest);
      var d' := ReadHere(r.rest, END);
      assert |d.body| == |r.text| + 1 + |d'.body|;
      if |s| == |d.body| + 4 + |d.rest| {
        DocumentExactStep(s, r.text, d'.body, d'.rest);
      }
    }
  }

  lemma DocumentExactStep(s: string, l: string, body: string, rest: string)
    requires '\n' !in l && l != END && CharsSafe(l + ['\n']) && HereSafe(body)
    requires s == l + ['\n'] + (body + END + ['\n'] + rest)
    ensures s == l + ['\n'] + body + END + ['\n'] + rest && HereSafe(l + ['\n'] + body)
  {
    HereSafeSplit(l, body);
  }

  /** A newline-terminated text put in a here-document comes out unchanged, with what follows the
      delimiter left for the next command, exactly when it is safe. */
  lemma HereDocumentExact(t: string, rest: string)
    requires NewlineTerminated(t) && NewlineTerminated(rest)
    ensures ReadHere(t + END + ['\n'] + rest, END) == Document(t, rest) <==> HereSafe(t)
  {
    var s := t + END + ['\n'] + rest;
    if HereSafe(t) {
      SafeDocumentReads(t, rest);
    }
    if ReadHere(s, END) == Document(t, rest) {
      assert s[|s| - 1] == '\n';
      DocumentCost(s);
    }
  }
}
