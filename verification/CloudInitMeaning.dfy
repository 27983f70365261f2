/** Reading a generated script back: it holds exactly the actions' commands, in document order. */
module CloudInitMeaning {
  import opened Common
  import opened Quoting
  import opened Paths
  import opened Shell
  import opened CloudInit

  // ---- What the actions ask for

  function FileCommands(x: FixedFile): seq<Command> {
    [Command(["mkdir", "-p", Dir(x.path)], None, None)]
    + [Command(["cat"], Some(Redirection(x.path, x.append)), Some(Body(x.content)))]
    + (if x.mode != DEFAULT_MODE then [Command(["chmod", x.mode, x.path], None, None)] else [])
    + (if x.owner != DEFAULT_OWNER then [Command(["chown", x.owner, x.path], None, None)] else [])
  }

  function FilesCommands(files: seq<File>, d: Decoders): seq<Command> {
    if files == [] then []
    else
      match Fix(files[0], d)
      case None => []
      case Some(x) => FileCommands(x) + FilesCommands(files[1..], d)
  }

  function CmdCommand(c: Cmd): Command { Command(Words(Hacked(c)), None, None) }

  function CmdsCommands(cmds: seq<Cmd>): seq<Command> {
    if cmds == [] then [] else [CmdCommand(cmds[0])] + CmdsCommands(cmds[1..])
  }

  function ActionCommands(a: Action, d: Decoders): seq<Command> {
    match a
    case WriteFiles(files) => FilesCommands(files, d)
    case RunCmd(cmds) => CmdsCommands(cmds)
    case Unknown(_, _) => []
  }

  function SetOption(option: string): Command { Command(["set", "-o", option], None, None) }

  function HeaderCommands(): seq<Command> {
    [SetOption("errexit"), SetOption("nounset"), SetOption("pipefail")]
  }

  // ---- When printing is faithful

  /** The path can be quoted, the content can be a here-document, and the two fields that are printed
      without quotes need none. */
  ghost predicate FileSafe(x: FixedFile) {
    Quotable(x.path) && HereSafe(Body(x.content)) && PlainWord(x.mode) && PlainWord(x.owner)
  }

  ghost predicate CmdSafe(c: Cmd) {
    forall w :: w in Words(c) ==> Quotable(w)
  }

  ghost predicate ActionSafe(a: Action, d: Decoders) {
    match a
    case WriteFiles(files) => forall f :: f in files ==> Fix(f, d).Some? && FileSafe(Fix(f, d).value)
    case RunCmd(cmds) => forall c :: c in cmds ==> CmdSafe(c)
    case Unknown(_, _) => false
  }

  function ActionsCommands(actions: seq<Action>, d: Decoders): seq<Command> {
    if actions == [] then [] else ActionCommands(actions[0], d) + ActionsCommands(actions[1..], d)
  }

  // ---- Lexing printed words

  lemma LexBlank(s: string)
    ensures Lex(" " + s) == Lex(s)
  {
    assert (" " + s)[1..] == s;
  }

  lemma {:induction false} ReadPlain(w: string, t: string)
    requires forall c :: c in w ==> IsPlain(c)
    requires t == [] || IsBlank(t[0])
    ensures ReadWord(w + t) == WordRead(w, false, t)
  {
    if w == [] {
      assert w + t == t;
    } else {
      assert w[0] in w && IsPlain(w[0]);
      assert (w + t)[1..] == w[1..] + t;
      ReadPlain(w[1..], t);
      assert w == [w[0]] + w[1..];
    }
  }

  lemma LexPlain(w: string, t: string)
    requires PlainWord(w) && (t == [] || IsBlank(t[0]))
    ensures Lex(w + t) == PrependToken(Word(w, false), Lex(t))
  {
    ReadPlain(w, t);
    assert w[0] in w && (w + t)[0] == w[0];
  }

  lemma ReadQuotedWord(w: string, t: string)
    requires t == [] || IsBlank(t[0])
    ensures ReadWord(Quote(w) + t) == if NoExpansion(w) then WordRead(Garbled(w), true, t) else BadWord
  {
    QuotedReads(w, t);
    hide ReadQuoted, Garbled, Escape, NoExpansion;
    var s := Quote(w) + t;
    assert s[1..] == Escape(w) + ['"'] + t;
    assert ReadWord(t) == WordRead([], false, t);
    assert Garbled(w) + [] == Garbled(w);
  }

  lemma LexQuotedAny(w: string, t: string)
    requires t == [] || IsBlank(t[0])
    ensures Lex(Quote(w) + t) == if NoExpansion(w) then PrependToken(Word(Garbled(w), true), Lex(t)) else None
  {
    hide ReadWord, Garbled, Escape, NoExpansion;
    ReadQuotedWord(w, t);
    assert (Quote(w) + t)[0] == '"';
  }

  lemma LexQuoted(w: string, t: string)
    requires Quotable(w) && (t == [] || IsBlank(t[0]))
    ensures Lex(Quote(w) + t) == PrependToken(Word(w, true), Lex(t))
  {
    hide Lex, Quote;
    LexQuotedAny(w, t);
    GarbledExact(w);
  }

  lemma LastQuoted(w: string)
    requires Quotable(w)
    ensures Lex(Quote(w)) == Some([Word(w, true)])
  {
    LexQuoted(w, []);
    assert Quote(w) + [] == Quote(w) && [Word(w, true)] + [] == [Word(w, true)];
  }

  lemma LastPlain(w: string)
    requires PlainWord(w)
    ensures Lex(w) == Some([Word(w, false)])
  {
    LexPlain(w, []);
    assert w + [] == w && [Word(w, false)] + [] == [Word(w, false)];
  }

  // ---- Printed lines

  ghost predicate OneLine(s: string) {
    s != [] && s[0] != '#' && '\n' !in s
  }

  lemma QuoteIsOneLine(w: string)
    ensures OneLine(Quote(w))
  {
    EscapeHasNoNewline(w);
  }

  lemma GatherWords(ts: seq<Token>, words: seq<string>)
    requires |ts| == |words|
    requires forall i :: 0 <= i < |ts| ==> ts[i].Word? && ts[i].text == words[i]
    ensures Gather(ts) == Some(Line(words, None, None))
  {
    if ts != [] {
      GatherWords(ts[1..], words[1..]);
      assert words == [words[0]] + words[1..];
    }
  }

  /** A line whose tokens are all words reads as those words. */
  lemma WordsRead(s: string, ts: seq<Token>, words: seq<string>)
    requires Lex(s) == Some(ts) && |ts| == |words| > 0
    requires forall i :: 0 <= i < |ts| ==> ts[i].Word? && ts[i].text == words[i]
    requires ts[0].quoted || !Reserved(words[0])
    ensures ParseLine(s) == Some(Line(words, None, None))
  {
    hide Lex, Gather, Reserved;
    GatherWords(ts, words);
  }

  lemma OptionLineReads(name: string, option: string, w: string)
    requires PlainWord(name) && !Reserved(name) && PlainWord(option) && Quotable(w)
    ensures ParseLine(OptionLine(name, option, w)) == Some(Line([name, option, w], None, None))
    ensures OneLine(OptionLine(name, option, w))
  {
    hide Lex, ParseLine, Quote, Reserved, Quotable;
    var s1 := " " + Quote(w);
    var s2 := " " + (option + s1);
    LastQuoted(w);
    LexBlank(Quote(w));
    LexPlain(option, s1);
    LexBlank(option + s1);
    LexPlain(name, s2);
    var ts := [Word(name, false)] + ([Word(option, false)] + [Word(w, true)]);
    WordsRead(OptionLine(name, option, w), ts, [name, option, w]);
    QuoteIsOneLine(w);
    assert name[0] in name && IsPlain(name[0]);
  }

  lemma SetLineReads(option: string)
    requires PlainWord(option)
    ensures ParseLine(SetLine(option)) == Some(Line(["set", "-o", option], None, None))
    ensures OneLine(SetLine(option))
  {
    PlainNames();
    hide Lex, ParseLine, Reserved;
    var s1 := " " + option;
    var s2 := " " + ("-o" + s1);
    LastPlain(option);
    LexBlank(option);
    LexPlain("-o", s1);
    LexBlank("-o" + s1);
    LexPlain("set", s2);
    var ts := [Word("set", false)] + ([Word("-o", false)] + [Word(option, false)]);
    WordsRead(SetLine(option), ts, ["set", "-o", option]);
  }

  lemma PlainNames()
    ensures PlainWord("mkdir") && PlainWord("-p") && PlainWord("chmod") && PlainWord("chown")
    ensures PlainWord("set") && PlainWord("-o") && PlainWord("cat") && PlainWord(END)
    ensures !Reserved("mkdir") && !Reserved("chmod") && !Reserved("chown") && !Reserved("set") && !Reserved("cat")
  {}

  lemma LexOperator(append: bool, t: string)
    requires t != [] && IsBlank(t[0])
    ensures Lex((if append then ">>" else ">") + t) == PrependToken(if append then DGreat else Great, Lex(t))
    ensures Lex("<<" + t) == PrependToken(DLess, Lex(t))
  {
    assert (">>" + t)[2..] == t && (">" + t)[1..] == t && ("<<" + t)[2..] == t;
    assert (">" + t)[1] == t[0] && ("<<" + t)[2] == t[0];
  }

  lemma CatLex(path: string, append: bool)
    requires Quotable(path)
    ensures Lex(CatLine(path, append)) ==
            Some([Word("cat", false), if append then DGreat else Great, Word(path, true), DLess, Word(END, false)])
    ensures OneLine(CatLine(path, append))
  {
    PlainNames();
    hide Lex, Quote, Reserved, Quotable;
    var op := if append then ">>" else ">";
    var s4 := " " + END;
    var s3 := " " + ("<<" + s4);
    var s2 := " " + (Quote(path) + s3);
    var s1 := " " + (op + s2);
    LastPlain(END);
    LexBlank(END);
    LexOperator(append, s4);
    LexBlank("<<" + s4);
    LexQuoted(path, s3);
    LexBlank(Quote(path) + s3);
    LexOperator(append, s2);
    LexBlank(op + s2);
    LexPlain("cat", s1);
    QuoteIsOneLine(path);
    assert CatLine(path, append) == "cat" + s1;
    var op' := if append then DGreat else Great;
    assert [Word("cat", false)] + ([op'] + ([Word(path, true)] + ([DLess] + [Word(END, false)]))) ==
           [Word("cat", false), op', Word(path, true), DLess, Word(END, false)];
  }

  lemma CatReads(path: string, append: bool)
    requires Quotable(path)
    ensures ParseLine(CatLine(path, append)) == Some(Line(["cat"], Some(Redirection(path, append)), Some(END)))
    ensures OneLine(CatLine(path, append))
  {
    PlainNames();
    hide Lex, Gather, Reserved, CatLine;
    CatLex(path, append);
    GatherCat(path, append);
  }

  lemma GatherCat(path: string, append: bool)
    ensures Gather([Word("cat", false), if append then DGreat else Great, Word(path, true), DLess, Word(END, false)]) ==
            Some(Line(["cat"], Some(Redirection(path, append)), Some(END)))
  {
    var op := if append then DGreat else Great;
    var t3 := [DLess, Word(END, false)];
    var t1 := [op, Word(path, true)] + t3;
    assert t3[2..] == [];
    assert Gather([]) == Some(Line([], None, None));
    assert Gather(t3) == Some(Line([], None, Some(END)));
    assert t1[2..] == t3;
    assert Gather(t1) == Some(Line([], Some(Redirection(path, append)), Some(END)));
    var ts := [Word("cat", false)] + t1;
    assert ts[1..] == t1;
    assert ts == [Word("cat", false), op, Word(path, true), DLess, Word(END, false)];
    assert ["cat"] + [] == ["cat"];
  }

  ghost function GarbledWords(words: seq<string>): seq<string> {
    seq(|words|, i requires 0 <= i < |words| => Garbled(words[i]))
  }

  ghost function QuotedTokens(words: seq<string>): seq<Token> {
    seq(|words|, i requires 0 <= i < |words| => Word(words[i], true))
  }

  ghost predicate NoExpansions(words: seq<string>) {
    forall w :: w in words ==> NoExpansion(w)
  }

  lemma NoTokens()
    ensures Lex([]) == Some([])
  {}

  lemma {:induction false} ArgsLex(args: seq<string>)
    ensures Lex(ArgsText(args)) == if NoExpansions(args) then Some(QuotedTokens(GarbledWords(args))) else None
    ensures ArgsText(args) == [] || ArgsText(args)[0] == ' '
    ensures '\n' !in ArgsText(args)
  {
    hide Lex, Quote, Garbled, NoExpansion;
    if args == [] {
      NoTokens();
    } else {
      var tail := ArgsText(args[1..]);
      ArgsLex(args[1..]);
      LexBlank(Quote(args[0]) + tail);
      LexQuotedAny(args[0], tail);
      QuoteIsOneLine(args[0]);
      assert args == [args[0]] + args[1..];
      assert NoExpansions(args) <==> NoExpansion(args[0]) && NoExpansions(args[1..]);
      assert QuotedTokens(GarbledWords(args)) == [Word(Garbled(args[0]), true)] + QuotedTokens(GarbledWords(args[1..]));
    }
  }

  /** What a shell makes of a printed command line, whatever its words. */
  lemma CmdLineMeans(c: Cmd)
    ensures ParseLine(CmdText(c)) ==
            if NoExpansions(Words(c)) then Some(Line(GarbledWords(Words(c)), None, None)) else None
    ensures OneLine(CmdText(c))
  {
    ArgsLex(c.args);
    hide Lex, Quote, ArgsText, Garbled, NoExpansion, Gather;
    LexQuotedAny(c.cmd, ArgsText(c.args));
    QuoteIsOneLine(c.cmd);
    assert NoExpansions(Words(c)) <==> NoExpansion(c.cmd) && NoExpansions(c.args);
    if NoExpansions(Words(c)) {
      var ts := [Word(Garbled(c.cmd), true)] + QuotedTokens(GarbledWords(c.args));
      WordsRead(CmdText(c), ts, GarbledWords(Words(c)));
    }
  }

  /** A printed command line reads back as the command's words exactly when every word is printable
      and free of `$` and backquotes. */
  lemma CmdLineReads(c: Cmd)
    ensures ParseLine(CmdText(c)) == Some(Line(Words(c), None, None)) <==> CmdSafe(c)
    ensures OneLine(CmdText(c))
  {
    CmdLineMeans(c);
    hide ParseLine, CmdText, Garbled;
    var ws := Words(c);
    forall i | 0 <= i < |ws| ensures Garbled(ws[i]) == ws[i] && NoExpansion(ws[i]) <==> Quotable(ws[i]) {
      GarbledExact(ws[i]);
    }
    if CmdSafe(c) {
      assert forall i :: 0 <= i < |ws| ==> Quotable(ws[i]);
      assert GarbledWords(ws) == ws;
      assert NoExpansions(ws);
    }
    if NoExpansions(ws) && GarbledWords(ws) == ws {
      forall i | 0 <= i < |ws| ensures Quotable(ws[i]) {
        assert GarbledWords(ws)[i] == ws[i] && ws[i] in ws;
      }
    }
  }

  /** Adding the flag keeps a command safe. */
  lemma HackedSafe(c: Cmd)
    requires CmdSafe(c)
    ensures CmdSafe(Hacked(c))
  {
    hide Contains, Quotable;
    QuotableFlag();
    assert forall w :: w in c.args ==> w in Words(c);
    forall w | w in Words(Hacked(c)) && w !in Words(c) ensures Quotable(w) {
      if StringKubeadm(c) {
        assert c.args[1] in c.args && w == c.args[1] + " " + FLAG == c.args[1] + (" " + FLAG);
        QuotableConcat(c.args[1], " " + FLAG);
      } else {
        assert w == FLAG;
      }
    }
  }

  lemma QuotableFlag()
    ensures Quotable(FLAG) && Quotable(" " + FLAG)
  {}

  lemma QuotableConcat(a: string, b: string)
    requires Quotable(a) && Quotable(b)
    ensures Quotable(a + b)
  {}

  // ---- From lines to scripts

  ghost predicate StartsLine(t: string) {
    t != [] && t[0] == '\n'
  }

  lemma NewlineSkipped(t: string)
    requires StartsLine(t)
    ensures Parse(t) == Parse(t[1..])
  {
    assert LineLength(t) == 0;
  }

  lemma {:induction false} LineOf(l: string, t: string)
    requires '\n' !in l && StartsLine(t)
    ensures LineLength(l + t) == |l| && (l + t)[..LineLength(l + t)] == l && NextLines(l + t) == t[1..]
  {
    if l != [] {
      assert (l + t)[1..] == l[1..] + t;
      LineOf(l[1..], t);
    } else {
      assert l + t == t;
    }
  }

  lemma CommentThen(l: string, t: string)
    requires l != [] && l[0] == '#' && '\n' !in l && StartsLine(t)
    ensures Parse(l + t) == Parse(t)
  {
    LineOf(l, t);
    NewlineSkipped(t);
  }

  lemma LineThen(l: string, words: seq<string>, t: string)
    requires OneLine(l) && ParseLine(l) == Some(Line(words, None, None)) && StartsLine(t)
    ensures Parse(l + t) == After([Command(words, None, None)], Parse(t))
  {
    hide ParseLine, LineLength, NextLines;
    LineOf(l, t);
    NewlineSkipped(t);
  }

  /** A line on its own, preceded by the newline that ends the line before. */
  lemma NewLineThen(l: string, words: seq<string>, t: string)
    requires OneLine(l) && ParseLine(l) == Some(Line(words, None, None)) && StartsLine(t)
    ensures Parse(("\n" + l) + t) == After([Command(words, None, None)], Parse(t))
  {
    hide Parse, ParseLine;
    LineThen(l, words, t);
    PastNewline(l, t);
  }

  lemma PastNewline(s: string, t: string)
    ensures Parse(("\n" + s) + t) == Parse(s + t)
  {
    var u := ("\n" + s) + t;
    assert u[1..] == s + t;
    hide Parse;
    NewlineSkipped(u);
  }

  /** No here-document swallows what follows it. */
  lemma DocumentThen(l: string, words: seq<string>, out: Option<Redirection>, body: string, t: string)
    requires OneLine(l) && ParseLine(l) == Some(Line(words, out, Some(END)))
    requires NewlineTerminated(body) && HereSafe(body) && StartsLine(t)
    ensures Parse((l + ("\n" + (body + END))) + t) == After([Command(words, out, Some(body))], Parse(t))
  {
    hide ParseLine, LineLength, NextLines, ReadHere, HereSafe;
    var rest := ("\n" + (body + END)) + t;
    assert (l + ("\n" + (body + END))) + t == l + rest;
    LineOf(l, rest);
    assert rest[1..] == body + END + ['\n'] + t[1..];
    SafeDocumentReads(body, t[1..]);
    NewlineSkipped(t);
  }

  lemma AfterTwice(a: seq<Command>, b: seq<Command>, o: Option<seq<Command>>)
    ensures After(a, After(b, o)) == After(a + b, o)
  {
    if o.Some? {
      assert a + (b + o.value) == a + b + o.value;
    }
  }

  lemma AfterNothing(o: Option<seq<Command>>)
    ensures After([], o) == o
  {
    if o.Some? {
      assert [] + o.value == o.value;
    }
  }

  lemma MkdirThen(x: FixedFile, t: string)
    requires FileSafe(x) && StartsLine(t)
    ensures Parse(MkdirText(x) + t) == After([Command(["mkdir", "-p", Dir(x.path)], None, None)], Parse(t))
  {
    PlainNames();
    hide Parse, ParseLine, OptionLine, Dir, Quotable, Reserved, HereSafe;
    DirQuotable(x.path);
    OptionLineReads("mkdir", "-p", Dir(x.path));
    NewLineThen(OptionLine("mkdir", "-p", Dir(x.path)), ["mkdir", "-p", Dir(x.path)], t);
  }

  lemma CatThen(x: FixedFile, t: string)
    requires FileSafe(x) && StartsLine(t)
    ensures Parse(CatText(x) + t) ==
            After([Command(["cat"], Some(Redirection(x.path, x.append)), Some(Body(x.content)))], Parse(t))
  {
    hide Parse, ParseLine, CatLine, Quotable, HereSafe;
    var l, body := CatLine(x.path, x.append), Body(x.content);
    CatReads(x.path, x.append);
    DocumentThen(l, ["cat"], Some(Redirection(x.path, x.append)), body, t);
    PastNewline(l + ("\n" + (body + END)), t);
  }

  lemma ChmodThen(x: FixedFile, t: string)
    requires FileSafe(x) && StartsLine(t)
    ensures Parse(ChmodText(x) + t) ==
            After(if x.mode != DEFAULT_MODE then [Command(["chmod", x.mode, x.path], None, None)] else [], Parse(t))
    ensures StartsLine(ChmodText(x) + t)
  {
    PlainNames();
    hide Parse, ParseLine, OptionLine, Quotable, Reserved, HereSafe;
    if x.mode != DEFAULT_MODE {
      OptionLineReads("chmod", x.mode, x.path);
      NewLineThen(OptionLine("chmod", x.mode, x.path), ["chmod", x.mode, x.path], t);
    } else {
      AfterNothing(Parse(t));
      assert ChmodText(x) + t == t;
    }
  }

  lemma ChownThen(x: FixedFile, t: string)
    requires FileSafe(x) && StartsLine(t)
    ensures Parse(ChownText(x) + t) ==
            After(if x.owner != DEFAULT_OWNER then [Command(["chown", x.owner, x.path], None, None)] else [], Parse(t))
    ensures StartsLine(ChownText(x) + t)
  {
    PlainNames();
    hide Parse, ParseLine, OptionLine, Quotable, Reserved, HereSafe;
    if x.owner != DEFAULT_OWNER {
      OptionLineReads("chown", x.owner, x.path);
      NewLineThen(OptionLine("chown", x.owner, x.path), ["chown", x.owner, x.path], t);
    } else {
      AfterNothing(Parse(t));
      assert ChownText(x) + t == t;
    }
  }

  lemma Regroup(a: string, b: string, t: string)
    ensures (a + b) + t == a + (b + t)
  {}

  lemma FileThen(x: FixedFile, t: string)
    requires FileSafe(x) && StartsLine(t)
    ensures Parse(FileText(x) + t) == After(FileCommands(x), Parse(t))
    ensures StartsLine(FileText(x) + t)
  {
    hide Parse, After, CatText, ChmodText, ChownText, FileSafe;
    var attributes := ChmodText(x) + ChownText(x);
    ChownThen(x, t);
    ChmodThen(x, ChownText(x) + t);
    Regroup(ChmodText(x), ChownText(x), t);
    CatThen(x, attributes + t);
    Regroup(CatText(x), attributes, t);
    StartsCat(x, attributes + t);
    MkdirThen(x, (CatText(x) + attributes) + t);
    Regroup(MkdirText(x), CatText(x) + attributes, t);
    var c1 := [Command(["mkdir", "-p", Dir(x.path)], None, None)];
    var c2 := [Command(["cat"], Some(Redirection(x.path, x.append)), Some(Body(x.content)))];
    var c3 := if x.mode != DEFAULT_MODE then [Command(["chmod", x.mode, x.path], None, None)] else [];
    var c4 := if x.owner != DEFAULT_OWNER then [Command(["chown", x.owner, x.path], None, None)] else [];
    AfterTwice(c3, c4, Parse(t));
    AfterTwice(c2, c3 + c4, Parse(t));
    AfterTwice(c1, c2 + (c3 + c4), Parse(t));
    assert c1 + (c2 + (c3 + c4)) == FileCommands(x);
  }

  lemma StartsCat(x: FixedFile, t: string)
    ensures StartsLine(CatText(x) + t)
  {}

  lemma {:induction false} FilesThen(files: seq<File>, d: Decoders, t: string)
    requires forall f :: f in files ==> Fix(f, d).Some? && FileSafe(Fix(f, d).value)
    requires StartsLine(t)
    ensures FilesText(files, d).ok
    ensures Parse(FilesText(files, d).text + t) == After(FilesCommands(files, d), Parse(t))
    ensures StartsLine(FilesText(files, d).text + t)
  {
    hide Parse, After, FileText, FileCommands, Fix, FileSafe;
    if files == [] {
      AfterNothing(Parse(t));
      assert FilesText(files, d).text + t == t;
    } else {
      assert files[0] in files;
      var x := Fix(files[0], d).value;
      FilesThen(files[1..], d, t);
      FileThen(x, FilesText(files[1..], d).text + t);
      Regroup(FileText(x), FilesText(files[1..], d).text, t);
      AfterTwice(FileCommands(x), FilesCommands(files[1..], d), Parse(t));
    }
  }

  lemma {:induction false} CmdsThen(cmds: seq<Cmd>, t: string)
    requires forall c :: c in cmds ==> CmdSafe(c)
    requires StartsLine(t)
    ensures Parse(CmdsText(cmds) + t) == After(CmdsCommands(cmds), Parse(t))
    ensures StartsLine(CmdsText(cmds) + t)
  {
    hide Parse, ParseLine, After, CmdText, Hacked, CmdSafe;
    if cmds == [] {
      AfterNothing(Parse(t));
      assert CmdsText(cmds) + t == t;
    } else {
      assert cmds[0] in cmds;
      var c := Hacked(cmds[0]);
      HackedSafe(cmds[0]);
      CmdLineReads(c);
      CmdsThen(cmds[1..], t);
      LineThen(CmdText(c), Words(c), CmdsText(cmds[1..]) + t);
      Regroup(CmdText(c), CmdsText(cmds[1..]), t);
      PastNewline(CmdText(c) + CmdsText(cmds[1..]), t);
      AfterTwice([CmdCommand(cmds[0])], CmdsCommands(cmds[1..]), Parse(t));
    }
  }

  lemma Titles()
    ensures FILES_TITLE != [] && FILES_TITLE[0] == '#' && '\n' !in FILES_TITLE
    ensures CMDS_TITLE != [] && CMDS_TITLE[0] == '#' && '\n' !in CMDS_TITLE
  {}

  lemma BlockThen(a: Action, d: Decoders, t: string)
    requires ActionSafe(a, d) && StartsLine(t)
    ensures BlockText(a, d).ok
    ensures Parse(BlockText(a, d).text + t) == After(ActionCommands(a, d), Parse(t))
  {
    Titles();
    hide Parse, After, FilesText, CmdsText, FilesCommands, CmdsCommands, Fix, FileSafe, CmdSafe;
    match a {
      case WriteFiles(files) =>
        FilesThen(files, d, t);
        CommentThen(FILES_TITLE, FilesText(files, d).text + t);
        Regroup(FILES_TITLE, FilesText(files, d).text, t);
      case RunCmd(cmds) =>
        CmdsThen(cmds, t);
        CommentThen(CMDS_TITLE, CmdsText(cmds) + t);
        Regroup(CMDS_TITLE, CmdsText(cmds), t);
    }
  }

  lemma {:induction false} BlocksRead(actions: seq<Action>, d: Decoders)
    requires forall a :: a in actions ==> ActionSafe(a, d)
    ensures BlocksText(actions, d).ok
    ensures StartsLine(BlocksText(actions, d).text)
    ensures Parse(BlocksText(actions, d).text) == Some(ActionsCommands(actions, d))
  {
    if actions == [] {
      NewlineSkipped("\n");
      assert "\n"[1..] == [];
    } else {
      hide Parse, ActionSafe, BlockText, ActionCommands;
      assert actions[0] in actions;
      BlocksRead(actions[1..], d);
      var tail := BlocksText(actions[1..], d).text;
      BlockThen(actions[0], d, tail);
      var b := BlockText(actions[0], d).text + tail;
      NewlineSkipped("\n" + ("\n" + b));
      assert ("\n" + ("\n" + b))[1..] == "\n" + b;
      NewlineSkipped("\n" + b);
      assert ("\n" + b)[1..] == b;
    }
  }

  lemma SetThen(option: string, t: string)
    requires PlainWord(option) && StartsLine(t)
    ensures Parse(("\n" + SetLine(option)) + t) == After([SetOption(option)], Parse(t))
    ensures StartsLine(("\n" + SetLine(option)) + t)
  {
    hide Parse, ParseLine, SetLine;
    SetLineReads(option);
    NewLineThen(SetLine(option), ["set", "-o", option], t);
  }

  lemma HeaderNames()
    ensures PlainWord("errexit") && PlainWord("nounset") && PlainWord("pipefail")
    ensures "#!/bin/bash" != [] && "#!/bin/bash"[0] == '#' && '\n' !in "#!/bin/bash"
  {}

  lemma HeaderThen(t: string)
    requires StartsLine(t)
    ensures Parse(Header() + t) == After(HeaderCommands(), Parse(t))
  {
    HeaderNames();
    hide Parse, SetLine, After, PlainWord, SetOption;
    var s1, s2, s3 := "\n" + SetLine("errexit"), "\n" + SetLine("nounset"), "\n" + SetLine("pipefail");
    SetThen("pipefail", t);
    SetThen("nounset", s3 + t);
    SetThen("errexit", s2 + (s3 + t));
    Regroup(s2, s3, t);
    Regroup(s1, s2 + s3, t);
    var rest := s1 + (s2 + s3);
    PastNewline(rest, t);
    Regroup("#!/bin/bash", "\n" + rest, t);
    CommentThen("#!/bin/bash", ("\n" + rest) + t);
    var o1, o2, o3 := SetOption("errexit"), SetOption("nounset"), SetOption("pipefail");
    AfterTwice([o2], [o3], Parse(t));
    AfterTwice([o1], [o2] + [o3], Parse(t));
    assert [o1] + ([o2] + [o3]) == HeaderCommands();
  }

  /** The generated script is, to a shell, the header's options followed by exactly the actions'
      commands in document order: no here-document takes in a later command or leaks into one. */
  lemma ScriptReads(actions: seq<Action>, d: Decoders)
    requires forall a :: a in actions ==> ActionSafe(a, d)
    ensures ScriptText(actions, d).ok
    ensures Parse(ScriptText(actions, d).text) == Some(HeaderCommands() + ActionsCommands(actions, d))
  {
    hide Parse, BlocksText, Header, ActionSafe;
    BlocksRead(actions, d);
    HeaderThen(BlocksText(actions, d).text);
  }
}
