/** The compiler as it runs (pkg/cloudinit): loops that grow a string, and commands whose argument
    slices are shared with the action they came from. */
module CloudInitGenerator {
  import opened Common
  import opened Quoting
  import opened Paths
  import opened Shell
  import opened CloudInit
  import opened CloudInitMeaning
  import opened ShellExec

  // ---- write_files

  /** On a decoding error the block written so far is returned with the error. */
  method GenerateFilesBlock(files: seq<File>, d: Decoders) returns (block: string, ok: bool)
    ensures Text(block, ok) == BlockText(WriteFiles(files), d)
  {
    hide FileText, Fix;
    block := FILES_TITLE;
    assert files[0..] == files;
    for i := 0 to |files|
      invariant block + FilesText(files[i..], d).text == FILES_TITLE + FilesText(files, d).text
      invariant FilesText(files[i..], d).ok == FilesText(files, d).ok
    {
      assert files[i..][1..] == files[i + 1..];
      var fixed := Fix(files[i], d);
      if fixed.None? {
        assert block + "" == block;
        return block, false;
      }
      block := AppendFile(block, fixed.value, FilesText(files[i + 1..], d).text);
    }
    assert block + "" == block;
    ok := true;
  }

  /** One iteration of the loop: each statement is appended in turn. */
  method AppendFile(before: string, x: FixedFile, ghost rest: string) returns (block: string)
    ensures block == before + FileText(x)
    ensures block + rest == before + (FileText(x) + rest)
  {
    hide OptionLine, CatLine, Body, Dir;
    block := before + ("\n" + OptionLine("mkdir", "-p", Dir(x.path)));
    BodyCases(x.content);
    if HasNewlineSuffix(x.content) {
      block := block + ("\n" + (CatLine(x.path, x.append) + ("\n" + (x.content + END))));
    } else {
      block := block + ("\n" + (CatLine(x.path, x.append) + ("\n" + ((x.content + "\n") + END))));
    }
    assert block == before + MkdirText(x) + CatText(x);
    if x.mode != DEFAULT_MODE {
      block := block + ("\n" + OptionLine("chmod", x.mode, x.path));
    } else {
      assert block + "" == block;
    }
    assert block == before + MkdirText(x) + CatText(x) + ChmodText(x);
    if x.owner != DEFAULT_OWNER {
      block := block + ("\n" + OptionLine("chown", x.owner, x.path));
    } else {
      assert block + "" == block;
    }
    Assemble(before, MkdirText(x), CatText(x), ChmodText(x), ChownText(x), rest);
  }

  lemma Assemble(before: string, a: string, b: string, c: string, d: string, rest: string)
    ensures before + a + b + c + d == before + (a + (b + (c + d)))
    ensures before + (a + (b + (c + d))) + rest == before + ((a + (b + (c + d))) + rest)
  {
    assert before + a + b + c + d == before + a + b + (c + d) == before + a + (b + (c + d));
  }

  lemma BodyCases(content: string)
    ensures Body(content) == if HasNewlineSuffix(content) then content else content + "\n"
  {}

  // ---- runcmd

  /** A command whose arguments live in a slice. */
  datatype CmdCell = CmdCell(cmd: string, args: array<string>)

  function View(c: CmdCell): Cmd
    reads c.args
  {
    Cmd(c.cmd, c.args[..])
  }

  /** What the slice of a command holds after it has been printed: the string form is edited where it
      is, the list form is extended elsewhere. */
  function Stored(c: Cmd): Cmd {
    if StringKubeadm(c) then Hacked(c) else c
  }

  method HackKubeadmIgnoreErrors(c: CmdCell) returns (r: CmdCell)
    modifies c.args
    ensures View(r) == Hacked(old(View(c)))
    ensures View(c) == Stored(old(View(c)))
    ensures r.args == c.args || fresh(r.args)
  {
    hide Contains;
    r := c;
    if c.cmd == "/bin/sh" && c.args.Length >= 2 {
      if c.args[0] == "-c" && (Contains(c.args[1], "kubeadm init") || Contains(c.args[1], "kubeadm join")) {
        assert StringKubeadm(View(c));
        c.args[1] := c.args[1] + " " + FLAG;
        assert c.args[..] == old(c.args[..])[1 := old(c.args[1]) + " " + FLAG];
      }
    }
    if c.cmd == "kubeadm" && c.args.Length >= 1 {
      if c.args[0] == "init" || c.args[0] == "join" {
        assert ListKubeadm(View(c)) && !StringKubeadm(View(c));
        var longer := c.args[..] + [FLAG];
        var slice := new string[|longer|](i requires 0 <= i < |longer| => longer[i]);
        r := CmdCell(c.cmd, slice);
      }
    }
  }

  method PrintCmd(c: CmdCell) returns (command: string)
    ensures command == CmdText(View(c))
  {
    hide Quote;
    command := Quote(c.cmd);
    ghost var args := c.args[..];
    assert args[0..] == args;
    for i := 0 to c.args.Length
      invariant command + ArgsText(args[i..]) == CmdText(View(c))
    {
      assert args[i..][1..] == args[i + 1..];
      ghost var before := command;
      command := command + (" " + Quote(c.args[i]));
      assert before + (" " + (Quote(args[i]) + ArgsText(args[i + 1..]))) == command + ArgsText(args[i + 1..]);
    }
    assert command + "" == command;
  }

  ghost function Views(cmds: seq<CmdCell>): seq<Cmd>
    reads set c | c in cmds :: c.args
  {
    seq(|cmds|, i requires 0 <= i < |cmds| reads (set c | c in cmds :: c.args) => View(cmds[i]))
  }

  /** No two commands share an argument slice. */
  ghost predicate Separate(cmds: seq<CmdCell>) {
    forall i, j :: 0 <= i < j < |cmds| ==> cmds[i].args != cmds[j].args
  }

  /** Prints each command with the flag added. Seen from the action, the only cells that change are
      the script arguments of string-form kubeadm commands. */
  method GenerateCmdsBlock(cmds: seq<CmdCell>) returns (block: string)
    requires Separate(cmds)
    modifies set c | c in cmds :: c.args
    ensures block == BlockText(RunCmd(old(Views(cmds))), Decoders(s => None, s => None)).text
    ensures forall i :: 0 <= i < |cmds| ==> View(cmds[i]) == Stored(old(View(cmds[i])))
  {
    hide Hacked, Stored, CmdText;
    ghost var before := Views(cmds);
    block := CMDS_TITLE;
    assert before[0..] == before;
    for i := 0 to |cmds|
      invariant forall j :: 0 <= j < i ==> View(cmds[j]) == Stored(before[j])
      invariant forall j :: i <= j < |cmds| ==> View(cmds[j]) == before[j]
      invariant block + CmdsText(before[i..]) == CMDS_TITLE + CmdsText(before)
    {
      assert before[i..][1..] == before[i + 1..];
      assert cmds[i] in cmds;
      var hacked := HackKubeadmIgnoreErrors(cmds[i]);
      var command := PrintCmd(hacked);
      ghost var printed := block;
      block := block + ("\n" + command);
      assert printed + ("\n" + (command + CmdsText(before[i + 1..]))) == block + CmdsText(before[i + 1..]);
    }
    assert block + "" == block;
  }

  lemma {:induction false} StillContains(s: string, t: string, sub: string)
    requires Contains(s, sub)
    ensures Contains(s + t, sub)
  {
    var i :| 0 <= i <= |s| && sub <= s[i..];
    assert (s + t)[i..] == s[i..] + t;
  }

  /** Because the edit is made in place, printing an action again prints the same commands exactly
      when none of them is a string-form kubeadm command; such a command gets the flag once more. */
  lemma PrintingAgain(c: Cmd)
    ensures Hacked(Stored(c)) == Hacked(c) <==> !StringKubeadm(c)
    ensures StringKubeadm(c) ==>
              StringKubeadm(Stored(c)) && Hacked(Stored(c)).args[1] == c.args[1] + " " + FLAG + " " + FLAG
  {
    if StringKubeadm(c) {
      var once := c.args[1] + " " + FLAG;
      assert once == c.args[1] + (" " + FLAG);
      if Contains(c.args[1], "kubeadm init") {
        StillContains(c.args[1], " " + FLAG, "kubeadm init");
      } else {
        StillContains(c.args[1], " " + FLAG, "kubeadm join");
      }
      hide Contains;
      assert Stored(c).args[1] == once;
      assert StringKubeadm(Stored(c));
      assert |Hacked(Stored(c)).args[1]| > |once|;
    }
  }

  /** The flag is added to kubeadm init and join and to nothing else, at the end of the script or of the
      list: no word is dropped or reordered, and at most one is lengthened or appended. */
  lemma FlagAddedOnce(c: Cmd)
    ensures var ws, hs := Words(c), Words(Hacked(c));
            if && |ws| >= 3 && ws[0] == "/bin/sh" && ws[1] == "-c"
               && (Contains(ws[2], "kubeadm init") || Contains(ws[2], "kubeadm join"))
            then hs == ws[2 := ws[2] + (" " + "--ignore-preflight-errors=all")]
            else if |ws| >= 2 && ws[0] == "kubeadm" && (ws[1] == "init" || ws[1] == "join")
            then hs == ws + ["--ignore-preflight-errors=all"]
            else hs == ws
  {
    hide Contains;
    assert "/bin/sh"[0] != "kubeadm"[0];
    if StringKubeadm(c) {
      assert c.args[1] + " " + FLAG == c.args[1] + (" " + FLAG);
    }
  }

  // ---- Scanning a cloud-config into blocks

  const WRITE_FILES := "write_files"
  const RUNCMD := "runcmd"

  predicate IsKeyChar(c: char) { 'a' <= c <= 'z' || 'A' <= c <= 'Z' || c == '_' }

  /** The line starts with letters and underscores, possibly none, and a colon. */
  predicate IsKey(line: string) {
    line != [] && (line[0] == ':' || (IsKeyChar(line[0]) && IsKey(line[1..])))
  }

  function ActionName(line: string): string {
    if line != [] && line[|line| - 1] == ':' then line[..|line| - 1] else line
  }

  datatype Block = Block(name: string, lines: seq<string>)

  /** How the blocks of a document look from outside. */
  function KeyLines(lines: seq<string>): seq<string> {
    if lines == [] then []
    else KeyLines(lines[..|lines| - 1]) + if IsKey(lines[|lines| - 1]) then [lines[|lines| - 1]] else []
  }

  function AllLines(blocks: seq<Block>): seq<string> {
    if blocks == [] then [] else AllLines(blocks[..|blocks| - 1]) + blocks[|blocks| - 1].lines
  }

  /** One block per key line, named after it, holding it and no other key line; only the first block
      may have lines ahead of its key. Together the blocks are the document. */
  ghost predicate Partition(lines: seq<string>, blocks: seq<Block>) {
    && AllLines(blocks) == lines
    && |blocks| == |KeyLines(lines)|
    && forall i :: 0 <= i < |blocks| ==>
         && blocks[i].name == ActionName(KeyLines(lines)[i])
         && KeyLines(blocks[i].lines) == [KeyLines(lines)[i]]
         && blocks[i].lines != []
         && (i > 0 ==> blocks[i].lines[0] == KeyLines(lines)[i])
  }

  /** What unmarshalling does with a block, given the codecs: the action is chosen by the name. */
  datatype Codec = Codec(
    files: string -> Option<seq<File>>, cmds: string -> Option<seq<Cmd>>, unknown: string -> Option<seq<string>>)

  function Unmarshal(b: Block, codec: Codec): Option<Action> {
    var text := JoinLines(b.lines);
    if b.name == WRITE_FILES then
      match codec.files(text) case None => None case Some(files) => Some(WriteFiles(files))
    else if b.name == RUNCMD then
      match codec.cmds(text) case None => None case Some(cmds) => Some(RunCmd(cmds))
    else
      match codec.unknown(text) case None => None case Some(lines) => Some(Unknown(b.name, lines))
  }

  /** A key line is one with a colon after letters and underscores only. */
  lemma {:induction false} KeyExact(line: string)
    ensures IsKey(line) <==>
            exists i :: 0 <= i < |line| && line[i] == ':' &&
                        forall j :: 0 <= j < i ==>
                          'a' <= line[j] <= 'z' || 'A' <= line[j] <= 'Z' || line[j] == '_'
  {
    if line != [] {
      KeyExact(line[1..]);
      if i :| 0 <= i < |line| - 1 && line[1..][i] == ':' && forall j :: 0 <= j < i ==> IsKeyChar(line[1..][j]) {
        assert line[i + 1] == ':';
        assert IsKeyChar(line[0]) ==> forall j :: 0 <= j < i + 1 ==> IsKeyChar(line[j]) by {
          assert forall j :: 0 < j < i + 1 ==> line[j] == line[1..][j - 1];
        }
      }
      if i :| 0 < i < |line| && line[i] == ':' && forall j :: 0 <= j < i ==> IsKeyChar(line[j]) {
        assert line[1..][i - 1] == ':' && IsKeyChar(line[0]);
        assert forall j :: 0 <= j < i - 1 ==> line[1..][j] == line[j + 1];
      }
    }
  }

  /** A key line names its action: the line without its closing colon, if it has one. */
  lemma NameExact(line: string)
    ensures ActionName(line + ":") == line
    ensures line == [] || line[|line| - 1] != ':' ==> ActionName(line) == line
  {
    assert (line + ":")[..|line|] == line;
  }

  lemma {:induction false} KeyLinesConcat(a: seq<string>, b: seq<string>)
    ensures KeyLines(a + b) == KeyLines(a) + KeyLines(b)
  {
    hide IsKey;
    if b == [] {
      assert a + b == a;
    } else {
      assert (a + b)[..|a + b| - 1] == a + b[..|b| - 1];
      KeyLinesConcat(a, b[..|b| - 1]);
    }
  }

  lemma AllLinesSnoc(blocks: seq<Block>, b: Block)
    ensures AllLines(blocks + [b]) == AllLines(blocks) + b.lines
  {
    assert (blocks + [b])[..|blocks|] == blocks;
  }

  lemma KeyLinesOfOne(line: string)
    ensures KeyLines([line]) == if IsKey(line) then [line] else []
  {
    assert [line][..0] == [];
  }

  /** Opening a block with a new key line after some blocks that cover the lines so far. */
  lemma OpenBlock(lines: seq<string>, blocks: seq<Block>, pending: Block, key: string)
    requires IsKey(key) && Partition(lines, blocks + [pending])
    ensures Partition(lines + [key], blocks + [pending] + [Block(ActionName(key), [key])])
  {
    hide IsKey, ActionName, KeyLines, AllLines;
    var before, begun := blocks + [pending], Block(ActionName(key), [key]);
    var after := before + [begun];
    AllLinesSnoc(before, begun);
    KeyLinesConcat(lines, [key]);
    KeyLinesOfOne(key);
    assert forall i :: 0 <= i < |before| ==> after[i] == before[i];
  }

  /** Adding a plain line to the last block. */
  lemma GrowBlock(lines: seq<string>, blocks: seq<Block>, pending: Block, line: string)
    requires !IsKey(line) && Partition(lines, blocks + [pending])
    ensures Partition(lines + [line], blocks + [pending.(lines := pending.lines + [line])])
  {
    hide IsKey, ActionName, KeyLines, AllLines;
    var before, grown := blocks + [pending], pending.(lines := pending.lines + [line]);
    var after := blocks + [grown];
    AllLinesSnoc(blocks, pending);
    AllLinesSnoc(blocks, grown);
    KeyLinesConcat(lines, [line]);
    KeyLinesConcat(pending.lines, [line]);
    KeyLinesOfOne(line);
    assert KeyLines(lines + [line]) == KeyLines(lines);
    assert KeyLines(grown.lines) == KeyLines(pending.lines);
    assert AllLines(after) == lines + [line];
    var last := |blocks|;
    assert before[last] == pending && after[last] == grown;
    assert grown.lines[0] == pending.lines[0];
    assert forall i :: 0 <= i < last ==> after[i] == before[i];
  }

  lemma FirstBlock(lead: seq<string>, key: string)
    requires IsKey(key) && KeyLines(lead) == []
    ensures Partition(lead + [key], [Block(ActionName(key), lead + [key])])
  {
    hide IsKey, ActionName, KeyLines, AllLines;
    KeyLinesConcat(lead, [key]);
    KeyLinesOfOne(key);
    var b := Block(ActionName(key), lead + [key]);
    AllLinesSnoc([], b);
    NoLines();
    assert [] + [b] == [b];
    assert [] + b.lines == b.lines && [] + [key] == [key];
  }

  lemma NoLines()
    ensures AllLines([]) == []
  {}

  function UnmarshalAll(blocks: seq<Block>, codec: Codec): Option<seq<Action>> {
    if blocks == [] then Some([])
    else
      match UnmarshalAll(blocks[..|blocks| - 1], codec)
      case None => None
      case Some(done) =>
        match Unmarshal(blocks[|blocks| - 1], codec)
        case None => None
        case Some(a) => Some(done + [a])
  }

  /** There are actions exactly when every block unmarshals, one for each, in order. */
  lemma {:induction false} UnmarshalExact(blocks: seq<Block>, codec: Codec)
    ensures UnmarshalAll(blocks, codec).Some? <==> forall b :: b in blocks ==> Unmarshal(b, codec).Some?
    ensures UnmarshalAll(blocks, codec).Some? ==>
              && |UnmarshalAll(blocks, codec).value| == |blocks|
              && forall i :: 0 <= i < |blocks| ==>
                   Unmarshal(blocks[i], codec) == Some(UnmarshalAll(blocks, codec).value[i])
  {
    hide Unmarshal;
    if blocks != [] {
      var front, last := blocks[..|blocks| - 1], blocks[|blocks| - 1];
      UnmarshalExact(front, codec);
      assert blocks == front + [last];
    }
  }

  /** The lines of a text. */
  function TextLines(text: string): (lines: seq<string>)
    ensures lines != []
  {
    if text == [] then [[]]
    else if text[0] == '\n' then [[]] + TextLines(text[1..])
    else
      var tail := TextLines(text[1..]);
      [[text[0]] + tail[0]] + tail[1..]
  }

  lemma {:induction false} LinesOfOne(line: string, rest: string)
    requires '\n' !in line
    ensures TextLines(line + "\n" + rest) == [line] + TextLines(rest)
    ensures TextLines(line) == [line]
  {
    if line == [] {
      assert (line + "\n" + rest)[1..] == rest;
    } else {
      assert (line + "\n" + rest)[1..] == line[1..] + "\n" + rest;
      LinesOfOne(line[1..], rest);
      assert [line[0]] + line[1..] == line;
    }
  }

  /** The decoder is given the block's own lines: joining them loses nothing. */
  lemma {:induction false} JoinedLines(lines: seq<string>)
    requires lines != [] && forall l :: l in lines ==> '\n' !in l
    ensures TextLines(JoinLines(lines)) == lines
  {
    assert lines == [lines[0]] + lines[1..];
    if |lines| == 1 {
      LinesOfOne(lines[0], []);
    } else {
      JoinedLines(lines[1..]);
      LinesOfOne(lines[0], JoinLines(lines[1..]));
    }
  }

  /** The name decides which decoder reads the block, and what becomes of it. */
  lemma UnmarshalByName(b: Block, codec: Codec)
    ensures Unmarshal(b, codec).Some? ==>
              var text, a := JoinLines(b.lines), Unmarshal(b, codec).value;
              if b.name == "write_files" then a.WriteFiles? && codec.files(text) == Some(a.files)
              else if b.name == "runcmd" then a.RunCmd? && codec.cmds(text) == Some(a.cmds)
              else a.Unknown? && a.name == b.name && codec.unknown(text) == Some(a.lines)
  {
    hide JoinLines;
  }

  /** The blocks that are complete, the one being collected, and, before any key line, the lines
      seen so far. */
  datatype Scan = Scan(closed: seq<Block>, open: Option<Block>, lead: seq<string>)

  function ScanLines(lines: seq<string>): Scan {
    if lines == [] then Scan([], None, [])
    else
      var before, line := ScanLines(lines[..|lines| - 1]), lines[|lines| - 1];
      if IsKey(line) then
        if before.open.None? then Scan(before.closed, Some(Block(ActionName(line), before.lead + [line])), [])
        else Scan(before.closed + [before.open.value], Some(Block(ActionName(line), [line])), [])
      else if before.open.None? then before.(lead := before.lead + [line])
      else before.(open := Some(before.open.value.(lines := before.open.value.lines + [line])))
  }

  function Blocks(lines: seq<string>): seq<Block> {
    var scan := ScanLines(lines);
    scan.closed + if scan.open.Some? then [scan.open.value] else []
  }

  lemma {:induction false} ScanPartitions(lines: seq<string>)
    ensures var scan := ScanLines(lines);
            && (scan.open.None? <==> KeyLines(lines) == [])
            && (scan.open.None? ==> scan.closed == [] && scan.lead == lines)
            && (scan.open.Some? ==> Partition(lines, scan.closed + [scan.open.value]))
  {
    hide IsKey, ActionName, Partition;
    if lines != [] {
      var front, line := lines[..|lines| - 1], lines[|lines| - 1];
      assert lines == front + [line];
      ScanPartitions(front);
      var before := ScanLines(front);
      if before.open.None? {
        if IsKey(line) {
          FirstBlock(front, line);
          assert before.closed + [ScanLines(lines).open.value] == [ScanLines(lines).open.value];
        }
      } else if IsKey(line) {
        OpenBlock(front, before.closed, before.open.value, line);
      } else {
        GrowBlock(front, before.closed, before.open.value, line);
      }
    }
  }

  /** The scanner cuts a document into one block per key line; a document without any gives none. */
  lemma BlocksPartition(lines: seq<string>)
    ensures KeyLines(lines) != [] ==> Partition(lines, Blocks(lines))
    ensures KeyLines(lines) == [] ==> Blocks(lines) == []
  {
    ScanPartitions(lines);
  }

  /** A suffix that starts with a key line and holds no other is as long as any other such suffix. */
  lemma SuffixesAgree(p: seq<string>, l: seq<string>, q: seq<string>, m: seq<string>)
    requires p + l == q + m && l != [] && m != [] && IsKey(l[0]) && IsKey(m[0])
    requires |KeyLines(l)| == 1 && |KeyLines(m)| == 1
    ensures p == q && l == m
  {
    hide IsKey, KeyLines;
    if |l| > |m| {
      OneKeyOnly(p, l, q, m);
    } else if |m| > |l| {
      OneKeyOnly(q, m, p, l);
    }
    assert p == (p + l)[..|p|] && q == (q + m)[..|q|];
    assert l == (p + l)[|p|..] && m == (q + m)[|q|..];
  }

  lemma OneKeyOnly(p: seq<string>, l: seq<string>, q: seq<string>, m: seq<string>)
    requires p + l == q + m && 0 < |m| < |l| && IsKey(l[0]) && IsKey(m[0])
    ensures |KeyLines(l)| >= 2
  {
    hide IsKey, KeyLines;
    var n := |l| - |m|;
    assert l[n..] == m by {
      assert (p + l)[|p| + n..] == l[n..] && (q + m)[|q|..] == m;
    }
    var a, b := l[..1], l[1..n];
    assert a == [l[0]] && l == a + (b + m) && m == [m[0]] + m[1..];
    KeyLinesConcat(a, b + m);
    KeyLinesConcat(b, m);
    KeyLinesConcat([m[0]], m[1..]);
    KeyLinesOfOne(l[0]);
    KeyLinesOfOne(m[0]);
  }

  lemma {:induction false} KeyLinesAreKeys(l: seq<string>)
    ensures forall k :: k in KeyLines(l) ==> IsKey(k)
  {
    hide IsKey;
    if l != [] {
      KeyLinesAreKeys(l[..|l| - 1]);
    }
  }

  /** Dropping the last of several blocks. */
  lemma DropLast(lines: seq<string>, blocks: seq<Block>)
    requires Partition(lines, blocks) && |blocks| > 1
    ensures var front, last := blocks[..|blocks| - 1], blocks[|blocks| - 1].lines;
            && lines == AllLines(front) + last && last != [] && IsKey(last[0]) && |KeyLines(last)| == 1
            && Partition(AllLines(front), front)
  {
    hide IsKey, ActionName, KeyLines;
    var n := |blocks| - 1;
    var front, last := blocks[..n], blocks[n].lines;
    KeyLinesConcat(AllLines(front), last);
    KeyLinesAreKeys(last);
    assert KeyLines(lines)[n] in KeyLines(last);
    assert KeyLines(lines) == KeyLines(AllLines(front)) + [KeyLines(lines)[n]];
    assert forall i :: 0 <= i < n ==> KeyLines(AllLines(front))[i] == KeyLines(lines)[i] && front[i] == blocks[i];
  }

  lemma SingleBlock(lines: seq<string>, blocks: seq<Block>)
    requires Partition(lines, blocks) && |blocks| == 1
    ensures blocks == [Block(ActionName(KeyLines(lines)[0]), lines)]
  {
    hide IsKey, ActionName, KeyLines;
    assert blocks[..|blocks| - 1] == [] && AllLines([]) == [];
    assert AllLines(blocks) == [] + blocks[0].lines == blocks[0].lines;
  }

  lemma SameNames(lines: seq<string>, a: seq<Block>, b: seq<Block>)
    requires Partition(lines, a) && Partition(lines, b)
    ensures |a| == |b| && forall i :: 0 <= i < |a| ==> a[i].name == b[i].name
  {
    hide IsKey, ActionName, KeyLines, AllLines;
  }

  /** There is only one way to cut a document into such blocks. */
  lemma {:induction false} PartitionUnique(lines: seq<string>, a: seq<Block>, b: seq<Block>)
    requires Partition(lines, a) && Partition(lines, b)
    ensures a == b
    decreases |a|
  {
    hide IsKey, ActionName, KeyLines, Partition, AllLines;
    var n := |a|;
    SameNames(lines, a, b);
    if n > 1 {
      DropLast(lines, a);
      DropLast(lines, b);
      SuffixesAgree(AllLines(a[..n - 1]), a[n - 1].lines, AllLines(b[..n - 1]), b[n - 1].lines);
      PartitionUnique(AllLines(a[..n - 1]), a[..n - 1], b[..n - 1]);
      assert a == a[..n - 1] + [a[n - 1]] && b == b[..n - 1] + [b[n - 1]];
    } else if n == 1 {
      SingleBlock(lines, a);
      SingleBlock(lines, b);
    }
  }

  lemma {:induction false} ClosedGrows(lines: seq<string>, i: nat)
    requires i <= |lines|
    ensures ScanLines(lines[..i]).closed <= ScanLines(lines).closed
    decreases |lines| - i
  {
    hide IsKey, ActionName;
    if i < |lines| {
      assert lines[..i + 1][..i] == lines[..i];
      ClosedGrows(lines, i + 1);
    } else {
      assert lines[..i] == lines;
    }
  }

  lemma {:induction false} FailureStays(a: seq<Block>, b: seq<Block>, codec: Codec)
    requires a <= b && UnmarshalAll(a, codec).None?
    ensures UnmarshalAll(b, codec).None?
    decreases |b|
  {
    hide Unmarshal;
    if a != b {
      FailureStays(a, b[..|b| - 1], codec);
    } else {
      assert a == b;
    }
  }

  /** Scan the lines, turning each block into an action when the next key line, or the end, is
      reached; the first block that does not unmarshal ends the scan with an error. */
  method GetActions(lines: seq<string>, codec: Codec) returns (actions: Option<seq<Action>>)
    ensures actions == UnmarshalAll(Blocks(lines), codec)
  {
    hide IsKey, ActionName, Unmarshal;
    var pending: seq<string> := [];
    var act: Option<string> := None;
    var done: seq<Action> := [];
    for i := 0 to |lines|
      invariant var scan := ScanLines(lines[..i]);
                && act == (if scan.open.None? then None else Some(scan.open.value.name))
                && pending == (if scan.open.None? then scan.lead else scan.open.value.lines)
                && UnmarshalAll(scan.closed, codec) == Some(done)
    {
      assert lines[..i + 1][..i] == lines[..i];
      ghost var scan := ScanLines(lines[..i]);
      if IsKey(lines[i]) {
        if act.Some? {
          var action := Unmarshal(Block(act.value, pending), codec);
          assert (scan.closed + [scan.open.value])[..|scan.closed|] == scan.closed;
          if action.None? {
            assert UnmarshalAll(scan.closed + [scan.open.value], codec).None?;
            ClosedGrows(lines, i + 1);
            FailureStays(scan.closed + [scan.open.value], Blocks(lines), codec);
            return None;
          }
          done := done + [action.value];
          pending := [];
        }
        act := Some(ActionName(lines[i]));
      }
      pending := pending + [lines[i]];
    }
    assert lines[..|lines|] == lines;
    ghost var scan := ScanLines(lines);
    if act.Some? {
      assert (scan.closed + [scan.open.value])[..|scan.closed|] == scan.closed;
      var action := Unmarshal(Block(act.value, pending), codec);
      if action.None? {
        return None;
      }
      done := done + [action.value];
    } else {
      assert scan.closed + [] == scan.closed;
    }
    return Some(done);
  }

  // ---- The whole compiler

  /** A command list as the decoder leaves it: one slice per command. */
  method Cells(cmds: seq<Cmd>) returns (cells: seq<CmdCell>)
    ensures |cells| == |cmds| && Separate(cells)
    ensures forall i :: 0 <= i < |cells| ==> fresh(cells[i].args) && View(cells[i]) == cmds[i]
  {
    cells := [];
    for i := 0 to |cmds|
      invariant |cells| == i && Separate(cells)
      invariant forall j :: 0 <= j < i ==> fresh(cells[j].args) && View(cells[j]) == cmds[j]
    {
      var args := cmds[i].args;
      var slice := new string[|args|](j requires 0 <= j < |args| => args[j]);
      cells := cells + [CmdCell(cmds[i].cmd, slice)];
    }
  }

  method GenerateBlock(a: Action, d: Decoders) returns (block: string, ok: bool)
    ensures Text(block, ok) == BlockText(a, d)
  {
    hide FilesText, CmdsText, JoinLines;
    match a {
      case WriteFiles(files) =>
        block, ok := GenerateFilesBlock(files, d);
      case RunCmd(cmds) =>
        var cells := Cells(cmds);
        assert Views(cells) == cmds;
        block := GenerateCmdsBlock(cells);
        ok := true;
      case Unknown(name, lines) =>
        block := name + "\n\n" + JoinLines(lines);
        ok := true;
    }
  }

  /** `lines` are the scanned lines of a cloud-config; `valid` says whether it is YAML at all. */
  method GenerateScript(valid: bool, lines: seq<string>, codec: Codec, d: Decoders) returns (script: string, ok: bool)
    ensures !valid || UnmarshalAll(Blocks(lines), codec).None? ==> script == "" && !ok
    ensures valid && UnmarshalAll(Blocks(lines), codec).Some? ==>
              Text(script, ok) == ScriptText(UnmarshalAll(Blocks(lines), codec).value, d)
  {
    hide UnmarshalAll, Blocks, BlockText, Header;
    if !valid {
      return "", false;
    }
    var parsed := GetActions(lines, codec);
    if parsed.None? {
      return "", false;
    }
    var actions := parsed.value;
    script := Header();
    assert actions[0..] == actions;
    for i := 0 to |actions|
      invariant script + BlocksText(actions[i..], d).text == Header() + BlocksText(actions, d).text
      invariant BlocksText(actions[i..], d).ok == BlocksText(actions, d).ok
    {
      assert actions[i..][1..] == actions[i + 1..];
      var block, fine := GenerateBlock(actions[i], d);
      if !fine {
        assert script + "" == script;
        return script, false;
      }
      ghost var before := script;
      script := script + "\n\n" + block;
      Paragraph(before, block, BlocksText(actions[i + 1..], d).text);
    }
    script := script + "\n";
    ok := true;
  }

  lemma Paragraph(before: string, block: string, rest: string)
    ensures before + ("\n" + ("\n" + (block + rest))) == before + "\n\n" + block + rest
  {
    assert "\n\n" == "\n" + "\n";
  }

  /** From document to effect: whatever script the compiler returns for a safe document does what the
      document's actions mean. */
  lemma CompilerCorrect(lines: seq<string>, codec: Codec, d: Decoders, st: System)
    requires UnmarshalAll(Blocks(lines), codec).Some?
    requires forall a :: a in UnmarshalAll(Blocks(lines), codec).value ==> ActionSafe(a, d) && PathsGiven(a)
    ensures var actions := UnmarshalAll(Blocks(lines), codec).value;
            && ScriptText(actions, d).ok
            && Parse(ScriptText(actions, d).text).Some?
            && Run(Parse(ScriptText(actions, d).text).value, st) ==
               Meaning(actions, d, st.(log := st.log + HeaderLog()))
  {
    hide Parse, ScriptText, Run, Meaning, UnmarshalAll, Blocks, HeaderLog;
    var actions := UnmarshalAll(Blocks(lines), codec).value;
    ScriptReads(actions, d);
    ScriptMeaning(actions, d, st);
  }
}
