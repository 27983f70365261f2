/** The cloud-config compiler as functions: what each action prints (pkg/cloudinit). */
module CloudInit {
  import opened Common
  import opened Quoting
  import opened Paths
  import opened Shell

  // ---- write_files

  datatype File = File(
    path: string, encoding: string, owner: string, permissions: string, content: string, append: bool)

  /** The two codecs, as far as this package sees them: they decode a string or fail. */
  datatype Decoders = Decoders(base64: string -> Option<string>, gunzip: string -> Option<string>)

  const DEFAULT_OWNER := "root:root"
  const DEFAULT_MODE := "0644"
  const BASE64 := "application/base64"
  const GZIP := "application/x-gzip"
  const PLAIN := "text/plain"

  function FixPath(p: string): string { TrimSpace(p) }

  function FixOwner(o: string): string {
    if TrimSpace(o) != "" then TrimSpace(o) else DEFAULT_OWNER
  }

  function FixPermissions(p: string): string {
    if TrimSpace(p) != "" then TrimSpace(p) else DEFAULT_MODE
  }

  function ToLower(s: string): string {
    if s == [] then []
    else (if 'A' <= s[0] <= 'Z' then [((s[0] as int) + 32) as char] else [s[0]]) + ToLower(s[1..])
  }

  function FixEncoding(e: string): seq<string> {
    var n := TrimSpace(ToLower(e));
    if n == "gz" || n == "gzip" then [GZIP]
    else if n == "gz+base64" || n == "gzip+base64" || n == "gz+b64" || n == "gzip+b64" then [BASE64, GZIP]
    else if n == "base64" || n == "b64" then [BASE64]
    else [PLAIN]
  }

  /** Only the first encoding is ever applied. */
  function FixContent(content: string, encodings: seq<string>, d: Decoders): Option<string> {
    if encodings == [] then Some(content)
    else if encodings[0] == BASE64 then d.base64(content)
    else if encodings[0] == GZIP then d.gunzip(content)
    else if encodings[0] == PLAIN then Some(content)
    else None
  }

  /** A file with its defaults applied and its content decoded. */
  datatype FixedFile = FixedFile(path: string, owner: string, mode: string, content: string, append: bool)

  function Fix(f: File, d: Decoders): Option<FixedFile> {
    match FixContent(f.content, FixEncoding(f.encoding), d)
    case None => None
    case Some(content) =>
      Some(FixedFile(FixPath(f.path), FixOwner(f.owner), FixPermissions(f.permissions), content, f.append))
  }

  predicate HasNewlineSuffix(s: string) {
    s != [] && s[|s| - 1] == '\n'
  }

  /** The text between the here-document operator's line and its delimiter. */
  function Body(content: string): string {
    if HasNewlineSuffix(content) then content else content + ['\n']
  }

  /** `name option "word"` */
  function OptionLine(name: string, option: string, word: string): string {
    name + (" " + (option + (" " + Quote(word))))
  }

  /** `cat > "path" << END` */
  function CatLine(path: string, append: bool): string {
    "cat" + (" " + ((if append then ">>" else ">") + (" " + (Quote(path) + (" " + ("<<" + (" " + END)))))))
  }

  function MkdirText(x: FixedFile): string {
    "\n" + OptionLine("mkdir", "-p", Dir(x.path))
  }

  function CatText(x: FixedFile): string {
    "\n" + (CatLine(x.path, x.append) + ("\n" + (Body(x.content) + END)))
  }

  function ChmodText(x: FixedFile): string {
    if x.mode != DEFAULT_MODE then "\n" + OptionLine("chmod", x.mode, x.path) else ""
  }

  function ChownText(x: FixedFile): string {
    if x.owner != DEFAULT_OWNER then "\n" + OptionLine("chown", x.owner, x.path) else ""
  }

  function FileText(x: FixedFile): string {
    MkdirText(x) + (CatText(x) + (ChmodText(x) + ChownText(x)))
  }

  /** Generated text, and whether generation got to the end. */
  datatype Text = Text(text: string, ok: bool)

  function FilesText(files: seq<File>, d: Decoders): Text {
    if files == [] then Text("", true)
    else
      match Fix(files[0], d)
      case None => Text("", false)
      case Some(x) =>
        var tail := FilesText(files[1..], d);
        Text(FileText(x) + tail.text, tail.ok)
  }

  const FILES_TITLE := "# write_files script block"

  // ---- runcmd

  datatype Cmd = Cmd(cmd: string, args: seq<string>)

  /** A runcmd entry as it stands in the document. */
  datatype Entry = ListEntry(items: seq<Item>) | StringEntry(text: string) | NullEntry | OtherEntry

  datatype Item = StringItem(text: string) | NullItem | OtherItem

  /** Decoding an entry can also crash: the first element of a list is taken without looking whether
      there is one. */
  datatype Decoded = Decoded(cmd: Cmd) | BadEntry | Panic

  /** The items as strings, if they can be; null leaves the empty string. */
  function ItemWords(items: seq<Item>): Option<seq<string>> {
    if items == [] then Some([])
    else if items[0].OtherItem? || ItemWords(items[1..]).None? then None
    else Some([if items[0].StringItem? then items[0].text else ""] + ItemWords(items[1..]).value)
  }

  /** A list is tried first, and null passes for one; what is neither a list of strings nor a string is
      an error. */
  function DecodeEntry(e: Entry): Decoded {
    match e
    case ListEntry(items) =>
      (match ItemWords(items)
       case None => BadEntry
       case Some(words) => if words == [] then Panic else Decoded(Cmd(words[0], words[1..])))
    case StringEntry(text) => Decoded(Cmd("/bin/sh", ["-c", text]))
    case NullEntry => Panic
    case OtherEntry => BadEntry
  }

  const FLAG := "--ignore-preflight-errors=all"

  predicate Contains(s: string, sub: string) {
    exists i :: 0 <= i <= |s| && sub <= s[i..]
  }

  /** A kubeadm init or join given as a shell string. */
  predicate StringKubeadm(c: Cmd) {
    && c.cmd == "/bin/sh" && |c.args| >= 2 && c.args[0] == "-c"
    && (Contains(c.args[1], "kubeadm init") || Contains(c.args[1], "kubeadm join"))
  }

  /** A kubeadm init or join given as a list. */
  predicate ListKubeadm(c: Cmd) {
    c.cmd == "kubeadm" && |c.args| >= 1 && (c.args[0] == "init" || c.args[0] == "join")
  }

  function Hacked(c: Cmd): Cmd {
    if StringKubeadm(c) then c.(args := c.args[1 := c.args[1] + " " + FLAG])
    else if ListKubeadm(c) then c.(args := c.args + [FLAG])
    else c
  }

  function Words(c: Cmd): seq<string> { [c.cmd] + c.args }

  function ArgsText(args: seq<string>): string {
    if args == [] then "" else " " + (Quote(args[0]) + ArgsText(args[1..]))
  }

  function CmdText(c: Cmd): string { Quote(c.cmd) + ArgsText(c.args) }

  function CmdsText(cmds: seq<Cmd>): string {
    if cmds == [] then "" else "\n" + (CmdText(Hacked(cmds[0])) + CmdsText(cmds[1..]))
  }

  const CMDS_TITLE := "# runcmd script block"

  // ---- Scripts

  datatype Action =
    | WriteFiles(files: seq<File>)
    | RunCmd(cmds: seq<Cmd>)
    | Unknown(name: string, lines: seq<string>)

  function JoinLines(lines: seq<string>): string {
    if lines == [] then [] else if |lines| == 1 then lines[0] else lines[0] + "\n" + JoinLines(lines[1..])
  }

  function BlockText(a: Action, d: Decoders): Text {
    match a
    case WriteFiles(files) => Text(FILES_TITLE + FilesText(files, d).text, FilesText(files, d).ok)
    case RunCmd(cmds) => Text(CMDS_TITLE + CmdsText(cmds), true)
    case Unknown(name, lines) => Text(name + "\n\n" + JoinLines(lines), true)
  }

  function SetLine(option: string): string {
    "set" + (" " + ("-o" + (" " + option)))
  }

  function Header(): string {
    "#!/bin/bash" + ("\n" + (("\n" + SetLine("errexit")) +
    (("\n" + SetLine("nounset")) + ("\n" + SetLine("pipefail")))))
  }

  /** The blocks after the header; generation stops before the first block that fails. */
  function BlocksText(actions: seq<Action>, d: Decoders): Text {
    if actions == [] then Text("\n", true)
    else
      var b := BlockText(actions[0], d);
      if !b.ok then Text("", false)
      else
        var tail := BlocksText(actions[1..], d);
        Text("\n" + ("\n" + (b.text + tail.text)), tail.ok)
  }

  function ScriptText(actions: seq<Action>, d: Decoders): Text {
    var b := BlocksText(actions, d);
    Text(Header() + b.text, b.ok)
  }

  // ---- Decoding

  lemma {:induction false} ItemWordsExact(items: seq<Item>)
    ensures ItemWords(items).Some? <==> OtherItem !in items
    ensures ItemWords(items).Some? ==>
              && |ItemWords(items).value| == |items|
              && forall i :: 0 <= i < |items| ==>
                   ItemWords(items).value[i] == if items[i].StringItem? then items[i].text else ""
  {
    if items != [] {
      ItemWordsExact(items[1..]);
      assert items == [items[0]] + items[1..];
    }
  }

  /** Decoding crashes on an empty list and on null and on nothing else; it fails on a list with an item
      that is no string and on entries of other kinds; otherwise a list keeps its words, in order, and a
      string becomes a shell command, flagged when it mentions kubeadm init or join. */
  lemma EntriesDecoded(e: Entry)
    ensures DecodeEntry(e).Panic? <==> e == ListEntry([]) || e == NullEntry
    ensures DecodeEntry(e).BadEntry? <==> e.OtherEntry? || (e.ListEntry? && OtherItem in e.items)
    ensures DecodeEntry(e).Decoded? && e.ListEntry? ==>
              && |Words(DecodeEntry(e).cmd)| == |e.items|
              && forall i :: 0 <= i < |e.items| ==>
                   Words(DecodeEntry(e).cmd)[i] == if e.items[i].StringItem? then e.items[i].text else ""
    ensures e.StringEntry? ==>
              && Words(DecodeEntry(e).cmd) == ["/bin/sh", "-c", e.text]
              && (StringKubeadm(DecodeEntry(e).cmd) <==>
                  Contains(e.text, "kubeadm init") || Contains(e.text, "kubeadm join"))
  {
    hide Contains;
    if e.ListEntry? {
      ItemWordsExact(e.items);
    } else if e.StringEntry? {
      assert Words(DecodeEntry(e).cmd) == ["/bin/sh"] + ["-c", e.text];
    }
  }

  /** The names an encoding goes by, white space and case aside. */
  predicate Named(encoding: string, names: set<string>) {
    TrimSpace(ToLower(encoding)) in names
  }

  predicate Zipped(encoding: string) {
    Named(encoding, {"gz", "gzip"})
  }

  predicate InBase64(encoding: string) {
    Named(encoding, {"base64", "b64"})
  }

  predicate ZippedUnderBase64(encoding: string) {
    Named(encoding, {"gz+base64", "gzip+base64", "gz+b64", "gzip+b64"})
  }

  /** What an encoding declares: every layer it names is removed. */
  function Intended(content: string, encoding: string, d: Decoders): Option<string> {
    if Zipped(encoding) then d.gunzip(content)
    else if InBase64(encoding) then d.base64(content)
    else if ZippedUnderBase64(encoding) then
      (match d.base64(content)
       case None => None
       case Some(zipped) => d.gunzip(zipped))
    else Some(content)
  }

  lemma EncodingsDiffer()
    ensures BASE64 != GZIP && BASE64 != PLAIN && GZIP != PLAIN
  {
    assert |BASE64| == 18 && |GZIP| == 18 && |PLAIN| == 10 && BASE64[12] != GZIP[12];
  }

  lemma NamesDiffer(encoding: string)
    ensures !(Zipped(encoding) && InBase64(encoding)) && !(Zipped(encoding) && ZippedUnderBase64(encoding))
    ensures !(InBase64(encoding) && ZippedUnderBase64(encoding))
  {
    hide TrimSpace, ToLower;
    assert |"gz"| == 2 && |"gzip"| == 4 && |"base64"| == 6 && |"b64"| == 3;
    assert |"gz+base64"| == 9 && |"gzip+base64"| == 11 && |"gz+b64"| == 6 && |"gzip+b64"| == 8;
    assert "base64"[0] != "gz+b64"[0];
  }

  /** What comes out, by the name of the encoding: one layer is removed, the outermost. */
  lemma DecodedByName(encoding: string, content: string, d: Decoders)
    ensures FixContent(content, FixEncoding(encoding), d) ==
            if Zipped(encoding) then d.gunzip(content)
            else if InBase64(encoding) || ZippedUnderBase64(encoding) then d.base64(content)
            else Some(content)
  {
    hide TrimSpace, ToLower;
    EncodingsDiffer();
    NamesDiffer(encoding);
  }

  /** Content comes out as its encoding declares, on every input, unless it is zipped under base64 and
      the zipped layer, which is never removed, would have unzipped to something else or not at all. */
  lemma DecodedAsDeclared(encoding: string, content: string, d: Decoders)
    ensures FixContent(content, FixEncoding(encoding), d) == Intended(content, encoding, d) <==>
            (ZippedUnderBase64(encoding) && d.base64(content).Some? ==>
               d.gunzip(d.base64(content).value) == d.base64(content))
  {
    DecodedByName(encoding, content, d);
    NamesDiffer(encoding);
    hide FixEncoding, FixContent, Named;
  }

  /** In particular content that would unzip stays zipped. */
  lemma GzipUnderBase64Stays(encoding: string, content: string, d: Decoders, zipped: string, text: string)
    requires ZippedUnderBase64(encoding)
    requires d.base64(content) == Some(zipped) && d.gunzip(zipped) == Some(text) && text != zipped
    ensures FixContent(content, FixEncoding(encoding), d) == Some(zipped)
    ensures Intended(content, encoding, d) == Some(text)
  {
    DecodedByName(encoding, content, d);
    NamesDiffer(encoding);
    hide FixEncoding, FixContent, Named;
  }

  // ---- Attributes

  /** Case is ignored letter by letter. */
  lemma {:induction false} LowerExact(s: string)
    ensures |ToLower(s)| == |s|
    ensures forall i :: 0 <= i < |s| ==>
              ToLower(s)[i] ==
              if 'A' <= s[i] <= 'Z' then ((s[i] as int) - ('A' as int) + ('a' as int)) as char else s[i]
  {
    if s != [] {
      LowerExact(s[1..]);
    }
  }

  /** Path, owner and mode are taken without the white space around them; an owner or mode of nothing
      else gives the default. */
  lemma AttributesExact(f: File, d: Decoders, left: string, s: string, right: string)
    requires Fix(f, d).Some? && Blank(left) && Tight(s) && Blank(right)
    ensures var x := Fix(f, d).value;
            && (f.path == left + s + right ==> x.path == s)
            && (f.owner == left + s + right ==> x.owner == if s == "" then "root:root" else s)
            && (f.permissions == left + s + right ==> x.mode == if s == "" then "0644" else s)
            && FixContent(f.content, FixEncoding(f.encoding), d) == Some(x.content) && x.append == f.append
  {
    TrimExact(left, s, right);
    hide TrimSpace, FixEncoding, FixContent;
  }
}
