/** Running a generated script: a file system of paths, and the commands issued. */
module ShellExec {
  import opened Common
  import opened Paths
  import opened Shell
  import opened CloudInit
  import opened CloudInitMeaning

  datatype FileState = FileState(content: string, mode: string, owner: string)

  /** Files by path, the directories known to exist, and the simple commands issued so far. */
  datatype System = System(files: map<string, FileState>, dirs: set<string>, log: seq<seq<string>>)

  /** A file that a redirection creates: the shell runs as root with the usual umask. */
  const CREATED := FileState("", DEFAULT_MODE, DEFAULT_OWNER)

  function Before(st: System, path: string): FileState {
    if path in st.files then st.files[path] else CREATED
  }

  function WriteTo(st: System, path: string, append: bool, text: string): System {
    var b := Before(st, path);
    st.(files := st.files[path := b.(content := (if append then b.content else "") + text)])
  }

  /** One command. A failing command ends the script, because of errexit. Commands other than mkdir,
      chmod and chown are issued; what they do is not modelled. */
  function Exec(c: Command, st: System): Option<System> {
    if c.out.Some? then
      if c.words == ["cat"] && c.input.Some? && c.out.value.path != "" && Dir(c.out.value.path) in st.dirs
      then Some(WriteTo(st, c.out.value.path, c.out.value.append, c.input.value))
      else None
    else if c.input.Some? then None
    else
      var issued := st.(log := st.log + [c.words]);
      if |c.words| != 3 then Some(issued)
      else if c.words[0] == "mkdir" && c.words[1] == "-p" then Some(issued.(dirs := st.dirs + {c.words[2]}))
      else if c.words[0] == "chmod" then
        if c.words[2] !in st.files then None
        else Some(issued.(files := st.files[c.words[2] := st.files[c.words[2]].(mode := c.words[1])]))
      else if c.words[0] == "chown" then
        if c.words[2] !in st.files then None
        else Some(issued.(files := st.files[c.words[2] := st.files[c.words[2]].(owner := c.words[1])]))
      else Some(issued)
  }

  function Run(cs: seq<Command>, st: System): Option<System> {
    if cs == [] then Some(st)
    else
      match Exec(cs[0], st)
      case None => None
      case Some(next) => Run(cs[1..], next)
  }

  // ---- What the actions mean

  /** The simple commands a file write issues. */
  function FileLog(x: FixedFile): seq<seq<string>> {
    [["mkdir", "-p", Dir(x.path)]]
    + (if x.mode != DEFAULT_MODE then [["chmod", x.mode, x.path]] else [])
    + (if x.owner != DEFAULT_OWNER then [["chown", x.owner, x.path]] else [])
  }

  /** What writing a file does: the content replaces or extends what was there; a mode or owner that
      is the default is left as it was found. */
  function Effect(x: FixedFile, st: System): System {
    var b := Before(st, x.path);
    System(
      st.files[x.path := FileState((if x.append then b.content else "") + Body(x.content),
                                   if x.mode != DEFAULT_MODE then x.mode else b.mode,
                                   if x.owner != DEFAULT_OWNER then x.owner else b.owner)],
      st.dirs + {Dir(x.path)},
      st.log + FileLog(x))
  }

  /** What the file entry declares: the same, with its own mode and owner. */
  function Declared(x: FixedFile, st: System): System {
    var b := Before(st, x.path);
    Effect(x, st).(files := st.files[x.path :=
      FileState((if x.append then b.content else "") + Body(x.content), x.mode, x.owner)])
  }

  function FilesEffect(files: seq<File>, d: Decoders, st: System): System {
    if files == [] then st
    else
      match Fix(files[0], d)
      case None => st
      case Some(x) => FilesEffect(files[1..], d, Effect(x, st))
  }

  /** The actions' own meaning: write the files, issue the commands, in document order. */
  function Meaning(actions: seq<Action>, d: Decoders, st: System): Option<System> {
    if actions == [] then Some(st)
    else
      match actions[0]
      case WriteFiles(files) => Meaning(actions[1..], d, FilesEffect(files, d, st))
      case RunCmd(cmds) =>
        (match Run(CmdsCommands(cmds), st)
         case None => None
         case Some(next) => Meaning(actions[1..], d, next))
      case Unknown(_, _) => None
  }

  // ---- Running is meaning

  lemma {:induction false} RunConcat(a: seq<Command>, b: seq<Command>, st: System)
    ensures Run(a + b, st) == match Run(a, st) { case None => None case Some(next) => Run(b, next) }
  {
    if a == [] {
      assert a + b == b;
    } else {
      assert (a + b)[1..] == a[1..] + b;
      match Exec(a[0], st) {
        case None =>
        case Some(next) => RunConcat(a[1..], b, next);
      }
    }
  }

  lemma RunOne(c: Command, cs: seq<Command>, st: System)
    requires Exec(c, st).Some?
    ensures Run([c] + cs, st) == Run(cs, Exec(c, st).value)
  {
    assert ([c] + cs)[1..] == cs;
  }

  lemma ExecMkdir(dir: string, st: System)
    ensures Exec(Command(["mkdir", "-p", dir], None, None), st) ==
            Some(st.(dirs := st.dirs + {dir}, log := st.log + [["mkdir", "-p", dir]]))
  {}

  lemma ExecChmod(mode: string, path: string, st: System)
    requires path in st.files
    ensures Exec(Command(["chmod", mode, path], None, None), st) ==
            Some(st.(files := st.files[path := st.files[path].(mode := mode)], log := st.log + [["chmod", mode, path]]))
  {}

  lemma ExecChown(owner: string, path: string, st: System)
    requires path in st.files
    ensures Exec(Command(["chown", owner, path], None, None), st) ==
            Some(st.(files := st.files[path := st.files[path].(owner := owner)],
                     log := st.log + [["chown", owner, path]]))
  {}

  lemma FileRuns(x: FixedFile, st: System)
    requires x.path != ""
    ensures Run(FileCommands(x), st) == Some(Effect(x, st))
  {
    hide Exec, Dir, Body, Run, WriteTo, Effect, AttributeLog, FileLog, AttributesSet;
    var mkdir := Command(["mkdir", "-p", Dir(x.path)], None, None);
    var cat := Command(["cat"], Some(Redirection(x.path, x.append)), Some(Body(x.content)));
    var rest := AttributeCommands(x);
    var s1 := st.(dirs := st.dirs + {Dir(x.path)}, log := st.log + [["mkdir", "-p", Dir(x.path)]]);
    var s2 := WriteTo(s1, x.path, x.append, Body(x.content));
    ExecMkdir(Dir(x.path), st);
    ExecCat(x.path, x.append, Body(x.content), s1);
    FileCommandsSplit(x);
    RunOne(mkdir, [cat] + rest, st);
    RunOne(cat, rest, s1);
    WrittenTo(x.path, x.append, Body(x.content), s1);
    RunAttributes(x, s2);
    EffectInSteps(x, st);
  }

  function AttributeCommands(x: FixedFile): seq<Command> {
    (if x.mode != DEFAULT_MODE then [Command(["chmod", x.mode, x.path], None, None)] else [])
    + (if x.owner != DEFAULT_OWNER then [Command(["chown", x.owner, x.path], None, None)] else [])
  }

  lemma FileCommandsSplit(x: FixedFile)
    ensures FileCommands(x) ==
            [Command(["mkdir", "-p", Dir(x.path)], None, None)]
            + ([Command(["cat"], Some(Redirection(x.path, x.append)), Some(Body(x.content)))] + AttributeCommands(x))
  {
    hide Dir, Body;
  }

  lemma WrittenTo(path: string, append: bool, text: string, st: System)
    ensures path in WriteTo(st, path, append, text).files
  {}

  /** The state after chmod and chown, where they are issued. */
  function AttributesSet(x: FixedFile, st: System): System
    requires x.path in st.files
  {
    st.(files := st.files[x.path := st.files[x.path].(
                   mode := if x.mode != DEFAULT_MODE then x.mode else st.files[x.path].mode,
                   owner := if x.owner != DEFAULT_OWNER then x.owner else st.files[x.path].owner)],
        log := st.log + AttributeLog(x))
  }

  lemma EffectInSteps(x: FixedFile, st: System)
    ensures var s1 := st.(dirs := st.dirs + {Dir(x.path)}, log := st.log + [["mkdir", "-p", Dir(x.path)]]);
            var s2 := WriteTo(s1, x.path, x.append, Body(x.content));
            x.path in s2.files && AttributesSet(x, s2) == Effect(x, st)
  {
    hide Dir, Body;
    var s1 := st.(dirs := st.dirs + {Dir(x.path)}, log := st.log + [["mkdir", "-p", Dir(x.path)]]);
    var s2 := WriteTo(s1, x.path, x.append, Body(x.content));
    assert AttributesSet(x, s2).files == Effect(x, st).files;
    assert FileLog(x) == [["mkdir", "-p", Dir(x.path)]] + AttributeLog(x);
    RegroupLog(st.log, [["mkdir", "-p", Dir(x.path)]], AttributeLog(x));
  }

  lemma ExecCat(path: string, append: bool, text: string, st: System)
    requires path != "" && Dir(path) in st.dirs
    ensures Exec(Command(["cat"], Some(Redirection(path, append)), Some(text)), st) ==
            Some(WriteTo(st, path, append, text))
  {}

  function AttributeLog(x: FixedFile): seq<seq<string>> {
    (if x.mode != DEFAULT_MODE then [["chmod", x.mode, x.path]] else [])
    + (if x.owner != DEFAULT_OWNER then [["chown", x.owner, x.path]] else [])
  }

  lemma RunAttributes(x: FixedFile, st: System)
    requires x.path in st.files
    ensures Run(AttributeCommands(x), st) == Some(AttributesSet(x, st))
  {
    hide Exec;
    var f := st.files[x.path];
    var chmod := if x.mode != DEFAULT_MODE then [Command(["chmod", x.mode, x.path], None, None)] else [];
    var chown := if x.owner != DEFAULT_OWNER then [Command(["chown", x.owner, x.path], None, None)] else [];
    var log1 := if x.mode != DEFAULT_MODE then [["chmod", x.mode, x.path]] else [];
    var f1 := if x.mode != DEFAULT_MODE then f.(mode := x.mode) else f;
    var s1 := st.(files := st.files[x.path := f1], log := st.log + log1);
    assert Run(chmod + chown, st) == Run(chown, s1) by {
      if x.mode != DEFAULT_MODE {
        ExecChmod(x.mode, x.path, st);
        RunOne(chmod[0], chown, st);
      } else {
        assert chmod + chown == chown && st.files[x.path := f] == st.files && st.log + [] == st.log;
      }
    }
    if x.owner != DEFAULT_OWNER {
      ExecChown(x.owner, x.path, s1);
      RunOne(chown[0], [], s1);
      assert chown == [chown[0]] + [];
      assert s1.files[x.path := f1.(owner := x.owner)] == st.files[x.path := f1.(owner := x.owner)];
      assert s1.log + [["chown", x.owner, x.path]] == st.log + AttributeLog(x);
    } else {
      assert log1 + [] == log1;
    }
  }

  lemma {:induction false} FilesRun(files: seq<File>, d: Decoders, st: System)
    requires forall f :: f in files ==> Fix(f, d).Some? && FixPath(f.path) != ""
    ensures Run(FilesCommands(files, d), st) == Some(FilesEffect(files, d, st))
  {
    if files != [] {
      hide FileCommands, Effect, Exec, TrimSpace;
      assert files[0] in files;
      var x := Fix(files[0], d).value;
      FileRuns(x, st);
      RunConcat(FileCommands(x), FilesCommands(files[1..], d), st);
      FilesRun(files[1..], d, Effect(x, st));
    }
  }

  /** Every path is given. */
  ghost predicate PathsGiven(a: Action) {
    a.WriteFiles? ==> forall f :: f in a.files ==> FixPath(f.path) != ""
  }

  lemma {:induction false} ActionsRun(actions: seq<Action>, d: Decoders, st: System)
    requires forall a :: a in actions ==> ActionSafe(a, d) && PathsGiven(a)
    ensures Run(ActionsCommands(actions, d), st) == Meaning(actions, d, st)
  {
    if actions != [] {
      hide FilesCommands, CmdsCommands, FilesEffect, Exec, Fix, FileSafe, CmdSafe, TrimSpace, FixPath;
      var a := actions[0];
      assert a in actions;
      RunConcat(ActionCommands(a, d), ActionsCommands(actions[1..], d), st);
      match a {
        case WriteFiles(files) =>
          FilesRun(files, d, st);
          ActionsRun(actions[1..], d, FilesEffect(files, d, st));
        case RunCmd(cmds) =>
          var r := Run(CmdsCommands(cmds), st);
          if r.Some? {
            ActionsRun(actions[1..], d, r.value);
          }
      }
    }
  }

  function HeaderLog(): seq<seq<string>> {
    [["set", "-o", "errexit"], ["set", "-o", "nounset"], ["set", "-o", "pipefail"]]
  }

  lemma HeaderRuns(st: System)
    ensures Run(HeaderCommands(), st) == Some(st.(log := st.log + HeaderLog()))
  {
    var o1, o2, o3 := SetOption("errexit"), SetOption("nounset"), SetOption("pipefail");
    SetRuns("errexit", st);
    var s1 := Exec(o1, st).value;
    SetRuns("nounset", s1);
    var s2 := Exec(o2, s1).value;
    SetRuns("pipefail", s2);
    var s3 := Exec(o3, s2).value;
    hide Exec, SetOption;
    assert HeaderCommands() == [o1] + ([o2] + ([o3] + []));
    RunOne(o1, [o2] + ([o3] + []), st);
    RunOne(o2, [o3] + [], s1);
    RunOne(o3, [], s2);
    assert s3.log == st.log + HeaderLog();
  }

  lemma SetRuns(option: string, st: System)
    ensures Exec(SetOption(option), st) == Some(st.(log := st.log + [["set", "-o", option]]))
  {}

  /** Compiling preserves meaning: the script a shell reads does what the actions mean, command by
      command and file by file, from any starting state. */
  lemma ScriptMeaning(actions: seq<Action>, d: Decoders, st: System)
    requires forall a :: a in actions ==> ActionSafe(a, d) && PathsGiven(a)
    ensures Parse(ScriptText(actions, d).text).Some?
    ensures Run(Parse(ScriptText(actions, d).text).value, st) ==
            Meaning(actions, d, st.(log := st.log + HeaderLog()))
  {
    hide Parse, ScriptText, Run, Meaning, HeaderCommands, ActionsCommands, HeaderLog;
    ScriptReads(actions, d);
    HeaderRuns(st);
    RunConcat(HeaderCommands(), ActionsCommands(actions, d), st);
    ActionsRun(actions, d, st.(log := st.log + HeaderLog()));
  }

  // ---- Modes and owners

  /** A file ends up with the mode and owner it declares, exactly when the ones it leaves to the
      defaults are what was already there. */
  lemma EffectIsDeclared(x: FixedFile, st: System)
    ensures Effect(x, st) == Declared(x, st) <==>
            && (x.mode == DEFAULT_MODE ==> Before(st, x.path).mode == DEFAULT_MODE)
            && (x.owner == DEFAULT_OWNER ==> Before(st, x.path).owner == DEFAULT_OWNER)
  {
    hide Body, FileLog, Dir;
    var e, w := Effect(x, st).files[x.path], Declared(x, st).files[x.path];
    assert e == w ==> Effect(x, st).files == Declared(x, st).files;
  }

  /** So a second entry for the same path that declares the default mode keeps the first one's. */
  lemma DefaultModeNotRestored(x: FixedFile, st: System)
    requires x.mode == DEFAULT_MODE && x.path in st.files && st.files[x.path].mode == "0600"
    ensures Effect(x, st).files[x.path].mode == "0600" != x.mode
  {
    hide Body, FileLog, Dir;
    assert DEFAULT_MODE[2] != "0600"[2];
  }

  // ---- The files and commands of an action list

  /** The files an action list writes, in document order. */
  function AllFiles(actions: seq<Action>): seq<File> {
    if actions == [] then []
    else (if actions[0].WriteFiles? then actions[0].files else []) + AllFiles(actions[1..])
  }

  function CmdsLog(cmds: seq<Cmd>): seq<seq<string>> {
    if cmds == [] then [] else [CmdCommand(cmds[0]).words] + CmdsLog(cmds[1..])
  }

  /** The commands the actions issue, in document order. */
  function ActionsLog(actions: seq<Action>, d: Decoders): seq<seq<string>> {
    if actions == [] then []
    else (match actions[0]
          case WriteFiles(files) => FilesLog(files, d)
          case RunCmd(cmds) => CmdsLog(cmds)
          case Unknown(_, _) => []) + ActionsLog(actions[1..], d)
  }

  function FilesLog(files: seq<File>, d: Decoders): seq<seq<string>> {
    if files == [] then []
    else
      match Fix(files[0], d)
      case None => []
      case Some(x) => FileLog(x) + FilesLog(files[1..], d)
  }

  lemma EffectLogged(x: Option<FixedFile>, st: System)
    ensures x.Some? ==> Effect(x.value, st).log == st.log + FileLog(x.value)
  {}

  lemma RegroupLog(a: seq<seq<string>>, b: seq<seq<string>>, c: seq<seq<string>>)
    ensures (a + b) + c == a + (b + c)
    ensures a + [] == a
  {}

  lemma {:induction false} FilesLogged(files: seq<File>, d: Decoders, st: System)
    ensures FilesEffect(files, d, st).log == st.log + FilesLog(files, d)
  {
    hide FileLog, Fix, Effect;
    if files == [] || Fix(files[0], d).None? {
      RegroupLog(st.log, [], []);
    } else {
      var x := Fix(files[0], d).value;
      EffectLogged(Some(x), st);
      FilesLogged(files[1..], d, Effect(x, st));
      RegroupLog(st.log, FileLog(x), FilesLog(files[1..], d));
    }
  }

  // ---- Contents, whatever the commands are

  function Contents(files: map<string, FileState>): map<string, string> {
    map p | p in files :: files[p].content
  }

  /** Overwrite or append, file by file. */
  function Fold(files: seq<File>, d: Decoders, contents: map<string, string>): map<string, string> {
    if files == [] then contents
    else
      match Fix(files[0], d)
      case None => contents
      case Some(x) =>
        var found := if x.append && x.path in contents then contents[x.path] else "";
        Fold(files[1..], d, contents[x.path := found + Body(x.content)])
  }

  lemma {:induction false} FoldConcat(a: seq<File>, b: seq<File>, d: Decoders, contents: map<string, string>)
    requires forall f :: f in a ==> Fix(f, d).Some?
    ensures Fold(a + b, d, contents) == Fold(b, d, Fold(a, d, contents))
  {
    hide Fix, Body;
    if a == [] {
      assert a + b == b;
    } else {
      assert (a + b)[1..] == a[1..] + b && a[0] in a;
      var x := Fix(a[0], d).value;
      var found := if x.append && x.path in contents then contents[x.path] else "";
      FoldConcat(a[1..], b, d, contents[x.path := found + Body(x.content)]);
    }
  }

  lemma EffectContents(x: FixedFile, st: System)
    ensures var found := if x.append && x.path in st.files then st.files[x.path].content else "";
            Contents(Effect(x, st).files) == Contents(st.files)[x.path := found + Body(x.content)]
  {
    hide Body, Dir, FileLog;
  }

  lemma {:induction false} FilesContents(files: seq<File>, d: Decoders, st: System)
    ensures Contents(FilesEffect(files, d, st).files) == Fold(files, d, Contents(st.files))
  {
    hide Fix, Body, Effect;
    if files != [] && Fix(files[0], d).Some? {
      var x := Fix(files[0], d).value;
      EffectContents(x, st);
      FilesContents(files[1..], d, Effect(x, st));
    }
  }

  lemma CmdKeepsContents(c: Command, st: System)
    requires c.out.None? && Exec(c, st).Some?
    ensures Contents(Exec(c, st).value.files) == Contents(st.files)
    ensures Exec(c, st).value.log == st.log + [c.words]
  {}

  lemma {:induction false} CmdsKeepContents(cmds: seq<Cmd>, st: System)
    requires Run(CmdsCommands(cmds), st).Some?
    ensures Contents(Run(CmdsCommands(cmds), st).value.files) == Contents(st.files)
    ensures Run(CmdsCommands(cmds), st).value.log == st.log + CmdsLog(cmds)
  {
    if cmds != [] {
      hide Exec, Contents, Hacked;
      var c, rest := CmdCommand(cmds[0]), CmdsCommands(cmds[1..]);
      assert CmdsCommands(cmds)[0] == c && CmdsCommands(cmds)[1..] == rest;
      CmdKeepsContents(c, st);
      CmdsKeepContents(cmds[1..], Exec(c, st).value);
      RegroupLog(st.log, [c.words], CmdsLog(cmds[1..]));
    }
  }

  lemma {:induction false} MeaningContents(actions: seq<Action>, d: Decoders, st: System)
    requires forall a :: a in actions ==> ActionSafe(a, d)
    requires Meaning(actions, d, st).Some?
    ensures Contents(Meaning(actions, d, st).value.files) == Fold(AllFiles(actions), d, Contents(st.files))
    ensures Meaning(actions, d, st).value.log == st.log + ActionsLog(actions, d)
  {
    if actions == [] {
      RegroupLog(st.log, [], []);
    } else {
      var a, rest := actions[0], actions[1..];
      assert a in actions;
      assert a.WriteFiles? ==> forall f :: f in a.files ==> Fix(f, d).Some?;
      assert !a.Unknown?;
      hide FilesEffect, FilesLog, CmdsLog, ActionSafe, Run, Fix, CmdsCommands, Contents, Fold;
      if a.WriteFiles? {
        FilesContents(a.files, d, st);
        FilesLogged(a.files, d, st);
        MeaningContents(rest, d, FilesEffect(a.files, d, st));
        FoldConcat(a.files, AllFiles(rest), d, Contents(st.files));
        RegroupLog(st.log, FilesLog(a.files, d), ActionsLog(rest, d));
      } else {
        CmdsKeepContents(a.cmds, st);
        MeaningContents(rest, d, Run(CmdsCommands(a.cmds), st).value);
        assert [] + AllFiles(rest) == AllFiles(rest);
        RegroupLog(st.log, CmdsLog(a.cmds), ActionsLog(rest, d));
      }
    }
  }

  /** From any state and for any commands between the files: when the script runs to its end, the
      contents of the file system are the ordered overwrite and append of the newline-terminated
      contents, and the commands issued are exactly the header's and the actions', in document order. */
  lemma ScriptFolds(actions: seq<Action>, d: Decoders, st: System)
    requires forall a :: a in actions ==> ActionSafe(a, d) && PathsGiven(a)
    ensures Parse(ScriptText(actions, d).text).Some?
    ensures var done := Run(Parse(ScriptText(actions, d).text).value, st);
            done.Some? ==>
              && Contents(done.value.files) == Fold(AllFiles(actions), d, Contents(st.files))
              && done.value.log == st.log + HeaderLog() + ActionsLog(actions, d)
  {
    hide Parse, ScriptText, Run, Meaning, HeaderLog, ActionsLog, ActionSafe, Contents, Fold;
    var begun := st.(log := st.log + HeaderLog());
    ScriptMeaning(actions, d, st);
    if Meaning(actions, d, begun).Some? {
      MeaningContents(actions, d, begun);
    }
  }

  // ---- Path by path

  function StateAt(st: System, path: string): Option<FileState> {
    if path in st.files then Some(st.files[path]) else None
  }

  /** The command changes the mode or owner of some file. */
  predicate Retargets(c: Command) {
    |c.words| == 3 && (c.words[0] == "chmod" || c.words[0] == "chown")
  }

  /** No command of the list changes the mode or owner of this file. */
  predicate CmdsSpare(cmds: seq<Cmd>, path: string) {
    forall c :: c in cmds && Retargets(CmdCommand(c)) ==> CmdCommand(c).words[2] != path
  }

  predicate Spares(actions: seq<Action>, path: string) {
    forall a :: a in actions && a.RunCmd? ==> CmdsSpare(a.cmds, path)
  }

  predicate Writes(files: seq<File>, path: string) {
    exists f :: f in files && FixPath(f.path) == path
  }

  /** No other entry of the list has this one's path. */
  ghost predicate Once(files: seq<File>, i: nat)
    requires i < |files|
  {
    forall j :: 0 <= j < |files| && j != i ==> FixPath(files[j].path) != FixPath(files[i].path)
  }

  /** What an entry declares its file to be. */
  function DeclaredState(f: File, d: Decoders): FileState
    requires Fix(f, d).Some?
  {
    FileState(Body(Fix(f, d).value.content), FixPermissions(f.permissions), FixOwner(f.owner))
  }

  lemma ExecSpares(c: Command, st: System, path: string)
    requires c.out.None? && Exec(c, st).Some? && (Retargets(c) ==> c.words[2] != path)
    ensures StateAt(Exec(c, st).value, path) == StateAt(st, path)
  {}

  lemma {:induction false} CmdsKeep(cmds: seq<Cmd>, st: System, path: string)
    requires Run(CmdsCommands(cmds), st).Some? && CmdsSpare(cmds, path)
    ensures StateAt(Run(CmdsCommands(cmds), st).value, path) == StateAt(st, path)
  {
    if cmds != [] {
      hide Exec, StateAt, Hacked, Retargets;
      var c, rest := CmdCommand(cmds[0]), CmdsCommands(cmds[1..]);
      assert CmdsCommands(cmds)[0] == c && CmdsCommands(cmds)[1..] == rest && cmds[0] in cmds;
      ExecSpares(c, st, path);
      CmdsKeep(cmds[1..], Exec(c, st).value, path);
    }
  }

  lemma EffectAt(f: File, d: Decoders, st: System, path: string)
    requires Fix(f, d).Some?
    ensures path != FixPath(f.path) ==> StateAt(Effect(Fix(f, d).value, st), path) == StateAt(st, path)
    ensures path == FixPath(f.path) && StateAt(st, path).None? ==>
              StateAt(Effect(Fix(f, d).value, st), path) == Some(DeclaredState(f, d))
  {
    hide Body, TrimSpace, FileLog, Dir, FixContent, FixEncoding;
    var b := Body(Fix(f, d).value.content);
    assert "" + b == b;
  }

  lemma {:induction false} FilesKeep(files: seq<File>, d: Decoders, st: System, path: string)
    requires !Writes(files, path)
    ensures StateAt(FilesEffect(files, d, st), path) == StateAt(st, path)
  {
    hide Fix, Effect, StateAt, FixPath;
    if files != [] && Fix(files[0], d).Some? {
      assert files[0] in files;
      EffectAt(files[0], d, st, path);
      FilesKeep(files[1..], d, Effect(Fix(files[0], d).value, st), path);
    }
  }

  lemma {:induction false} FilesWrite(files: seq<File>, d: Decoders, st: System, i: nat)
    requires i < |files| && Once(files, i) && forall f :: f in files ==> Fix(f, d).Some?
    requires StateAt(st, FixPath(files[i].path)).None?
    ensures StateAt(FilesEffect(files, d, st), FixPath(files[i].path)) == Some(DeclaredState(files[i], d))
  {
    hide Fix, Effect, StateAt, FixPath, DeclaredState;
    var f, rest, path := files[0], files[1..], FixPath(files[i].path);
    assert f in files && files[i] in files;
    assert forall j :: 0 < j < |files| ==> rest[j - 1] == files[j];
    EffectAt(f, d, st, path);
    var next := Effect(Fix(f, d).value, st);
    if i == 0 {
      FilesKeep(rest, d, next, path);
    } else {
      FilesWrite(rest, d, next, i - 1);
    }
  }

  lemma {:induction false} MeaningKeeps(actions: seq<Action>, d: Decoders, st: System, path: string)
    requires Meaning(actions, d, st).Some? && !Writes(AllFiles(actions), path) && Spares(actions, path)
    ensures StateAt(Meaning(actions, d, st).value, path) == StateAt(st, path)
  {
    if actions != [] {
      hide FilesEffect, StateAt, Run, CmdsSpare, CmdsCommands, FixPath;
      var a, rest := actions[0], actions[1..];
      assert a in actions && AllFiles(actions) == (if a.WriteFiles? then a.files else []) + AllFiles(rest);
      assert forall f :: f in AllFiles(rest) ==> f in AllFiles(actions);
      if a.WriteFiles? {
        assert forall f :: f in a.files ==> f in AllFiles(actions);
        FilesKeep(a.files, d, st, path);
        MeaningKeeps(rest, d, FilesEffect(a.files, d, st), path);
      } else {
        CmdsKeep(a.cmds, st, path);
        MeaningKeeps(rest, d, Run(CmdsCommands(a.cmds), st).value, path);
      }
    }
  }

  lemma OnceSplit(a: seq<File>, b: seq<File>, i: nat)
    requires i < |a + b| && Once(a + b, i)
    ensures i < |a| ==> Once(a, i) && !Writes(b, FixPath(a[i].path))
    ensures i >= |a| ==> Once(b, i - |a|) && !Writes(a, FixPath(b[i - |a|].path))
  {
    hide FixPath;
    var ab := a + b;
    assert forall j :: 0 <= j < |a| ==> ab[j] == a[j];
    assert forall j :: 0 <= j < |b| ==> ab[j + |a|] == b[j];
    if i < |a| {
      forall j | 0 <= j < |b| ensures FixPath(b[j].path) != FixPath(a[i].path) {
        assert FixPath(ab[j + |a|].path) != FixPath(ab[i].path);
      }
    }
  }

  lemma {:induction false} AllFilesDecode(actions: seq<Action>, d: Decoders)
    requires forall a :: a in actions ==> ActionSafe(a, d)
    ensures forall f :: f in AllFiles(actions) ==> Fix(f, d).Some?
  {
    hide Fix;
    if actions != [] {
      assert actions[0] in actions;
      AllFilesDecode(actions[1..], d);
    }
  }

  lemma {:induction false} MeaningWrites(actions: seq<Action>, d: Decoders, st: System, i: nat)
    requires Meaning(actions, d, st).Some? && forall f :: f in AllFiles(actions) ==> Fix(f, d).Some?
    requires i < |AllFiles(actions)| && Once(AllFiles(actions), i)
    requires Spares(actions, FixPath(AllFiles(actions)[i].path))
    requires StateAt(st, FixPath(AllFiles(actions)[i].path)).None?
    ensures StateAt(Meaning(actions, d, st).value, FixPath(AllFiles(actions)[i].path)) ==
            Some(DeclaredState(AllFiles(actions)[i], d))
  {
    hide FilesEffect, StateAt, Run, CmdsSpare, CmdsCommands, FixPath, Fix, DeclaredState, Once, Writes;
    var a, rest := actions[0], actions[1..];
    var path := FixPath(AllFiles(actions)[i].path);
    var mine, theirs := if a.WriteFiles? then a.files else [], AllFiles(rest);
    assert a in actions && AllFiles(actions) == mine + theirs;
    assert Spares(rest, path);
    OnceSplit(mine, theirs, i);
    if a.WriteFiles? {
      var next := FilesEffect(mine, d, st);
      if i < |mine| {
        FilesWrite(mine, d, st, i);
        MeaningKeeps(rest, d, next, path);
      } else {
        FilesKeep(mine, d, st, path);
        MeaningWrites(rest, d, next, i - |mine|);
      }
    } else {
      CmdsKeep(a.cmds, st, path);
      MeaningWrites(rest, d, Run(CmdsCommands(a.cmds), st).value, i);
    }
  }

  // ---- Running to the end

  /** No command changes the mode or owner of a file, so none can fail for want of one. */
  predicate Quiet(actions: seq<Action>) {
    forall a, c :: a in actions && a.RunCmd? && c in a.cmds ==> !Retargets(CmdCommand(c))
  }

  lemma {:induction false} QuietCmdsRun(cmds: seq<Cmd>, st: System)
    requires forall c :: c in cmds ==> !Retargets(CmdCommand(c))
    ensures Run(CmdsCommands(cmds), st).Some?
  {
    if cmds != [] {
      hide Hacked;
      assert cmds[0] in cmds;
      assert Exec(CmdCommand(cmds[0]), st).Some?;
      RunOne(CmdCommand(cmds[0]), CmdsCommands(cmds[1..]), st);
      QuietCmdsRun(cmds[1..], Exec(CmdCommand(cmds[0]), st).value);
    }
  }

  lemma {:induction false} QuietMeans(actions: seq<Action>, d: Decoders, st: System)
    requires Quiet(actions) && forall a :: a in actions ==> ActionSafe(a, d)
    ensures Meaning(actions, d, st).Some?
  {
    if actions != [] {
      var a, rest := actions[0], actions[1..];
      assert a in actions && !a.Unknown?;
      hide FilesEffect, ActionSafe, Run, CmdsCommands, Retargets;
      if a.WriteFiles? {
        QuietMeans(rest, d, FilesEffect(a.files, d, st));
      } else {
        QuietCmdsRun(a.cmds, st);
        QuietMeans(rest, d, Run(CmdsCommands(a.cmds), st).value);
      }
    }
  }

  /** Whatever else the document does: when the script runs to its end, a file written once, at a fresh
      path, whose mode and owner no command of the document changes, has its newline-terminated content
      and its declared mode and owner; a file neither written nor changed is as it was. Without
      commands that change modes or owners the script does run to its end. */
  lemma ScriptWritesFiles(actions: seq<Action>, d: Decoders, st: System)
    requires forall a :: a in actions ==> ActionSafe(a, d) && PathsGiven(a)
    ensures Parse(ScriptText(actions, d).text).Some?
    ensures var files, done := AllFiles(actions), Run(Parse(ScriptText(actions, d).text).value, st);
            && (forall f :: f in files ==> Fix(f, d).Some?)
            && (done.Some? ==>
                  && (forall path :: !Writes(files, path) && Spares(actions, path) ==>
                        StateAt(done.value, path) == StateAt(st, path))
                  && (forall i: nat :: i < |files| && Once(files, i) ==>
                        var path := FixPath(files[i].path);
                        Spares(actions, path) && StateAt(st, path).None? ==>
                          StateAt(done.value, path) == Some(DeclaredState(files[i], d))))
            && (Quiet(actions) ==> done.Some?)
  {
    hide Parse, ScriptText, Run, Meaning, Spares, HeaderLog, ActionSafe, Quiet, StateAt, Once,
      FixPath, Fix, DeclaredState;
    var begun := st.(log := st.log + HeaderLog());
    ScriptMeaning(actions, d, st);
    forall path ensures StateAt(begun, path) == StateAt(st, path) {
      LogAside(st, path);
    }
    var files := AllFiles(actions);
    AllFilesDecode(actions, d);
    if Meaning(actions, d, begun).Some? {
      var done := Meaning(actions, d, begun).value;
      forall path | !Writes(files, path) && Spares(actions, path) ensures StateAt(done, path) == StateAt(st, path) {
        MeaningKeeps(actions, d, begun, path);
      }
      forall i: nat | i < |files| && Once(files, i) && Spares(actions, FixPath(files[i].path))
                      && StateAt(st, FixPath(files[i].path)).None?
        ensures StateAt(done, FixPath(files[i].path)) == Some(DeclaredState(files[i], d))
      {
        MeaningWrites(actions, d, begun, i);
      }
    }
    if Quiet(actions) {
      QuietMeans(actions, d, begun);
    }
  }

  lemma LogAside(st: System, path: string)
    ensures StateAt(st.(log := st.log + HeaderLog()), path) == StateAt(st, path)
  {}
}
