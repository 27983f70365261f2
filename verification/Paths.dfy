/** Go's strings.TrimSpace and filepath.Dir. */
module Paths {
  import opened Quoting

  predicate IsSpace(c: char) {
    || c == ' ' || '\t' <= c <= '\r' || c == '\U{85}' || c == '\U{A0}' || c == '\U{1680}'
    || '\U{2000}' <= c <= '\U{200A}' || c == '\U{2028}' || c == '\U{2029}' || c == '\U{202F}'
    || c == '\U{205F}' || c == '\U{3000}'
  }

  function TrimRight(s: string): string {
    if s != [] && IsSpace(s[|s| - 1]) then TrimRight(s[..|s| - 1]) else s
  }

  function TrimSpace(s: string): string {
    if s != [] && IsSpace(s[0]) then TrimSpace(s[1..]) else TrimRight(s)
  }

  /** The parts of a path between slashes. */
  function Split(s: string): (parts: seq<string>)
    ensures |parts| >= 1
  {
    if s == [] then [[]]
    else
      var tail := Split(s[1..]);
      if s[0] == '/' then [[]] + tail else [[s[0]] + tail[0]] + tail[1..]
  }

  /** Drop empty parts and dots; let `..` cancel the part before it. */
  function Reduce(parts: seq<string>, rooted: bool, done: seq<string>): seq<string>
    decreases |parts|
  {
    if parts == [] then done
    else if parts[0] == "" || parts[0] == "." then Reduce(parts[1..], rooted, done)
    else if parts[0] == ".." then
      if done != [] && done[|done| - 1] != ".." then Reduce(parts[1..], rooted, done[..|done| - 1])
      else Reduce(parts[1..], rooted, if rooted then done else done + [parts[0]])
    else Reduce(parts[1..], rooted, done + [parts[0]])
  }

  function Join(parts: seq<string>): string {
    if parts == [] then [] else if |parts| == 1 then parts[0] else parts[0] + ['/'] + Join(parts[1..])
  }

  function Clean(s: string): string {
    if s == [] then "."
    else
      var rooted := s[0] == '/';
      var body := Join(Reduce(Split(s), rooted, []));
      if rooted then ['/'] + body else if body == [] then "." else body
  }

  function UpToLastSlash(p: string): (r: string)
    ensures r <= p
  {
    if p == [] || p[|p| - 1] == '/' then p else UpToLastSlash(p[..|p| - 1])
  }

  function Dir(p: string): string {
    Clean(UpToLastSlash(p))
  }

  ghost predicate AllQuotable(parts: seq<string>) {
    forall i :: 0 <= i < |parts| ==> Quotable(parts[i])
  }

  lemma {:induction false} SplitQuotable(s: string)
    requires Quotable(s)
    ensures AllQuotable(Split(s))
  {
    if s != [] {
      assert forall c :: c in s[1..] ==> c in s;
      SplitQuotable(s[1..]);
      var tail := Split(s[1..]);
      assert s[0] in s && Quotable(tail[0]) && Quotable([s[0]] + tail[0]);
      if s[0] == '/' {
        assert Split(s) == [[]] + tail;
        assert forall i :: 1 <= i < |Split(s)| ==> Split(s)[i] == tail[i - 1];
      } else {
        assert Split(s) == [[s[0]] + tail[0]] + tail[1..];
        assert forall i :: 1 <= i < |Split(s)| ==> Split(s)[i] == tail[i];
      }
    }
  }

  lemma {:induction false} ReduceQuotable(parts: seq<string>, rooted: bool, done: seq<string>)
    requires AllQuotable(parts) && AllQuotable(done)
    ensures AllQuotable(Reduce(parts, rooted, done))
    decreases |parts|
  {
    if parts == [] {
    } else if parts[0] == "" || parts[0] == "." {
      ReduceQuotable(parts[1..], rooted, done);
    } else if parts[0] == ".." {
      if done != [] && done[|done| - 1] != ".." {
        ReduceQuotable(parts[1..], rooted, done[..|done| - 1]);
      } else {
        ReduceQuotable(parts[1..], rooted, if rooted then done else done + [parts[0]]);
      }
    } else {
      ReduceQuotable(parts[1..], rooted, done + [parts[0]]);
    }
  }

  lemma {:induction false} JoinQuotable(parts: seq<string>)
    requires AllQuotable(parts)
    ensures Quotable(Join(parts))
  {
    if |parts| > 1 {
      assert Quotable(parts[0]);
      JoinQuotable(parts[1..]);
    } else if |parts| == 1 {
      assert Quotable(parts[0]);
    }
  }

  /** A path that can be quoted has a directory that can be quoted. */
  lemma DirQuotable(p: string)
    requires Quotable(p)
    ensures Quotable(Dir(p))
  {
    var s := UpToLastSlash(p);
    forall c | c in s ensures c in p {
      var i :| 0 <= i < |s| && s[i] == c;
      assert p[i] == c;
    }
    assert Quotable(s);
    if s != [] {
      SplitQuotable(s);
      ReduceQuotable(Split(s), s[0] == '/', []);
      JoinQuotable(Reduce(Split(s), s[0] == '/', []));
    }
  }

  // ---- Trimming

  predicate Blank(s: string) {
    forall c :: c in s ==> IsSpace(c)
  }

  /** Neither end is white space. */
  predicate Tight(s: string) {
    s == [] || (!IsSpace(s[0]) && !IsSpace(s[|s| - 1]))
  }

  /** White space around a text, and only that, is removed. */
  lemma {:induction false} TrimExact(left: string, s: string, right: string)
    requires Blank(left) && Tight(s) && Blank(right)
    ensures TrimSpace(left + s + right) == s
  {
    var all := left + s + right;
    if left != [] {
      assert all[1..] == left[1..] + s + right;
      TrimExact(left[1..], s, right);
    } else {
      assert all == s + right;
      if s != [] {
        TrimRightExact(s, right);
      } else {
        assert all == right;
        TrimBlank(right);
      }
    }
  }

  lemma {:induction false} TrimRightExact(s: string, right: string)
    requires Blank(right) && (s == [] || !IsSpace(s[|s| - 1]))
    ensures TrimRight(s + right) == s
  {
    if right == [] {
      assert s + right == s;
    } else {
      assert (s + right)[..|s + right| - 1] == s + right[..|right| - 1];
      assert right[|right| - 1] in right;
      TrimRightExact(s, right[..|right| - 1]);
    }
  }

  lemma {:induction false} TrimBlank(s: string)
    requires Blank(s)
    ensures TrimSpace(s) == []
  {
    if s != [] {
      TrimBlank(s[1..]);
    }
  }

  /** Every text is white space, a tight text, and white space. */
  lemma {:induction false} Trimmed(s: string) returns (left: string, right: string)
    ensures Blank(left) && Tight(TrimSpace(s)) && Blank(right) && s == left + TrimSpace(s) + right
  {
    if s != [] && IsSpace(s[0]) {
      left, right := Trimmed(s[1..]);
      left := [s[0]] + left;
    } else {
      left := [];
      right := TrimmedRight(s);
    }
  }

  lemma {:induction false} TrimmedRight(s: string) returns (right: string)
    ensures Blank(right) && s == TrimRight(s) + right
    ensures TrimRight(s) == [] || !IsSpace(TrimRight(s)[|TrimRight(s)| - 1])
    ensures s != [] && !IsSpace(s[0]) ==> TrimRight(s) != [] && TrimRight(s)[0] == s[0]
  {
    if s != [] && IsSpace(s[|s| - 1]) {
      right := TrimmedRight(s[..|s| - 1]);
      right := right + [s[|s| - 1]];
    } else {
      right := [];
    }
  }

  // ---- Directories

  /** An ordinary part of a path. */
  predicate Part(p: string) {
    p != "" && p != "." && p != ".." && '/' !in p
  }

  lemma {:induction false} SplitName(name: string, rest: string)
    requires '/' !in name
    ensures Split(name + ['/'] + rest) == [name] + Split(rest)
    ensures Split(name) == [name]
  {
    if name == [] {
      assert (name + ['/'] + rest)[1..] == rest;
    } else {
      assert (name + ['/'] + rest)[1..] == name[1..] + ['/'] + rest;
      SplitName(name[1..], rest);
      assert [name[0]] + name[1..] == name;
    }
  }

  lemma {:induction false} SplitJoin(parts: seq<string>)
    requires parts != [] && forall i :: 0 <= i < |parts| ==> '/' !in parts[i]
    ensures Split(Join(parts)) == parts
    ensures Split(Join(parts) + ['/']) == parts + [[]]
  {
    var p := parts[0];
    if |parts| == 1 {
      SplitName(p, []);
      assert p + ['/'] + [] == p + ['/'] && parts == [p];
    } else {
      SplitJoin(parts[1..]);
      SplitName(p, Join(parts[1..]));
      SplitName(p, Join(parts[1..]) + ['/']);
      assert Join(parts) + ['/'] == p + ['/'] + (Join(parts[1..]) + ['/']);
      assert parts == [p] + parts[1..];
      assert [p] + (parts[1..] + [[]]) == parts + [[]];
    }
  }

  lemma {:induction false} ReduceParts(parts: seq<string>, rooted: bool, done: seq<string>)
    requires forall i :: 0 <= i < |parts| ==> Part(parts[i])
    ensures Reduce(parts, rooted, done) == done + parts
    ensures Reduce(parts + [[]], rooted, done) == done + parts
    decreases |parts|
  {
    if parts == [] {
      assert parts + [[]] == [[]] && done + [] == done;
    } else {
      assert (parts + [[]])[1..] == parts[1..] + [[]];
      ReduceParts(parts[1..], rooted, done + [parts[0]]);
      assert done + [parts[0]] + parts[1..] == done + parts;
    }
  }

  /** `..` cancels the ordinary part before it. */
  lemma {:induction false} ParentCancels(a: seq<string>, p: string, b: seq<string>, rooted: bool, done: seq<string>)
    requires Part(p)
    ensures Reduce(a + [p, ".."] + b, rooted, done) == Reduce(a + b, rooted, done)
    decreases |a|
  {
    var l := a + [p, ".."] + b;
    if a == [] {
      assert l[1..] == [".."] + b && ([".."] + b)[1..] == b && a + b == b;
      assert (done + [p])[..|done|] == done;
    } else {
      assert l[1..] == a[1..] + [p, ".."] + b && (a + b)[1..] == a[1..] + b;
      if a[0] == "" || a[0] == "." {
        ParentCancels(a[1..], p, b, rooted, done);
      } else if a[0] == ".." {
        if done != [] && done[|done| - 1] != ".." {
          ParentCancels(a[1..], p, b, rooted, done[..|done| - 1]);
        } else {
          ParentCancels(a[1..], p, b, rooted, if rooted then done else done + [a[0]]);
        }
      } else {
        ParentCancels(a[1..], p, b, rooted, done + [a[0]]);
      }
    }
  }

  /** Empty parts and dots make no difference, and the root is its own parent. */
  lemma {:induction false} DotsDrop(a: seq<string>, p: string, b: seq<string>, rooted: bool, done: seq<string>)
    requires p == "" || p == "." || (p == ".." && rooted && a == [] && done == [])
    ensures Reduce(a + [p] + b, rooted, done) == Reduce(a + b, rooted, done)
    decreases |a|
  {
    var l := a + [p] + b;
    if a == [] {
      assert l[1..] == b && a + b == b;
    } else {
      assert l[1..] == a[1..] + [p] + b && (a + b)[1..] == a[1..] + b;
      if a[0] == "" || a[0] == "." {
        DotsDrop(a[1..], p, b, rooted, done);
      } else if a[0] == ".." {
        if done != [] && done[|done| - 1] != ".." {
          DotsDrop(a[1..], p, b, rooted, done[..|done| - 1]);
        } else {
          DotsDrop(a[1..], p, b, rooted, if rooted then done else done + [a[0]]);
        }
      } else {
        DotsDrop(a[1..], p, b, rooted, done + [a[0]]);
      }
    }
  }

  lemma {:induction false} LastSlash(p: string, name: string)
    requires '/' !in name && (p == [] || p[|p| - 1] == '/')
    ensures UpToLastSlash(p + name) == p
  {
    if name == [] {
      assert p + name == p;
    } else {
      assert (p + name)[..|p + name| - 1] == p + name[..|name| - 1];
      LastSlash(p, name[..|name| - 1]);
    }
  }

  lemma BareDir(name: string)
    requires '/' !in name
    ensures Dir(['/'] + name) == "/" && Dir(name) == "."
  {
    LastSlash("/", name);
    LastSlash([], name);
    assert [] + name == name;
    assert "/"[1..] == [];
    assert Split("/") == ["", ""] && ["", ""][1..] == [""] && [""][1..] == [];
  }

  lemma RelativeDir(parts: seq<string>, name: string)
    requires '/' !in name && parts != [] && forall i :: 0 <= i < |parts| ==> Part(parts[i])
    ensures Dir(Join(parts) + ['/'] + name) == Join(parts)
  {
    hide Join, Split, Reduce;
    LastSlash(Join(parts) + ['/'], name);
    SplitJoin(parts);
    ReduceParts(parts, false, []);
    assert [] + parts == parts;
    JoinStarts(parts);
  }

  lemma SplitRooted(s: string)
    ensures Split(['/'] + s) == [[]] + Split(s)
  {
    assert (['/'] + s)[1..] == s;
  }

  lemma ReduceRooted(parts: seq<string>)
    ensures Reduce([[]] + parts, true, []) == Reduce(parts, true, [])
  {
    assert ([[]] + parts)[1..] == parts;
  }

  lemma RootedDir(parts: seq<string>, name: string)
    requires '/' !in name && parts != [] && forall i :: 0 <= i < |parts| ==> Part(parts[i])
    ensures Dir(['/'] + Join(parts) + ['/'] + name) == ['/'] + Join(parts)
  {
    SplitJoin(parts);
    hide Join, Split, Reduce, Part, Clean, UpToLastSlash;
    var relative := Join(parts) + ['/'];
    Regroup(Join(parts), name);
    LastSlash(['/'] + relative, name);
    SplitRooted(relative);
    ReduceRooted(parts + [[]]);
    ReduceParts(parts, true, []);
    CleanRooted(['/'] + relative, parts);
  }

  lemma Regroup(s: string, name: string)
    ensures ['/'] + s + ['/'] + name == (['/'] + (s + ['/'])) + name
  {}

  lemma CleanRooted(path: string, parts: seq<string>)
    requires path != [] && path[0] == '/' && Reduce(Split(path), true, []) == [] + parts
    ensures Clean(path) == ['/'] + Join(parts)
  {
    hide Join, Split, Reduce;
    assert [] + parts == parts;
  }

  /** The directory of a file among ordinary parts is those parts, under the root or not; directly
      under the root it is the root, and without any slash the current directory. */
  lemma DirExact(parts: seq<string>, name: string)
    requires '/' !in name && forall i :: 0 <= i < |parts| ==> Part(parts[i])
    ensures parts != [] ==>
              && Dir(['/'] + Join(parts) + ['/'] + name) == ['/'] + Join(parts)
              && Dir(Join(parts) + ['/'] + name) == Join(parts)
    ensures Dir(['/'] + name) == "/" && Dir(name) == "."
  {
    hide Dir, Join, Part;
    BareDir(name);
    if parts != [] {
      RootedDir(parts, name);
      RelativeDir(parts, name);
    }
  }

  lemma JoinStarts(parts: seq<string>)
    requires parts != [] && Part(parts[0])
    ensures Join(parts) != [] && Join(parts)[0] != '/'
  {
    assert parts[0][0] in parts[0];
  }
}
