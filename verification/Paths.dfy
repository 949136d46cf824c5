/**
 Slash-separated names as Go's path package treats them. A Go string is a `string` whose
 characters stand for bytes. `Clean` follows the documented rules of path.Clean segment by
 segment; on Unix filepath.Clean, filepath.Join and filepath.Dir are the same functions.
 */
module Paths {

  predicate NoSlash(s: string) { forall i :: 0 <= i < |s| ==> s[i] != '/' }

  /** strings.Split(s, "/") */
  function Split(s: string): (segs: seq<string>)
    ensures |segs| >= 1
  {
    if s == "" then [""]
    else if s[0] == '/' then [""] + Split(s[1..])
    else
      var rest := Split(s[1..]);
      [[s[0]] + rest[0]] + rest[1..]
  }

  function Join(segs: seq<string>): string {
    if segs == [] then "" else if |segs| == 1 then segs[0] else segs[0] + "/" + Join(segs[1..])
  }

  lemma {:induction false} SplitHasNoSlash(s: string)
    ensures forall seg :: seg in Split(s) ==> NoSlash(seg)
  {
    if s != "" {
      SplitHasNoSlash(s[1..]);
      var rest := Split(s[1..]);
      assert rest[0] in rest;
      forall seg | seg in Split(s) ensures NoSlash(seg) {
        if s[0] != '/' && seg != [s[0]] + rest[0] {
          assert seg in rest[1..];
        }
      }
    }
  }

  lemma {:induction false} JoinSplit(s: string)
    ensures Join(Split(s)) == s
  {
    if s != "" {
      JoinSplit(s[1..]);
      var rest := Split(s[1..]);
      if s[0] == '/' {
        assert Split(s)[1..] == rest;
      } else {
        assert Split(s)[1..] == rest[1..];
        if |rest| == 1 {
          assert Join(Split(s)) == [s[0]] + rest[0];
        } else {
          assert Join(Split(s)) == [s[0]] + rest[0] + "/" + Join(rest[1..]);
          assert [s[0]] + rest[0] + "/" + Join(rest[1..]) == [s[0]] + (rest[0] + "/" + Join(rest[1..]));
        }
      }
    }
  }

  function PutInFront(c: char, segs: seq<string>): seq<string>
    requires segs != []
  {
    if c == '/' then [""] + segs else [[c] + segs[0]] + segs[1..]
  }

  lemma SplitFirst(c: char, s: string)
    ensures Split([c] + s) == PutInFront(c, Split(s))
  {
    assert ([c] + s)[1..] == s;
  }

  lemma PutInFrontAppend(c: char, x: seq<string>, y: seq<string>)
    requires x != []
    ensures PutInFront(c, x + y) == PutInFront(c, x) + y
  {
    assert (x + y)[1..] == x[1..] + y;
  }

  lemma Regroup(c: char, rest: string, b: string)
    ensures [c] + rest + "/" + b == [c] + (rest + "/" + b)
  {}

  /** Splitting around a slash splits both sides. */
  lemma {:induction false} SplitAround(a: string, b: string)
    ensures Split(a + "/" + b) == Split(a) + Split(b)
  {
    if a == "" {
      assert a + "/" + b == ['/'] + b;
      SplitFirst('/', b);
    } else {
      var c, rest := a[0], a[1..];
      assert a == [c] + rest;
      hide Split, PutInFront;
      Regroup(c, rest, b);
      SplitFirst(c, rest);
      SplitFirst(c, rest + "/" + b);
      SplitAround(rest, b);
      PutInFrontAppend(c, Split(rest), Split(b));
    }
  }

  lemma {:induction false} SplitNoSlash(s: string)
    requires NoSlash(s)
    ensures Split(s) == [s]
  {
    if s != "" {
      SplitNoSlash(s[1..]);
      assert s == [s[0]] + s[1..];
    }
  }

  lemma {:induction false} SplitJoin(segs: seq<string>)
    requires segs != [] && forall seg :: seg in segs ==> NoSlash(seg)
    ensures Split(Join(segs)) == segs
  {
    SplitNoSlash(segs[0]);
    if |segs| > 1 {
      SplitJoin(segs[1..]);
      SplitAround(segs[0], Join(segs[1..]));
    }
  }

  // ----- path.Clean

  /** One segment: nothing and "." vanish, ".." takes the segment before it away, and is dropped at a root. */
  function Push(rooted: bool, out: seq<string>, seg: string): seq<string> {
    if seg == "" || seg == "." then out
    else if seg != ".." then out + [seg]
    else if out != [] && out[|out| - 1] != ".." then out[..|out| - 1]
    else if rooted then out
    else out + [".."]
  }

  function Normal(rooted: bool, segs: seq<string>): seq<string> {
    if segs == [] then [] else Push(rooted, Normal(rooted, segs[..|segs| - 1]), segs[|segs| - 1])
  }

  function Clean(p: string): string {
    if p == "" then "."
    else
      var rooted := p[0] == '/';
      var segs := Normal(rooted, Split(p));
      if rooted then "/" + Join(segs) else if segs == [] then "." else Join(segs)
  }

  /** path.Split's directory: up to and including the last slash. */
  function DirPart(p: string): string {
    if p == "" then "" else if p[|p| - 1] == '/' then p else DirPart(p[..|p| - 1])
  }

  /** path.Dir */
  function Dir(p: string): string { Clean(DirPart(p)) }

  /** filepath.Join of two elements. */
  function JoinPath(root: string, name: string): string {
    if root == "" && name == "" then "" else if root == "" then Clean(name) else if name == "" then Clean(root)
    else Clean(root + "/" + name)
  }

  // ----- good names

  predicate Good(seg: string) { seg != "" && seg != "." && seg != ".." }

  predicate AllGood(segs: seq<string>) { forall i :: 0 <= i < |segs| ==> Good(segs[i]) }

  lemma {:induction false} NormalOfGood(rooted: bool, before: seq<string>, segs: seq<string>)
    requires AllGood(segs)
    ensures Normal(rooted, before + segs) == Normal(rooted, before) + segs
  {
    if segs == [] {
      assert before + segs == before;
    } else {
      var last := |segs| - 1;
      NormalOfGood(rooted, before, segs[..last]);
      assert (before + segs)[..|before + segs| - 1] == before + segs[..last];
    }
  }

  lemma {:induction false} NormalHasNoDots(rooted: bool, segs: seq<string>)
    ensures forall seg :: seg in Normal(rooted, segs) ==> seg in segs && seg != "" && seg != "."
  {
    if segs != [] {
      var init := segs[..|segs| - 1];
      NormalHasNoDots(rooted, init);
      forall seg | seg in Normal(rooted, segs) ensures seg in segs && seg != "" && seg != "." {
        assert seg in Normal(rooted, init) || seg == segs[|segs| - 1];
      }
    }
  }

  /**
   The name checks' question to path.Clean, answered by segments: a relative name is its own
   Clean without being "." or having a ".." segment exactly when every segment is good.
   */
  lemma CleanIffGood(name: string)
    requires name != "" && name[0] != '/'
    ensures (Clean(name) == name && name != "." && ".." !in Split(name)) <==> AllGood(Split(name))
  {
    var segs := Split(name);
    JoinSplit(name);
    if AllGood(segs) {
      NormalOfGood(false, [], segs);
      assert [] + segs == segs;
      assert Good(segs[0]);
    }
    if Clean(name) == name && name != "." && ".." !in segs {
      var out := Normal(false, segs);
      NormalHasNoDots(false, segs);
      SplitHasNoSlash(name);
      SplitJoin(out);
      assert segs == out;
      assert forall i :: 0 <= i < |segs| ==> segs[i] in out;
    }
  }

  /** Joined to any root, a good name only adds its own segments to the root's. */
  lemma GoodStaysUnder(root: string, name: string)
    requires root != "" && AllGood(Split(name))
    ensures var rooted := root[0] == '/';
      Normal(rooted, Split(root + "/" + name)) == Normal(rooted, Split(root)) + Split(name)
  {
    SplitAround(root, name);
    NormalOfGood(root[0] == '/', Split(root), Split(name));
  }

  lemma {:induction false} JoinAppend(a: seq<string>, b: seq<string>)
    requires a != [] && b != []
    ensures Join(a + b) == Join(a) + "/" + Join(b)
  {
    if |a| == 1 {
      assert (a + b)[1..] == b;
    } else {
      JoinAppend(a[1..], b);
      assert (a + b)[1..] == a[1..] + b;
      assert a[0] + "/" + (Join(a[1..]) + "/" + Join(b)) == a[0] + "/" + Join(a[1..]) + "/" + Join(b);
    }
  }

  lemma GoodIsNotEmpty(name: string)
    requires AllGood(Split(name))
    ensures name != "" && name[0] != '/'
  {
    assert Good(Split(name)[0]);
  }

  /** Under a clean root other than "/" and ".", the joined path is the root, a slash and the name. */
  lemma JoinPathIsUnder(root: string, name: string)
    requires Clean(root) == root && root != "/" && root != "."
    requires AllGood(Split(name))
    ensures JoinPath(root, name) == root + "/" + name
  {
    GoodIsNotEmpty(name);
    CleanIsNotEmpty(root);
    var rooted := root[0] == '/';
    var base, segs := Normal(rooted, Split(root)), Split(name);
    GoodStaysUnder(root, name);
    JoinSplit(name);
    assert (root + "/" + name)[0] == root[0];
    JoinAppend(base, segs);
    if rooted {
      assert "/" + (Join(base) + "/" + name) == "/" + Join(base) + "/" + name;
    }
  }

  lemma CleanIsNotEmpty(root: string)
    requires Clean(root) == root && root != "/" && root != "."
    ensures root != "" && Normal(root[0] == '/', Split(root)) != []
  {}

  // ----- ancestors

  lemma {:induction false} DirPartNoSlash(a: string, b: string)
    requires NoSlash(b)
    ensures DirPart(a + b) == DirPart(a)
  {
    if b != "" {
      var s := a + b;
      assert s[..|s| - 1] == a + b[..|b| - 1];
      DirPartNoSlash(a, b[..|b| - 1]);
    } else {
      assert a + b == a;
    }
  }

  predicate AllNames(segs: seq<string>) { forall i :: 0 <= i < |segs| ==> Good(segs[i]) && NoSlash(segs[i]) }

  lemma NormalOfHead(head: seq<string>)
    requires AllGood(head)
    ensures Normal(false, head + [""]) == Normal(false, head) == head
  {
    NormalOfGood(false, [], head);
    assert [] + head == head;
    assert (head + [""])[..|head|] == head;
  }

  lemma CleanOfRelative(p: string)
    requires p != "" && p[0] != '/' && Normal(false, Split(p)) != []
    ensures Clean(p) == Join(Normal(false, Split(p)))
  {}

  /** A trailing slash is cleaned away. */
  lemma CleanOfHead(head: seq<string>)
    requires head != [] && AllNames(head)
    ensures Clean(Join(head) + "/") == Join(head)
  {
    var h := Join(head);
    SplitAround(h, "");
    assert h + "/" + "" == h + "/";
    forall seg | seg in head ensures NoSlash(seg) {}
    SplitJoin(head);
    GoodIsNotEmpty(h);
    assert (h + "/")[0] == h[0];
    hide Join, Split, Normal, Clean, Good, NoSlash;
    NormalOfHead(head);
    CleanOfRelative(h + "/");
  }

  lemma DirPartOfLast(head: string, last: string)
    requires NoSlash(last)
    ensures DirPart(head + "/" + last) == head + "/"
  {
    DirPartNoSlash(head + "/", last);
  }

  lemma DirOfLonger(head: seq<string>, last: string)
    requires head != [] && AllNames(head) && NoSlash(last)
    ensures Dir(Join(head + [last])) == Join(head)
  {
    JoinAppend(head, [last]);
    assert Join([last]) == last;
    DirPartOfLast(Join(head), last);
    CleanOfHead(head);
    hide Clean, DirPart, Join, AllNames;
  }

  lemma DirOfOne(name: string)
    requires NoSlash(name)
    ensures Dir(name) == "."
  {
    DirPartNoSlash("", name);
    assert "" + name == name;
  }

  lemma JoinOne(seg: string)
    ensures Join([seg]) == seg
  {}

  /** path.Dir of a good name drops its last segment, and is "." at the top. */
  lemma DirOfGood(segs: seq<string>)
    requires segs != [] && AllNames(segs)
    ensures Dir(Join(segs)) == if |segs| == 1 then "." else Join(segs[..|segs| - 1])
  {
    hide Join, Dir, Good, NoSlash;
    var last := |segs| - 1;
    if last == 0 {
      assert segs == [segs[0]];
      JoinOne(segs[0]);
      DirOfOne(segs[0]);
    } else {
      assert segs == segs[..last] + [segs[last]];
      DirOfLonger(segs[..last], segs[last]);
    }
  }
}
