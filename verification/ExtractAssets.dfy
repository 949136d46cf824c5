/**
 `extractAssets` of internal/serve/cache.go: an online check of an archive's entries against
 the names seen so far, compared with what it should accept in whatever order they come.
 The tar reader is a parameter: the headers it yields, whether the stream then ends or breaks,
 and for a regular file exactly the declared bytes (fewer are the reader's error).
 */
module ExtractAssets {
  import opened Sums
  import opened Paths
  import opened NameChecks

  const MAX_ENTRIES := 10000

  datatype TypeFlag = GlobalHeader | Directory | Regular | LegacyRegular | Unsupported

  datatype Header = Header(name: string, typeflag: TypeFlag, size: nat)

  datatype Outcome =
    | Accepted(total: nat)
    | Invalid          // one of the rules of contract section 9.2
    | TooLarge
    | ReserveFailed
    | ReadFailed
    | Collision        // a mkdir or an exclusive create found something in its way

  // ----- one header

  function TrimPrefix(s: string, prefix: string): string { if prefix <= s then s[|prefix|..] else s }

  function TrimSlash(s: string): string { if s != "" && s[|s| - 1] == '/' then s[..|s| - 1] else s }

  /** The normalised entry name. */
  function Name(h: Header): string {
    var n := TrimPrefix(h.name, "./");
    if h.typeflag.Directory? then TrimSlash(n) else n
  }

  predicate IsEntry(h: Header) { !h.typeflag.GlobalHeader? }

  predicate IsFile(h: Header) { h.typeflag.Regular? || h.typeflag.LegacyRegular? }

  const Counted: Header -> int := (h: Header) => if IsEntry(h) then 1 else 0
  const FileSize: Header -> int := (h: Header) => if IsFile(h) then h.size else 0

  // ----- what is acceptable, whatever the order

  predicate WellNamed(h: Header) { !h.typeflag.Unsupported? && CheckAssetName(Name(h)).Ok? }

  /** By segments: a is a directory above b. */
  predicate Above(a: string, b: string) { Split(a) < Split(b) }

  ghost predicate Acceptable(hs: seq<Header>) {
    && Sum(hs, Counted) <= MAX_ENTRIES
    && (forall h :: h in hs && IsEntry(h) ==> WellNamed(h))
    && (forall i, j :: 0 <= i < j < |hs| && IsEntry(hs[i]) && IsEntry(hs[j]) ==> Name(hs[i]) != Name(hs[j]))
    && (forall f, h :: f in hs && h in hs && IsFile(f) && IsEntry(h) ==> !Above(Name(f), Name(h)))
  }

  lemma {:induction false} CountedNonNegative(hs: seq<Header>)
    ensures 0 <= Sum(hs, Counted) && 0 <= Sum(hs, FileSize)
  {
    SumMono(hs, (h: Header) => 0, Counted);
    SumMono(hs, (h: Header) => 0, FileSize);
    SumZero(hs, (h: Header) => 0);
  }

  /** A prefix of an acceptable archive is acceptable. */
  lemma AcceptablePrefix(hs: seq<Header>, i: nat)
    requires i <= |hs| && Acceptable(hs)
    ensures Acceptable(hs[..i])
  {
    assert hs == hs[..i] + hs[i..];
    SumConcat(hs[..i], hs[i..], Counted);
    CountedNonNegative(hs[i..]);
  }

  // ----- order does not matter

  ghost function Names(hs: seq<Header>): set<string> { set h | h in hs && IsEntry(h) :: Name(h) }

  ghost predicate Distinct(hs: seq<Header>) {
    forall i, j :: 0 <= i < j < |hs| && IsEntry(hs[i]) && IsEntry(hs[j]) ==> Name(hs[i]) != Name(hs[j])
  }

  lemma NamesSnoc(rest: seq<Header>, h: Header)
    ensures Names(rest + [h]) == if IsEntry(h) then Names(rest) + {Name(h)} else Names(rest)
  {
    hide Name;
  }

  lemma DistinctSnoc(rest: seq<Header>, h: Header)
    ensures Distinct(rest + [h]) <==> Distinct(rest) && (IsEntry(h) ==> Name(h) !in Names(rest))
  {
    hide Name;
    var hs := rest + [h];
    assert hs[..|rest|] == rest && hs[|rest|] == h;
    assert forall i :: 0 <= i < |rest| ==> hs[i] == rest[i];
    if Distinct(hs) {
      forall x | x in rest && IsEntry(x) && IsEntry(h) ensures Name(x) != Name(h) {
        var i :| 0 <= i < |rest| && rest[i] == x;
        assert hs[i] == x;
      }
    }
  }

  lemma {:induction false} DistinctIffCount(hs: seq<Header>)
    ensures |Names(hs)| <= Sum(hs, Counted)
    ensures Distinct(hs) <==> |Names(hs)| == Sum(hs, Counted)
  {
    if hs == [] {
      assert Names(hs) == {};
    } else {
      var last := |hs| - 1;
      var rest, h := hs[..last], hs[last];
      DistinctIffCount(rest);
      assert hs == rest + [h];
      hide Names, Distinct, Name, Sum;
      SumAppend(rest, h, Counted);
      NamesSnoc(rest, h);
      DistinctSnoc(rest, h);
    }
  }

  /** Reordering an archive changes neither whether its entries are acceptable nor how large it is. */
  lemma AcceptableIsOrderFree(a: seq<Header>, b: seq<Header>)
    requires multiset(a) == multiset(b)
    ensures Acceptable(a) <==> Acceptable(b)
    ensures Sum(a, FileSize) == Sum(b, FileSize)
  {
    SumPermutation(a, b, Counted);
    SumPermutation(a, b, FileSize);
    forall h ensures h in a <==> h in b { assert h in a <==> h in multiset(a); }
    assert Names(a) == Names(b);
    DistinctIffCount(a);
    DistinctIffCount(b);
    assert Distinct(a) <==> Distinct(b);
  }

  // ----- ancestors

  /** The leading parts of segs longer than k segments, as strings. */
  function Tops(segs: seq<string>, k: nat): set<string> { set i | k < i < |segs| :: Join(segs[..i]) }

  /** The directories above a name, as strings. */
  function Ancestors(name: string): set<string> { Tops(Split(name), 0) }

  lemma GoodNames(name: string)
    requires AllGood(Split(name))
    ensures AllNames(Split(name)) && Join(Split(name)) == name
  {
    SplitHasNoSlash(name);
    JoinSplit(name);
    forall i | 0 <= i < |Split(name)| ensures NoSlash(Split(name)[i]) { assert Split(name)[i] in Split(name); }
  }

  lemma SplitOfPrefix(segs: seq<string>, k: nat)
    requires AllNames(segs) && 1 <= k <= |segs|
    ensures Split(Join(segs[..k])) == segs[..k]
  {
    forall seg | seg in segs[..k] ensures NoSlash(seg) {}
    SplitJoin(segs[..k]);
  }

  lemma AncestorIffAbove(a: string, name: string)
    requires AllGood(Split(name))
    ensures a in Ancestors(name) <==> Above(a, name)
  {
    GoodNames(name);
    var segs := Split(name);
    if a in Ancestors(name) {
      var k :| 1 <= k < |segs| && a == Join(segs[..k]);
      SplitOfPrefix(segs, k);
    }
    if Above(a, name) {
      JoinSplit(a);
      assert Split(a) == segs[..|Split(a)|];
    }
  }

  lemma TopsNext(segs: seq<string>, k: nat)
    requires 1 <= k < |segs|
    ensures Tops(segs, k - 1) == Tops(segs, k) + {Join(segs[..k])}
  {}

  lemma TakeTake<T>(s: seq<T>, k: nat, j: nat)
    requires j <= k <= |s|
    ensures s[..k][..j] == s[..j]
  {}

  lemma TakeNames(segs: seq<string>, k: nat)
    requires AllNames(segs) && k <= |segs|
    ensures AllNames(segs[..k])
  {}

  lemma JoinedNames(segs: seq<string>)
    requires AllNames(segs) && segs != []
    ensures Split(Join(segs)) == segs && Join(segs) != "."
  {
    forall seg | seg in segs ensures NoSlash(seg) {}
    SplitJoin(segs);
    SplitNoSlash(".");
    assert Good(segs[0]);
  }

  lemma HeadIsAbove(segs: seq<string>, k: nat)
    requires AllNames(segs) && 1 <= k < |segs|
    ensures Above(Join(segs[..k]), Join(segs))
  {
    TakeNames(segs, k);
    hide Join, Split, AllNames;
    JoinedNames(segs[..k]);
    JoinedNames(segs);
  }

  lemma DirOfHead(segs: seq<string>, k: nat)
    requires AllNames(segs) && 1 <= k <= |segs|
    ensures Dir(Join(segs[..k])) == if k == 1 then "." else Join(segs[..k - 1])
    ensures Join(segs[..k]) != "."
  {
    TakeNames(segs, k);
    TakeTake(segs, k, k - 1);
    hide *;
    JoinedNames(segs[..k]);
    DirOfGood(segs[..k]);
  }

  /** Where path.Dir leads: one segment fewer, and "." exactly at the top. */
  lemma Climb(segs: seq<string>, k: nat)
    requires AllNames(segs) && 1 <= k <= |segs|
    ensures Dir(Join(segs[..k])) == if k == 1 then "." else Join(segs[..k - 1])
    ensures Join(segs[..k]) != "."
    ensures k < |segs| ==> Above(Join(segs[..k]), Join(segs))
  {
    hide *;
    DirOfHead(segs, k);
    if k < |segs| {
      HeadIsAbove(segs, k);
    }
  }

  lemma AboveIffAncestor(name: string)
    requires AllGood(Split(name))
    ensures forall a :: a in Ancestors(name) <==> Above(a, name)
  {
    forall a ensures a in Ancestors(name) <==> Above(a, name) { AncestorIffAbove(a, name); }
  }

  /** dirs with the given directories added, unnamed unless an entry named them before. */
  ghost predicate Noted(noted: map<string, bool>, dirs: map<string, bool>, more: set<string>) {
    && noted.Keys == dirs.Keys + more
    && forall d :: d in noted ==> (noted[d] <==> d in dirs && dirs[d])
  }

  lemma NoteOne(noted: map<string, bool>, dirs: map<string, bool>, more: set<string>, p: string)
    requires Noted(noted, dirs, more)
    ensures Noted(if p in noted then noted else noted[p := false], dirs, more + {p})
  {}

  lemma NoteNone(dirs: map<string, bool>)
    ensures Noted(dirs, dirs, {})
  {}

  lemma TopsEnd(segs: seq<string>)
    requires segs != []
    ensures Tops(segs, |segs| - 1) == {}
  {}

  /** The ancestor loop of one entry: up through path.Dir until ".", noting each directory. */
  method AddAncestors(name: string, files: set<string>, dirs: map<string, bool>) returns (clash: bool, noted: map<string, bool>)
    requires AllGood(Split(name))
    ensures clash <==> exists a :: a in files && Above(a, name)
    ensures !clash ==> Noted(noted, dirs, Ancestors(name))
  {
    noted := dirs;
    ghost var segs := Split(name);
    ghost var k := |segs| - 1;
    GoodNames(name);
    AboveIffAncestor(name);
    TakeEnds(segs);
    Climb(segs, |segs|);
    TopsEnd(segs);
    NoteNone(dirs);
    assert Ancestors(name) == Tops(segs, 0);
    hide *;
    var p := Dir(name);
    while p != "."
      invariant 0 <= k < |segs|
      invariant p == if k == 0 then "." else Join(segs[..k])
      invariant Tops(segs, k) !! files
      invariant Noted(noted, dirs, Tops(segs, k))
      decreases k
    {
      Climb(segs, k);
      if p in files {
        return true, noted;
      }
      TopsNext(segs, k);
      NoteOne(noted, dirs, Tops(segs, k), p);
      if p !in noted {
        noted := noted[p := false];
      }
      p := Dir(p);
      k := k - 1;
    }
    if k > 0 {
      Climb(segs, k);
    }
    clash := false;
  }

  // ----- the names seen so far

  ghost predicate NamesFile(hs: seq<Header>, d: string) { exists h :: h in hs && IsFile(h) && Name(h) == d }

  ghost predicate NamesDir(hs: seq<Header>, d: string) { exists h :: h in hs && h.typeflag.Directory? && Name(h) == d }

  ghost predicate IsAbove(hs: seq<Header>, d: string) { exists h :: h in hs && IsEntry(h) && Above(d, Name(h)) }

  /** `files` holds the file names, `dirs` the directories an entry named (true) or needed (false). */
  ghost predicate Seen(hs: seq<Header>, files: set<string>, dirs: map<string, bool>) {
    && (forall d :: d in files <==> NamesFile(hs, d))
    && (forall d :: d in dirs <==> NamesDir(hs, d) || IsAbove(hs, d))
    && (forall d :: d in dirs ==> (dirs[d] <==> NamesDir(hs, d)))
  }

  /** What the loop asks of the next entry. */
  ghost predicate Fits(h: Header, files: set<string>, dirs: map<string, bool>) {
    && (forall a :: a in files ==> !Above(a, Name(h)))
    && Name(h) !in files
    && (if h.typeflag.Directory? then !(Name(h) in dirs && dirs[Name(h)]) else Name(h) !in dirs)
  }

  lemma InLonger(hs: seq<Header>, h: Header)
    ensures forall x :: x in hs + [h] <==> x in hs || x == h
  {}

  /** An entry that does not fit makes every archive that starts so unacceptable. */
  lemma UnfitIsUnacceptable(hs: seq<Header>, h: Header, files: set<string>, dirs: map<string, bool>)
    requires IsEntry(h) && WellNamed(h) && Seen(hs, files, dirs) && !Fits(h, files, dirs)
    ensures !Acceptable(hs + [h])
  {
    var all := hs + [h];
    InLonger(hs, h);
    if a :| a in files && Above(a, Name(h)) {
      var f :| f in hs && IsFile(f) && Name(f) == a;
      assert f in all && h in all;
    } else if Name(h) in files || NamesDir(hs, Name(h)) {
      var g :| g in hs && IsEntry(g) && Name(g) == Name(h);
      var i: nat :| i < |hs| && hs[i] == g;
      assert all[i] == g && all[|hs|] == h;
    } else {
      assert IsAbove(hs, Name(h)) && !h.typeflag.Directory?;
      var g :| g in hs && IsEntry(g) && Above(Name(h), Name(g));
      assert g in all && h in all && IsFile(h);
    }
  }

  /** An entry that fits keeps the archive acceptable. */
  lemma FitIsAcceptable(hs: seq<Header>, h: Header, files: set<string>, dirs: map<string, bool>)
    requires Acceptable(hs) && IsEntry(h) && WellNamed(h) && Seen(hs, files, dirs) && Fits(h, files, dirs)
    requires Sum(hs, Counted) < MAX_ENTRIES
    ensures Acceptable(hs + [h])
  {
    assert !Above(Name(h), Name(h));
    hide Above, Name, CheckAssetName, Split;
    var all := hs + [h];
    SumAppend(hs, h, Counted);
    InLonger(hs, h);
    forall i, j | 0 <= i < j < |all| && IsEntry(all[i]) && IsEntry(all[j]) ensures Name(all[i]) != Name(all[j]) {
      if j == |hs| {
        assert all[i] == hs[i] && hs[i] in hs;
        assert NamesFile(hs, Name(hs[i])) || NamesDir(hs, Name(hs[i]));
      }
    }
    forall f, g | f in all && g in all && IsFile(f) && IsEntry(g) ensures !Above(Name(f), Name(g)) {
      if g == h && f in hs {
        assert NamesFile(hs, Name(f));
      } else if f == h && g in hs {
        assert Above(Name(h), Name(g)) ==> IsAbove(hs, Name(h));
      }
    }
  }

  lemma SkipGlobal(hs: seq<Header>, h: Header)
    requires Acceptable(hs) && !IsEntry(h)
    ensures Acceptable(hs + [h]) && Sum(hs + [h], Counted) == Sum(hs, Counted) && Sum(hs + [h], FileSize) == Sum(hs, FileSize)
    ensures forall d ::
      NamesFile(hs + [h], d) == NamesFile(hs, d) && NamesDir(hs + [h], d) == NamesDir(hs, d) && IsAbove(hs + [h], d) == IsAbove(hs, d)
  {
    SumAppend(hs, h, Counted);
    SumAppend(hs, h, FileSize);
    InLonger(hs, h);
    forall d
      ensures NamesFile(hs + [h], d) == NamesFile(hs, d) && NamesDir(hs + [h], d) == NamesDir(hs, d) && IsAbove(hs + [h], d) == IsAbove(hs, d)
    {}
  }

  lemma NamesGrow(hs: seq<Header>, h: Header, d: string)
    requires IsEntry(h) && WellNamed(h)
    ensures NamesFile(hs + [h], d) <==> NamesFile(hs, d) || (IsFile(h) && d == Name(h))
    ensures NamesDir(hs + [h], d) <==> NamesDir(hs, d) || (!IsFile(h) && d == Name(h))
    ensures IsAbove(hs + [h], d) <==> IsAbove(hs, d) || d in Ancestors(Name(h))
  {
    InLonger(hs, h);
    AssetNameOkIff(Name(h));
    AncestorIffAbove(d, Name(h));
    hide Above, Ancestors, Name;
  }

  /** The bookkeeping of one accepted entry. */
  lemma SeenGrows(hs: seq<Header>, h: Header, files: set<string>, dirs: map<string, bool>, noted: map<string, bool>)
    requires IsEntry(h) && WellNamed(h) && Seen(hs, files, dirs) && Fits(h, files, dirs)
    requires Noted(noted, dirs, Ancestors(Name(h)))
    ensures Seen(hs + [h],
                 if IsFile(h) then files + {Name(h)} else files,
                 if IsFile(h) then noted else noted[Name(h) := true])
  {
    hide NamesFile, NamesDir, IsAbove, Ancestors, Name, WellNamed;
    forall d
      ensures NamesFile(hs + [h], d) <==> NamesFile(hs, d) || (IsFile(h) && d == Name(h))
      ensures NamesDir(hs + [h], d) <==> NamesDir(hs, d) || (!IsFile(h) && d == Name(h))
      ensures IsAbove(hs + [h], d) <==> IsAbove(hs, d) || d in Ancestors(Name(h))
    {
      NamesGrow(hs, h, d);
    }
    assert !IsFile(h) ==> h.typeflag.Directory? || h.typeflag.Unsupported?;
  }

  // ----- the staging directory

  /** The tree under the staging directory, by names relative to it. */
  datatype Tree = Tree(files: set<string>, dirs: set<string>)

  datatype Made = Made(tree: Tree) | Blocked

  /** os.MkdirAll: fails when the path or a directory above it is a file. */
  function MkdirAll(t: Tree, p: string): Made {
    if p == "." then Made(t)
    else if p in t.files || Ancestors(p) * t.files != {} then Blocked
    else Made(t.(dirs := t.dirs + {p} + Ancestors(p)))
  }

  /** os.OpenFile with O_CREATE and O_EXCL: fails when the path exists or its directory does not. */
  function CreateExcl(t: Tree, p: string): Made {
    if p in t.files || p in t.dirs || (Dir(p) != "." && Dir(p) !in t.dirs) then Blocked
    else Made(t.(files := t.files + {p}))
  }

  lemma AncestorsOfDir(name: string)
    requires AllGood(Split(name))
    ensures if Dir(name) == "." then Ancestors(name) == {}
            else Ancestors(name) == {Dir(name)} + Ancestors(Dir(name))
  {
    GoodNames(name);
    DirOfGood(Split(name));
    if |Split(name)| > 1 {
      hide Split, Join, Dir, AllGood, AllNames, Tops, Ancestors;
      AncestorsOfLonger(name);
    }
  }

  lemma AncestorsOfLonger(name: string)
    requires AllNames(Split(name)) && |Split(name)| > 1
    ensures var head := Join(Split(name)[..|Split(name)| - 1]);
      head != "." && Ancestors(name) == {head} + Ancestors(head)
  {
    var segs := Split(name);
    var last := |segs| - 1;
    TakeNames(segs, last);
    hide Split, Join, AllNames, Tops;
    JoinedNames(segs[..last]);
    TopsGrow(segs);
  }

  lemma TopsGrow(segs: seq<string>)
    requires |segs| > 1
    ensures Tops(segs, 0) == {Join(segs[..|segs| - 1])} + Tops(segs[..|segs| - 1], 0)
  {
    hide Join;
    var last := |segs| - 1;
    forall k | 1 <= k <= last ensures segs[..last][..k] == segs[..k] { TakeTake(segs, last, k); }
  }

  /** What an accepted entry does to the tree: a directory is made, or a file created in its directory. */
  function Placed(h: Header, t: Tree): Made {
    if h.typeflag.Directory? then MkdirAll(t, Name(h))
    else
      var made := MkdirAll(t, Dir(Name(h)));
      if made.Blocked? then made else CreateExcl(made.tree, Name(h))
  }

  lemma NothingAbove(h: Header, files: set<string>, dirs: map<string, bool>)
    requires WellNamed(h) && Fits(h, files, dirs)
    ensures Name(h) !in Ancestors(Name(h)) && Name(h) != "." && Ancestors(Name(h)) !! files
  {
    AssetNameOkIff(Name(h));
    forall a | a in Ancestors(Name(h)) ensures a !in files { AncestorIffAbove(a, Name(h)); }
    AncestorIffAbove(Name(h), Name(h));
  }

  lemma ParentIsFree(h: Header, files: set<string>, dirs: map<string, bool>)
    requires WellNamed(h) && Fits(h, files, dirs)
    ensures MkdirAll(Tree(files, dirs.Keys), Dir(Name(h))) == Made(Tree(files, dirs.Keys + Ancestors(Name(h))))
    ensures Dir(Name(h)) != "." ==> Dir(Name(h)) in Ancestors(Name(h))
  {
    NothingAbove(h, files, dirs);
    AssetNameOkIff(Name(h));
    AncestorsOfDir(Name(h));
    hide *;
    MkdirFree(files, dirs.Keys, Dir(Name(h)));
    assert dirs.Keys + {} == dirs.Keys;
    assert Dir(Name(h)) != "." ==>
      dirs.Keys + {Dir(Name(h))} + Ancestors(Dir(Name(h))) == dirs.Keys + Ancestors(Name(h));
  }

  lemma MkdirFree(files: set<string>, dirs: set<string>, p: string)
    requires p != "." ==> p !in files && Ancestors(p) !! files
    ensures MkdirAll(Tree(files, dirs), p) == Made(Tree(files, if p == "." then dirs else dirs + {p} + Ancestors(p)))
  {
    hide Ancestors;
  }

  /** With the tree in step with `files` and `dirs`, an entry that fits meets nothing in its way. */
  lemma FitIsFree(h: Header, files: set<string>, dirs: map<string, bool>)
    requires WellNamed(h) && IsEntry(h) && Fits(h, files, dirs)
    ensures var noted := dirs.Keys + Ancestors(Name(h));
      Placed(h, Tree(files, dirs.Keys)) ==
      Made(if h.typeflag.Directory? then Tree(files, noted + {Name(h)}) else Tree(files + {Name(h)}, noted))
  {
    NothingAbove(h, files, dirs);
    ParentIsFree(h, files, dirs);
    hide Name, WellNamed, Ancestors, Dir, Split;
  }

  // ----- the loop

  /** The loop's variables, and the tree they describe. */
  datatype Books = Books(files: set<string>, dirs: map<string, bool>, entries: nat, total: nat, tree: Tree)

  /** The books after the headers hs. */
  ghost predicate After(hs: seq<Header>, b: Books) {
    && Acceptable(hs) && Seen(hs, b.files, b.dirs) && b.tree == Tree(b.files, b.dirs.Keys)
    && b.entries == Sum(hs, Counted) && b.total == Sum(hs, FileSize)
  }

  /** The names of one entry: whether it fits, and the books with it. */
  method Enter(h: Header, files: set<string>, dirs: map<string, bool>, ghost hs: seq<Header>)
    returns (fits: bool, files': set<string>, dirs': map<string, bool>)
    requires IsEntry(h) && WellNamed(h) && Seen(hs, files, dirs)
    ensures fits <==> Fits(h, files, dirs)
    ensures fits ==> Seen(hs + [h], files', dirs')
    ensures fits ==> Placed(h, Tree(files, dirs.Keys)) == Made(Tree(files', dirs'.Keys))
  {
    files', dirs', fits := files, dirs, false;
    var name := Name(h);
    AssetNameOkIff(name);
    var clash, noted := AddAncestors(name, files, dirs);
    if clash {
      return;
    }
    AncestorIffAbove(name, name);
    if h.typeflag.Directory? {
      if name in files || (name in noted && noted[name]) {
        return;
      }
      dirs' := noted[name := true];
    } else {
      if name in noted || name in files {
        return;
      }
      files', dirs' := files + {name}, noted;
    }
    fits := true;
    assert Fits(h, files, dirs);
    hide Fits, WellNamed, Name, Above, Split, AllGood, CheckAssetName, Ancestors, Noted;
    EntersRightly(hs, h, files, dirs, noted);
  }

  /** The books and the tree after an entry that fits. */
  lemma EntersRightly(hs: seq<Header>, h: Header, files: set<string>, dirs: map<string, bool>, noted: map<string, bool>)
    requires IsEntry(h) && WellNamed(h) && Seen(hs, files, dirs) && Fits(h, files, dirs)
    requires Noted(noted, dirs, Ancestors(Name(h)))
    ensures h.typeflag.Directory? ==>
      && Seen(hs + [h], files, noted[Name(h) := true])
      && Placed(h, Tree(files, dirs.Keys)) == Made(Tree(files, noted[Name(h) := true].Keys))
    ensures !h.typeflag.Directory? ==>
      && Seen(hs + [h], files + {Name(h)}, noted)
      && Placed(h, Tree(files, dirs.Keys)) == Made(Tree(files + {Name(h)}, noted.Keys))
  {
    SeenGrows(hs, h, files, dirs, noted);
    assert noted.Keys == dirs.Keys + Ancestors(Name(h));
    assert h.typeflag.Directory? <==> !IsFile(h);
    hide Seen, Fits, WellNamed, Name, Placed, Ancestors, Noted, MkdirAll;
    FitIsFree(h, files, dirs);
    KeysWith(noted, Name(h));
  }

  lemma KeysWith(m: map<string, bool>, k: string)
    ensures m[k := true].Keys == m.Keys + {k}
  {}

  datatype Verdict = Continue | Stop(outcome: Outcome)

  /** Why the loop may stop at h. */
  ghost predicate Justified(hs: seq<Header>, h: Header, total: int, maxBytes: nat, granted: bool, r: Outcome) {
    || (r.Invalid? && !Acceptable(hs + [h]))
    || (r.TooLarge? && IsFile(h) && total + h.size > maxBytes)
    || (r.ReserveFailed? && IsFile(h) && !granted)
  }

  /** An entry whose type and name pass. */
  method HandleNamed(h: Header, b: Books, maxBytes: nat, granted: bool, ghost hs: seq<Header>) returns (v: Verdict, b': Books)
    requires After(hs, b) && IsEntry(h) && WellNamed(h) && b.entries < MAX_ENTRIES
    ensures v.Continue? ==> After(hs + [h], b') && (IsFile(h) ==> granted && b'.total <= maxBytes) && (!IsFile(h) ==> b'.total == b.total)
    ensures v.Stop? ==> Justified(hs, h, b.total, maxBytes, granted, v.outcome)
  {
    hide Sum, WellNamed, Name;
    b' := b;
    SumAppend(hs, h, Counted);
    SumAppend(hs, h, FileSize);
    var fits, files, dirs := Enter(h, b.files, b.dirs, hs);
    hide Seen, Fits, NamesFile, NamesDir, IsAbove, Acceptable, Placed;
    if !fits {
      UnfitIsUnacceptable(hs, h, b.files, b.dirs);
      return Stop(Invalid), b';
    }
    FitIsAcceptable(hs, h, b.files, b.dirs);
    var total := b.total;
    if IsFile(h) {
      if h.size > maxBytes - b.total {
        return Stop(TooLarge), b';
      }
      if !granted {
        return Stop(ReserveFailed), b';
      }
      total := total + h.size;
    }
    var made := Placed(h, b.tree);
    if made.Blocked? {
      return Stop(Collision), b';
    }
    return Continue, Books(files, dirs, b.entries + 1, total, made.tree);
  }

  /** One turn of the loop. */
  method HandleHeader(h: Header, b: Books, maxBytes: nat, granted: bool, ghost hs: seq<Header>) returns (v: Verdict, b': Books)
    requires After(hs, b)
    ensures v.Continue? ==> After(hs + [h], b') && (IsFile(h) ==> granted && b'.total <= maxBytes) && (!IsFile(h) ==> b'.total == b.total)
    ensures v.Stop? ==> Justified(hs, h, b.total, maxBytes, granted, v.outcome)
  {
    b' := b;
    if h.typeflag.GlobalHeader? {
      SkipGlobal(hs, h);
      return Continue, b;
    }
    if b.entries + 1 > MAX_ENTRIES {
      SumAppend(hs, h, Counted);
      return Stop(Invalid), b;
    }
    if h.typeflag.Unsupported? || CheckAssetName(Name(h)).Bad? {
      assert h in hs + [h];
      return Stop(Invalid), b;
    }
    v, b' := HandleNamed(h, b, maxBytes, granted, hs);
  }

  /**
   `grants(i)` is what `reserve` answers for the i-th header. The archive is accepted exactly when
   its entries are acceptable, it fits, every reservation is granted and the stream ends well;
   only unacceptable entries are called invalid, and nothing ever collides on the disk.
   */
  method ExtractAssets(hs: seq<Header>, broken: bool, maxBytes: nat, grants: nat -> bool) returns (r: Outcome, tree: Tree)
    ensures r.Accepted? <==>
      && Acceptable(hs) && Sum(hs, FileSize) <= maxBytes && !broken
      && forall i: nat :: i < |hs| && IsFile(hs[i]) ==> grants(i)
    ensures r.Accepted? ==> r.total == Sum(hs, FileSize)
    ensures r.Accepted? ==> forall d ::
      && (d in tree.files <==> NamesFile(hs, d))
      && (d in tree.dirs <==> NamesDir(hs, d) || IsAbove(hs, d))
    ensures r.Invalid? ==> !Acceptable(hs)
    ensures r.TooLarge? ==> Sum(hs, FileSize) > maxBytes
    ensures r.ReserveFailed? ==> exists i: nat :: i < |hs| && IsFile(hs[i]) && !grants(i)
    ensures r.ReadFailed? ==> broken
    ensures !r.Collision?
  {
    var b, v, at := HandleAll(hs, maxBytes, grants);
    tree := b.tree;
    if v.Stop? {
      StopIsRight(hs, at, maxBytes, grants(at), v.outcome);
      return v.outcome, tree;
    }
    r := if broken then ReadFailed else Accepted(b.total);
  }

  lemma StopIsRight(hs: seq<Header>, i: nat, maxBytes: nat, granted: bool, r: Outcome)
    requires i < |hs| && Justified(hs[..i], hs[i], Sum(hs[..i], FileSize), maxBytes, granted, r)
    ensures r.Invalid? || r.TooLarge? || r.ReserveFailed?
    ensures r.Invalid? ==> !Acceptable(hs)
    ensures r.TooLarge? ==> Sum(hs, FileSize) > maxBytes
    ensures r.ReserveFailed? ==> IsFile(hs[i]) && !granted
  {
    TotalsGrow(hs, i);
    hide Acceptable, Sum;
    TakeNext(hs, i);
    if r.Invalid? {
      PrefixUnacceptable(hs, i + 1);
    }
  }

  /** The loop over the headers, up to the end or to the header that stops it. */
  method HandleAll(hs: seq<Header>, maxBytes: nat, grants: nat -> bool) returns (b: Books, v: Verdict, at: nat)
    ensures v.Continue? ==> After(hs, b) && b.total <= maxBytes && forall i: nat :: i < |hs| && IsFile(hs[i]) ==> grants(i)
    ensures v.Stop? ==>
      at < |hs| && Justified(hs[..at], hs[at], Sum(hs[..at], FileSize), maxBytes, grants(at), v.outcome)
  {
    NothingSeen();
    TakeEnds(hs);
    hide After, Justified, Sum;
    b := Books({}, map[], 0, 0, Tree({}, {}));
    for i := 0 to |hs|
      invariant After(hs[..i], b) && b.total == Sum(hs[..i], FileSize) <= maxBytes
      invariant forall j: nat :: j < i && IsFile(hs[j]) ==> grants(j)
    {
      TakeNext(hs, i);
      v, b := HandleHeader(hs[i], b, maxBytes, grants(i), hs[..i]);
      if v.Stop? {
        return b, v, i;
      }
      AfterTotal(hs[..i] + [hs[i]], b);
    }
    v, at := Continue, 0;
  }

  lemma NothingSeen()
    ensures After([], Books({}, map[], 0, 0, Tree({}, {}))) && Sum([], FileSize) == 0
  {}

  lemma TakeEnds<T>(s: seq<T>)
    ensures s[..0] == [] && s[..|s|] == s
  {}

  lemma TakeNext<T>(s: seq<T>, i: nat)
    requires i < |s|
    ensures s[..i + 1] == s[..i] + [s[i]]
  {}

  lemma AfterTotal(hs: seq<Header>, b: Books)
    requires After(hs, b)
    ensures b.total == Sum(hs, FileSize)
  {}

  lemma PrefixUnacceptable(hs: seq<Header>, i: nat)
    requires i <= |hs| && !Acceptable(hs[..i])
    ensures !Acceptable(hs)
  {
    if Acceptable(hs) { AcceptablePrefix(hs, i); }
  }

  lemma TotalsGrow(hs: seq<Header>, i: nat)
    requires i < |hs|
    ensures Sum(hs[..i + 1], Counted) == Sum(hs[..i], Counted) + Counted(hs[i])
    ensures Sum(hs[..i + 1], FileSize) == Sum(hs[..i], FileSize) + FileSize(hs[i])
    ensures Sum(hs[..i + 1], FileSize) <= Sum(hs, FileSize)
  {
    hide Sum;
    TakeNext(hs, i);
    SumAppend(hs[..i], hs[i], Counted);
    SumAppend(hs[..i], hs[i], FileSize);
    TakeDrop(hs, i + 1);
    SumConcat(hs[..i + 1], hs[i + 1..], FileSize);
    CountedNonNegative(hs[i + 1..]);
  }

  lemma TakeDrop<T>(s: seq<T>, i: nat)
    requires i <= |s|
    ensures s == s[..i] + s[i..]
  {}
}
