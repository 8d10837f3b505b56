/**
 * What the traversal guarantees, proved about the function `ListDir`
 * (which the method `List` is proved to compute).
 */
module TraversalProperties {
  import opened Paths
  import opened Outcomes
  import opened Exclusion
  import opened Options
  import opened Traversal

  /** The exclusion test lets path `p` through. */
  predicate Admitted(p: Path, cfg: Config, engine: RegexEngine)
  {
    Excludes(Render(p), cfg.exclude, engine) == Ok(false)
  }

  /** Neither `p` nor any directory between `root` and `p` is excluded. */
  predicate Unexcluded(root: Path, p: Path, cfg: Config, engine: RegexEngine)
  {
    forall k :: |root| < k <= |p| ==> Admitted(p[..k], cfg, engine)
  }

  /** The facts that hold of every descriptor of a successful listing of `root`, at any depth. */
  predicate Sound(ft: Filetype, root: Path, cfg: Config, engine: RegexEngine)
    decreases ft
  {
    // `fullname` joins `path` and `name`; `path` is `root` or lies below it
    && ft.fullname == Join(ft.path, ft.name)
    && Below(root, ft.path)
    // in TREE mode, and without recursion, only immediate children appear at a level
    && (cfg.mode == TREE || !cfg.recursive ==> ft.path == root)
    // neither the entry nor any directory on the way down to it is excluded
    && Unexcluded(root, ft.fullname, cfg, engine)
    // `title` is `name` without `extension`, which is `extname(name)` when
    // extensions are on and empty when they are off
    && ft.title + ft.extension == ft.name
    && (cfg.extensions ==> ft.extension == ExtName(ft.name))
    && (!cfg.extensions ==> ft.extension == "")
    // ignored folders never appear
    && (cfg.ignoreFolders ==> !ft.isDirectory)
    && ft.stats == (if cfg.stats then StatOf(ft.fullname) else NoStats)
    // `content` is there exactly for directories recursed into in TREE mode, and holds their listing
    && (ft.content.Nested? <==> cfg.mode == TREE && cfg.recursive && ft.isDirectory)
    && (ft.content.Nested? ==>
          forall i :: 0 <= i < |ft.content.items| ==> Sound(ft.content.items[i], ft.fullname, cfg, engine))
  }

  predicate AllSound(r: seq<Filetype>, root: Path, cfg: Config, engine: RegexEngine)
  {
    forall i :: 0 <= i < |r| ==> Sound(r[i], root, cfg, engine)
  }

  /** Every descriptor `list` returns, at any depth, satisfies `Sound`. */
  lemma {:induction false} Soundness(e: Entry, dir: Path, cfg: Config, engine: RegexEngine)
    requires ListDir(e, dir, cfg, engine).Ok?
    ensures AllSound(ListDir(e, dir, cfg, engine).value, dir, cfg, engine)
    decreases e, 1
  {
    SoundWalk(e, |e.entries|, dir, cfg, engine);
  }

  lemma {:induction false} SoundWalk(parent: Entry, n: nat, dir: Path, cfg: Config, engine: RegexEngine)
    requires parent.Dir? && n <= |parent.entries|
    requires Walk(parent, n, dir, cfg, engine).Ok?
    ensures AllSound(Walk(parent, n, dir, cfg, engine).value, dir, cfg, engine)
    decreases parent, 0, n
  {
    if n > 0 {
      SoundWalk(parent, n - 1, dir, cfg, engine);
      SoundEmit(parent.entries[n - 1], dir, cfg, engine);
    }
  }

  lemma {:induction false} SoundEmit(e: Entry, dir: Path, cfg: Config, engine: RegexEngine)
    requires Emit(e, dir, cfg, engine).Ok?
    ensures AllSound(Emit(e, dir, cfg, engine).value, dir, cfg, engine)
    decreases e, 2
  {
    var ft := Describe(dir, e, cfg);
    if Admitted(ft.fullname, cfg, engine) {
      if e.Dir? && cfg.recursive {
        Soundness(e, ft.fullname, cfg, engine);
        var sub := ListDir(e, ft.fullname, cfg, engine).value;
        if cfg.mode == LIST {
          forall i | 0 <= i < |sub|
            ensures Sound(sub[i], dir, cfg, engine)
          {
            SoundWiden(sub[i], dir, e.name, cfg, engine);
          }
          if !cfg.ignoreFolders {
            SoundLeaf(e, dir, cfg, engine);
          }
        } else if !cfg.ignoreFolders {
          SoundNode(e, dir, cfg, engine, sub);
        }
      } else if e.File? || !cfg.ignoreFolders {
        SoundLeaf(e, dir, cfg, engine);
      }
    }
  }

  /** The descriptor of a non-excluded entry that gets no content is sound. */
  lemma SoundLeaf(e: Entry, dir: Path, cfg: Config, engine: RegexEngine)
    requires Admitted(Join(dir, e.name), cfg, engine)
    requires !(cfg.mode == TREE && cfg.recursive && e.Dir?)
    requires cfg.ignoreFolders ==> e.File?
    ensures Sound(Describe(dir, e, cfg), dir, cfg, engine)
  {
    var q := Join(dir, e.name);
    assert q[..|dir| + 1] == q;
    assert dir[..|dir|] == dir;
  }

  /** The descriptor of a non-excluded directory holding a sound listing of itself is sound. */
  lemma SoundNode(e: Entry, dir: Path, cfg: Config, engine: RegexEngine, sub: seq<Filetype>)
    requires Admitted(Join(dir, e.name), cfg, engine)
    requires cfg.mode == TREE && cfg.recursive && e.Dir? && !cfg.ignoreFolders
    requires AllSound(sub, Join(dir, e.name), cfg, engine)
    ensures Sound(Describe(dir, e, cfg).(content := Nested(sub)), dir, cfg, engine)
  {
    var q := Join(dir, e.name);
    assert q[..|dir| + 1] == q;
    assert dir[..|dir|] == dir;
  }

  /** In a flat listing, what is sound below a non-excluded child directory is sound below its parent. */
  lemma SoundWiden(x: Filetype, root: Path, name: string, cfg: Config, engine: RegexEngine)
    requires cfg.mode == LIST && cfg.recursive
    requires Admitted(Join(root, name), cfg, engine)
    requires Sound(x, Join(root, name), cfg, engine)
    ensures Sound(x, root, cfg, engine)
  {
    var child := Join(root, name);
    assert x.path[..|root|] == x.path[..|child|][..|root|];
    forall k | |root| < k <= |x.fullname|
      ensures Admitted(x.fullname[..k], cfg, engine)
    {
      if k == |root| + 1 {
        assert x.fullname[..k] == x.path[..|child|];
      }
    }
  }

  /** With recursion off, or in TREE mode, every top-level descriptor is an immediate child of the listed directory. */
  lemma ImmediateChildrenOnly(e: Entry, dir: Path, cfg: Config, engine: RegexEngine)
    requires cfg.mode == TREE || !cfg.recursive
    requires ListDir(e, dir, cfg, engine).Ok?
    ensures forall ft :: ft in ListDir(e, dir, cfg, engine).value ==> ft.path == dir && |ft.fullname| == |dir| + 1
    ensures !cfg.recursive ==> forall ft :: ft in ListDir(e, dir, cfg, engine).value ==> ft.content == NoContent
  {
    Soundness(e, dir, cfg, engine);
  }

  /**
   * TREE mode with folders ignored returns the non-excluded files directly
   * inside the listed directory and nothing else: every subdirectory is
   * dropped together with the listing made for it.
   */
  lemma TreeIgnoringFoldersKeepsTopFiles(e: Entry, dir: Path, cfg: Config, engine: RegexEngine)
    requires cfg.mode == TREE && cfg.ignoreFolders
    requires ListDir(e, dir, cfg, engine).Ok?
    ensures forall ft :: ft in ListDir(e, dir, cfg, engine).value ==>
              !ft.isDirectory && ft.content == NoContent && ft.path == dir
    ensures e.Dir? && Listed(ListDir(e, dir, cfg, engine).value) == AdmittedPrefix(e, |e.entries|, dir, cfg, engine, false)
  {
    Soundness(e, dir, cfg, engine);
    TopLevelEntries(e, dir, cfg, engine);
  }

  /**
   * The paths of the entries among the first `n` of directory `parent` that
   * pass the exclusion test, in listing order, each tagged with whether it is
   * a directory: every file, and every directory when `withDirs` holds.
   */
  function AdmittedPrefix(parent: Entry, n: nat, dir: Path, cfg: Config, engine: RegexEngine, withDirs: bool): seq<(Path, bool)>
    requires parent.Dir? && n <= |parent.entries|
  {
    if n == 0 then []
    else
      var c := parent.entries[n - 1];
      AdmittedPrefix(parent, n - 1, dir, cfg, engine, withDirs)
        + (if Admitted(Join(dir, c.name), cfg, engine) && (c.File? || withDirs) then [(Join(dir, c.name), c.Dir?)] else [])
  }

  /**
   * In TREE mode, or without recursion, the top level of a successful listing
   * holds exactly the non-excluded entries of the listed directory, in listing
   * order, each once: every file, and every directory unless folders are ignored.
   */
  lemma TopLevelEntries(e: Entry, dir: Path, cfg: Config, engine: RegexEngine)
    requires cfg.mode == TREE || !cfg.recursive
    requires ListDir(e, dir, cfg, engine).Ok?
    ensures e.Dir? && Listed(ListDir(e, dir, cfg, engine).value) == AdmittedPrefix(e, |e.entries|, dir, cfg, engine, !cfg.ignoreFolders)
  {
    TopLevelWalk(e, |e.entries|, dir, cfg, engine);
  }

  lemma {:induction false} TopLevelWalk(parent: Entry, n: nat, dir: Path, cfg: Config, engine: RegexEngine)
    requires cfg.mode == TREE || !cfg.recursive
    requires parent.Dir? && n <= |parent.entries|
    requires Walk(parent, n, dir, cfg, engine).Ok?
    ensures Listed(Walk(parent, n, dir, cfg, engine).value) == AdmittedPrefix(parent, n, dir, cfg, engine, !cfg.ignoreFolders)
  {
    if n > 0 {
      TopLevelWalk(parent, n - 1, dir, cfg, engine);
      var c := parent.entries[n - 1];
      var w := Walk(parent, n - 1, dir, cfg, engine).value;
      var m := Emit(c, dir, cfg, engine).value;
      assert Walk(parent, n, dir, cfg, engine).value == w + m;
      TopLevelEmit(c, dir, cfg, engine);
      ListedAppend(w, m);
    }
  }

  lemma ListedAppend(a: seq<Filetype>, b: seq<Filetype>)
    ensures Listed(a + b) == Listed(a) + Listed(b)
  {
  }

  lemma TopLevelEmit(c: Entry, dir: Path, cfg: Config, engine: RegexEngine)
    requires cfg.mode == TREE || !cfg.recursive
    requires Emit(c, dir, cfg, engine).Ok?
    ensures Listed(Emit(c, dir, cfg, engine).value) ==
              if Admitted(Join(dir, c.name), cfg, engine) && (c.File? || !cfg.ignoreFolders) then [(Join(dir, c.name), c.Dir?)] else []
  {
    var ft := Describe(dir, c, cfg);
    if Admitted(ft.fullname, cfg, engine) && (c.File? || !cfg.ignoreFolders) {
      var m := Emit(c, dir, cfg, engine).value;
      assert |m| == 1 && m[0].fullname == ft.fullname && m[0].isDirectory == c.Dir?;
    }
  }

  // ---------------------------------------------------------------------------
  // Flattening a TREE listing gives the LIST listing

  /** A descriptor's flattened form: its content flattened, then the descriptor itself without content. */
  function FlatOne(ft: Filetype): seq<Filetype>
    decreases ft, 1
  {
    (if ft.content.Nested? then FlatContent(ft, |ft.content.items|) else []) + [ft.(content := NoContent)]
  }

  function FlatContent(ft: Filetype, n: nat): seq<Filetype>
    requires ft.content.Nested? && n <= |ft.content.items|
    decreases ft, 0, n
  {
    if n == 0 then [] else FlatContent(ft, n - 1) + FlatOne(ft.content.items[n - 1])
  }

  /** All descriptors of a TREE listing, depth first, each directory after its content. */
  function FlatAll(r: seq<Filetype>): seq<Filetype>
  {
    if r == [] then [] else FlatAll(r[..|r| - 1]) + FlatOne(r[|r| - 1])
  }

  function Flattened(r: Result<seq<Filetype>>): Result<seq<Filetype>>
  {
    match r
    case Err(err) => Err(err)
    case Ok(tree) => Ok(FlatAll(tree))
  }

  lemma {:induction false} FlatAllAppend(a: seq<Filetype>, b: seq<Filetype>)
    ensures FlatAll(a + b) == FlatAll(a) + FlatAll(b)
    decreases |b|
  {
    if b == [] {
      assert a + b == a;
    } else {
      var init, last := b[..|b| - 1], b[|b| - 1];
      assert (a + b)[..|a + b| - 1] == a + init;
      FlatAllAppend(a, init);
      calc {
        FlatAll(a + b);
        FlatAll(a + init) + FlatOne(last);
        FlatAll(a) + FlatAll(init) + FlatOne(last);
        FlatAll(a) + (FlatAll(init) + FlatOne(last));
      }
    }
  }

  lemma {:induction false} FlatContentIsFlatAll(ft: Filetype, n: nat)
    requires ft.content.Nested? && n <= |ft.content.items|
    ensures FlatContent(ft, n) == FlatAll(ft.content.items[..n])
    decreases n
  {
    if n > 0 {
      FlatContentIsFlatAll(ft, n - 1);
      assert ft.content.items[..n][..n - 1] == ft.content.items[..n - 1];
    }
  }

  /**
   * With folders kept, the LIST listing is the TREE listing flattened
   * (each directory after its content): same descriptors, same order, and the
   * same failure when one of them fails.
   */
  lemma {:induction false} TreeFlattensToList(e: Entry, dir: Path, cfg: Config, engine: RegexEngine)
    requires !cfg.ignoreFolders
    ensures ListDir(e, dir, cfg.(mode := LIST), engine) == Flattened(ListDir(e, dir, cfg.(mode := TREE), engine))
    decreases e, 1
  {
    if e.Dir? && e.listable {
      TreeFlattensToListWalk(e, |e.entries|, dir, cfg, engine);
    }
  }

  lemma {:induction false} TreeFlattensToListWalk(parent: Entry, n: nat, dir: Path, cfg: Config, engine: RegexEngine)
    requires !cfg.ignoreFolders
    requires parent.Dir? && n <= |parent.entries|
    ensures Walk(parent, n, dir, cfg.(mode := LIST), engine) == Flattened(Walk(parent, n, dir, cfg.(mode := TREE), engine))
    decreases parent, 0, n
  {
    if n > 0 {
      TreeFlattensToListWalk(parent, n - 1, dir, cfg, engine);
      TreeFlattensToListEmit(parent.entries[n - 1], dir, cfg, engine);
      var t := Walk(parent, n - 1, dir, cfg.(mode := TREE), engine);
      var m := Emit(parent.entries[n - 1], dir, cfg.(mode := TREE), engine);
      if t.Ok? && m.Ok? {
        FlatAllAppend(t.value, m.value);
      }
    }
  }

  lemma {:induction false} TreeFlattensToListEmit(e: Entry, dir: Path, cfg: Config, engine: RegexEngine)
    requires !cfg.ignoreFolders
    ensures Emit(e, dir, cfg.(mode := LIST), engine) == Flattened(Emit(e, dir, cfg.(mode := TREE), engine))
    decreases e, 2
  {
    var ft := Describe(dir, e, cfg.(mode := TREE));
    assert Describe(dir, e, cfg.(mode := LIST)) == ft;
    if Excludes(Render(ft.fullname), cfg.exclude, engine) == Ok(false) {
      FlatSingle(ft);
      assert FlatAll([ft]) == [] + [ft] == [ft];
      if e.Dir? && cfg.recursive {
        TreeFlattensToList(e, ft.fullname, cfg, engine);
        var sub := ListDir(e, ft.fullname, cfg.(mode := TREE), engine);
        if sub.Ok? {
          FlatNested(ft, sub.value);
        }
      }
    }
  }

  lemma FlatSingle(x: Filetype)
    ensures FlatAll([x]) == FlatOne(x)
  {
    assert [x][..0] == [];
  }

  /** A directory holding `sub` flattens to `sub` flattened, then the directory. */
  lemma FlatNested(ft: Filetype, sub: seq<Filetype>)
    requires ft.content == NoContent
    ensures FlatAll([ft.(content := Nested(sub))]) == FlatAll(sub) + [ft]
  {
    var x := ft.(content := Nested(sub));
    FlatSingle(x);
    FlatContentIsFlatAll(x, |sub|);
    assert sub[..|sub|] == sub;
  }

  // ---------------------------------------------------------------------------
  // Failures

  function ErrorOf(r: Result<seq<Filetype>>): Option<Error>
  {
    if r.Err? then Some(r.error) else None
  }

  /**
   * Whether, and how, a listing fails depends only on the tree, the recursion
   * flag and the exclusion patterns: not on the mode, on whether folders are
   * ignored, on stats or on extensions. In particular a subtree listed in TREE
   * mode and then dropped because folders are ignored still makes the whole
   * call fail.
   */
  lemma {:induction false} FailureIgnoresShape(e: Entry, dir: Path, c1: Config, c2: Config, engine: RegexEngine)
    requires c1.recursive == c2.recursive && c1.exclude == c2.exclude
    ensures ErrorOf(ListDir(e, dir, c1, engine)) == ErrorOf(ListDir(e, dir, c2, engine))
    decreases e, 1
  {
    if e.Dir? && e.listable {
      FailureIgnoresShapeWalk(e, |e.entries|, dir, c1, c2, engine);
    }
  }

  lemma {:induction false} FailureIgnoresShapeWalk(parent: Entry, n: nat, dir: Path, c1: Config, c2: Config, engine: RegexEngine)
    requires c1.recursive == c2.recursive && c1.exclude == c2.exclude
    requires parent.Dir? && n <= |parent.entries|
    ensures ErrorOf(Walk(parent, n, dir, c1, engine)) == ErrorOf(Walk(parent, n, dir, c2, engine))
    decreases parent, 0, n
  {
    if n > 0 {
      FailureIgnoresShapeWalk(parent, n - 1, dir, c1, c2, engine);
      FailureIgnoresShapeEmit(parent.entries[n - 1], dir, c1, c2, engine);
    }
  }

  lemma {:induction false} FailureIgnoresShapeEmit(e: Entry, dir: Path, c1: Config, c2: Config, engine: RegexEngine)
    requires c1.recursive == c2.recursive && c1.exclude == c2.exclude
    ensures ErrorOf(Emit(e, dir, c1, engine)) == ErrorOf(Emit(e, dir, c2, engine))
    decreases e, 2
  {
    if e.Dir? && c1.recursive {
      FailureIgnoresShape(e, Join(dir, e.name), c1, c2, engine);
    }
  }

  /**
   * A non-excluded subdirectory whose listing fails makes the whole listing
   * fail whenever recursion is on, whatever the mode and whatever becomes of
   * the subdirectory's own descriptor.
   */
  lemma FailureInSubtreeAborts(e: Entry, dir: Path, cfg: Config, engine: RegexEngine, i: nat)
    requires e.Dir? && e.listable && i < |e.entries|
    requires cfg.recursive && e.entries[i].Dir?
    requires Admitted(Join(dir, e.entries[i].name), cfg, engine)
    requires ListDir(e.entries[i], Join(dir, e.entries[i].name), cfg, engine).Err?
    ensures ListDir(e, dir, cfg, engine).Err?
  {
    if Walk(e, i, dir, cfg, engine).Ok? {
      assert Walk(e, i + 1, dir, cfg, engine).Err?;
      WalkErrorSticks(e, i + 1, |e.entries|, dir, cfg, engine);
    } else {
      WalkErrorSticks(e, i, |e.entries|, dir, cfg, engine);
    }
  }

  /** Without recursion no subdirectory is listed: with valid patterns only the listed directory itself can fail. */
  lemma {:induction false} NonRecursiveListsOnlyTheRoot(e: Entry, dir: Path, cfg: Config, engine: RegexEngine)
    requires !cfg.recursive && AllCompile(cfg.exclude, engine)
    ensures ListDir(e, dir, cfg, engine).Ok? <==> e.Dir? && e.listable
  {
    if e.Dir? && e.listable {
      NonRecursiveWalk(e, |e.entries|, dir, cfg, engine);
    }
  }

  lemma {:induction false} NonRecursiveWalk(parent: Entry, n: nat, dir: Path, cfg: Config, engine: RegexEngine)
    requires !cfg.recursive && AllCompile(cfg.exclude, engine)
    requires parent.Dir? && n <= |parent.entries|
    ensures Walk(parent, n, dir, cfg, engine).Ok?
  {
    if n > 0 {
      NonRecursiveWalk(parent, n - 1, dir, cfg, engine);
      ExcludesIffSomeMatch(Render(Join(dir, parent.entries[n - 1].name)), cfg.exclude, engine);
    }
  }

  /** An excluded entry contributes nothing, and an excluded directory is not listed, even when it cannot be. */
  lemma ExcludedEntryContributesNothing(e: Entry, dir: Path, cfg: Config, engine: RegexEngine)
    requires Excludes(Render(Join(dir, e.name)), cfg.exclude, engine) == Ok(true)
    ensures Emit(e, dir, cfg, engine) == Ok([])
  {
  }

  // ---------------------------------------------------------------------------
  // A reference for flat recursive listings: which paths come out, in which
  // order, and when the listing succeeds

  /**
   * The paths a flat recursive listing of directory `e` at `dir` reaches,
   * each tagged with whether it is a directory: entry by entry in listing
   * order, skipping excluded ones, each subdirectory's paths followed by the
   * subdirectory itself unless folders are ignored.
   */
  function Reachable(e: Entry, dir: Path, cfg: Config, engine: RegexEngine): seq<(Path, bool)>
    requires e.Dir?
    decreases e, 1
  {
    ReachablePrefix(e, |e.entries|, dir, cfg, engine)
  }

  function ReachablePrefix(parent: Entry, n: nat, dir: Path, cfg: Config, engine: RegexEngine): seq<(Path, bool)>
    requires parent.Dir? && n <= |parent.entries|
    decreases parent, 0, n
  {
    if n == 0 then []
    else ReachablePrefix(parent, n - 1, dir, cfg, engine) + ReachableFrom(parent.entries[n - 1], dir, cfg, engine)
  }

  function ReachableFrom(c: Entry, dir: Path, cfg: Config, engine: RegexEngine): seq<(Path, bool)>
    decreases c, 2
  {
    var p := Join(dir, c.name);
    if !Admitted(p, cfg, engine) then []
    else if c.File? then [(p, false)]
    else Reachable(c, p, cfg, engine) + (if cfg.ignoreFolders then [] else [(p, true)])
  }

  /** Every directory the listing of `e` at `dir` descends into can be listed: it is never asked of an excluded one. */
  predicate Listable(e: Entry, dir: Path, cfg: Config, engine: RegexEngine)
    decreases e, 1
  {
    e.Dir? && e.listable && forall i :: 0 <= i < |e.entries| ==> ChildListable(e.entries[i], dir, cfg, engine)
  }

  predicate ChildListable(c: Entry, dir: Path, cfg: Config, engine: RegexEngine)
    decreases c, 2
  {
    c.Dir? && Admitted(Join(dir, c.name), cfg, engine) ==> Listable(c, Join(dir, c.name), cfg, engine)
  }

  /** What a listing names, one pair per descriptor: its fullname and whether it is a directory. */
  function Listed(r: seq<Filetype>): (ps: seq<(Path, bool)>)
    ensures |ps| == |r| && forall i :: 0 <= i < |r| ==> ps[i] == (r[i].fullname, r[i].isDirectory)
  {
    seq(|r|, i requires 0 <= i < |r| => (r[i].fullname, r[i].isDirectory))
  }

  /**
   * With recursion on, valid patterns and LIST mode, the listing succeeds
   * exactly when every directory it descends into can be listed, and then
   * returns one descriptor per reachable path, in the reference order.
   */
  lemma {:induction false} ListMatchesReachable(e: Entry, dir: Path, cfg: Config, engine: RegexEngine)
    requires cfg.mode == LIST && cfg.recursive && AllCompile(cfg.exclude, engine)
    ensures ListDir(e, dir, cfg, engine).Ok? <==> Listable(e, dir, cfg, engine)
    ensures ListDir(e, dir, cfg, engine).Ok? ==> Listed(ListDir(e, dir, cfg, engine).value) == Reachable(e, dir, cfg, engine)
    decreases e, 1
  {
    if e.Dir? && e.listable {
      ListMatchesReachableWalk(e, |e.entries|, dir, cfg, engine);
    }
  }

  lemma {:induction false} ListMatchesReachableWalk(parent: Entry, n: nat, dir: Path, cfg: Config, engine: RegexEngine)
    requires cfg.mode == LIST && cfg.recursive && AllCompile(cfg.exclude, engine)
    requires parent.Dir? && n <= |parent.entries|
    ensures Walk(parent, n, dir, cfg, engine).Ok? <==>
              forall i :: 0 <= i < n ==> ChildListable(parent.entries[i], dir, cfg, engine)
    ensures Walk(parent, n, dir, cfg, engine).Ok? ==>
              Listed(Walk(parent, n, dir, cfg, engine).value) == ReachablePrefix(parent, n, dir, cfg, engine)
    decreases parent, 0, n
  {
    if n > 0 {
      ListMatchesReachableWalk(parent, n - 1, dir, cfg, engine);
      ListMatchesReachableEmit(parent.entries[n - 1], dir, cfg, engine);
      var w := Walk(parent, n - 1, dir, cfg, engine);
      var m := Emit(parent.entries[n - 1], dir, cfg, engine);
      if w.Ok? && m.Ok? {
        assert Listed(w.value + m.value) == Listed(w.value) + Listed(m.value);
      }
    }
  }

  lemma {:induction false} ListMatchesReachableEmit(c: Entry, dir: Path, cfg: Config, engine: RegexEngine)
    requires cfg.mode == LIST && cfg.recursive && AllCompile(cfg.exclude, engine)
    ensures Emit(c, dir, cfg, engine).Ok? <==> ChildListable(c, dir, cfg, engine)
    ensures Emit(c, dir, cfg, engine).Ok? ==> Listed(Emit(c, dir, cfg, engine).value) == ReachableFrom(c, dir, cfg, engine)
    decreases c, 2
  {
    var p := Join(dir, c.name);
    var ft := Describe(dir, c, cfg);
    ExcludesIffSomeMatch(Render(p), cfg.exclude, engine);
    if !Admitted(p, cfg, engine) {
    } else if c.File? {
      assert Emit(c, dir, cfg, engine) == Ok([ft]);
    } else {
      ListMatchesReachable(c, p, cfg, engine);
      var sub := ListDir(c, p, cfg, engine);
      if sub.Ok? {
        var own := Own(ft, cfg);
        assert Emit(c, dir, cfg, engine) == Ok(sub.value + own);
        assert Listed(sub.value + own) == Listed(sub.value) + Listed(own);
      }
    }
  }

  /** The paths of all files below directory `e` at `dir`, in listing order, depth first, each tagged as no directory. */
  function Files(e: Entry, dir: Path): seq<(Path, bool)>
    requires e.Dir?
    decreases e, 1
  {
    FilesPrefix(e, |e.entries|, dir)
  }

  function FilesPrefix(parent: Entry, n: nat, dir: Path): seq<(Path, bool)>
    requires parent.Dir? && n <= |parent.entries|
    decreases parent, 0, n
  {
    if n == 0 then [] else FilesPrefix(parent, n - 1, dir) + FilesFrom(parent.entries[n - 1], dir)
  }

  function FilesFrom(c: Entry, dir: Path): seq<(Path, bool)>
    decreases c, 2
  {
    if c.File? then [(Join(dir, c.name), false)] else Files(c, Join(dir, c.name))
  }

  /** Every directory of the subtree, `e` included, can be listed. */
  predicate AllListable(e: Entry)
    decreases e
  {
    e.Dir? && e.listable && forall i :: 0 <= i < |e.entries| ==> e.entries[i].Dir? ==> AllListable(e.entries[i])
  }

  /** Without patterns and with folders ignored, the reachable paths are exactly the files, and every directory is descended into. */
  lemma {:induction false} NothingExcludedReachesAllFiles(e: Entry, dir: Path, cfg: Config, engine: RegexEngine)
    requires cfg.exclude == [] && cfg.ignoreFolders
    ensures e.Dir? ==> Reachable(e, dir, cfg, engine) == Files(e, dir)
    ensures Listable(e, dir, cfg, engine) <==> AllListable(e)
    decreases e, 1
  {
    if e.Dir? {
      NothingExcludedPrefix(e, |e.entries|, dir, cfg, engine);
    }
  }

  lemma {:induction false} NothingExcludedPrefix(parent: Entry, n: nat, dir: Path, cfg: Config, engine: RegexEngine)
    requires cfg.exclude == [] && cfg.ignoreFolders
    requires parent.Dir? && n <= |parent.entries|
    ensures ReachablePrefix(parent, n, dir, cfg, engine) == FilesPrefix(parent, n, dir)
    ensures forall i :: 0 <= i < n ==>
              (ChildListable(parent.entries[i], dir, cfg, engine) <==>
               (parent.entries[i].Dir? ==> AllListable(parent.entries[i])))
    decreases parent, 0, n
  {
    if n > 0 {
      NothingExcludedPrefix(parent, n - 1, dir, cfg, engine);
      var c := parent.entries[n - 1];
      assert Admitted(Join(dir, c.name), cfg, engine);
      NothingExcludedReachesAllFiles(c, Join(dir, c.name), cfg, engine);
    }
  }

  /**
   * `list(dir)` without options: it succeeds exactly when every directory of
   * the subtree can be listed, and then returns one descriptor per file of
   * the subtree, in listing order, depth first, and no directory descriptor.
   */
  lemma DefaultListing(e: Entry, dir: Path, engine: RegexEngine)
    ensures ListDir(e, dir, Effective(Merge(NoOptions)), engine).Ok? <==> AllListable(e)
    ensures ListDir(e, dir, Effective(Merge(NoOptions)), engine).Ok? ==>
              var r := ListDir(e, dir, Effective(Merge(NoOptions)), engine).value;
              && Listed(r) == Files(e, dir)
              && |r| == |Files(e, dir)|
              && forall ft :: ft in r ==> !ft.isDirectory && ft.content == NoContent
  {
    var cfg := Effective(Merge(NoOptions));
    Defaults();
    ListMatchesReachable(e, dir, cfg, engine);
    NothingExcludedReachesAllFiles(e, dir, cfg, engine);
    if ListDir(e, dir, cfg, engine).Ok? {
      Soundness(e, dir, cfg, engine);
    }
  }
}
