/**
 * The traversal `list(dir, options)` over an immutable filesystem.
 *
 * A directory is an `Entry` whose listing either fails or yields its entries
 * in listing order. `ListDir` is the traversal as a function of that tree;
 * the method `List` is the loop of the implementation, proved equal to it.
 */
module Traversal {
  import opened Paths
  import opened Outcomes
  import opened Exclusion
  import opened Options

  /** A filesystem entry as `readdir` sees it: a file, or a directory that can or cannot be listed. */
  datatype Entry =
    | File(name: string)
    | Dir(name: string, listable: bool, entries: seq<Entry>)

  /**
   * What `stats` holds: `{}` when stats are off, otherwise whatever `fs.stat`
   * reports for the path (left opaque; `{}` when the call fails).
   */
  datatype Stats = NoStats | StatOf(path: Path)

  /** The `content` property of a descriptor: absent, or the nested listing of a directory. */
  datatype Content = NoContent | Nested(items: seq<Filetype>)

  /** The descriptor `list` builds for every entry it visits. */
  datatype Filetype = Filetype(
    name: string,
    title: string,
    path: Path,
    fullname: Path,
    extension: string,
    isDirectory: bool,
    stats: Stats,
    content: Content)

  /** `readdir(dir, { withFileTypes: true })` on the entry that `dir` designates. */
  function ReadDir(e: Entry, dir: Path): (r: Result<seq<Entry>>)
    ensures r.Ok? <==> e.Dir? && e.listable
    ensures r.Ok? ==> r.value == e.entries
    ensures r.Err? ==> r.error == ListingFailed(dir)
  {
    if e.Dir? && e.listable then Ok(e.entries) else Err(ListingFailed(dir))
  }

  /** The descriptor of entry `e` of directory `dir`, before any content is attached. */
  function Describe(dir: Path, e: Entry, cfg: Config): (ft: Filetype)
    ensures ft.name == e.name && ft.fullname == Join(dir, e.name) && ft.path == DirName(ft.fullname) == dir
    ensures ft.title + ft.extension == e.name
    ensures !cfg.extensions ==> ft.extension == "" && ft.title == e.name
    ensures cfg.extensions ==> ft.extension == ExtName(e.name)
    ensures ft.isDirectory == e.Dir? && ft.content == NoContent
  {
    var res := Join(dir, e.name);
    var extension := if cfg.extensions then ExtName(e.name) else "";
    TitleStripsExtension(e.name);
    Filetype(e.name, BaseName(e.name, extension), DirName(res), res, extension, e.Dir?,
             if cfg.stats then StatOf(res) else NoStats, NoContent)
  }

  /** A directory's own descriptor is kept only when folders are not ignored. */
  function Own(ft: Filetype, cfg: Config): seq<Filetype>
  {
    if cfg.ignoreFolders then [] else [ft]
  }

  /** The listing of the directory entry `e`, whose resolved path is `dir`. */
  function ListDir(e: Entry, dir: Path, cfg: Config, engine: RegexEngine): Result<seq<Filetype>>
    decreases e, 1
  {
    match ReadDir(e, dir)
    case Err(err) => Err(err)
    case Ok(dirents) => Walk(e, |dirents|, dir, cfg, engine)
  }

  /** What the first `n` entries of directory `parent` contribute, in listing order. */
  function Walk(parent: Entry, n: nat, dir: Path, cfg: Config, engine: RegexEngine): Result<seq<Filetype>>
    requires parent.Dir? && n <= |parent.entries|
    decreases parent, 0, n
  {
    if n == 0 then Ok([])
    else
      match Walk(parent, n - 1, dir, cfg, engine)
      case Err(err) => Err(err)
      case Ok(results) =>
        match Emit(parent.entries[n - 1], dir, cfg, engine)
        case Err(err) => Err(err)
        case Ok(more) => Ok(results + more)
  }

  /**
   * What one entry of `dir` contributes. An excluded entry contributes nothing
   * and is not descended into. A file contributes its descriptor. A directory
   * contributes, in LIST mode, its flattened listing followed by its own
   * descriptor; in TREE mode, its own descriptor holding the listing as
   * content. The own descriptor is dropped when folders are ignored, after
   * the listing has been made.
   */
  function Emit(e: Entry, dir: Path, cfg: Config, engine: RegexEngine): Result<seq<Filetype>>
    decreases e, 2
  {
    var ft := Describe(dir, e, cfg);
    match Excludes(Render(ft.fullname), cfg.exclude, engine)
    case Err(err) => Err(err)
    case Ok(excluded) =>
      if excluded then Ok([])
      else if e.File? then Ok([ft])
      else if !cfg.recursive then Ok(Own(ft, cfg))
      else
        match ListDir(e, ft.fullname, cfg, engine)
        case Err(err) => Err(err)
        case Ok(sub) =>
          if cfg.mode == LIST then Ok(sub + Own(ft, cfg))
          else Ok(Own(ft.(content := Nested(sub)), cfg))
  }

  /** Once a prefix of the entries fails, the whole directory fails with the same error. */
  lemma {:induction false} WalkErrorSticks(parent: Entry, k: nat, n: nat, dir: Path, cfg: Config, engine: RegexEngine)
    requires parent.Dir? && k <= n <= |parent.entries|
    requires Walk(parent, k, dir, cfg, engine).Err?
    ensures Walk(parent, n, dir, cfg, engine) == Walk(parent, k, dir, cfg, engine)
    decreases n
  {
    if n > k {
      WalkErrorSticks(parent, k, n - 1, dir, cfg, engine);
    }
  }

  /**
   * `list(dir, options)` on the entry `e` that `dir` designates: merge the
   * options, list the directory, and walk its entries one at a time.
   */
  method List(e: Entry, dir: Path, options: OptionsSearch, engine: RegexEngine) returns (r: Result<seq<Filetype>>)
    ensures r == ListDir(e, dir, Effective(Merge(options)), engine)
    decreases e, 1
  {
    var opts := Merge(options);
    var listing := ReadDir(e, dir);
    if listing.Err? {
      return Err(listing.error);
    }
    var dirents := listing.value;
    var results: seq<Filetype> := [];
    for i := 0 to |dirents|
      invariant Walk(e, i, dir, Effective(opts), engine) == Ok(results)
    {
      var next := Visit(results, dirents[i], dir, opts, engine);
      if next.Err? {
        WalkErrorSticks(e, i + 1, |dirents|, dir, Effective(opts), engine);
        return next;
      }
      results := next.value;
    }
    return Ok(results);
  }

  /**
   * One turn of the loop of `list`: describe the entry, test it for
   * exclusion, recurse into it if it is a directory, and add what it
   * contributes to `results`.
   */
  method Visit(results: seq<Filetype>, dirent: Entry, dir: Path, options: OptionsSearch, engine: RegexEngine)
    returns (r: Result<seq<Filetype>>)
    requires Merge(options) == options
    ensures r == match Emit(dirent, dir, Effective(options), engine)
                 case Err(err) => Err(err)
                 case Ok(more) => Ok(results + more)
    decreases dirent, 2
  {
    var cfg := Effective(options);
    var filetype := Describe(dir, dirent, cfg);
    var excluded := Exclude(Render(filetype.fullname), cfg.exclude, engine);
    if excluded.Err? {
      return Err(excluded.error);
    }
    var acc := results;
    assert results + [] == results;
    if !excluded.value {
      if dirent.Dir? {
        if cfg.recursive {
          var sub := List(dirent, filetype.fullname, options, engine);
          if sub.Err? {
            return Err(sub.error);
          }
          assert sub.value + [] == sub.value;
          if cfg.mode == LIST {
            assert acc + sub.value + [filetype] == acc + (sub.value + [filetype]);
            acc := acc + sub.value;
          } else {
            filetype := filetype.(content := Nested(sub.value));
          }
        }
        if !cfg.ignoreFolders {
          acc := acc + [filetype];
        }
      } else {
        acc := acc + [filetype];
      }
    }
    return Ok(acc);
  }
}
