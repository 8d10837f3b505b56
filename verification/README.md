# async-recursive-readdir, modelled in Dafny

The library exports one function, `list(dir, options)`. It reads a directory
with `readdir`, builds a descriptor (`Filetype`) for every entry, drops the
entries whose full path matches one of the `exclude` patterns, and descends
into subdirectories when `recursive` is set. In `LIST` mode the result is flat:
a subdirectory's listing is spliced in, followed by the subdirectory's own
descriptor. In `TREE` mode the listing becomes the `content` of the
subdirectory's descriptor. With `ignoreFolders` the directory descriptors
themselves are dropped. Two failures abort the whole call: a `readdir` that
rejects a path, and a pattern that does not compile as a regular expression,
once the exclusion test reaches it. Patterns are compiled one at a time, in
order, only until one matches. So an invalid pattern after a matching one,
or in a call that lists an empty directory, aborts nothing. A failed
`fs.stat` does not abort anything either; its stats fall back to `{}`.

The model is split into seven modules:

- `Paths` (`paths.dfy`): a resolved path is the sequence of its components,
  with `Join` for `resolve`, `DirName` for `dirname`, `ExtName` for `extname`
  and `BaseName` for `basename`. `Render` gives the `/a/b/c` string that
  exclusion patterns are tested against.
- `Outcomes` (`outcomes.dfy`): the two errors and the `Result` type that
  carries them.
- `Exclusion` (`exclusion.dfy`): the pure function `Excludes` specifies the
  pattern loop `exclude`, and the method `Exclude` is that loop. The
  regular-expression engine is a parameter `RegexEngine`. It says which
  patterns compile and which patterns match which text, ignoring case.
  `LiteralEngine` is a concrete engine for patterns made of plain
  characters: case-insensitive substring search.
- `Options` (`options.dfy`): the options object, with each property left
  out, set to `undefined` or given a value. `Merge` is the spread
  `{ ...defaultOptions, ...options }`. `Effective` gives the options as the
  traversal reads them, with JavaScript truthiness for the flags.
- `Traversal` (`traversal.dfy`): the filesystem is an immutable tree of
  `Entry` values. A directory either can be listed or makes `readdir` fail.
  The functions `ListDir`, `Walk` and `Emit` specify the traversal. The
  method `List` is the loop of `list`, and `Visit` is one turn of it. `List`
  is proved to return exactly `ListDir` of the merged options.
- `TraversalProperties` (`properties.dfy`) holds what the traversal
  guarantees, proved about `ListDir`.
- `Examples` (`examples.dfy`) holds worked listings of a small tree, among
  them the listing the library's test script asks for.

Points where the code's behaviour may be unexpected; the model follows the
code in each:

- In `LIST` mode a directory's descriptor comes *after* the descriptors of
  its content (`src/index.ts:104` and `110`).
- With `extensions` on, `extname` is applied to directory names too, so
  `archive.d` has extension `.d`.
- Exclusion is tested against the full resolved path, not the entry name
  that the doc comment of `exclude` speaks of (`src/index.ts:56-57`).
  So a pattern found in an ancestor directory's path, such as a plain word
  naming that directory, excludes everything below it. An anchored pattern
  such as `^home$` matches the name `home` but not the tested path
  `/home/u/x`.
- In `TREE` mode with `ignoreFolders` (the default), subdirectories are
  still listed and then thrown away. Their failures still abort the call.
- An option explicitly set to `undefined` overrides its default. A mode set
  to `undefined` is not `Mode.LIST`, so the traversal behaves as in `TREE`
  mode.

## Model

| member | source | states |
|---|---|---|
| Paths.Join | src/index.ts:88 | `resolve(dir, name)` for a resolved `dir` appends one component: the result extends `dir` by exactly `name`, and its `dirname` is `dir` again |
| Paths.DirName | src/index.ts:97 | `dirname` drops the last component and nothing else: the result is one component shorter and, extended by that component, gives the path back; the root stays the root |
| Paths.Render | src/index.ts:100 | the string tested against the patterns renders a path as its components, each preceded by a '/'. It is non-empty for every entry path; only the listed root, which is never tested, gives the empty string |
| Paths.RenderExtends | src/index.ts:88-100 | the string of `resolve(dir, name)` is the string of `dir`, a '/', and `name`, so a pattern found in a directory's string is found in each of its entries' |
| Paths.LastDot | src/index.ts:90 | the index found is a '.', and no '.' follows it; -1 when the name has no dot |
| Paths.ExtName | src/index.ts:90 | `extname(name)` is a suffix of `name`. When non-empty it is shorter than `name`, starts with its only '.', and that dot is not the first character. It is empty for `..` and for a name with no dot after its first character, and only then |
| Paths.BaseName | src/index.ts:93 | `basename(name, suffix)` removes `suffix` when it is a non-empty suffix of the name, so that title + suffix is the name; otherwise it returns the name unchanged |
| Paths.TitleStripsExtension | src/index.ts:90-93 | `basename(name, extname(name)) + extname(name) == name`, and the title is the whole name when the extension is empty |
| Exclusion.Exclude | src/index.ts:61-71 | the loop returns exactly `Excludes`: true at the first matching pattern, an `InvalidPattern` error at the first pattern that does not compile, false when the list is exhausted |
| Exclusion.ExcludesIffSomeMatch | src/index.ts:61-70 | with patterns that all compile, a path is excluded if and only if some pattern matches it; the empty list (the default `[]`) excludes nothing |
| Exclusion.ExcludesStopsAtFirstMatch | src/index.ts:63-67 | once a pattern matches, the path is excluded whatever follows it in the list, even a pattern that would not compile |
| Exclusion.ExcludesFailsOnFirstBadPattern | src/index.ts:63-66 | the test fails only with the first pattern that does not compile, and only when no earlier pattern matched |
| Exclusion.FirstBadPatternFails | src/index.ts:63-64 | when no pattern before the k-th matches and all of them compile, and the k-th does not compile, the test fails with `InvalidPattern` of the k-th pattern |
| Exclusion.ContainsIgnoringCase | src/index.ts:64-65 | the literal engine's match holds if and only if the pattern occurs in the text at some position, letters compared without case |
| Options.Merge | src/index.ts:83 | after the spread no property is absent; each property the caller left out has its default, and each one the caller set, even to `undefined`, keeps the caller's value |
| Options.Effective | src/index.ts:89-109 | the traversal reads each flag as the merged value when one was given and as false when it is `undefined` or missing; the mode is LIST only when `Mode.LIST` was given and TREE otherwise; an `undefined` exclusion list is the empty list, as the default parameter of `exclude` (src/index.ts:61) makes it |
| Options.MergeIdempotent | src/index.ts:104 | merging already merged options again, as every recursive call does, changes nothing |
| Options.Defaults | src/index.ts:30-37 | without options the traversal runs in LIST mode, recursive, without stats, ignoring folders, without extensions, excluding nothing |
| Options.UndefinedModeReadsAsTree | src/index.ts:103 | a mode set to `undefined` fails the `== Mode.LIST` test and the traversal behaves as in TREE mode |
| Traversal.Describe | src/index.ts:88-99 | the descriptor's name is the entry name and its fullname is the dir joined with the name. Its path is the `dirname` of the fullname, which is the listed directory. `title + extension == name`. The extension is `extname(name)` when extensions are on, and "" (title = name) when off. `isDirectory` tells whether the entry is a directory. There is no content yet |
| Traversal.List | src/index.ts:79-121 | `list(dir, options)` returns exactly `ListDir` of the tree under the merged options: the same descriptors in the same order, or the same error |
| Traversal.Visit | src/index.ts:87-115 | one turn of the loop returns `results` extended by exactly what `Emit` says the entry contributes, or that entry's error |
| Traversal.WalkErrorSticks | src/index.ts:118-119 | once the walk over a prefix of the entries fails, the walk over every longer prefix fails with the same error: nothing after a failure is returned |
| TraversalProperties.Soundness | src/index.ts:87-115 | every descriptor returned, at any depth, satisfies the following. Its fullname joins its path and name. It lies under the listed directory, and directly in it in TREE mode or without recursion. Neither it nor any directory between it and the root is excluded. `title + extension == name`. The extension is `extname(name)` when extensions are on and empty when they are off. It is never a directory when folders are ignored. Its stats follow the stats flag. It has content exactly when it is a directory recursed into in TREE mode, and that content is sound for the directory |
| TraversalProperties.SoundLeaf | src/index.ts:100-113 | the descriptor of a non-excluded entry that gets no content satisfies `Sound` |
| TraversalProperties.SoundNode | src/index.ts:106 | a non-excluded directory descriptor holding a sound listing of itself as content satisfies `Sound` |
| TraversalProperties.SoundWiden | src/index.ts:104 | in a flat listing, what is sound below a non-excluded subdirectory is sound below its parent |
| TraversalProperties.ImmediateChildrenOnly | src/index.ts:102-107 | in TREE mode or without recursion, every top-level descriptor is an immediate child of the listed directory. Without recursion, no descriptor has content |
| TraversalProperties.TreeIgnoringFoldersKeepsTopFiles | src/index.ts:105-113 | TREE mode with folders ignored returns only files directly inside the listed directory, with no content, and their fullnames are exactly those of the non-excluded files of the directory, in listing order, each marked as no directory |
| TraversalProperties.TopLevelEntries | src/index.ts:100-113 | in TREE mode, or without recursion, a successful listing's fullnames are exactly those of the non-excluded entries of the listed directory, in listing order and each once: every file, and every directory unless folders are ignored. Each descriptor's `isDirectory` is the kind of its entry |
| TraversalProperties.FlatAllAppend | src/index.ts:104 | flattening distributes over concatenation |
| TraversalProperties.FlatNested | src/index.ts:106 | a directory whose content is `sub` flattens to `sub` flattened, followed by the directory itself |
| TraversalProperties.TreeFlattensToList | src/index.ts:103-110 | with folders kept, the LIST result is the TREE result flattened depth first, each directory after its content. The two results hold the same descriptors in the same order, or fail with the same error |
| TraversalProperties.FailureIgnoresShape | src/index.ts:102-106 | whether and how a listing fails depends only on the tree, the recursion flag and the patterns, not on the mode, ignoreFolders, stats or extensions |
| TraversalProperties.FailureInSubtreeAborts | src/index.ts:104-106 | with recursion on, a non-excluded subdirectory whose listing fails makes the whole call fail, even when its descriptor would be dropped |
| TraversalProperties.NonRecursiveListsOnlyTheRoot | src/index.ts:102 | without recursion and with valid patterns, the call succeeds exactly when the listed directory can be read; no subdirectory is opened |
| TraversalProperties.ExcludedEntryContributesNothing | src/index.ts:100 | an excluded entry contributes no descriptor and, being a directory, is not listed, even when it cannot be |
| TraversalProperties.ListMatchesReachable | src/index.ts:100-114 | in recursive LIST mode with valid patterns, the call succeeds exactly when every non-excluded directory on the way can be read. The fullnames returned are exactly the reachable paths, in listing order with each directory after its content, and a descriptor's `isDirectory` holds exactly when its path is a directory of the tree |
| TraversalProperties.NothingExcludedReachesAllFiles | src/index.ts:100-113 | with no patterns and folders ignored, the reachable paths are exactly the files of the tree in depth-first order, none of them a directory, and every directory on the way must be readable |
| TraversalProperties.DefaultListing | src/index.ts:30-37 | with default options the call succeeds exactly when every directory in the tree is readable. It then returns one descriptor per file of the tree, in depth-first listing order, with no directories and no content |
| Examples.DefaultsListFilesOnly | src/index.ts:30-37 | on `dir = {a.txt, dir1/{b.txt}}`, default options return the descriptors of `a.txt` and `b.txt`, in that order |
| Examples.SampleExclusion | src/index.ts:64-65 | the pattern "dir1" matches `/dir/dir1` and not `/dir/a.txt` |
| Examples.ExcludingDir1DropsItsFiles | src/index.ts:100 | excluding "dir1" drops the directory and the file inside it, leaving only `a.txt` |
| Examples.FoldersComeAfterTheirContent | src/index.ts:104-111 | with folders kept the flat listing is `a.txt`, `b.txt`, `dir1`: the directory after its content |
| Examples.DroppedSubtreeStillFails | src/index.ts:106-111 | in TREE mode with folders ignored, an unreadable subdirectory still fails the whole call, although its descriptor would have been dropped |
| Examples.TestScriptListing | test/index.ts:4-12 | with the test script's options (LIST, recursive, folders kept, extensions on, excluding "dir2" and "dir1"), `dir` lists only `a.txt`, with extension `.txt` and title `a`, for any regular-expression engine that answers the two patterns as JavaScript does on these paths |
| Examples.LiteralEngineAnswersTestPatterns | src/index.ts:64-65 | the literal engine gives those answers: "dir2" matches neither path and "dir1" matches only `/dir/dir1` |
| Examples.TextExtension | src/index.ts:90-93 | `a.txt` has extension `.txt` and title `a` |
| Examples.ReportExtension | src/index.ts:90-93 | `report.final.csv` has extension `.csv` and title `report.final` |

## Left out

- `readdir` itself and its `Dirent`s are replaced by the immutable `Entry` tree. Only files and directories are modelled. Symbolic links and other special entries, and a filesystem that changes during the walk, are not.
- `getStats` (`src/index.ts:44-53`) is not modelled beyond `StatOf(path)`. What `fs.stat` reports, and the `{}` it falls back to on failure, are left opaque.
- The regular-expression engine is a parameter. The syntax and matching of JavaScript regular expressions are not modelled. `LiteralEngine` covers patterns of plain characters, with ASCII case folding only.
- `path.resolve` of a relative `dir` against the working directory is not modelled. The listed directory is given as an already resolved path. Entry names are single components. So `..` components, separators inside names and Windows paths do not arise.
- The asynchronous plumbing (`async`, `await`, `Promise`) is not modelled. The traversal is sequential, as the `await` inside the loop makes it, and a rejected promise is an `Err` result.
- `null` is not modelled as a property value. A `null` exclusion list, which makes `exclude` throw, is outside the model. An omitted or `null` options argument is `NoOptions`.
- The `try`/`catch` that rethrows (`src/index.ts:84`, `118-120`) changes nothing and is not modelled separately.
- The console output of `test/index.ts` is not modelled. The script lists the relative path `dir`, which resolves against the working directory, and the patterns are tested against that resolved path. `Examples.TestScriptListing` is the listing it prints when `dir` resolves to `/dir`. A working directory whose path contains `dir1` or `dir2` would make the script print `[]`.
- TraversalProperties.Soundness: `Sound` judges a descriptor without the tree it came from, so it does not say that `isDirectory` is the kind of the entry (src/index.ts:96). That is stated against the tree by `ListMatchesReachable` for recursive LIST listings and by `TopLevelEntries` for TREE mode's top level and listings without recursion. `TreeFlattensToList` carries the recursive LIST fact over to the nested content of a TREE listing that keeps folders.
- Paths.ExtName: `extname` is stated only for names without separators, which are the only names the traversal passes it.
