/**
 * Small worked listings: a directory `dir` holding the file `a.txt` and the
 * subdirectory `dir1`, which holds `b.txt`. Exclusion patterns here are plain
 * words, matched as case-insensitive substrings.
 */
module Examples {
  import opened Paths
  import opened Outcomes
  import opened Exclusion
  import opened Options
  import opened Traversal

  const Sub := Dir("dir1", true, [File("b.txt")])
  const Sample := Dir("dir", true, [File("a.txt"), Sub])
  const Root: Path := ["dir"]

  function FileAt(dir: Path, name: string): Filetype
  {
    Filetype(name, name, dir, dir + [name], "", false, NoStats, NoContent)
  }

  const A := FileAt(["dir"], "a.txt")
  const B := FileAt(["dir", "dir1"], "b.txt")
  const Dir1 := Filetype("dir1", "dir1", ["dir"], ["dir", "dir1"], "", true, NoStats, NoContent)

  /** Without options: the two files, in listing order, and no descriptor for `dir1`. */
  lemma DefaultsListFilesOnly()
    ensures ListDir(Sample, Root, Effective(Merge(NoOptions)), LiteralEngine) == Ok([A, B])
  {
    var cfg := Effective(Merge(NoOptions));
    Defaults();
    assert Sub.entries[0] == File("b.txt") && Sample.entries[0] == File("a.txt") && Sample.entries[1] == Sub;
    assert Emit(File("b.txt"), ["dir", "dir1"], cfg, LiteralEngine) == Ok([B]);
    assert Walk(Sub, 0, ["dir", "dir1"], cfg, LiteralEngine) == Ok([]);
    assert [] + [B] == [B];
    assert Walk(Sub, 1, ["dir", "dir1"], cfg, LiteralEngine) == Ok([B]);
    assert ListDir(Sub, ["dir", "dir1"], cfg, LiteralEngine) == Ok([B]);
    assert [B] + [] == [B];
    assert Join(Root, "dir1") == ["dir", "dir1"];
    assert Emit(Sub, Root, cfg, LiteralEngine) == Ok([B]);
    assert Emit(File("a.txt"), Root, cfg, LiteralEngine) == Ok([A]);
    assert [] + [A] == [A];
    assert Walk(Sample, 1, Root, cfg, LiteralEngine) == Ok([A]);
    assert [A] + [B] == [A, B];
    assert Walk(Sample, 2, Root, cfg, LiteralEngine) == Ok([A, B]);
  }

  /** Excluding "dir1" drops the directory and everything in it. */
  lemma ExcludingDir1DropsItsFiles()
    ensures ListDir(Sample, Root, Effective(Merge(NoOptions.(exclude := Given(["dir1"])))), LiteralEngine)
            == Ok([A])
  {
    var cfg := Effective(Merge(NoOptions.(exclude := Given(["dir1"]))));
    assert cfg == Config(LIST, true, false, true, false, ["dir1"]);
    assert Sample.entries[0] == File("a.txt") && Sample.entries[1] == Sub;
    assert Join(Root, "a.txt") == ["dir", "a.txt"] && Join(Root, "dir1") == ["dir", "dir1"];
    SampleExclusion();
    assert Emit(File("a.txt"), Root, cfg, LiteralEngine) == Ok([A]);
    assert Emit(Sub, Root, cfg, LiteralEngine) == Ok([]);
    assert [] + [A] == [A] && [A] + [] == [A];
    assert Walk(Sample, 1, Root, cfg, LiteralEngine) == Ok([A]);
    assert Walk(Sample, 2, Root, cfg, LiteralEngine) == Ok([A]);
  }

  /** Of the two entries of `dir`, only `dir1` contains the word "dir1" in its path. */
  lemma SamplePathsMatch()
    ensures !ContainsIgnoringCase(Render(["dir", "a.txt"]), "dir1")
    ensures ContainsIgnoringCase(Render(["dir", "dir1"]), "dir1")
  {
    assert Render(["dir", "a.txt"]) == "/dir/a.txt" by {
      assert ["dir", "a.txt"][..1] == ["dir"];
    }
    assert Render(["dir", "dir1"]) == "/dir/dir1" by {
      assert ["dir", "dir1"][..1] == ["dir"];
    }
    forall i | 0 <= i <= 10
      ensures !StartsWithIgnoringCase("/dir/a.txt"[i..], "dir1")
    {
      if i <= 6 {
        assert Lower("/dir/a.txt"[i + 3]) != Lower('1');
      }
    }
    assert StartsWithIgnoringCase("/dir/dir1"[5..], "dir1");
  }

  /** The pattern "dir1" excludes `dir1` and lets `a.txt` through. */
  lemma SampleExclusion()
    ensures Excludes(Render(["dir", "a.txt"]), ["dir1"], LiteralEngine) == Ok(false)
    ensures Excludes(Render(["dir", "dir1"]), ["dir1"], LiteralEngine) == Ok(true)
  {
    SamplePathsMatch();
  }

  /** With folders kept, a directory's descriptor comes after those of its content. */
  lemma FoldersComeAfterTheirContent()
    ensures ListDir(Sample, Root, Effective(Merge(NoOptions.(ignoreFolders := Given(false)))), LiteralEngine)
            == Ok([A, B, Dir1])
  {
    var cfg := Effective(Merge(NoOptions.(ignoreFolders := Given(false))));
    assert cfg == Config(LIST, true, false, false, false, []);
    assert Sub.entries[0] == File("b.txt") && Sample.entries[0] == File("a.txt") && Sample.entries[1] == Sub;
    assert Emit(File("b.txt"), ["dir", "dir1"], cfg, LiteralEngine) == Ok([B]);
    assert Walk(Sub, 0, ["dir", "dir1"], cfg, LiteralEngine) == Ok([]);
    assert [] + [B] == [B];
    assert Walk(Sub, 1, ["dir", "dir1"], cfg, LiteralEngine) == Ok([B]);
    assert ListDir(Sub, ["dir", "dir1"], cfg, LiteralEngine) == Ok([B]);
    assert Join(Root, "dir1") == ["dir", "dir1"];
    assert Describe(Root, Sub, cfg) == Dir1;
    assert [B] + [Dir1] == [B, Dir1];
    assert Emit(Sub, Root, cfg, LiteralEngine) == Ok([B, Dir1]);
    assert Emit(File("a.txt"), Root, cfg, LiteralEngine) == Ok([A]);
    assert [] + [A] == [A];
    assert Walk(Sample, 1, Root, cfg, LiteralEngine) == Ok([A]);
    assert [A] + [B, Dir1] == [A, B, Dir1];
    assert Walk(Sample, 2, Root, cfg, LiteralEngine) == Ok([A, B, Dir1]);
  }

  /** A subdirectory that cannot be listed fails the whole call in TREE mode, although its descriptor would be dropped. */
  lemma DroppedSubtreeStillFails()
    ensures ListDir(Dir("dir", true, [File("a.txt"), Dir("locked", false, [])]), Root,
                    Config(TREE, true, false, true, false, []), LiteralEngine)
            == Err(ListingFailed(["dir", "locked"]))
  {
    var cfg := Config(TREE, true, false, true, false, []);
    var locked := Dir("locked", false, []);
    var top := Dir("dir", true, [File("a.txt"), locked]);
    assert top.entries[0] == File("a.txt") && top.entries[1] == locked;
    assert Join(Root, "locked") == ["dir", "locked"];
    assert ListDir(locked, ["dir", "locked"], cfg, LiteralEngine) == Err(ListingFailed(["dir", "locked"]));
    assert Emit(locked, Root, cfg, LiteralEngine) == Err(ListingFailed(["dir", "locked"]));
    assert Emit(File("a.txt"), Root, cfg, LiteralEngine) == Ok([A]);
    assert [] + [A] == [A];
    assert Walk(top, 1, Root, cfg, LiteralEngine) == Ok([A]);
    assert Walk(top, 2, Root, cfg, LiteralEngine) == Err(ListingFailed(["dir", "locked"]));
  }

  /** The options of the library's own test script. */
  const TestOptions := OptionsSearch(Given(LIST), Given(true), Given(false), Given(false), Given(true), Given(["dir2", "dir1"]))

  /** `a.txt` as listed with extensions on. */
  const TextA := Filetype("a.txt", "a", ["dir"], ["dir", "a.txt"], ".txt", false, NoStats, NoContent)

  /**
   * The answers a regular-expression engine gives for the test script's
   * patterns on the paths of `dir`: both patterns compile, "dir2" matches
   * neither path, and "dir1" matches `/dir/dir1` only.
   */
  predicate AnswersTestPatterns(engine: RegexEngine)
  {
    && engine.compiles("dir2") && engine.compiles("dir1")
    && !engine.matches("dir2", "/dir/a.txt") && !engine.matches("dir1", "/dir/a.txt")
    && !engine.matches("dir2", "/dir/dir1") && engine.matches("dir1", "/dir/dir1")
  }

  /**
   * With the test script's options, `dir1` is excluded by the second pattern,
   * so only `a.txt` is listed, with extension ".txt" and title "a".
   */
  lemma TestScriptListing(engine: RegexEngine)
    requires AnswersTestPatterns(engine)
    ensures ListDir(Sample, Root, Effective(Merge(TestOptions)), engine) == Ok([TextA])
  {
    assert Effective(Merge(TestOptions)) == TestConfig;
    TestScriptWalk(engine);
  }

  lemma TestScriptWalk(engine: RegexEngine)
    requires AnswersTestPatterns(engine)
    ensures Walk(Sample, 2, Root, TestConfig, engine) == Ok([TextA])
  {
    TestScriptEntries(engine);
    WalkTwo(Sample, Root, TestConfig, engine, [TextA], []);
    assert [TextA] + [] == [TextA];
  }

  /** A directory of two entries lists what the first contributes, then what the second does. */
  lemma WalkTwo(top: Entry, dir: Path, cfg: Config, engine: RegexEngine, x: seq<Filetype>, y: seq<Filetype>)
    requires top.Dir? && |top.entries| == 2
    requires Emit(top.entries[0], dir, cfg, engine) == Ok(x)
    requires Emit(top.entries[1], dir, cfg, engine) == Ok(y)
    ensures Walk(top, 2, dir, cfg, engine) == Ok(x + y)
  {
    assert Walk(top, 0, dir, cfg, engine) == Ok([]);
    assert [] + x == x;
  }

  const TestConfig := Config(LIST, true, false, false, true, ["dir2", "dir1"])

  /** What each entry of `dir` contributes under the test script's options. */
  lemma TestScriptEntries(engine: RegexEngine)
    requires AnswersTestPatterns(engine)
    ensures Emit(Sample.entries[0], Root, TestConfig, engine) == Ok([TextA])
    ensures Emit(Sample.entries[1], Root, TestConfig, engine) == Ok([])
  {
    assert Sample.entries[0] == File("a.txt") && Sample.entries[1] == Sub;
    assert Join(Root, "a.txt") == ["dir", "a.txt"] && Join(Root, "dir1") == ["dir", "dir1"];
    TextExtension();
    assert Describe(Root, File("a.txt"), TestConfig) == TextA;
    TestExclusion(engine);
  }

  lemma TextExtension()
    ensures ExtName("a.txt") == ".txt" && BaseName("a.txt", ".txt") == "a"
  {
    var name := "a.txt";
    assert name[1] == '.' && name[2] != '.' && name[3] != '.' && name[4] != '.';
    assert LastDot(name) == 1;
    assert name[1..] == ".txt";
    assert name[..1] == "a";
  }

  /** The pattern "dir2" matches neither entry of `dir`; "dir1" then decides. */
  lemma TestExclusion(engine: RegexEngine)
    requires AnswersTestPatterns(engine)
    ensures Excludes(Render(["dir", "a.txt"]), ["dir2", "dir1"], engine) == Ok(false)
    ensures Excludes(Render(["dir", "dir1"]), ["dir2", "dir1"], engine) == Ok(true)
  {
    SampleRenders();
    var patterns := ["dir2", "dir1"];
    assert patterns[0] == "dir2" && patterns[1..] == ["dir1"] && patterns[1..][1..] == [];
    assert Excludes("/dir/a.txt", ["dir1"], engine) == Ok(false);
    assert Excludes("/dir/dir1", ["dir1"], engine) == Ok(true);
  }

  lemma SampleRenders()
    ensures Render(["dir", "a.txt"]) == "/dir/a.txt" && Render(["dir", "dir1"]) == "/dir/dir1"
  {
    assert ["dir", "a.txt"][..1] == ["dir"];
    assert ["dir", "dir1"][..1] == ["dir"];
  }

  /** A pattern holding a digit that the text lacks does not occur in it, in either case. */
  lemma MissingDigit(text: string, pat: string, j: nat)
    requires j < |pat| && '0' <= pat[j] <= '9' && pat[j] !in text
    ensures !ContainsIgnoringCase(text, pat)
  {
    forall i | 0 <= i <= |text|
      ensures !StartsWithIgnoringCase(text[i..], pat)
    {
      if i + j < |text| {
        assert text[i..][j] == text[i + j];
        assert Lower(text[i + j]) != Lower(pat[j]);
      }
    }
  }

  /** The literal engine answers the test script's patterns as a regular-expression engine does. */
  lemma LiteralEngineAnswersTestPatterns()
    ensures AnswersTestPatterns(LiteralEngine)
  {
    SamplePathsMatch();
    SampleRenders();
    SamplePathAvoidsDir2("/dir/a.txt");
    SamplePathAvoidsDir2("/dir/dir1");
  }

  /** Neither path of an entry of `dir` contains "dir2": neither holds a '2'. */
  lemma SamplePathAvoidsDir2(path: string)
    requires path == "/dir/a.txt" || path == "/dir/dir1"
    ensures !ContainsIgnoringCase(path, "dir2")
  {
    MissingDigit(path, "dir2", 3);
  }

  /** With extensions on, `report.final.csv` has extension ".csv" and title "report.final". */
  lemma ReportExtension()
    ensures ExtName("report.final.csv") == ".csv"
    ensures BaseName("report.final.csv", ExtName("report.final.csv")) == "report.final"
  {
    var name := "report.final.csv";
    assert name[12] == '.' && name[13] != '.' && name[14] != '.' && name[15] != '.';
    assert LastDot(name) == 12;
    assert name[12..] == ".csv";
    assert name[..12] == "report.final";
  }
}
