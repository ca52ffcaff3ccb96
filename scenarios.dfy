/**
 * Small concrete vaults that show the scan's rules at work: the plain
 * case, a folder exclusion, a file exclusion, and a directory named like
 * a Markdown file.
 */
module ScanScenarios {
  import opened TextUtil
  import opened Vault

  /** `a.md` with an open task, `b.md` without, `sub/c.md` with one. */
  function SampleVault(): seq<Node>
  {
    [File("a.md", "- [ ] todo"), File("b.md", "done"), Dir("sub", [File("c.md", "- [ ] x")])]
  }

  const NoExclusions: ScanConfig := ScanConfig([], [])

  lemma MarkerIn(content: string)
    requires |content| >= 5 && content[..5] == Marker
    ensures Contains(content, Marker)
  {
    assert OccursAt(content, Marker, 0);
  }

  lemma ChildPathPlain(dirPath: string, name: string)
    requires '\\' !in dirPath && '\\' !in name
    ensures ChildPath(dirPath, name) == dirPath + "/" + name
  {
    NormalizeFixed(dirPath + "/" + name);
  }

  /** A Markdown file whose text opens with the marker is reported under its joined path. */
  lemma OpenTaskFileReported(dirPath: string, name: string, content: string, cfg: ScanConfig)
    requires '\\' !in dirPath && '\\' !in name
    requires EndsWith(name, MarkdownExtension)
    requires |content| >= 5 && content[..5] == Marker
    requires dirPath + "/" + name !in cfg.excludedFiles
    ensures ScanEntry(dirPath, File(name, content), cfg) == [dirPath + "/" + name]
  {
    ChildPathPlain(dirPath, name);
    MarkerIn(content);
  }

  /** A file whose path is listed as excluded is never reported, whatever it holds. */
  lemma ExcludedFileSkipped(dirPath: string, name: string, content: string, cfg: ScanConfig)
    requires '\\' !in dirPath && '\\' !in name
    requires dirPath + "/" + name in cfg.excludedFiles
    ensures ScanEntry(dirPath, File(name, content), cfg) == []
  {
    ChildPathPlain(dirPath, name);
  }

  /** A directory entry contributes the scan of its own listing, even when named `*.md`. */
  lemma DirEntryScanned(dirPath: string, name: string, children: seq<Node>, cfg: ScanConfig)
    requires '\\' !in dirPath && '\\' !in name
    requires dirPath + "/" + name !in cfg.excludedFiles
    ensures ScanEntry(dirPath, Dir(name, children), cfg) == ScanDir(dirPath + "/" + name, children, cfg)
  {
    ChildPathPlain(dirPath, name);
  }

  /** `b.md` holds no marker. */
  lemma DoneSkipped(cfg: ScanConfig)
    requires "/vault/b.md" !in cfg.excludedFiles
    ensures ScanEntry("/vault", File("b.md", "done"), cfg) == []
  {
    ChildPathPlain("/vault", "b.md");
    assert "/vault" + "/" + "b.md" == "/vault/b.md";
    assert !Contains("done", Marker);
  }

  /** The three entries of the sample, concatenated in listing order. */
  lemma SampleEntries(cfg: ScanConfig)
    ensures ScanEntries("/vault", SampleVault(), cfg)
         == ScanEntry("/vault", File("a.md", "- [ ] todo"), cfg)
          + ScanEntry("/vault", File("b.md", "done"), cfg)
          + ScanEntry("/vault", Dir("sub", [File("c.md", "- [ ] x")]), cfg)
  {
    var es := SampleVault();
    assert es[1..][1..] == [Dir("sub", [File("c.md", "- [ ] x")])];
    assert ScanEntries("/vault", es[1..][1..][1..], cfg) == [];
  }

  /** The scan of the sample root, given what each of its three entries contributes. */
  lemma SampleFromEntries(cfg: ScanConfig, a: seq<string>, b: seq<string>, c: seq<string>)
    requires !FolderExcluded("/vault", cfg)
    requires ScanEntry("/vault", File("a.md", "- [ ] todo"), cfg) == a
    requires ScanEntry("/vault", File("b.md", "done"), cfg) == b
    requires ScanEntry("/vault", Dir("sub", [File("c.md", "- [ ] x")]), cfg) == c
    ensures ScanDir("/vault", SampleVault(), cfg) == a + b + c
  {
    NormalizeFixed("/vault");
    SampleEntries(cfg);
  }

  /** The contents of `sub` with no exclusion touching them. */
  lemma SubScan(cfg: ScanConfig)
    requires !FolderExcluded("/vault/sub", cfg) && "/vault/sub/c.md" !in cfg.excludedFiles
    ensures ScanDir("/vault/sub", [File("c.md", "- [ ] x")], cfg) == ["/vault/sub/c.md"]
  {
    NormalizeFixed("/vault/sub");
    assert "/vault/sub" + "/" + "c.md" == "/vault/sub/c.md";
    assert EndsWith("c.md", MarkdownExtension);
    OpenTaskFileReported("/vault/sub", "c.md", "- [ ] x", cfg);
    var es := [File("c.md", "- [ ] x")];
    assert ScanEntries("/vault/sub", es[1..], cfg) == [];
  }

  /** `a.md` is reported when nothing excludes it. */
  lemma FirstReported(cfg: ScanConfig)
    requires "/vault/a.md" !in cfg.excludedFiles
    ensures ScanEntry("/vault", File("a.md", "- [ ] todo"), cfg) == ["/vault/a.md"]
  {
    assert "/vault" + "/" + "a.md" == "/vault/a.md";
    assert EndsWith("a.md", MarkdownExtension);
    OpenTaskFileReported("/vault", "a.md", "- [ ] todo", cfg);
  }

  /** `sub` contributes the scan of `/vault/sub`. */
  lemma SubEntry(cfg: ScanConfig)
    requires "/vault/sub" !in cfg.excludedFiles
    ensures ScanEntry("/vault", Dir("sub", [File("c.md", "- [ ] x")]), cfg)
         == ScanDir("/vault/sub", [File("c.md", "- [ ] x")], cfg)
  {
    assert "/vault" + "/" + "sub" == "/vault/sub";
    DirEntryScanned("/vault", "sub", [File("c.md", "- [ ] x")], cfg);
  }

  /** Everything applicable is reported, in listing order, subdirectory contents in place. */
  lemma SampleNoExclusions()
    ensures ScanDir("/vault", SampleVault(), NoExclusions) == ["/vault/a.md", "/vault/sub/c.md"]
  {
    var cfg := NoExclusions;
    FirstReported(cfg);
    DoneSkipped(cfg);
    SubEntry(cfg);
    SubScan(cfg);
    SampleFromEntries(cfg, ["/vault/a.md"], [], ["/vault/sub/c.md"]);
  }

  /** Excluding the folder `/vault/sub` drops what it holds and keeps the rest. */
  lemma SampleFolderExcluded()
    ensures ScanDir("/vault", SampleVault(), ScanConfig(["/vault/sub"], [])) == ["/vault/a.md"]
  {
    var cfg := ScanConfig(["/vault/sub"], []);
    assert !StartsWith("/vault", "/vault/sub");
    NormalizeFixed("/vault/sub");
    assert StartsWith("/vault/sub", cfg.excludedFolders[0]);
    FirstReported(cfg);
    DoneSkipped(cfg);
    SubEntry(cfg);
    SampleFromEntries(cfg, ["/vault/a.md"], [], []);
  }

  /** Listing `/vault/a.md` among the excluded files drops exactly that file. */
  lemma SampleFileExcluded()
    ensures ScanDir("/vault", SampleVault(), ScanConfig([], ["/vault/a.md"])) == ["/vault/sub/c.md"]
  {
    var cfg := ScanConfig([], ["/vault/a.md"]);
    assert "/vault" + "/" + "a.md" == "/vault/a.md";
    ExcludedFileSkipped("/vault", "a.md", "- [ ] todo", cfg);
    DoneSkipped(cfg);
    SubEntry(cfg);
    SubScan(cfg);
    SampleFromEntries(cfg, [], [], ["/vault/sub/c.md"]);
  }

  /** A directory named like a Markdown file is recursed into, never read as a file. */
  lemma MarkdownNamedFolder()
    ensures ScanDir("/vault", [Dir("notes.md", [File("d.md", "- [ ] y")])], NoExclusions) == ["/vault/notes.md/d.md"]
  {
    var cfg := NoExclusions;
    var inner := [File("d.md", "- [ ] y")];
    assert "/vault" + "/" + "notes.md" == "/vault/notes.md";
    DirEntryScanned("/vault", "notes.md", inner, cfg);
    NormalizeFixed("/vault/notes.md");
    assert "/vault/notes.md" + "/" + "d.md" == "/vault/notes.md/d.md";
    assert EndsWith("d.md", MarkdownExtension);
    OpenTaskFileReported("/vault/notes.md", "d.md", "- [ ] y", cfg);
    assert ScanEntries("/vault/notes.md", inner[1..], cfg) == [];
    var outer := [Dir("notes.md", inner)];
    assert ScanEntries("/vault", outer[1..], cfg) == [];
    NormalizeFixed("/vault");
  }
}
