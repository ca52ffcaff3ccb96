/**
 * The plugin commands of `src/main.ts`: the hard-coded exclusion lists,
 * the conversion of a scanned path into an Obsidian link, the report
 * written by "List Files with Tasks" and the number shown by "Show Task
 * Count". The host calls (notices, the vault write, the clock) are
 * replaced by parameters and return values.
 */
module TaskChecker {
  import opened TextUtil
  import opened Vault
  import opened Scanner
  import opened Calendar

  /** `EXCLUDED_FOLDERS` */
  const ExcludedFolders: seq<string> := [
    "G:/Data/Dropbox/ToDo/personal/checklists",
    "G:/Data/Dropbox/ToDo/personal/tickler",
    "G:/Data/Dropbox/ToDo/personal/Utility",
    "G:/Data/Dropbox/ToDo/personal/someday",
    "G:/Data/Dropbox/ToDo/personal/projects",
    "G:/Data/Dropbox/ToDo/personal/software",
    "G:/Data/Dropbox/ToDo/personal/roles",
    "G:/Data/Dropbox/ToDo/personal/daily"
  ]

  /** `EXCLUDED_FILES` */
  const ExcludedFiles: seq<string> := [
    "G:/Data/Dropbox/ToDo/personal/software/Git/weekly-branch-names.md",
    "G:/Data/Dropbox/ToDo/personal/CLAUDE.md",
    "G:/Data/Dropbox/ToDo/personal/software/linux/Not Next Bash Example.md"
  ]

  /** The configuration every scan of this version uses. */
  const Exclusions: ScanConfig := ScanConfig(ExcludedFolders, ExcludedFiles)

  // ---------------------------------------------------------------------
  // Links
  // ---------------------------------------------------------------------

  /** The string ends in `.md` in any letter case (what `/\.md$/i` matches). */
  predicate HasMarkdownSuffixIgnoringCase(s: string)
  {
    |s| >= 3 && s[|s| - 3] == '.'
    && (s[|s| - 2] == 'm' || s[|s| - 2] == 'M')
    && (s[|s| - 1] == 'd' || s[|s| - 1] == 'D')
  }

  /** `s.replace(/\.md$/i, "")`: one trailing `.md`, in any case, removed; nothing else touched. */
  function StripMarkdownExtension(s: string): (r: string)
    ensures HasMarkdownSuffixIgnoringCase(s) ==> |r| == |s| - 3 && s == r + s[|s| - 3..]
    ensures !HasMarkdownSuffixIgnoringCase(s) ==> r == s
  {
    if HasMarkdownSuffixIgnoringCase(s) then s[..|s| - 3] else s
  }

  /** The file lies strictly inside the vault once both paths use forward slashes. */
  predicate UnderVault(filePath: string, vaultPath: string)
  {
    StartsWith(Normalize(filePath), Normalize(vaultPath) + "/")
  }

  /** `path.relative(vaultPath, filePath)` with forward slashes, for a file inside the vault. */
  function RelativePath(filePath: string, vaultPath: string): string
    requires UnderVault(filePath, vaultPath)
  {
    Normalize(filePath)[|Normalize(vaultPath)| + 1..]
  }

  /** `pathToObsidianLink(filePath, vaultPath)` */
  function PathToObsidianLink(filePath: string, vaultPath: string): (link: string)
    requires UnderVault(filePath, vaultPath)
    ensures |link| >= 4 && link[..2] == "[[" && link[|link| - 2..] == "]]"
    ensures '\\' !in link
  {
    "[[" + StripMarkdownExtension(RelativePath(filePath, vaultPath)) + "]]"
  }

  /** The text between the brackets of a link. */
  function LinkTarget(link: string): string
    requires |link| >= 4
  {
    link[2..|link| - 2]
  }

  /**
   * For a scanned `*.md` file the link loses nothing: the vault path, a
   * slash, the link target and `.md` give the file's path back.
   */
  lemma LinkIdentifiesFile(filePath: string, vaultPath: string)
    requires UnderVault(filePath, vaultPath) && EndsWith(Normalize(filePath), MarkdownExtension)
    ensures Normalize(vaultPath) + "/" + LinkTarget(PathToObsidianLink(filePath, vaultPath)) + MarkdownExtension
      == Normalize(filePath)
  {
    var rel := RelativePath(filePath, vaultPath);
    RelativePathSplits(filePath, vaultPath);
    ExtensionPastSlash(Normalize(vaultPath), rel);
    var target := StripMarkdownExtension(rel);
    assert LinkTarget("[[" + target + "]]") == target;
    Reassemble(Normalize(vaultPath), rel, target);
  }

  lemma Reassemble(v: string, rel: string, target: string)
    requires EndsWith(rel, MarkdownExtension) && target == StripMarkdownExtension(rel)
    ensures v + "/" + target + MarkdownExtension == v + "/" + rel
  {
    assert HasMarkdownSuffixIgnoringCase(rel);
    assert rel == target + MarkdownExtension;
  }

  lemma RelativePathSplits(filePath: string, vaultPath: string)
    requires UnderVault(filePath, vaultPath)
    ensures Normalize(filePath) == Normalize(vaultPath) + "/" + RelativePath(filePath, vaultPath)
  {
    var n := Normalize(filePath);
    var v := Normalize(vaultPath);
    assert n[..|v| + 1] == v + "/";
    assert n == n[..|v| + 1] + n[|v| + 1..];
  }

  /** A `.md` ending after a slash belongs wholly to the part after the slash. */
  lemma ExtensionPastSlash(v: string, rel: string)
    requires EndsWith(v + "/" + rel, MarkdownExtension)
    ensures EndsWith(rel, MarkdownExtension)
  {
    var n := v + "/" + rel;
    assert n[|n| - 3..] == MarkdownExtension;
    assert n[|n| - 3] == '.' && n[|n| - 2] == 'm' && n[|n| - 1] == 'd';
    assert n[|v|] == '/';
    assert |rel| >= 3;
    assert rel[|rel| - 3..] == n[|n| - 3..];
  }

  /** Only a final `.md` goes, whatever its case; an inner one stays. */
  lemma StripExamples()
    ensures StripMarkdownExtension("a/b.md") == "a/b"
    ensures StripMarkdownExtension("Notes.MD") == "Notes"
    ensures StripMarkdownExtension("a.md.md") == "a.md"
    ensures StripMarkdownExtension("a.md/x") == "a.md/x"
  {
  }

  /** Root `/vault` and file `/vault/a/b.md` give `[[a/b]]`. */
  lemma LinkExample()
    ensures PathToObsidianLink("/vault/a/b.md", "/vault") == "[[a/b]]"
  {
    assert UnderVault("/vault/a/b.md", "/vault") && RelativePath("/vault/a/b.md", "/vault") == "a/b.md" by {
      NormalizeFixed("/vault/a/b.md");
      NormalizeFixed("/vault");
    }
    var x := StripMarkdownExtension("a/b.md");
    assert x == "a/b";
    assert "[[" + x + "]]" == "[[" + "a/b" + "]]";
  }

  /** A vault path with Windows separators gives the same link. */
  lemma LinkExampleWindows()
    ensures PathToObsidianLink("G:/vault/a/b.md", "G:\\vault") == "[[a/b]]"
  {
    assert UnderVault("G:/vault/a/b.md", "G:\\vault") && RelativePath("G:/vault/a/b.md", "G:\\vault") == "a/b.md" by {
      NormalizeFixed("G:/vault/a/b.md");
      var w := Normalize("G:\\vault");
      assert w[2] == '/';
      assert w == "G:/vault";
    }
    var x := StripMarkdownExtension("a/b.md");
    assert x == "a/b";
    assert "[[" + x + "]]" == "[[" + "a/b" + "]]";
  }

  // ---------------------------------------------------------------------
  // The report
  // ---------------------------------------------------------------------

  predicate AllUnderVault(paths: seq<string>, vaultPath: string)
  {
    forall i :: 0 <= i < |paths| ==> UnderVault(paths[i], vaultPath)
  }

  /** `filesWithTasks.map(filePath => this.pathToObsidianLink(filePath, vaultPath))` */
  function Links(paths: seq<string>, vaultPath: string): (links: seq<string>)
    requires AllUnderVault(paths, vaultPath)
  {
    seq(|paths|, i requires 0 <= i < |paths| => PathToObsidianLink(paths[i], vaultPath))
  }

  /** `obsidianLinks.join("\n")` */
  function FileList(paths: seq<string>, vaultPath: string): string
    requires AllUnderVault(paths, vaultPath)
  {
    Join(Links(paths, vaultPath), '\n')
  }

  /**
   * The report has one line per result, in result order, each the link of
   * that result; so n results give n - 1 newlines. (Paths containing a
   * newline would break this; the scan results here are assumed free of them.)
   */
  lemma FileListLines(paths: seq<string>, vaultPath: string)
    requires paths != [] && AllUnderVault(paths, vaultPath)
    requires forall i :: 0 <= i < |paths| ==> '\n' !in paths[i] && '\n' !in vaultPath
    ensures Split(FileList(paths, vaultPath), '\n') == Links(paths, vaultPath)
    ensures forall i :: 0 <= i < |paths| ==> Split(FileList(paths, vaultPath), '\n')[i] == PathToObsidianLink(paths[i], vaultPath)
    ensures Count(FileList(paths, vaultPath), '\n') == |paths| - 1
  {
    var links := Links(paths, vaultPath);
    forall i | 0 <= i < |links|
      ensures '\n' !in links[i]
    {
      var rel := RelativePath(paths[i], vaultPath);
      var n := Normalize(paths[i]);
      assert forall k :: 0 <= k < |rel| ==> rel[k] == n[|Normalize(vaultPath)| + 1 + k];
      assert '\n' !in rel;
      var inner := StripMarkdownExtension(rel);
      assert forall k :: 0 <= k < |inner| ==> inner[k] == rel[k];
      assert links[i] == "[[" + inner + "]]";
    }
    SplitJoin(links, '\n');
    CountJoin(links, '\n');
  }

  /** `todo-files-YYYY-MM-DD.md`, the date being the local date of the run. */
  function TodoFileName(today: Date): string
    requires Formattable(today)
  {
    "todo-files-" + FormatDate(today) + ".md"
  }

  /** What "List Files with Tasks" ends with: a notice that nothing was found, or one file written. */
  datatype ListOutcome = NoFilesFound | Written(fileName: string, contents: string)

  /** Every scan result lies inside the scanned root. */
  lemma ResultsUnderVault(vaultPath: string, vault: seq<Node>, cfg: ScanConfig)
    ensures AllUnderVault(TaskFiles(vaultPath, vault, cfg), vaultPath)
    ensures forall i :: 0 <= i < |TaskFiles(vaultPath, vault, cfg)| ==>
      EndsWith(Normalize(TaskFiles(vaultPath, vault, cfg)[i]), MarkdownExtension)
  {
    ScanMatchesReference(vaultPath, vault, cfg);
    ScanDirShape(vaultPath, vault, cfg);
    var found := TaskFiles(vaultPath, vault, cfg);
    forall i | 0 <= i < |found|
      ensures UnderVault(found[i], vaultPath) && EndsWith(Normalize(found[i]), MarkdownExtension)
    {
      assert found[i] in ScanDir(vaultPath, vault, cfg);
      NormalizeFixed(found[i]);
    }
  }

  /**
   * `listFilesWithTasks()`: nothing is written when the scan finds nothing;
   * otherwise the links of all results, joined by newlines in result order,
   * go to the dated file. The command of this file calls it with
   * `cfg := Exclusions`; the settings-driven plugin calls it with the
   * configuration of its current settings (`PluginSettings.ConfigOf`).
   */
  method ListFilesWithTasks(vaultPath: string, vault: seq<Node>, cfg: ScanConfig, today: Date)
    returns (outcome: ListOutcome)
    requires Formattable(today)
    ensures var found := TaskFiles(vaultPath, vault, cfg);
      && AllUnderVault(found, vaultPath)
      && (outcome == NoFilesFound <==> found == [])
      && (found != [] ==> outcome == Written(TodoFileName(today), FileList(found, vaultPath)))
  {
    var filesWithTasks := GetFilesWithTasks(vaultPath, vault, cfg);
    ResultsUnderVault(vaultPath, vault, cfg);
    if |filesWithTasks| == 0 {
      outcome := NoFilesFound;
    } else {
      var obsidianLinks := Links(filesWithTasks, vaultPath);
      var fileList := Join(obsidianLinks, '\n');
      var fileName := "todo-files-" + FormatDate(today) + ".md";
      outcome := Written(fileName, fileList);
    }
  }

  /**
   * `showTaskCount()`: the number of files the scan reports, with
   * `cfg := Exclusions` for the command of this file and the configuration
   * of the current settings for the settings-driven plugin.
   */
  method ShowTaskCount(vaultPath: string, vault: seq<Node>, cfg: ScanConfig) returns (taskCount: nat)
    ensures taskCount == |TaskFiles(vaultPath, vault, cfg)|
  {
    var filesWithTasks := GetFilesWithTasks(vaultPath, vault, cfg);
    taskCount := |filesWithTasks|;
  }
}
