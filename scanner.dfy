/**
 * The imperative scan as `getFilesWithTasks` runs it: a mutable
 * accumulator that the nested `readDir` appends to while it loops over a
 * directory listing and recurses into subdirectories.
 */
module Scanner {
  import opened TextUtil
  import opened Vault

  /** One scan in progress: the exclusion lists it consults and the paths found so far. */
  class TaskScanner {
    const cfg: ScanConfig
    var filesWithTasks: seq<string>

    constructor (cfg: ScanConfig)
      ensures this.cfg == cfg && filesWithTasks == []
    {
      this.cfg := cfg;
      filesWithTasks := [];
    }

    /** `readDir(dirPath)`: appends what the directory contributes, never removes anything. */
    method ReadDir(dirPath: string, entries: seq<Node>)
      modifies this
      ensures filesWithTasks == old(filesWithTasks) + ScanDir(dirPath, entries, cfg)
      decreases entries
    {
      var normalizedDir := Normalize(dirPath);
      if FolderExcluded(normalizedDir, cfg) {
        return;
      }
      for i := 0 to |entries|
        invariant filesWithTasks == old(filesWithTasks) + ScanEntries(dirPath, entries[..i], cfg)
      {
        var file := entries[i];
        ScanEntriesAppend(dirPath, entries[..i], [file], cfg);
        assert entries[..i + 1] == entries[..i] + [file];
        var filePath := ChildPath(dirPath, file.name);
        if filePath in cfg.excludedFiles {
          continue;
        }
        match file {
          case Dir(_, children) =>
            ReadDir(filePath, children);
          case File(name, content) =>
            if EndsWith(name, MarkdownExtension) && Contains(content, Marker) {
              filesWithTasks := filesWithTasks + [filePath];
            }
        }
      }
      assert entries[..|entries|] == entries;
    }
  }

  /** `getFilesWithTasks(dir)`: a fresh accumulator filled by one `readDir` of the root. */
  method GetFilesWithTasks(dir: string, entries: seq<Node>, cfg: ScanConfig) returns (filesWithTasks: seq<string>)
    ensures filesWithTasks == TaskFiles(dir, entries, cfg)
  {
    var scanner := new TaskScanner(cfg);
    scanner.ReadDir(dir, entries);
    filesWithTasks := scanner.filesWithTasks;
    ScanMatchesReference(dir, entries, cfg);
  }
}
