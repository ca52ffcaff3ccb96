/**
 * The recursive filtered task scan (`getFilesWithTasks` / `readDir`) as a
 * specification over an immutable directory tree, together with an
 * independent reference definition: the unfiltered pre-order walk of the
 * tree, filtered by a per-entry selection predicate.
 */
module Vault {
  import opened TextUtil

  /** The literal an unchecked Markdown checkbox starts with. */
  const Marker: string := "- [ ]"

  /** The tracked extension, compared case-sensitively. */
  const MarkdownExtension: string := ".md"

  /**
   * A directory entry as `lstat` sees it: a directory with its listing (in
   * listing order) or anything else, which carries the text `readFile`
   * would return.
   */
  datatype Node = Dir(name: string, entries: seq<Node>) | File(name: string, content: string)

  /** The two exclusion lists the scan consults. */
  datatype ScanConfig = ScanConfig(excludedFolders: seq<string>, excludedFiles: seq<string>)

  /** `path.join(dirPath, name)` with its backslashes replaced. */
  function ChildPath(dirPath: string, name: string): string
  {
    Normalize(dirPath + "/" + name)
  }

  /** Some excluded-folder string is a raw prefix of the normalised directory path. */
  predicate FolderExcluded(normalizedDir: string, cfg: ScanConfig)
  {
    exists i :: 0 <= i < |cfg.excludedFolders| && StartsWith(normalizedDir, cfg.excludedFolders[i])
  }

  /** The entry path is listed verbatim among the excluded files. */
  predicate FileExcluded(path: string, cfg: ScanConfig)
  {
    path in cfg.excludedFiles
  }

  /** A non-directory entry named `*.md` whose text contains the marker. */
  predicate HasOpenTask(n: Node)
  {
    n.File? && EndsWith(n.name, MarkdownExtension) && Contains(n.content, Marker)
  }

  // ---------------------------------------------------------------------
  // The scan, one function per step of `readDir`.
  // ---------------------------------------------------------------------

  /** `readDir(dirPath)`: nothing when the directory is excluded, else its entries in order. */
  function ScanDir(dirPath: string, entries: seq<Node>, cfg: ScanConfig): seq<string>
    decreases entries, 1
  {
    if FolderExcluded(Normalize(dirPath), cfg) then [] else ScanEntries(dirPath, entries, cfg)
  }

  /** The body of the `for` loop over a listing, entry after entry. */
  function ScanEntries(dirPath: string, entries: seq<Node>, cfg: ScanConfig): seq<string>
    decreases entries, 0
  {
    if entries == [] then []
    else ScanEntry(dirPath, entries[0], cfg) + ScanEntries(dirPath, entries[1..], cfg)
  }

  /** One loop iteration: the excluded-file test, then recursion or the content test. */
  function ScanEntry(dirPath: string, e: Node, cfg: ScanConfig): seq<string>
    decreases e
  {
    var p := ChildPath(dirPath, e.name);
    if FileExcluded(p, cfg) then []
    else match e
      case Dir(_, children) => ScanDir(p, children, cfg)
      case File(name, content) =>
        if EndsWith(name, MarkdownExtension) && Contains(content, Marker) then [p] else []
  }

  // ---------------------------------------------------------------------
  // Reference definition: every entry of the tree, in pre-order, with the
  // paths of the directories it sits in (below the root).
  // ---------------------------------------------------------------------

  datatype Visit = Visit(path: string, node: Node, ancestors: seq<string>)

  /** All entries under a listing, each directory followed by its own subtree. */
  function Walk(dirPath: string, entries: seq<Node>): seq<Visit>
    decreases entries
  {
    if entries == [] then []
    else WalkEntry(dirPath, entries[0]) + Walk(dirPath, entries[1..])
  }

  function WalkEntry(dirPath: string, e: Node): seq<Visit>
    decreases e
  {
    var p := ChildPath(dirPath, e.name);
    [Visit(p, e, [])] + match e
      case Dir(_, children) => Enter(p, Walk(p, children))
      case File(_, _) => []
  }

  /** Record that the visits lie inside directory `p`. */
  function Enter(p: string, w: seq<Visit>): (r: seq<Visit>)
    ensures |r| == |w|
    ensures forall i :: 0 <= i < |w| ==> r[i] == w[i].(ancestors := [p] + w[i].ancestors)
  {
    if w == [] then [] else [w[0].(ancestors := [p] + w[0].ancestors)] + Enter(p, w[1..])
  }

  /** An enclosing directory lets its subtree through: not listed as a file, not under an excluded folder. */
  predicate Open(dirPath: string, cfg: ScanConfig)
  {
    !FileExcluded(dirPath, cfg) && !FolderExcluded(Normalize(dirPath), cfg)
  }

  /** The entry is reported: it has an open task, is not excluded, and every enclosing directory is open. */
  predicate Selected(v: Visit, cfg: ScanConfig)
  {
    && HasOpenTask(v.node)
    && !FileExcluded(v.path, cfg)
    && forall i :: 0 <= i < |v.ancestors| ==> Open(v.ancestors[i], cfg)
  }

  /** The paths of the selected visits, in walk order. */
  function Select(w: seq<Visit>, cfg: ScanConfig): seq<string>
  {
    if w == [] then []
    else (if Selected(w[0], cfg) then [w[0].path] else []) + Select(w[1..], cfg)
  }

  /** What the scan should report for a vault root: the selected entries of the walk, unless the root is excluded. */
  function TaskFiles(root: string, entries: seq<Node>, cfg: ScanConfig): seq<string>
  {
    if FolderExcluded(Normalize(root), cfg) then [] else Select(Walk(root, entries), cfg)
  }

  // ---------------------------------------------------------------------
  // The scan agrees with the reference.
  // ---------------------------------------------------------------------

  lemma {:induction false} SelectAppend(a: seq<Visit>, b: seq<Visit>, cfg: ScanConfig)
    ensures Select(a + b, cfg) == Select(a, cfg) + Select(b, cfg)
  {
    if a == [] {
      assert a + b == b;
    } else {
      assert (a + b)[1..] == a[1..] + b;
      SelectAppend(a[1..], b, cfg);
    }
  }

  /** Entering a directory keeps the selection when the directory is open and empties it otherwise. */
  lemma {:induction false} SelectEnter(p: string, w: seq<Visit>, cfg: ScanConfig)
    ensures Select(Enter(p, w), cfg) == if Open(p, cfg) then Select(w, cfg) else []
  {
    if w != [] {
      var v := w[0];
      var v' := v.(ancestors := [p] + v.ancestors);
      assert Enter(p, w)[0] == v';
      assert Enter(p, w)[1..] == Enter(p, w[1..]);
      SelectEnter(p, w[1..], cfg);
      assert v'.ancestors[0] == p;
      assert forall i :: 0 <= i < |v.ancestors| ==> v'.ancestors[i + 1] == v.ancestors[i];
      assert Selected(v', cfg) == (Open(p, cfg) && Selected(v, cfg));
    }
  }

  lemma {:induction false} ScanEntriesMatchesWalk(dirPath: string, entries: seq<Node>, cfg: ScanConfig)
    ensures ScanEntries(dirPath, entries, cfg) == Select(Walk(dirPath, entries), cfg)
    decreases entries, 0
  {
    if entries != [] {
      ScanEntryMatchesWalk(dirPath, entries[0], cfg);
      ScanEntriesMatchesWalk(dirPath, entries[1..], cfg);
      SelectAppend(WalkEntry(dirPath, entries[0]), Walk(dirPath, entries[1..]), cfg);
    }
  }

  lemma {:induction false} ScanEntryMatchesWalk(dirPath: string, e: Node, cfg: ScanConfig)
    ensures ScanEntry(dirPath, e, cfg) == Select(WalkEntry(dirPath, e), cfg)
    decreases e
  {
    var p := ChildPath(dirPath, e.name);
    var head := [Visit(p, e, [])];
    match e
    case Dir(_, children) =>
      var inner := Walk(p, children);
      assert WalkEntry(dirPath, e) == head + Enter(p, inner);
      SelectAppend(head, Enter(p, inner), cfg);
      SelectEnter(p, inner, cfg);
      ScanEntriesMatchesWalk(p, children, cfg);
      assert Select(head, cfg) == [];
    case File(_, _) =>
      assert WalkEntry(dirPath, e) == head;
      assert Select(head[1..], cfg) == [];
  }

  /** The scan reports exactly the reference selection, in walk order. */
  lemma ScanMatchesReference(root: string, entries: seq<Node>, cfg: ScanConfig)
    ensures ScanDir(root, entries, cfg) == TaskFiles(root, entries, cfg)
  {
    ScanEntriesMatchesWalk(root, entries, cfg);
  }

  // ---------------------------------------------------------------------
  // Consequences: soundness, completeness, exclusions, order, path shape.
  // ---------------------------------------------------------------------

  lemma {:induction false} SelectMembers(w: seq<Visit>, cfg: ScanConfig, p: string)
    ensures p in Select(w, cfg) <==> exists v :: v in w && Selected(v, cfg) && v.path == p
  {
    if w != [] {
      SelectMembers(w[1..], cfg, p);
      assert forall v :: v in w <==> v == w[0] || v in w[1..];
    }
  }

  /**
   * A path is reported exactly when the root is not under an excluded folder
   * and some entry of the tree at that path is selected: a `*.md` non-directory
   * containing the marker, not listed among the excluded files, inside no
   * directory that is listed there or lies under an excluded folder.
   */
  lemma ScanSoundAndComplete(root: string, entries: seq<Node>, cfg: ScanConfig, p: string)
    ensures p in ScanDir(root, entries, cfg) <==>
      && !FolderExcluded(Normalize(root), cfg)
      && exists v :: v in Walk(root, entries) && Selected(v, cfg) && v.path == p
  {
    ScanMatchesReference(root, entries, cfg);
    SelectMembers(Walk(root, entries), cfg, p);
  }

  /** No reported path is listed among the excluded files, and each names a `*.md` file with the marker. */
  lemma ScanRespectsExclusions(root: string, entries: seq<Node>, cfg: ScanConfig, p: string)
    requires p in ScanDir(root, entries, cfg)
    ensures p !in cfg.excludedFiles
    ensures exists v :: v in Walk(root, entries) && v.path == p && HasOpenTask(v.node)
  {
    ScanSoundAndComplete(root, entries, cfg, p);
  }

  /** A root under an excluded folder yields nothing at all. */
  lemma ExcludedRootYieldsNothing(root: string, entries: seq<Node>, cfg: ScanConfig, i: nat)
    requires i < |cfg.excludedFolders| && StartsWith(Normalize(root), cfg.excludedFolders[i])
    ensures ScanDir(root, entries, cfg) == []
  {
  }

  /** Pre-order: whatever an earlier run of entries contributes precedes what later entries contribute. */
  lemma {:induction false} ScanEntriesAppend(dirPath: string, a: seq<Node>, b: seq<Node>, cfg: ScanConfig)
    ensures ScanEntries(dirPath, a + b, cfg) == ScanEntries(dirPath, a, cfg) + ScanEntries(dirPath, b, cfg)
  {
    if a == [] {
      assert a + b == b;
    } else {
      assert (a + b)[0] == a[0];
      assert (a + b)[1..] == a[1..] + b;
      ScanEntriesAppend(dirPath, a[1..], b, cfg);
    }
  }

  lemma StartsWithTrans(x: string, y: string, z: string)
    requires StartsWith(x, y) && StartsWith(y, z)
    ensures StartsWith(x, z)
  {
    assert x[..|z|] == x[..|y|][..|z|];
  }

  /** The child path is the normalised parent, a slash and the normalised name. */
  lemma ChildPathShape(dirPath: string, name: string)
    ensures ChildPath(dirPath, name) == Normalize(dirPath) + "/" + Normalize(name)
    ensures StartsWith(ChildPath(dirPath, name), Normalize(dirPath) + "/")
    ensures Normalize(ChildPath(dirPath, name)) == ChildPath(dirPath, name)
  {
    NormalizeAppend(dirPath + "/", name);
    NormalizeAppend(dirPath, "/");
    assert Normalize("/") == "/";
    var c := ChildPath(dirPath, name);
    assert c[..|Normalize(dirPath) + "/"|] == Normalize(dirPath) + "/";
  }

  /** Every reported path lies under the normalised directory and ends in `.md`. */
  predicate ReportedUnder(dir: string, p: string)
  {
    StartsWith(p, Normalize(dir) + "/") && EndsWith(p, MarkdownExtension) && '\\' !in p
  }

  lemma {:induction false} ScanDirShape(dirPath: string, entries: seq<Node>, cfg: ScanConfig)
    ensures forall p :: p in ScanDir(dirPath, entries, cfg) ==> ReportedUnder(dirPath, p)
    decreases entries, 1
  {
    ScanEntriesShape(dirPath, entries, cfg);
  }

  lemma {:induction false} ScanEntriesShape(dirPath: string, entries: seq<Node>, cfg: ScanConfig)
    ensures forall p :: p in ScanEntries(dirPath, entries, cfg) ==> ReportedUnder(dirPath, p)
    decreases entries, 0
  {
    if entries != [] {
      ScanEntryShape(dirPath, entries[0], cfg);
      ScanEntriesShape(dirPath, entries[1..], cfg);
    }
  }

  lemma {:induction false} ScanEntryShape(dirPath: string, e: Node, cfg: ScanConfig)
    ensures forall p :: p in ScanEntry(dirPath, e, cfg) ==> ReportedUnder(dirPath, p)
    decreases e
  {
    var c := ChildPath(dirPath, e.name);
    ChildPathShape(dirPath, e.name);
    if !FileExcluded(c, cfg) {
      match e
      case Dir(_, children) =>
        ScanDirShape(c, children, cfg);
        forall p | p in ScanDir(c, children, cfg)
          ensures ReportedUnder(dirPath, p)
        {
          StartsWithTrans(p, c + "/", c);
          StartsWithTrans(p, c, Normalize(dirPath) + "/");
        }
      case File(name, _) =>
        if EndsWith(name, MarkdownExtension) {
          ChildPathExtension(dirPath, name);
        }
    }
  }

  lemma ChildPathExtension(dirPath: string, name: string)
    requires EndsWith(name, MarkdownExtension)
    ensures EndsWith(ChildPath(dirPath, name), MarkdownExtension)
  {
    ChildPathShape(dirPath, name);
    NormalizeKeepsExtension(name);
    EndsWithAppend(Normalize(dirPath) + "/", Normalize(name), MarkdownExtension);
  }

  lemma NormalizeKeepsExtension(name: string)
    requires EndsWith(name, MarkdownExtension)
    ensures EndsWith(Normalize(name), MarkdownExtension)
  {
    var n := Normalize(name);
    var k := |name| - 3;
    assert name[k] == '.' && name[k + 1] == 'm' && name[k + 2] == 'd';
    assert n[k] == '.' && n[k + 1] == 'm' && n[k + 2] == 'd';
    assert n[k..] == MarkdownExtension;
  }

  lemma EndsWithAppend(a: string, b: string, suffix: string)
    requires EndsWith(b, suffix)
    ensures EndsWith(a + b, suffix)
  {
    assert (a + b)[|a + b| - |suffix|..] == b[|b| - |suffix|..];
  }
}
