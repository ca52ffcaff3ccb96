/**
 * The settings-driven plugin of `main.js`: the exclusion lists live in a
 * `settings` object that `loadSettings` fills from saved data over the
 * defaults, that the settings tab edits in place, and that every scan
 * reads.
 */
module PluginSettings {
  import opened Wrappers
  import opened TextUtil
  import opened Vault
  import opened Scanner
  import TaskChecker

  datatype Settings = Settings(excludedFolders: seq<string>, excludedFiles: seq<string>)

  /** `DEFAULT_SETTINGS` */
  const DefaultSettings: Settings := Settings(
    [
      "G:/Data/Dropbox/ToDo/personal/checklists",
      "G:/Data/Dropbox/ToDo/personal/tickler",
      "G:/Data/Dropbox/ToDo/personal/Utility",
      "G:/Data/Dropbox/ToDo/personal/someday",
      "G:/Data/Dropbox/ToDo/personal/projects",
      "G:/Data/Dropbox/ToDo/personal/software",
      "G:/Data/Dropbox/ToDo/personal/roles",
      "G:/Data/Dropbox/ToDo/personal/daily"
    ],
    [
      "G:/Data/Dropbox/ToDo/personal/software/Git/weekly-branch-names.md",
      "G:/Data/Dropbox/ToDo/personal/CLAUDE.md",
      "G:/Data/Dropbox/ToDo/personal/software/linux/Not Next Bash Example.md"
    ])

  /** What `loadData()` returns when something was saved: each key may be present or absent. */
  datatype SavedData = SavedData(excludedFolders: Option<seq<string>>, excludedFiles: Option<seq<string>>)

  /** The scan configuration a settings object stands for. */
  function ConfigOf(s: Settings): ScanConfig
  {
    ScanConfig(s.excludedFolders, s.excludedFiles)
  }

  /** `Object.assign({}, defaults, saved)`: a key present in the saved data wins outright. */
  function Merge(defaults: Settings, saved: Option<SavedData>): (s: Settings)
  {
    match saved
    case None => defaults
    case Some(data) =>
      Settings(
        match data.excludedFolders case Some(v) => v case None => defaults.excludedFolders,
        match data.excludedFiles case Some(v) => v case None => defaults.excludedFiles)
  }

  /** What `saveData(this.settings)` stores: both keys. */
  function Saved(s: Settings): SavedData
  {
    SavedData(Some(s.excludedFolders), Some(s.excludedFiles))
  }

  /**
   * Saved lists replace the defaults wholesale and are never unioned with
   * them: a merged list equals the saved one whatever the defaults were, and
   * falls back to the default list only where nothing was saved.
   */
  lemma MergeReplacesWholesale(d1: Settings, d2: Settings, data: SavedData)
    ensures data.excludedFolders.Some? ==>
      Merge(d1, Some(data)).excludedFolders == Merge(d2, Some(data)).excludedFolders == data.excludedFolders.value
    ensures data.excludedFiles.Some? ==>
      Merge(d1, Some(data)).excludedFiles == Merge(d2, Some(data)).excludedFiles == data.excludedFiles.value
    ensures data.excludedFolders.None? ==> Merge(d1, Some(data)).excludedFolders == d1.excludedFolders
    ensures data.excludedFiles.None? ==> Merge(d1, Some(data)).excludedFiles == d1.excludedFiles
    ensures Merge(d1, None) == d1
  {
  }

  /** Saving and loading again gives back exactly the saved settings, whatever the defaults. */
  lemma SaveLoadRoundTrip(defaults: Settings, s: Settings)
    ensures Merge(defaults, Some(Saved(s))) == s
  {
  }

  // ---------------------------------------------------------------------
  // The edits the settings tab performs.
  // ---------------------------------------------------------------------

  /** `list[index] = value` for an index of a rendered entry. */
  function SetAt(list: seq<string>, index: nat, value: string): (r: seq<string>)
    requires index < |list|
    ensures |r| == |list| && r[index] == value
    ensures forall j :: 0 <= j < |list| && j != index ==> r[j] == list[j]
  {
    list[index := value]
  }

  /** `list.splice(index, 1)`: the entry at `index` removed; an index past the end removes nothing. */
  function RemoveAt(list: seq<string>, index: nat): (r: seq<string>)
    ensures index < |list| ==> |r| == |list| - 1
    ensures index < |list| ==> forall j :: 0 <= j < index ==> r[j] == list[j]
    ensures index < |list| ==> forall j :: index <= j < |r| ==> r[j] == list[j + 1]
    ensures index < |list| ==> multiset(r) + multiset{list[index]} == multiset(list)
    ensures index >= |list| ==> r == list
  {
    if index < |list| then
      assert list == list[..index] + [list[index]] + list[index + 1..];
      list[..index] + list[index + 1..]
    else list
  }

  /** `list.push("")` */
  function AddBlank(list: seq<string>): (r: seq<string>)
    ensures |r| == |list| + 1 && r[..|list|] == list && r[|list|] == ""
  {
    list + [""]
  }

  /** Removing keeps the other entries in their original relative order. */
  lemma RemoveAtKeepsOrder(list: seq<string>, index: nat, j: nat, k: nat)
    requires index < |list| && j < k < |list| && j != index && k != index
    ensures var r := RemoveAt(list, index);
      var j' := if j < index then j else j - 1;
      var k' := if k < index then k else k - 1;
      j' < k' && r[j'] == list[j] && r[k'] == list[k]
  {
  }

  /**
   * A freshly added blank folder is a prefix of every path, so the scan
   * skips the root itself and finds nothing at all.
   */
  lemma BlankFolderExcludesEverything(s: Settings, root: string, entries: seq<Node>)
    ensures ScanDir(root, entries, ConfigOf(s.(excludedFolders := AddBlank(s.excludedFolders)))) == []
  {
    var cfg := ConfigOf(s.(excludedFolders := AddBlank(s.excludedFolders)));
    assert StartsWith(Normalize(root), cfg.excludedFolders[|s.excludedFolders|]);
  }

  /** With the default settings the scan reports exactly what the constant-driven scan of `src/main.ts` reports. */
  lemma DefaultsMatchConstants(root: string, entries: seq<Node>)
    ensures ScanDir(root, entries, ConfigOf(DefaultSettings)) == ScanDir(root, entries, TaskChecker.Exclusions)
  {
    assert ConfigOf(DefaultSettings) == TaskChecker.Exclusions;
  }

  /**
   * Folder matching is a raw prefix test: the default `projects` entry also
   * shuts out a sibling folder whose name merely starts with `projects`.
   */
  lemma RawPrefixExcludesSibling()
    ensures FolderExcluded("G:/Data/Dropbox/ToDo/personal/projects-and-roles", ConfigOf(DefaultSettings))
  {
    var p := "G:/Data/Dropbox/ToDo/personal/projects-and-roles";
    var e := DefaultSettings.excludedFolders[4];
    assert p[..|e|] == e;
    assert StartsWith(p, e);
  }

  // ---------------------------------------------------------------------
  // The plugin and its settings tab.
  // ---------------------------------------------------------------------

  /** `MyTaskChecker` of the bundled plugin: its `settings` field and the scan that reads it. */
  class TaskCheckerPlugin {
    var settings: Settings

    /** Creation followed by `onload`'s `await this.loadSettings()`. */
    constructor (saved: Option<SavedData>)
      ensures settings == Merge(DefaultSettings, saved)
    {
      settings := Merge(DefaultSettings, saved);
    }

    /** `loadSettings()` with the result of `loadData()` passed in. */
    method LoadSettings(saved: Option<SavedData>)
      modifies this
      ensures settings == Merge(DefaultSettings, saved)
    {
      settings := Merge(DefaultSettings, saved);
    }

    /** `saveSettings()` with the value handed to `saveData` returned. */
    method SaveSettings() returns (data: SavedData)
      ensures Merge(DefaultSettings, Some(data)) == settings
      ensures forall d :: Merge(d, Some(data)) == settings
    {
      data := Saved(settings);
      forall d: Settings
        ensures Merge(d, Some(data)) == settings
      {
        SaveLoadRoundTrip(d, settings);
      }
    }

    /** `getFilesWithTasks(dir)` reading the exclusion lists from `this.settings`. */
    method GetFilesWithTasks(dir: string, entries: seq<Node>) returns (filesWithTasks: seq<string>)
      ensures filesWithTasks == TaskFiles(dir, entries, ConfigOf(settings))
    {
      filesWithTasks := Scanner.GetFilesWithTasks(dir, entries, ConfigOf(settings));
    }
  }

  /** `TaskCheckerSettingTab`: the handlers behind each text field, trash button and add button. */
  class TaskCheckerSettingTab {
    const plugin: TaskCheckerPlugin

    constructor (plugin: TaskCheckerPlugin)
      ensures this.plugin == plugin
    {
      this.plugin := plugin;
    }

    /** Text field of folder `index` changed. */
    method EditFolder(index: nat, value: string)
      requires index < |plugin.settings.excludedFolders|
      modifies plugin
      ensures plugin.settings == old(plugin.settings).(excludedFolders := SetAt(old(plugin.settings.excludedFolders), index, value))
    {
      plugin.settings := plugin.settings.(excludedFolders := SetAt(plugin.settings.excludedFolders, index, value));
    }

    /** Trash button of folder `index`. */
    method RemoveFolder(index: nat)
      modifies plugin
      ensures plugin.settings == old(plugin.settings).(excludedFolders := RemoveAt(old(plugin.settings.excludedFolders), index))
    {
      plugin.settings := plugin.settings.(excludedFolders := RemoveAt(plugin.settings.excludedFolders, index));
    }

    /** "Add Folder" button. */
    method AddFolder()
      modifies plugin
      ensures plugin.settings == old(plugin.settings).(excludedFolders := AddBlank(old(plugin.settings.excludedFolders)))
    {
      plugin.settings := plugin.settings.(excludedFolders := AddBlank(plugin.settings.excludedFolders));
    }

    /** Text field of file `index` changed. */
    method EditFile(index: nat, value: string)
      requires index < |plugin.settings.excludedFiles|
      modifies plugin
      ensures plugin.settings == old(plugin.settings).(excludedFiles := SetAt(old(plugin.settings.excludedFiles), index, value))
    {
      plugin.settings := plugin.settings.(excludedFiles := SetAt(plugin.settings.excludedFiles, index, value));
    }

    /** Trash button of file `index`. */
    method RemoveFile(index: nat)
      modifies plugin
      ensures plugin.settings == old(plugin.settings).(excludedFiles := RemoveAt(old(plugin.settings.excludedFiles), index))
    {
      plugin.settings := plugin.settings.(excludedFiles := RemoveAt(plugin.settings.excludedFiles, index));
    }

    /** "Add File" button. */
    method AddFile()
      modifies plugin
      ensures plugin.settings == old(plugin.settings).(excludedFiles := AddBlank(old(plugin.settings.excludedFiles)))
    {
      plugin.settings := plugin.settings.(excludedFiles := AddBlank(plugin.settings.excludedFiles));
    }
  }
}
