# my-task-checker, modelled in Dafny

The project has two parts.

The first is an Obsidian plugin. It walks a vault directory tree and collects every Markdown file that still holds an open task, meaning a file whose text contains the marker `- [ ]`. The walk skips excluded folders, along with everything below them, and skips individually excluded files. The plugin then either writes the collected files as a list of `[[wiki links]]` into a dated report note or shows how many there are. It exists in two versions:

- `src/main.ts` has hard-coded exclusion lists.
- `main.js` keeps the lists in a `settings` object. `loadSettings` fills that object from saved data over the defaults, and a settings tab edits it in place.

The second part is `7daysdone.py`, a command-line script. It appends a Dataview query block to a Markdown file. The block selects tasks completed on any of the eight days ending at an end date. The end date is either the first argument or, when that argument is not a date, today.

The model, module by module:

- `Vault` (vault.dfy) describes the scan as pure functions over an immutable directory tree. It also gives an independent reference: every entry of the tree in pre-order, with the directories above it, filtered by a selection predicate. It proves that the scan equals the reference, and from that soundness, completeness, order and the shape of reported paths.
- `Scanner` (scanner.dfy) is the imperative scanner. It is a class whose `filesWithTasks` list is appended to by a recursive `ReadDir` method, which loops over each listing. `ReadDir` is proved against the `Vault` functions.
- `TaskChecker` (checker.dfy) covers the commands of `src/main.ts`: the link conversion, the report text and file name, and the count of files with open tasks.
- `PluginSettings` (settings.dfy) covers `main.js`. It includes the defaults, the load/save merge, the plugin class that owns `settings`, and the settings-tab edits of the two lists.
- `Calendar` (calendar.dfy) holds proleptic Gregorian dates with Python's ordinal numbering, day arithmetic, `%Y-%m-%d` formatting and strict parsing.
- `Dataview` (dataview.dfy) covers `7daysdone.py`: the argument modes, POSIX `os.path.join`, the eight dates, the block lines and the appended text.
- `TextUtil` (textutil.dfy) holds the string operations used above: backslash normalisation, prefix, suffix and substring tests, and JavaScript-style `join` with its inverse `split`.
- `ScanScenarios` (scenarios.dfy) computes the scan of a small concrete vault under no exclusions, under a folder exclusion and under a file exclusion, and of a vault whose folder is named like a Markdown file.

## Model

| member | source | states |
|---|---|---|
| Vault.ScanMatchesReference | src/main.ts:136-179 | The recursive scan returns exactly the pre-order listing of all tree entries, filtered to Markdown files with the marker that are not excluded and do not sit below an excluded folder. |
| Vault.ScanSoundAndComplete | src/main.ts:143-177 | A path is reported if and only if two things hold: the root folder is not excluded, and some entry of the tree has that path and is selected. |
| Vault.ScanRespectsExclusions | src/main.ts:155-171 | Every reported path is absent from the excluded-file list and belongs to a Markdown file of the tree whose text contains `- [ ]`. |
| Vault.ExcludedRootYieldsNothing | src/main.ts:145-150 | When the normalised root starts with an excluded folder, the scan reports nothing. |
| Vault.ScanEntriesAppend | src/main.ts:153-174 | Scanning a listing in two parts gives the concatenation of the two scans, so results keep directory-listing order. |
| Vault.ScanEntriesMatchesWalk | src/main.ts:153-174 | The loop over one listing reports exactly the selected entries of that listing's pre-order walk. |
| Vault.ScanEntryMatchesWalk | src/main.ts:155-173 | One iteration reports exactly the selected entries of that entry's own walk: nothing for an excluded path, the subtree for a directory, the file itself for a Markdown file with the marker. |
| Vault.SelectEnter | src/main.ts:145-150 | Inside a directory, the selection equals the selection of its contents when the directory is not excluded, and is empty otherwise. |
| Vault.SelectAppend | src/main.ts:153-174 | Selection distributes over concatenation of walks. |
| Vault.SelectMembers | src/main.ts:171 | A path is among the selected paths if and only if some selected visit carries it. |
| Vault.Enter | src/main.ts:165 | Entering a directory keeps every visit in order and adds the directory to the front of each visit's ancestors, outside those already recorded. |
| Vault.ChildPathShape | src/main.ts:155 | A child path is the normalised directory, a slash and the normalised name. It starts with the directory plus `/` and normalising it again changes nothing. |
| Vault.ChildPathExtension | src/main.ts:155-166 | A child whose name ends in `.md` gets a path ending in `.md`. |
| Vault.ScanDirShape | src/main.ts:155-171 | Every path reported for a directory lies below it, ends in `.md` and contains no backslash. |
| Vault.ScanEntriesShape | src/main.ts:153-174 | The same shape guarantee for every path reported by the loop over a listing. |
| Vault.ScanEntryShape | src/main.ts:155-173 | The same shape guarantee for every path reported by one iteration. |
| Vault.StartsWithTrans | src/main.ts:148 | A prefix of a prefix is a prefix, so a folder exclusion covers every descendant. |
| Scanner.TaskScanner.ReadDir | src/main.ts:143-175 | `readDir` appends exactly the scan of the directory to `filesWithTasks` and leaves earlier entries unchanged. |
| Scanner.GetFilesWithTasks | src/main.ts:136-179 | `getFilesWithTasks` returns the reference selection of the whole vault. |
| TaskChecker.StripMarkdownExtension | src/main.ts:82 | A trailing `.md` in any letter case is removed. Any other string is returned unchanged. |
| TaskChecker.PathToObsidianLink | src/main.ts:76-85 | A link is wrapped in `[[` and `]]` and contains no backslash. |
| TaskChecker.LinkIdentifiesFile | src/main.ts:76-85 | For a Markdown file under the vault, vault path + `/` + link target + `.md` rebuilds the file's normalised path, so the link names that file. |
| TaskChecker.RelativePathSplits | src/main.ts:78 | A file under the vault is the vault path, a slash and its relative path. |
| TaskChecker.StripExamples | src/main.ts:82 | `a/b.md` becomes `a/b`, `Notes.MD` becomes `Notes`, and `a.md.md` loses only one suffix. `a.md/x` is left unchanged. |
| TaskChecker.LinkExample | src/main.ts:76-85 | `/vault/a/b.md` under `/vault` becomes `[[a/b]]`. |
| TaskChecker.LinkExampleWindows | src/main.ts:76-85 | A backslash vault path `G:\vault` still yields `[[a/b]]`. |
| TaskChecker.FileListLines | src/main.ts:102-106 | The report splits at newlines into exactly one link per found file, in order, with one newline fewer than files. |
| TaskChecker.ResultsUnderVault | src/main.ts:96-104 | Every scanned path lies under the vault and ends in `.md`, so each one converts to a link. |
| TaskChecker.ListFilesWithTasks | src/main.ts:94-115 | No file is written if and only if the scan is empty. Otherwise the report note for today holds the link list of the scan. |
| TaskChecker.ShowTaskCount | src/main.ts:120-125 | The count shown is the number of files the scan reports. |
| PluginSettings.MergeReplacesWholesale | main.js:60-62 | A saved key replaces the default list whole, whatever the defaults were. A missing key keeps the default. No saved data means the defaults. |
| PluginSettings.SaveLoadRoundTrip | main.js:60-68 | Loading what was saved gives back the saved settings. |
| PluginSettings.TaskCheckerPlugin.constructor | main.js:60-75 | A fresh plugin holds the defaults merged with the saved data. |
| PluginSettings.TaskCheckerPlugin.LoadSettings | main.js:60-62 | `loadSettings` sets `settings` to the saved data merged over `DEFAULT_SETTINGS`. |
| PluginSettings.TaskCheckerPlugin.SaveSettings | main.js:66-68 | The stored data holds both lists, so it reloads to the current settings whatever defaults the later load merges it over. |
| PluginSettings.TaskCheckerPlugin.GetFilesWithTasks | main.js:152-178 | The scan that reads the settings lists returns the reference selection under those lists. |
| PluginSettings.SetAt | main.js:199 | Assigning at an index changes that slot only and keeps the length. |
| PluginSettings.RemoveAt | main.js:204 | `splice(index, 1)` drops exactly the element at the index and shifts the rest down in order, so the removed item plus the result is the original multiset. An index past the end leaves the list unchanged. |
| PluginSettings.RemoveAtKeepsOrder | main.js:204 | Two surviving entries keep their relative order after a removal. |
| PluginSettings.AddBlank | main.js:212 | `push("")` keeps the list and appends one empty entry. |
| PluginSettings.TaskCheckerSettingTab.EditFolder | main.js:198-200 | Editing a folder row sets that slot of `excludedFolders` and leaves the rest of the settings unchanged. |
| PluginSettings.TaskCheckerSettingTab.RemoveFolder | main.js:203-206 | The trash button splices the folder out. |
| PluginSettings.TaskCheckerSettingTab.AddFolder | main.js:211-214 | "Add Folder" appends an empty folder entry. |
| PluginSettings.TaskCheckerSettingTab.EditFile | main.js:225-227 | Editing a file row sets that slot of `excludedFiles`. |
| PluginSettings.TaskCheckerSettingTab.RemoveFile | main.js:230-233 | The trash button splices the file out. |
| PluginSettings.TaskCheckerSettingTab.AddFile | main.js:238-241 | "Add File" appends an empty file entry. |
| PluginSettings.BlankFolderExcludesEverything | main.js:156 | After "Add Folder" and before the new row is edited, the empty prefix matches every directory, so the next scan reports nothing. |
| PluginSettings.DefaultsMatchConstants | main.js:38-54 | With the default settings, `main.js` scans exactly like the hard-coded lists of `src/main.ts`. |
| PluginSettings.RawPrefixExcludesSibling | main.js:156 | The raw prefix test makes the default `.../projects` exclusion also exclude the sibling folder `.../projects-and-roles`. |
| Calendar.DaysInMonth | 7daysdone.py:38-41 | A month has 28 to 31 days. It has 29 exactly for February of a leap year. |
| Calendar.DaysBeforeYearStep | 7daysdone.py:38-41 | Each year adds 365 days, or 366 when it is a leap year, to the ordinal count. |
| Calendar.DaysBeforeYearMonotone | 7daysdone.py:38-41 | Days before a year never decrease as the year grows. |
| Calendar.DaysBeforeMonthStep | 7daysdone.py:38-41 | Each month adds its own length to the days before the next. |
| Calendar.MonthWithinYear | 7daysdone.py:38-41 | A month ends within its year. |
| Calendar.DaysBeforeMonthMonotone | 7daysdone.py:38-41 | Later months start after earlier months end. |
| Calendar.OrdinalIncreasing | 7daysdone.py:38-41 | Calendar order and ordinal order agree. |
| Calendar.OrdinalInjective | 7daysdone.py:38-41 | Distinct dates have distinct ordinals. |
| Calendar.OrdinalYearMonotone | 7daysdone.py:38-41 | A smaller ordinal never has a later year. |
| Calendar.OrdinalPositive | 7daysdone.py:38 | Ordinals start at 1, reached only by 0001-01-01. |
| Calendar.NextDay | 7daysdone.py:41 | Adding one day gives a valid date whose ordinal is one more. |
| Calendar.PrevDay | 7daysdone.py:38 | Going back one day gives a valid date whose ordinal is one less. |
| Calendar.AddDays | 7daysdone.py:38-41 | Adding `timedelta(days=n)` gives a calendar date whose ordinal is shifted by n; the year is not capped at 9999 (see Left out). |
| Calendar.AddDaysUnique | 7daysdone.py:38-41 | That date is the only one with the shifted ordinal. |
| Calendar.NumberPad | 7daysdone.py:49-55 | Reading a zero-padded number back gives the number. |
| Calendar.PadNumber | 7daysdone.py:9 | Re-padding a parsed digit string of a given width gives the same string. |
| Calendar.FormatDate | 7daysdone.py:49-55 | `%Y-%m-%d` output is ten characters with dashes at positions 4 and 7. |
| Calendar.FormatShape | 7daysdone.py:49-55 | The three fields are the zero-padded year, month and day. |
| Calendar.ParseFormat | 7daysdone.py:6-11 | Every supported date formats to text that parses back to itself. |
| Calendar.ParseSound | 7daysdone.py:6-11 | A successful parse yields a valid date whose formatting is the input text. |
| Calendar.ParseDateExact | 7daysdone.py:6-11 | Parsing succeeds if and only if the text is the formatting of some supported date. |
| Dataview.JoinPathPlain | 7daysdone.py:30-35 | Path parts with no leading or trailing slash are joined by single slashes, in order. |
| Dataview.SelectMode | 7daysdone.py:16-35 | It succeeds exactly when argv has at least three entries, or two whose second is not a date. The outcomes: Fewer than two arguments: the missing-arguments error. A date alone: the missing-path error. A date first: that date, with the path joined from the remaining arguments. Otherwise: today, with every argument joined into the path. |
| Dataview.DateList | 7daysdone.py:38-41 | The list has eight dates. |
| Dataview.DateListProperties | 7daysdone.py:38-41 | The dates start seven days before the end and end at the end date. They are consecutive, each the next day of the one before. |
| Dataview.DataviewLines | 7daysdone.py:44-60 | The block is the two opening lines, one `WHERE` line for the first date, one `OR` line for each later date in order, and the three closing lines. |
| Dataview.FormatDateHasNoNewline | 7daysdone.py:49-55 | Formatted dates contain no newline. |
| Dataview.BlockTextLines | 7daysdone.py:63 | The text ends in a newline and has exactly one newline per line. Splitting it at newlines gives back the lines and a final empty piece. |
| Dataview.AppendDataviewBlock | 7daysdone.py:13-63 | Argument errors propagate, and an end date before 0001-01-08 is a range error. Otherwise the text goes to the chosen path: the thirteen-line block for the eight days ending at the end date, newline-terminated. |
| TextUtil.Normalize | src/main.ts:145-155 | Normalised text contains no backslash. |
| TextUtil.NormalizeAppend | src/main.ts:155 | Normalisation distributes over concatenation. |
| TextUtil.SplitJoin | src/main.ts:106 | Splitting a non-empty newline-joined list of newline-free items gives back the list. |
| TextUtil.CountJoin | src/main.ts:106 | Such a join contains one separator fewer than items. |
| ScanScenarios.SampleNoExclusions | src/main.ts:136-179 | In a vault holding `a.md` (open task), `b.md` (none) and `sub/c.md` (open task), the scan reports `/vault/a.md` then `/vault/sub/c.md`. |
| ScanScenarios.SampleFolderExcluded | src/main.ts:148-150 | Excluding `/vault/sub` leaves only `/vault/a.md`. |
| ScanScenarios.SampleFileExcluded | src/main.ts:159-161 | Excluding the file `/vault/a.md` leaves only `/vault/sub/c.md`. |
| ScanScenarios.OpenTaskFileReported | src/main.ts:166-171 | A Markdown file whose text opens with the marker and is not excluded is reported under its joined path. |
| ScanScenarios.ExcludedFileSkipped | src/main.ts:159-161 | An excluded file is never reported, whatever it holds. |
| ScanScenarios.MarkdownNamedFolder | src/main.ts:163-168 | A directory named `notes.md` is scanned like any directory: its file `d.md` with an open task is reported as `/vault/notes.md/d.md`, and the directory itself is not. |
| ScanScenarios.DirEntryScanned | src/main.ts:163-165 | A directory entry contributes the scan of its own listing. |

Behaviour of the code the model keeps:

- `readDir` tests a child's path against the excluded files before it asks whether the child is a directory (src/main.ts:159-163). A directory whose path appears among the excluded files is therefore skipped, subtree and all.
- Both exclusion lists are ordered arrays that may hold duplicates; the model keeps them as sequences.
- The folder test is a plain `startsWith` on the normalised directory path, with no separator boundary (src/main.ts:148). `.../projects` therefore also excludes `.../projects-and-roles` (`PluginSettings.RawPrefixExcludesSibling`).

## Left out

- Obsidian host calls are not modelled. This covers the notices, the ribbon icon and commands, `onload`/`onunload`, the settings-tab layout and `display()` re-rendering, and the `vault.adapter.write` call. `ListFilesWithTasks` returns the file name and contents it would write, and `ShowTaskCount` returns the number it would show.
- File-system failures are not modelled, and neither is asynchrony. The vault is an immutable tree that is always readable, and `readdir` order is the order of each directory's listing.
- `lstat` is taken to report a directory exactly for `Dir` nodes. Symbolic links are leaves, as with `lstat`. Their targets are not modelled.
- Vault.ChildPath: `path.join` is modelled as concatenation with one slash followed by backslash normalisation. The collapsing of `..`, `.` and doubled separators is not modelled, and neither are Windows drive-letter rules.
- TaskChecker.PathToObsidianLink (through `TaskChecker.RelativePath`) requires a file below the vault path, which is how `listFilesWithTasks` calls it. Paths outside the vault, which would get `..` segments, are not modelled.
- TaskChecker.TodoFileName: `toLocaleDateString("en-CA")` is taken to produce `YYYY-MM-DD`. The date is a parameter, because the clock and time zone are not modelled.
- Calendar.ParseDate: `strptime` with `%Y-%m-%d` also accepts some laxer forms, such as one-digit month or day fields and non-ASCII digits. The model accepts exactly the four-two-two ASCII-digit form.
- Calendar.FormatDate: years below 1000 are written zero-padded to four digits. Some platforms' `strftime` does not pad them.
- Calendar.AddDays: results after 9999-12-31, where Python raises OverflowError, are not modelled; 7daysdone.py never reaches them, because every date it computes lies at or before its end date, which is at most 9999-12-31.
- Dataview.SelectMode: a first argument that `strptime` accepts but the strict parse rejects, such as `2024-1-5`, puts the script in date mode; the model instead takes `today` as the end date and makes that argument the first path part.
- `datetime.today()` is a parameter `today`. Its time-of-day part is dropped, because only `%Y-%m-%d` of each date is used.
- Dataview.JoinPath is POSIX `os.path.join`. The Windows `ntpath` variant is not modelled.
- The file append, its encoding, the success and error messages, and the exit codes of `7daysdone.py` are not modelled. `AppendDataviewBlock` returns the path and the text it would append, or the error that stops the script.
- PluginSettings.SetAt requires an index inside the list. The settings tab only creates rows for existing entries, but an assignment past the end would grow a sparse JavaScript array, and that case is not modelled.
- PluginSettings.Merge: `Object.assign` copies the default arrays by reference, so edits could alias `DEFAULT_SETTINGS` within one session. The model treats lists as values. Saved keys other than the two lists, and saved values that are not string arrays, are not modelled.
- `saveData` persistence is not modelled beyond the value stored (`PluginSettings.TaskCheckerPlugin.SaveSettings`).
- TaskChecker.FileListLines and Dataview.BlockTextLines assume paths and dates without newline characters. A path containing a newline would break the one-link-per-line reading.
