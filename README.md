# ProjectOrganizer, modelled in Dafny

ProjectOrganizer is a small WPF tool. It files dropped or pasted files into the folders of
the active project. A file's extension picks a category: Documents, Images, VMDK,
Adobe Projects or Other. The project's paths in effect for the current mode then give the
folder for that category. The copy never overwrites: a taken name `x.ext` becomes
`x (1).ext`, `x (2).ext` and so on, using the least free counter. Every attempt is logged.
The project list is kept in step with the directories under the global project path. The
"Add Project" window creates a project's folders and registers the project.

This project models that logic and proves what it promises:

| file | module | what it models |
|---|---|---|
| `text.dfy` | `Text` | ASCII `ToLower` and `ToUpper`, `TrimStart(char)`, `Trim()`, and the decimal rendering of the counter |
| `paths.dfy` | `Paths` | an abstract `Path.Combine`, `GetFileName`, `GetDirectoryName`, `GetExtension` and `GetFileNameWithoutExtension` |
| `file_type_mapper.dfy` | `FileTypeMapper` | `FileTypeMapper`, the 20-entry extension table |
| `projects.dfy` | `Projects` | `Project`, `StandardPaths`, `CustomPaths` with null kept apart from `""`, `GetActivePaths` and `GetTargetPath` |
| `disk.dfy` | `Disk` | the file system as sets of file and directory paths, plus the paths to which access is refused (nothing can be created there and no file there can be read); `Directory.CreateDirectory` and `File.Copy` as methods that either change those sets or return the error |
| `main_window.dfy` | `Organizer` | `AppConfig`, the log, `ProcessFile`, `GetUniqueFilePath` and `PopulateProjectsComboBox` |
| `add_project_window.dfy` | `AddProject` | `SaveButton_Click` |

Some .NET calls become parameters: `Directory.Exists` of the global path, and the names
`Directory.GetDirectories` lists under it. `File.Exists` is membership in the file set.

Two behaviours of the code are proved and worth knowing:
- A blank custom text box beside a filled one is saved as `""`, not as null. The `??`
  fallback therefore does not replace it. In "Custom" mode a file of that category is sent
  to the folder `""`, and its placement always fails (`AddProject.BlankInputFailsPlacement`).
- No extension maps to "Custom Folders", so the `CustomFoldersPath` branch of
  `GetTargetPath` can never be taken (`Projects.TargetPathIsActivePath`).

## Model

| member | source | states |
|---|---|---|
| `FileTypeMapper.GetTargetFolder` | ProjectOrganizer/MainWindow.xaml.cs:55-61 | `FileTypeMapper.GetTargetFolder`. Specified by `ClassifiedByGroup`, `IgnoresCase`, `IgnoresLeadingDots` and `TargetFolderRange`. |
| `Projects.InitializeStandardPaths` | ProjectOrganizer/MainWindow.xaml.cs:134-142 | `StandardPaths.InitializeStandardPaths`. Specified by `StandardPathsLayout` and `StandardPathsDistinct`. |
| `Projects.HasCustomPaths` | ProjectOrganizer/MainWindow.xaml.cs:154-162 | `CustomPaths.HasCustomPaths`. Specified by `HasCustomPathsMeansSomeCategory`. |
| `Projects.GetActivePaths` | ProjectOrganizer/MainWindow.xaml.cs:99-122 | `Project.GetActivePaths`. Specified by `ActivePathsRule`, `StandardUnlessGateOpen`, `OverridesIgnoredOutsideCustomMode`, `ActivePathOrigin` and `EmptyOverrideIsUsed`. |
| `Projects.GetTargetPath` | ProjectOrganizer/MainWindow.xaml.cs:67-81 | `GetTargetPath`. Specified by `SelectFolderPathByCategory`, `TargetPathIsActivePath` and `StandardModeTargets`. |
| `Organizer.Placed` | ProjectOrganizer/MainWindow.xaml.cs:353-369 | The effect of `ProcessFile`'s `try` block on the file system and the status. Ensured by `CopyIntoFolder`, and specified by `PlacedInTargetFolder`, `EmptyFolderFails`, `UnreadableSourceFails` and `DirectoryInTheWayFails`. |
| `Organizer.Reconcile` | ProjectOrganizer/MainWindow.xaml.cs:393-423 | The project list `PopulateProjectsComboBox` leaves. Ensured by `PopulateProjectsComboBox` through `ReconcileByLoops`, and specified by `ReconcileKeys`, `ReconcileEntries`, `ReconcileIdempotent` and `ReconcileKeepsNames`. |
| `AddProject.SaveDecided` | ProjectOrganizer/AddProjectWindow.xaml.cs:59-100 | What `SaveButton_Click` decides: the guards on the trimmed name in order, then the directory creation. Ensured by `SaveProject` and `SaveButtonClick`. |
| `Text.TrimStartSpec` | ProjectOrganizer/MainWindow.xaml.cs:57 | `TrimStart(s, c)` is a suffix of `s`. Everything it drops is `c`, and it does not start with `c`. |
| `Text.TrimStartRepeat` | ProjectOrganizer/MainWindow.xaml.cs:57 | Any number of leading copies of `c` make no difference to `TrimStart(_, c)`. |
| `Text.LowerOfUpper` | ProjectOrganizer/MainWindow.xaml.cs:57 | Lower-casing an upper-cased string gives the lower-cased original. |
| `Text.TrimEnds` | ProjectOrganizer/AddProjectWindow.xaml.cs:61 | The trimmed name is empty, or it starts and ends with a character that is not white space. |
| `Text.TrimEmptyIffBlank` | ProjectOrganizer/AddProjectWindow.xaml.cs:61-68 | The trimmed name is empty exactly when the typed name is all white space. |
| `Text.TrimIdempotent` | ProjectOrganizer/AddProjectWindow.xaml.cs:61 | Trimming twice is trimming once. |
| `Text.NatToStringRoundTrip` | ProjectOrganizer/MainWindow.xaml.cs:385 | The counter's decimal rendering is all digits and reads back as the counter. |
| `Text.NatToStringInjective` | ProjectOrganizer/MainWindow.xaml.cs:385 | Different counters are rendered differently. |
| `Paths.CombineInjective` | ProjectOrganizer/MainWindow.xaml.cs:356 | Within one folder, different names give different paths. |
| `Paths.FileNameHasNoSep` | ProjectOrganizer/MainWindow.xaml.cs:341 | A file name has no separator. |
| `Paths.SplitRoundTrip` | ProjectOrganizer/MainWindow.xaml.cs:375-385 | Combining a path's directory with its file name gives the path back. |
| `Paths.CombineSplitRoundTrip` | ProjectOrganizer/MainWindow.xaml.cs:356 | Splitting `Combine(dir, name)`, for a name without separators, gives back `name` and the directory as `Combine` wrote it. |
| `Paths.NameExtensionSpec` | ProjectOrganizer/MainWindow.xaml.cs:342 | An extension is a suffix of the file name: empty, or a `.` followed by at least one character that is not a `.`, so it starts at the last `.`. It is non-empty exactly when the name contains a `.` and does not end in one. |
| `Paths.StemAndExtension` | ProjectOrganizer/MainWindow.xaml.cs:378-379 | Stem plus extension is the file name. The one exception is a name ending in `.`: its extension is empty and its stem is the name without that final `.`. |
| `Paths.ExtensionWithoutDot` | ProjectOrganizer/MainWindow.xaml.cs:347 | The logged file type is the extension without its single leading dot. |
| `FileTypeMapper.TableKeys` | ProjectOrganizer/MainWindow.xaml.cs:24-53 | The table's keys are exactly the four groups of extensions. |
| `FileTypeMapper.TableValues` | ProjectOrganizer/MainWindow.xaml.cs:24-53 | A known key maps to a group's folder exactly when it is in that group. |
| `FileTypeMapper.ClassifiedByGroup` | ProjectOrganizer/MainWindow.xaml.cs:55-61 | An extension lands in a group's folder exactly when its normalised key is in that group, and in "Other" exactly when it is in none. |
| `FileTypeMapper.IgnoresCase` | ProjectOrganizer/MainWindow.xaml.cs:57 | Upper-casing an extension does not change its folder. |
| `FileTypeMapper.IgnoresLeadingDots` | ProjectOrganizer/MainWindow.xaml.cs:57 | Leading dots, however many, do not change an extension's folder. |
| `FileTypeMapper.TargetFolderRange` | ProjectOrganizer/MainWindow.xaml.cs:55-61 | The folder is always one of "Documents", "Images", "VMDK", "Adobe Projects" or "Other". |
| `FileTypeMapper.ImageExamples` | ProjectOrganizer/MainWindow.xaml.cs:55-61 | ".JPG", "jpg" and "..jpg" are all "Images". |
| `FileTypeMapper.OtherExamples` | ProjectOrganizer/MainWindow.xaml.cs:55-61 | ".xyz" and "" are "Other". |
| `Projects.FolderNamesDistinct` | ProjectOrganizer/MainWindow.xaml.cs:134-142 | The six standard folder names are pairwise distinct. |
| `Projects.StandardPathsLayout` | ProjectOrganizer/MainWindow.xaml.cs:134-142 | Each standard path is its category's folder name directly inside the project root. |
| `Projects.StandardPathsDistinct` | ProjectOrganizer/MainWindow.xaml.cs:134-142 | Different categories get different standard paths. |
| `Projects.HasCustomPathsMeansSomeCategory` | ProjectOrganizer/MainWindow.xaml.cs:154-162 | `HasCustomPaths` holds exactly when some category's override is neither null nor empty. |
| `Projects.ActivePathsRule` | ProjectOrganizer/MainWindow.xaml.cs:99-122 | Per category: with the gate open ("Custom" mode and some override set), the override if it is not null, else the standard path. With the gate closed, the standard path. |
| `Projects.StandardUnlessGateOpen` | ProjectOrganizer/MainWindow.xaml.cs:99-122 | Outside "Custom" mode, or with no override set, every category resolves to its standard path. |
| `Projects.OverridesIgnoredOutsideCustomMode` | ProjectOrganizer/MainWindow.xaml.cs:101 | Outside "Custom" mode, replacing the overrides changes nothing. |
| `Projects.ActivePathOrigin` | ProjectOrganizer/MainWindow.xaml.cs:103-121 | Every path in effect is the standard one or an override the user gave. |
| `Projects.EmptyOverrideIsUsed` | ProjectOrganizer/MainWindow.xaml.cs:101-111 | With the gate open, an override of `""` is used as it is, and its category resolves to `""`. |
| `Projects.SelectFolderPathByCategory` | ProjectOrganizer/MainWindow.xaml.cs:72-80 | For each folder the classifier can return, the switch picks that category's path. |
| `Projects.TargetPathIsActivePath` | ProjectOrganizer/MainWindow.xaml.cs:67-81 | The target is the path in effect for the category the classifier names. That category is never "Custom Folders". |
| `Projects.StandardModeTargets` | ProjectOrganizer/MainWindow.xaml.cs:67-81 | In "Standard" mode an image goes to the standard Images path, and an unknown type to the standard Other path. |
| `Disk.FileSystem.CreateDirectory` | ProjectOrganizer/MainWindow.xaml.cs:358 | Succeeds exactly when the path is not empty, no file has its name, and it exists already or may be created. The directory set grows by that path on success and is unchanged on failure. |
| `Disk.FileSystem.Copy` | ProjectOrganizer/MainWindow.xaml.cs:360 | Succeeds exactly when the source is an existing file that may be read, and the destination is neither an existing file, nor an existing directory, nor refused. Only the destination is added, and nothing is overwritten. |
| `Organizer.AppConfig.constructor` | ProjectOrganizer/MainWindow.xaml.cs:182-188 | The defaults: global path `""`, mode "Custom", no active project, no projects. |
| `Organizer.MainWindow.constructor` | ProjectOrganizer/MainWindow.xaml.cs:190-203 | A fresh default configuration and an empty log. The constructor's call to `PopulateProjectsComboBox` has no effect on it, because the default global path is empty. |
| `Organizer.NumberedInjective` | ProjectOrganizer/MainWindow.xaml.cs:385 | Different counters give different candidate paths. |
| `Organizer.GetUniqueFilePath` | ProjectOrganizer/MainWindow.xaml.cs:373-390 | The result never exists. It is the input when the input is free. Otherwise it is `dir\name (k)ext` for the least free `k >= 1`. |
| `Organizer.LeastFreeCounterUnique` | ProjectOrganizer/MainWindow.xaml.cs:381-387 | The least free counter is unique. |
| `Organizer.UniquePathDeterminate` | ProjectOrganizer/MainWindow.xaml.cs:373-390 | The promise of `GetUniqueFilePath` fixes its result. |
| `Organizer.UniquePathStaysInFolder` | ProjectOrganizer/MainWindow.xaml.cs:375-386 | The chosen path is the file name itself or a numbered form of it, in the same directory. |
| `Organizer.ReportNames` | ProjectOrganizer/MainWindow.xaml.cs:385 | "report.pdf" numbered 1 and 2 is "report (1).pdf" and "report (2).pdf". |
| `Organizer.SecondNumberedChosen` | ProjectOrganizer/MainWindow.xaml.cs:381-387 | When the path and its first numbered form are taken and the second is free, the second is chosen. |
| `Organizer.ReportExample` | ProjectOrganizer/MainWindow.xaml.cs:373-390 | With "report.pdf" and "report (1).pdf" taken and "report (2).pdf" free, the result is "report (2).pdf". |
| `Organizer.PlacedInTargetFolder` | ProjectOrganizer/MainWindow.xaml.cs:355-362 | A completed placement adds exactly one new file. It did not exist before, it has the file's name or a numbered form of it, and it lies directly in the target folder. |
| `Organizer.EmptyFolderFails` | ProjectOrganizer/MainWindow.xaml.cs:355-367 | Placement into the folder `""` fails and adds no file. |
| `Organizer.UnreadableSourceFails` | ProjectOrganizer/MainWindow.xaml.cs:360-367 | A source file that cannot be read makes the placement fail, and no file is added. |
| `Organizer.DirectoryInTheWayFails` | ProjectOrganizer/MainWindow.xaml.cs:359-367 | When a directory but no file has the file's name in the target folder, the probe keeps that name, the copy fails, and no file is added. |
| `Organizer.CopyIntoFolder` | ProjectOrganizer/MainWindow.xaml.cs:353-369 | Ends "Complete" or "Failed". The target folder is added exactly when it can be created, and stays even when the copy then fails. On success the copy is at the unique path. On failure no file is added. Success holds exactly when the folder can be created, the source exists and may be read, and the chosen path is neither a directory nor refused. |
| `Organizer.MainWindow.ProcessFile` | ProjectOrganizer/MainWindow.xaml.cs:327-370 | With no active project, or one that is not known, nothing changes. Otherwise exactly one entry is appended, with the file name and the extension without leading dots, and its final status is that of the placement into `GetTargetPath`. Files and directories only ever grow. |
| `Organizer.MainWindow.ProcessFiles` | ProjectOrganizer/MainWindow.xaml.cs:296-306 | Each dropped path passes through `ProcessFile`: one entry per path on an old log that is kept, and existing files and directories are kept. |
| `Organizer.AddListedKeys` | ProjectOrganizer/MainWindow.xaml.cs:406-414 | After the first loop the keys are the old ones plus the listed directories. |
| `Organizer.AddListedValues` | ProjectOrganizer/MainWindow.xaml.cs:406-414 | The first loop keeps existing projects, and each new key gets a fresh project for its directory. |
| `Organizer.MainWindow.AddListedProjects` | ProjectOrganizer/MainWindow.xaml.cs:406-414 | The loop computes the ordered insertion of the missing directories. |
| `Organizer.MainWindow.RemoveUnlistedProjects` | ProjectOrganizer/MainWindow.xaml.cs:416-423 | Exactly the projects with no listed directory are removed. |
| `Organizer.ReconcileByLoops` | ProjectOrganizer/MainWindow.xaml.cs:406-423 | Adding and then removing gives the reconciled list. |
| `Organizer.MainWindow.PopulateProjectsComboBox` | ProjectOrganizer/MainWindow.xaml.cs:393-427 | The project list becomes the reconciled list. |
| `Organizer.ReconcileKeys` | ProjectOrganizer/MainWindow.xaml.cs:393-423 | With an empty or missing global path the list is unchanged. Otherwise its keys are exactly the listed directory names. |
| `Organizer.ReconcileEntries` | ProjectOrganizer/MainWindow.xaml.cs:406-414 | Kept projects are untouched. A new one is named after its directory, has its standard paths under `Combine(global, dir)`, and all six overrides are null. |
| `Organizer.ReconcileIdempotent` | ProjectOrganizer/MainWindow.xaml.cs:393-423 | Reconciling twice with the same listing is reconciling once. |
| `Organizer.ReconcileKeepsNames` | ProjectOrganizer/MainWindow.xaml.cs:406-414 | If every project is filed under its own name, it still is afterwards. |
| `AddProject.ProjectDirectoriesDistinct` | ProjectOrganizer/AddProjectWindow.xaml.cs:85-100 | The project root and its six standard folders are seven different directories. |
| `AddProject.FirstUncreatable` | ProjectOrganizer/AddProjectWindow.xaml.cs:86-100 | The index of the first directory that cannot be created: every directory before it can be, and it cannot (or it is the count, when all can). |
| `AddProject.CreateStep` | ProjectOrganizer/AddProjectWindow.xaml.cs:86-100 | One more creation either extends the created prefix, or stops at the first directory that cannot be created, with exactly the ones before it added. |
| `AddProject.CreateNext` | ProjectOrganizer/AddProjectWindow.xaml.cs:95-100 | One `Directory.CreateDirectory` call: the next directory is added, or the run stops with exactly the directories before the first uncreatable one added. |
| `AddProject.CreateProjectDirectories` | ProjectOrganizer/AddProjectWindow.xaml.cs:85-100 | The calls succeed exactly when each of the seven directories could be created. The directories before the first that cannot be created are added, they stay when a later call fails, and nothing else is added. |
| `AddProject.NoOverridesOutsideCustomMode` | ProjectOrganizer/AddProjectWindow.xaml.cs:103-114 | Outside "Custom" mode all six overrides of a new project are null, so its standard paths are in effect in every mode. |
| `AddProject.BlankInputsMeanStandardPaths` | ProjectOrganizer/AddProjectWindow.xaml.cs:103-114 | Six blank text boxes leave the gate closed, so the standard paths are in effect. |
| `AddProject.BlankInputBesideFilledOne` | ProjectOrganizer/AddProjectWindow.xaml.cs:103-114 | A blank box beside a filled one makes its category resolve to `""` in "Custom" mode. |
| `AddProject.BlankInputFailsPlacement` | ProjectOrganizer/AddProjectWindow.xaml.cs:105-113 | In "Custom" mode, with a blank box beside a filled one, no file of the blank box's category is ever copied, and placement fails. |
| `AddProject.CreatedProjectSurvivesRefresh` | ProjectOrganizer/AddProjectWindow.xaml.cs:117-122 | After the refresh the new project is still there, unchanged, exactly when the listing names its directory. |
| `AddProject.AddProjectWindow.constructor` | ProjectOrganizer/AddProjectWindow.xaml.cs:14-17 | The window keeps its main window. |
| `AddProject.AddProjectWindow.SaveProject` | ProjectOrganizer/AddProjectWindow.xaml.cs:59-118 | The guards run in order on the trimmed name: blank name, taken name, global path not set. Created holds exactly when all guards pass and all seven directories can be created. Any other outcome leaves the projects and the active project unchanged. On Created, exactly one key is added, holding a project built from `Combine(global, name)` with overrides only in "Custom" mode, and that name becomes active. Directories are only touched once the guards pass. |
| `AddProject.AddProjectWindow.SaveButtonClick` | ProjectOrganizer/AddProjectWindow.xaml.cs:59-131 | The same decision as `SaveProject`: the guards in order on the trimmed name, Created exactly when they pass and all seven directories can be created, and the same directory changes. On Created, the list with the new project is reconciled with the directory listing, and the new project is active. On any other outcome nothing in the configuration changes. |

## Left out

- The WPF user interface is not modelled: windows, MessageBox, RefreshLog, drag-enter, combo-box binding, `UpdateUIBasedOnMode`, the folder browser dialogs, the settings window and `ManageProjectButton_Click`.
- JSON persistence (`LoadConfig`, `SaveConfig`) is not modelled; it is I/O through a foreign library. `SaveConfig` also copies the global path text box into the configuration. The model keeps `globalProjectPath` as it is, so that UI coupling is not captured.
- `ProjectComboBox.SelectedItem` is set at the end of `PopulateProjectsComboBox`, which can change `ActiveProject` through the selection handler. That is UI coupling and is not modelled.
- `Directory.Exists` and `Directory.GetDirectories` of the global path are parameters of `PopulateProjectsComboBox` and `SaveButtonClick`. They are not derived from the modelled file system.
- Separators are not normalised: .NET's `GetDirectoryName` turns `/` into `\` and collapses repeated separators, which `GetUniqueFilePath` relies on when it rebuilds a path. Here `DirectoryName` keeps the path's own separators.
- .NET path semantics are abstract. Separators are `\` and `/`. Rooted second arguments, drive letters and invalid characters are not modelled. `DirectoryName` keeps its trailing separator, which `Combine` treats like the trimmed form.
- Paths.Combine: `Combine(dir, "")` is `dir` followed by a separator, where .NET's `Path.Combine` returns `dir`. A dropped path that ends in a separator has an empty file name and reaches this case, so its target path differs from the real one by the trailing separator.
- `Directory.GetDirectories` is taken never to fail. In `SaveButton_Click` a failure inside `PopulateProjectsComboBox` would be caught after the project was added and made active, and the list would not be reconciled. That case is not modelled.
- `ToLower`, `ToUpper` and white space cover only ASCII. Unicode case mapping is not modelled.
- A hand-edited configuration file can make the standard paths null, or make `CustomPaths` itself null. Neither case is modelled: standard paths are always strings, and `CustomPaths` is always a record. With a null `CustomPaths` in "Custom" mode, `GetActivePaths` would throw a NullReferenceException, which `ProcessFile` logs as Failed.
- `Directory.CreateDirectory` adds only the path itself, not missing parent directories. `File.Copy` does not check that the destination's folder exists. A refused path is any path in the `denied` set.
- Error messages stand in for `ex.Message`; their wording is not the framework's.
- The race between the probe in `GetUniqueFilePath` and the copy is not modelled, because the model is sequential.
- The C# `int` counter of `GetUniqueFilePath` is unbounded here. Wrap-around after 2^31-1 probes is not modelled.
- `logEntry` is a reference object that is changed after it is added to `Files`. It is modelled as a value that replaces the log's last entry, so aliasing is not captured.
- The log's status strings are a `Status` datatype. `StatusText` gives the displayed text.
- Disk.FileSystem.Copy: a failed copy adds no file. A destination left half-written by a copy that fails partway is not modelled. The Copy and CopyIntoFolder rows describe the model, not every way .NET's `File.Copy` can fail. A source is unreadable exactly when its path is in the refused set.
- Organizer.MainWindow.ProcessFiles: does not state which log entry belongs to which dropped path, only their number and that the old log is kept.
- The paste handler (`LogListView_KeyDown`) is the same loop as the drop handler, over the clipboard's file list. Only the drop handler's loop is modelled, as `ProcessFiles`.
