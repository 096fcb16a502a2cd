/**
 * The main window's logic (MainWindow.xaml.cs): the configuration, the log of placement
 * attempts, the placement of a dropped file into the active project, the choice of a
 * collision-free file name, and the reconciliation of the project list with the
 * directories under the global project path.
 */
module Organizer {
  import opened Wrappers
  import opened Text
  import opened Paths
  import opened Projects
  import opened Disk

  /** The status column of the log: "Processing", "Complete" or "Failed: " and a message. */
  datatype Status = Processing | Complete | Failed(message: string)

  function StatusText(status: Status): string {
    match status
    case Processing => "Processing"
    case Complete => "Complete"
    case Failed(message) => "Failed: " + message
  }

  /** One line of the log: a placement attempt. */
  datatype FileCopyEntry = FileCopyEntry(filename: string, filetype: string, status: Status)

  /** `AppConfig`, with its defaults. */
  class AppConfig {
    var globalProjectPath: string
    var mode: string
    var activeProject: string
    var projects: map<string, Project>

    constructor ()
      ensures globalProjectPath == "" && mode == "Custom" && activeProject == ""
      ensures projects == map[]
    {
      globalProjectPath := "";
      mode := "Custom";
      activeProject := "";
      projects := map[];
    }
  }

  // ---------------------------------------------------------------- collision-free names

  /** The three parts `GetUniqueFilePath` splits a path into. */
  datatype NameParts = NameParts(directory: string, filename: string, extension: string)

  function SplitPath(filePath: string): NameParts {
    NameParts(DirectoryName(filePath), GetFileNameWithoutExtension(filePath), GetExtension(filePath))
  }

  /** The path probed for `counter`: `$"{filename} ({counter}){extension}"` in `directory`. */
  function Numbered(parts: NameParts, counter: nat): string {
    Combine(parts.directory, parts.filename + " (" + NatToString(counter) + ")" + parts.extension)
  }

  /** The numbered form of a plain file name. */
  function NumberedName(fileName: string, counter: nat): string {
    NameStem(fileName) + " (" + NatToString(counter) + ")" + NameExtension(fileName)
  }

  lemma MiddleCancel(prefix: string, x: string, y: string, suffix: string)
    requires prefix + x + suffix == prefix + y + suffix
    ensures x == y
  {
    assert |x| == |y|;
    assert x == (prefix + x + suffix)[|prefix|..|prefix| + |x|];
    assert y == (prefix + y + suffix)[|prefix|..|prefix| + |y|];
  }

  /** Different counters give different paths, so the probe never repeats itself. */
  lemma NumberedInjective(parts: NameParts, a: nat, b: nat)
    ensures Numbered(parts, a) == Numbered(parts, b) ==> a == b
  {
    var prefix := parts.filename + " (";
    var suffix := ")" + parts.extension;
    var na := parts.filename + " (" + NatToString(a) + ")" + parts.extension;
    var nb := parts.filename + " (" + NatToString(b) + ")" + parts.extension;
    assert na == prefix + NatToString(a) + suffix;
    assert nb == prefix + NatToString(b) + suffix;
    if Numbered(parts, a) == Numbered(parts, b) {
      CombineInjective(parts.directory, na, nb);
      MiddleCancel(prefix, NatToString(a), NatToString(b), suffix);
      NatToStringInjective(a, b);
    }
  }

  /** `k` is the least counter from 1 on whose path does not exist. */
  ghost predicate IsLeastFreeCounter(parts: NameParts, existing: set<string>, k: nat) {
    && 1 <= k
    && Numbered(parts, k) !in existing
    && forall j :: 1 <= j < k ==> Numbered(parts, j) in existing
  }

  /** What `GetUniqueFilePath(filePath)` promises: a path that does not exist; the path
      itself when it is free; otherwise the numbered path of the least free counter. */
  ghost predicate IsUniquePath(filePath: string, existing: set<string>, result: string) {
    && result !in existing
    && (filePath !in existing ==> result == filePath)
    && (filePath in existing ==>
          exists k :: IsLeastFreeCounter(SplitPath(filePath), existing, k)
                      && result == Numbered(SplitPath(filePath), k))
  }

  /** `GetUniqueFilePath(filePath)`, with the file system's existing files as `existing`.
      The probe ends because `existing` is finite and no path is probed twice. */
  method GetUniqueFilePath(filePath: string, existing: set<string>) returns (newFilePath: string)
    ensures IsUniquePath(filePath, existing, newFilePath)
  {
    if filePath !in existing {
      return filePath;
    }
    var parts := SplitPath(filePath);
    var counter: nat := 1;
    ghost var probed: set<string> := {};
    newFilePath := Numbered(parts, counter);
    counter := counter + 1;
    while newFilePath in existing
      invariant 2 <= counter
      invariant newFilePath == Numbered(parts, counter - 1)
      invariant forall j :: 1 <= j < counter - 1 ==> Numbered(parts, j) in existing
      invariant forall j: nat :: counter - 1 <= j ==> Numbered(parts, j) !in probed
      invariant probed <= existing
      decreases existing - probed
    {
      forall j: nat | counter <= j ensures Numbered(parts, j) != newFilePath {
        NumberedInjective(parts, j, counter - 1);
      }
      probed := probed + {newFilePath};
      newFilePath := Numbered(parts, counter);
      counter := counter + 1;
    }
    assert IsLeastFreeCounter(parts, existing, counter - 1);
  }

  /** Only one counter is the least free one. */
  lemma LeastFreeCounterUnique(parts: NameParts, existing: set<string>, k1: nat, k2: nat)
    requires IsLeastFreeCounter(parts, existing, k1) && IsLeastFreeCounter(parts, existing, k2)
    ensures k1 == k2
  {
  }

  /** The promise of `GetUniqueFilePath` determines its result. */
  lemma UniquePathDeterminate(filePath: string, existing: set<string>, r1: string, r2: string)
    requires IsUniquePath(filePath, existing, r1) && IsUniquePath(filePath, existing, r2)
    ensures r1 == r2
  {
    if filePath in existing {
      var parts := SplitPath(filePath);
      var k1: nat :| IsLeastFreeCounter(parts, existing, k1) && r1 == Numbered(parts, k1);
      var k2: nat :| IsLeastFreeCounter(parts, existing, k2) && r2 == Numbered(parts, k2);
      LeastFreeCounterUnique(parts, existing, k1, k2);
    }
  }

  /** The path chosen for `wanted` is neither refused nor an existing directory. */
  ghost predicate AllowedTarget(wanted: string, existing: set<string>, dirs: set<string>,
                                denied: set<string>) {
    forall q :: IsUniquePath(wanted, existing, q) ==> q !in dirs && q !in denied
  }

  lemma AllowedTargetOf(wanted: string, existing: set<string>, dirs: set<string>,
                        denied: set<string>, chosen: string)
    requires IsUniquePath(wanted, existing, chosen)
    ensures AllowedTarget(wanted, existing, dirs, denied) <==> chosen !in dirs && chosen !in denied
  {
    forall q | IsUniquePath(wanted, existing, q) ensures q == chosen {
      UniquePathDeterminate(wanted, existing, q, chosen);
    }
  }

  /** A file name placed in `dir` splits into `dir` and the name's stem and extension. */
  lemma SplitCombined(dir: string, fileName: string, counter: nat)
    requires NoSep(fileName)
    ensures Numbered(SplitPath(Combine(dir, fileName)), counter) == Combine(dir, NumberedName(fileName, counter))
  {
    CombineSplitRoundTrip(dir, fileName);
    JoinPrefixIdempotent(dir);
  }

  /** A numbered name is still a plain file name. */
  lemma NumberedNameHasNoSep(fileName: string, counter: nat)
    requires NoSep(fileName)
    ensures NoSep(NumberedName(fileName, counter))
  {
    PartsHaveNoSep(fileName);
    NatToStringDigits(counter);
    var digits := NatToString(counter);
    assert forall i :: 0 <= i < |digits| ==> IsDigit(digits[i]);
  }

  /** A unique path chosen for `Combine(dir, fileName)` stays in `dir`: it is the name
      itself or its numbered form, and its directory is that of the wanted path. */
  lemma UniquePathStaysInFolder(dir: string, fileName: string, existing: set<string>, result: string)
    requires NoSep(fileName)
    requires IsUniquePath(Combine(dir, fileName), existing, result)
    ensures result == Combine(dir, fileName)
         || exists k :: 1 <= k && result == Combine(dir, NumberedName(fileName, k))
    ensures DirectoryName(result) == DirectoryName(Combine(dir, fileName))
  {
    CombineSplitRoundTrip(dir, fileName);
    if Combine(dir, fileName) in existing {
      var parts := SplitPath(Combine(dir, fileName));
      var k: nat :| IsLeastFreeCounter(parts, existing, k) && result == Numbered(parts, k);
      SplitCombined(dir, fileName, k);
      NumberedNameHasNoSep(fileName, k);
      CombineSplitRoundTrip(dir, NumberedName(fileName, k));
    }
  }

  lemma ReportNames()
    ensures NumberedName("report.pdf", 1) == "report (1).pdf"
    ensures NumberedName("report.pdf", 2) == "report (2).pdf"
  {
    var f := "report.pdf";
    assert f[9] == 'f' && f[..9][8] == 'd' && f[..8][7] == 'p' && f[..7][6] == '.';
    assert f[..9][..8] == f[..8] && f[..8][..7] == f[..7];
    assert LastDot(f) == LastDot(f[..9]) == LastDot(f[..8]) == LastDot(f[..7]) == 6;
    assert NameStem(f) == "report";
    assert NameExtension(f) == ".pdf";
    assert NatToString(1) == "1" && NatToString(2) == "2";
  }

  lemma ReportNumbered(dir: string)
    ensures Numbered(SplitPath(Combine(dir, "report.pdf")), 1) == Combine(dir, "report (1).pdf")
    ensures Numbered(SplitPath(Combine(dir, "report.pdf")), 2) == Combine(dir, "report (2).pdf")
  {
    ReportNames();
    SplitCombined(dir, "report.pdf", 1);
    SplitCombined(dir, "report.pdf", 2);
  }

  /** When the path and its first numbered form are taken and the second is free, the
      second is chosen. */
  lemma SecondNumberedChosen(filePath: string, existing: set<string>, result: string)
    requires filePath in existing
    requires Numbered(SplitPath(filePath), 1) in existing
    requires Numbered(SplitPath(filePath), 2) !in existing
    requires IsUniquePath(filePath, existing, result)
    ensures result == Numbered(SplitPath(filePath), 2)
  {
    var parts := SplitPath(filePath);
    assert IsLeastFreeCounter(parts, existing, 2);
    var k: nat :| IsLeastFreeCounter(parts, existing, k) && result == Numbered(parts, k);
    LeastFreeCounterUnique(parts, existing, k, 2);
  }

  /** When `report.pdf` and `report (1).pdf` are taken and `report (2).pdf` is free, the next `report.pdf` becomes `report (2).pdf`. */
  lemma ReportExample(dir: string, existing: set<string>, result: string)
    requires Combine(dir, "report.pdf") in existing
    requires Combine(dir, "report (1).pdf") in existing
    requires Combine(dir, "report (2).pdf") !in existing
    requires IsUniquePath(Combine(dir, "report.pdf"), existing, result)
    ensures result == Combine(dir, "report (2).pdf")
  {
    ReportNumbered(dir);
    SecondNumberedChosen(Combine(dir, "report.pdf"), existing, result);
  }

  // ---------------------------------------------------------------- project list

  /** The project `PopulateProjectsComboBox` creates for a directory it has not seen. */
  function NewListedProject(globalProjectPath: string, dir: string): Project {
    Project(dir, InitializeStandardPaths(Combine(globalProjectPath, dir)), NoCustomPaths)
  }

  /** The project list after the first loop of `PopulateProjectsComboBox` has seen
      `directories`: each unseen directory gets a new project, in order. */
  function AddListed(projects: map<string, Project>, globalProjectPath: string,
                     directories: seq<string>): map<string, Project>
  {
    if directories == [] then projects
    else
      var before := AddListed(projects, globalProjectPath, directories[..|directories| - 1]);
      var dir := directories[|directories| - 1];
      if dir in before then before else before[dir := NewListedProject(globalProjectPath, dir)]
  }

  /** After the first loop the keys are the old ones and the listed directories. */
  lemma {:induction false} AddListedKeys(projects: map<string, Project>, globalProjectPath: string,
                                         directories: seq<string>, d: string)
    ensures d in AddListed(projects, globalProjectPath, directories)
            <==> d in projects || d in directories
  {
    if directories != [] {
      var front := directories[..|directories| - 1];
      AddListedKeys(projects, globalProjectPath, front, d);
      assert d in directories <==> d in front || d == directories[|directories| - 1];
    }
  }

  /** The first loop keeps every existing project and gives each new key a new project. */
  lemma {:induction false} AddListedValues(projects: map<string, Project>, globalProjectPath: string,
                                           directories: seq<string>, d: string)
    requires d in AddListed(projects, globalProjectPath, directories)
    ensures var added := AddListed(projects, globalProjectPath, directories);
      added[d] == if d in projects then projects[d] else NewListedProject(globalProjectPath, d)
  {
    if directories != [] {
      var front := directories[..|directories| - 1];
      var before := AddListed(projects, globalProjectPath, front);
      if d in before {
        AddListedValues(projects, globalProjectPath, front, d);
      } else {
        AddListedKeys(projects, globalProjectPath, front, d);
      }
    }
  }

  /** The project list after `PopulateProjectsComboBox`, given whether the global path
      exists and the names of the directories in it. */
  function Reconcile(projects: map<string, Project>, globalProjectPath: string,
                     globalExists: bool, directories: seq<string>): map<string, Project>
  {
    if globalProjectPath == "" || !globalExists then
      projects
    else
      map dir | dir in directories ::
        (if dir in projects then projects[dir] else NewListedProject(globalProjectPath, dir))
  }

  /** Every project is filed under its own name. */
  ghost predicate NamesMatchKeys(projects: map<string, Project>) {
    forall key :: key in projects ==> projects[key].name == key
  }

  /** Without a usable global path the list is left alone; otherwise its keys become
      exactly the directory names. */
  lemma ReconcileKeys(projects: map<string, Project>, globalProjectPath: string,
                      globalExists: bool, directories: seq<string>)
    ensures var result := Reconcile(projects, globalProjectPath, globalExists, directories);
      if globalProjectPath == "" || !globalExists then result == projects
      else forall key :: key in result <==> key in directories
  {
  }

  /** Projects that still have their directory are kept as they were; the others are
      new, named after their directory, with standard paths under it and no overrides. */
  lemma ReconcileEntries(projects: map<string, Project>, globalProjectPath: string,
                         globalExists: bool, directories: seq<string>, dir: string)
    requires globalProjectPath != "" && globalExists && dir in directories
    ensures var result := Reconcile(projects, globalProjectPath, globalExists, directories);
      && dir in result
      && (dir in projects ==> result[dir] == projects[dir])
      && (dir !in projects ==>
            && result[dir].name == dir
            && result[dir].standardPaths == InitializeStandardPaths(Combine(globalProjectPath, dir))
            && result[dir].customPaths == NoCustomPaths
            && !HasCustomPaths(result[dir].customPaths))
  {
  }

  /** Reconciling a second time with the same listing changes nothing. */
  lemma ReconcileIdempotent(projects: map<string, Project>, globalProjectPath: string,
                            globalExists: bool, directories: seq<string>)
    ensures var once := Reconcile(projects, globalProjectPath, globalExists, directories);
      Reconcile(once, globalProjectPath, globalExists, directories) == once
  {
  }

  /** Reconciling keeps every project filed under its own name. */
  lemma ReconcileKeepsNames(projects: map<string, Project>, globalProjectPath: string,
                            globalExists: bool, directories: seq<string>)
    requires NamesMatchKeys(projects)
    ensures NamesMatchKeys(Reconcile(projects, globalProjectPath, globalExists, directories))
  {
  }

  // ---------------------------------------------------------------- placing one file

  /** What the `try` block of `ProcessFile` does to the file system, given the file
      system before (`files0`, `dirs0`) and after (`files1`, `dirs1`): it ends in
      "Complete" or a failure; the target folder is added exactly when it can be
      created, whether or not the copy then succeeds; on success the copy lands at the
      unique path chosen for the file name in the target folder; on failure no file is
      added; and it succeeds exactly when the folder can be created, the source file
      exists and may be read, and the chosen path is neither a directory nor refused. */
  ghost predicate Placed(filePath: string, targetFolderPath: string,
                         files0: set<string>, dirs0: set<string>, denied: set<string>,
                         status: Status, files1: set<string>, dirs1: set<string>)
  {
    var targetFilePath := Combine(targetFolderPath, FileName(filePath));
    var folderCreated := Creatable(files0, dirs0, denied, targetFolderPath);
    && !status.Processing?
    && dirs1 == (if folderCreated then dirs0 + {targetFolderPath} else dirs0)
    && (status.Complete? ==> exists q :: IsUniquePath(targetFilePath, files0, q) && files1 == files0 + {q})
    && (!status.Complete? ==> files1 == files0)
    && (status.Complete? <==>
          && folderCreated
          && filePath in files0 && filePath !in denied
          && AllowedTarget(targetFilePath, files0, dirs1, denied))
  }

  /** A completed placement adds exactly one file, which did not exist before, carries
      the file's name or its numbered form, and lies directly in the target folder. */
  lemma PlacedInTargetFolder(filePath: string, targetFolderPath: string,
                             files0: set<string>, dirs0: set<string>, denied: set<string>,
                             status: Status, files1: set<string>, dirs1: set<string>)
    requires Placed(filePath, targetFolderPath, files0, dirs0, denied, status, files1, dirs1)
    requires status.Complete?
    ensures exists q ::
      && q !in files0 && files1 == files0 + {q}
      && (q == Combine(targetFolderPath, FileName(filePath))
          || exists k :: 1 <= k && q == Combine(targetFolderPath, NumberedName(FileName(filePath), k)))
      && DirectoryName(q) == JoinPrefix(targetFolderPath)
  {
    var name := FileName(filePath);
    var q :| IsUniquePath(Combine(targetFolderPath, name), files0, q) && files1 == files0 + {q};
    FileNameHasNoSep(filePath);
    UniquePathStaysInFolder(targetFolderPath, name, files0, q);
    CombineSplitRoundTrip(targetFolderPath, name);
  }

  /** A folder path that is empty can never be placed into: the placement fails and the
      file system keeps its files. */
  lemma EmptyFolderFails(filePath: string, files0: set<string>, dirs0: set<string>,
                         denied: set<string>, status: Status, files1: set<string>, dirs1: set<string>)
    requires Placed(filePath, "", files0, dirs0, denied, status, files1, dirs1)
    ensures status.Failed? && files1 == files0
  {
  }

  /** A source file that cannot be read is never copied: the placement fails and adds
      no file. */
  lemma UnreadableSourceFails(filePath: string, targetFolderPath: string,
                              files0: set<string>, dirs0: set<string>, denied: set<string>,
                              status: Status, files1: set<string>, dirs1: set<string>)
    requires Placed(filePath, targetFolderPath, files0, dirs0, denied, status, files1, dirs1)
    requires filePath in denied
    ensures status.Failed? && files1 == files0
  {
  }

  /** When no file but a directory has the file's name in the target folder, the probe
      keeps that name and the copy onto the directory fails, adding no file. */
  lemma DirectoryInTheWayFails(filePath: string, targetFolderPath: string,
                               files0: set<string>, dirs0: set<string>, denied: set<string>,
                               status: Status, files1: set<string>, dirs1: set<string>)
    requires Placed(filePath, targetFolderPath, files0, dirs0, denied, status, files1, dirs1)
    requires var targetFilePath := Combine(targetFolderPath, FileName(filePath));
      targetFilePath !in files0 && targetFilePath in dirs0
    ensures status.Failed? && files1 == files0
  {
    var targetFilePath := Combine(targetFolderPath, FileName(filePath));
    assert IsUniquePath(targetFilePath, files0, targetFilePath);
  }

  /** The `try`/`catch` block of `ProcessFile`: create the folder, choose a free name,
      copy; the status it leaves in the log entry. */
  method CopyIntoFolder(filePath: string, targetFolderPath: string, fs: FileSystem)
    returns (status: Status)
    modifies fs`files, fs`dirs
    ensures Placed(filePath, targetFolderPath, old(fs.files), old(fs.dirs), fs.denied,
                   status, fs.files, fs.dirs)
  {
    var targetFilePath := Combine(targetFolderPath, FileName(filePath));
    ghost var wanted := targetFilePath;
    var error := fs.CreateDirectory(targetFolderPath);
    if error.Some? {
      return Failed(error.value);
    }
    targetFilePath := GetUniqueFilePath(targetFilePath, fs.files);
    AllowedTargetOf(wanted, fs.files, fs.dirs, fs.denied, targetFilePath);
    error := fs.Copy(filePath, targetFilePath);
    if error.Some? {
      return Failed(error.value);
    }
    return Complete;
  }

  /** The two loops of `PopulateProjectsComboBox` compute `Reconcile`: the first adds a
      new project for each unseen directory, the second removes whatever has none. */
  lemma ReconcileByLoops(projects: map<string, Project>, globalProjectPath: string,
                         directories: seq<string>, result: map<string, Project>)
    requires globalProjectPath != ""
    requires var added := AddListed(projects, globalProjectPath, directories);
      result == added - (set p | p in added && p !in directories)
    ensures result == Reconcile(projects, globalProjectPath, true, directories)
  {
    var added := AddListed(projects, globalProjectPath, directories);
    var expected := Reconcile(projects, globalProjectPath, true, directories);
    forall d ensures d in result <==> d in expected {
      AddListedKeys(projects, globalProjectPath, directories, d);
    }
    forall d | d in result ensures result[d] == expected[d] {
      AddListedKeys(projects, globalProjectPath, directories, d);
      AddListedValues(projects, globalProjectPath, directories, d);
    }
  }

  // ---------------------------------------------------------------- the window

  class MainWindow {
    const config: AppConfig
    /** The `Files` collection shown in the log view. */
    var log: seq<FileCopyEntry>

    constructor ()
      ensures fresh(config) && log == []
      ensures config.globalProjectPath == "" && config.mode == "Custom"
      ensures config.activeProject == "" && config.projects == map[]
    {
      config := new AppConfig();
      log := [];
    }

    /** `ProcessFile`'s two guards: an active project is set and is known. */
    ghost predicate HasActiveProject()
      reads config
    {
      config.activeProject != "" && config.activeProject in config.projects
    }

    /** The folder `ProcessFile` sends `filePath` to. */
    ghost function TargetFolderOf(filePath: string): string
      reads config
      requires HasActiveProject()
    {
      GetTargetPath(config.projects[config.activeProject], GetExtension(filePath), config.mode)
    }

    /** `ProcessFile(filePath)`. */
    method ProcessFile(filePath: string, fs: FileSystem)
      modifies this`log, fs`files, fs`dirs
      ensures !HasActiveProject() ==>
        log == old(log) && fs.files == old(fs.files) && fs.dirs == old(fs.dirs)
      ensures HasActiveProject() ==>
        && |log| == |old(log)| + 1 && log[..|old(log)|] == old(log)
        && log[|old(log)|].filename == FileName(filePath)
        && log[|old(log)|].filetype == TrimStart(GetExtension(filePath), '.')
        && Placed(filePath, TargetFolderOf(filePath), old(fs.files), old(fs.dirs), fs.denied,
                  log[|old(log)|].status, fs.files, fs.dirs)
      ensures old(fs.files) <= fs.files && old(fs.dirs) <= fs.dirs
    {
      if config.activeProject == "" {
        return;
      }
      if config.activeProject !in config.projects {
        return;
      }
      var activeProject := config.projects[config.activeProject];

      var filename := FileName(filePath);
      var fileExtension := GetExtension(filePath);
      var logEntry := FileCopyEntry(filename, TrimStart(fileExtension, '.'), Processing);
      log := log + [logEntry];

      var targetFolderPath := GetTargetPath(activeProject, fileExtension, config.mode);
      var status := CopyIntoFolder(filePath, targetFolderPath, fs);
      log := log[|log| - 1 := logEntry.(status := status)];
    }

    /** A drop or a paste: each path in turn is passed to `ProcessFile`. */
    method ProcessFiles(filePaths: seq<string>, fs: FileSystem)
      modifies this`log, fs`files, fs`dirs
      ensures !HasActiveProject() ==>
        log == old(log) && fs.files == old(fs.files) && fs.dirs == old(fs.dirs)
      ensures HasActiveProject() ==> |log| == |old(log)| + |filePaths| && old(log) <= log
      ensures old(fs.files) <= fs.files && old(fs.dirs) <= fs.dirs
    {
      for i := 0 to |filePaths|
        invariant !HasActiveProject() ==>
          log == old(log) && fs.files == old(fs.files) && fs.dirs == old(fs.dirs)
        invariant HasActiveProject() ==> |log| == |old(log)| + i && old(log) <= log
        invariant old(fs.files) <= fs.files && old(fs.dirs) <= fs.dirs
      {
        ProcessFile(filePaths[i], fs);
      }
    }

    /** `PopulateProjectsComboBox()`, with `Directory.Exists` of the global path and the
        names `Directory.GetDirectories` lists given as `globalExists` and `directories`. */
    method PopulateProjectsComboBox(globalExists: bool, directories: seq<string>)
      modifies config`projects
      ensures config.projects
              == Reconcile(old(config.projects), config.globalProjectPath, globalExists, directories)
    {
      if config.globalProjectPath == "" || !globalExists {
        return;
      }
      AddListedProjects(directories);
      RemoveUnlistedProjects(directories);
      ReconcileByLoops(old(config.projects), config.globalProjectPath, directories, config.projects);
    }

    /** The first loop of `PopulateProjectsComboBox`: a new project for every listed
        directory that has none. */
    method AddListedProjects(directories: seq<string>)
      modifies config`projects
      ensures config.projects == AddListed(old(config.projects), config.globalProjectPath, directories)
    {
      var global := config.globalProjectPath;
      for i := 0 to |directories|
        invariant config.projects == AddListed(old(config.projects), global, directories[..i])
      {
        var dir := directories[i];
        assert directories[..i + 1][..i] == directories[..i];
        if dir !in config.projects {
          config.projects := config.projects[dir := NewListedProject(global, dir)];
        }
      }
      assert directories[..|directories|] == directories;
    }

    /** The second loop of `PopulateProjectsComboBox`: every project whose directory is not
        listed is removed. */
    method RemoveUnlistedProjects(directories: seq<string>)
      modifies config`projects
      ensures config.projects
              == old(config.projects) - (set p | p in old(config.projects) && p !in directories)
    {
      var nonExistentProjects := set p | p in config.projects && p !in directories;
      ghost var stale := nonExistentProjects;
      while nonExistentProjects != {}
        invariant nonExistentProjects <= stale
        invariant config.projects == old(config.projects) - (stale - nonExistentProjects)
        decreases nonExistentProjects
      {
        var project :| project in nonExistentProjects;
        config.projects := config.projects - {project};
        nonExistentProjects := nonExistentProjects - {project};
      }
    }
  }
}
