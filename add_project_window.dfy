/**
 * The "Add Project" window (AddProjectWindow.xaml.cs): `SaveButton_Click` validates the
 * trimmed project name and the global project path, creates the project's root and its
 * six standard folders, and only then inserts the new project into the configuration
 * and makes it the active one.
 */
module AddProject {
  import opened Wrappers
  import opened Text
  import opened Paths
  import opened FileTypeMapper
  import opened Projects
  import opened Disk
  import opened Organizer

  /** The texts of the six custom path text boxes, in the window's order. A WPF text
      box's `Text` is never null. */
  datatype CustomPathInputs = CustomPathInputs(
    documentsPath: string, imagesPath: string, vmdkPath: string,
    adobeProjectsPath: string, customFoldersPath: string, otherPath: string)

  function InputOf(inputs: CustomPathInputs, c: Category): string {
    match c
    case Documents => inputs.documentsPath
    case Images => inputs.imagesPath
    case VMDK => inputs.vmdkPath
    case AdobeProjects => inputs.adobeProjectsPath
    case CustomFolders => inputs.customFoldersPath
    case Other => inputs.otherPath
  }

  /** How a click on "Save" ends: one of the three validation messages, the message of
      a failed directory creation, or the new project. */
  datatype SaveOutcome = NameRequired | NameTaken | GlobalPathNotSet | CreationFailed(message: string) | Created

  /** The overrides a new project gets: the six texts in "Custom" mode, none otherwise. */
  function NewCustomPaths(mode: string, inputs: CustomPathInputs): CustomPaths {
    if mode == "Custom" then
      CustomPaths(Some(inputs.documentsPath), Some(inputs.imagesPath), Some(inputs.vmdkPath),
                  Some(inputs.adobeProjectsPath), Some(inputs.customFoldersPath),
                  Some(inputs.otherPath))
    else
      NoCustomPaths
  }

  /** The project `SaveButton_Click` builds for `projectName`. */
  function NewProject(projectName: string, globalProjectPath: string, mode: string,
                      inputs: CustomPathInputs): Project
  {
    Project(projectName, InitializeStandardPaths(Combine(globalProjectPath, projectName)),
            NewCustomPaths(mode, inputs))
  }

  /** The directories created for a project, in the order they are created: the project
      root, then the six standard folders. */
  function ProjectDirectories(projectRootPath: string): seq<string> {
    var s := InitializeStandardPaths(projectRootPath);
    [projectRootPath, s.documentsPath, s.imagesPath, s.vmdkPath,
     s.adobeProjectsPath, s.customFoldersPath, s.otherPath]
  }

  /** A folder inside the root is never the root itself. */
  lemma CombineLonger(dir: string, name: string)
    requires name != ""
    ensures |Combine(dir, name)| > |dir|
  {
  }

  /** The seven directories are pairwise different, so creating one never creates
      another. */
  lemma ProjectDirectoriesDistinct(projectRootPath: string)
    ensures var ds := ProjectDirectories(projectRootPath);
      forall i, j :: 0 <= i < j < |ds| ==> ds[i] != ds[j]
  {
    var ds := ProjectDirectories(projectRootPath);
    var cs := [Documents, Images, VMDK, AdobeProjects, CustomFolders, Other];
    forall i, j | 0 <= i < j < |ds| ensures ds[i] != ds[j] {
      var s := InitializeStandardPaths(projectRootPath);
      assert ds[j] == StandardPathOf(s, cs[j - 1]);
      if i == 0 {
        StandardPathsLayout(projectRootPath, cs[j - 1]);
        CombineLonger(projectRootPath, FolderName(cs[j - 1]));
      } else {
        assert ds[i] == StandardPathOf(s, cs[i - 1]);
        StandardPathsDistinct(projectRootPath, cs[i - 1], cs[j - 1]);
      }
    }
  }

  /** The set of the paths in `s`. */
  function Elements(s: seq<string>): set<string> {
    if s == [] then {} else Elements(s[..|s| - 1]) + {s[|s| - 1]}
  }

  /** `Elements(s)` holds exactly the paths that occur in `s`. */
  lemma {:induction false} ElementsSpec(s: seq<string>, p: string)
    ensures p in Elements(s) <==> p in s
  {
    if s != [] {
      ElementsSpec(s[..|s| - 1], p);
      assert p in s <==> p in s[..|s| - 1] || p == s[|s| - 1];
    }
  }

  /** The index of the first of `paths` that cannot be created in the state before any
      of them, or `|paths|` when all can. */
  function FirstUncreatable(paths: seq<string>, files: set<string>, dirs0: set<string>,
                            denied: set<string>): (k: nat)
    ensures k <= |paths|
    ensures forall i :: 0 <= i < k ==> Creatable(files, dirs0, denied, paths[i])
    ensures k < |paths| ==> !Creatable(files, dirs0, denied, paths[k])
  {
    if paths == [] || !Creatable(files, dirs0, denied, paths[0]) then 0
    else 1 + FirstUncreatable(paths[1..], files, dirs0, denied)
  }

  /** What creating `paths` one after the other, stopping at the first failure, does: it
      succeeds exactly when each of them could be created in the state before; the
      directories before the first that cannot be created are added, and nothing else. */
  ghost predicate DirectoriesCreated(paths: seq<string>, files: set<string>, dirs0: set<string>,
                                     denied: set<string>, ok: bool, dirs1: set<string>)
  {
    && (ok <==> forall i :: 0 <= i < |paths| ==> Creatable(files, dirs0, denied, paths[i]))
    && dirs1 == dirs0 + Elements(paths[..FirstUncreatable(paths, files, dirs0, denied)])
  }

  /** The first `k` directories of `paths` have been created, each of them creatable in
      the state before the first. */
  ghost predicate CreatedUpTo(paths: seq<string>, k: nat, files: set<string>, dirs0: set<string>,
                              denied: set<string>, dirs1: set<string>)
  {
    && k <= |paths|
    && (forall i :: 0 <= i < k ==> Creatable(files, dirs0, denied, paths[i]))
    && dirs1 == dirs0 + Elements(paths[..k])
  }

  /** One more `Directory.CreateDirectory` call: either the next directory is there as
      well, or creation stops with a directory that could not have been created. */
  lemma CreateStep(paths: seq<string>, k: nat, files: set<string>, dirs0: set<string>,
                   denied: set<string>, dirs1: set<string>, ok: bool, dirs2: set<string>)
    requires CreatedUpTo(paths, k, files, dirs0, denied, dirs1) && k < |paths|
    requires ok <==> Creatable(files, dirs1, denied, paths[k])
    requires dirs2 == if ok then dirs1 + {paths[k]} else dirs1
    ensures ok ==> CreatedUpTo(paths, k + 1, files, dirs0, denied, dirs2)
    ensures !ok ==> DirectoriesCreated(paths, files, dirs0, denied, false, dirs2)
  {
    if ok {
      assert paths[..k + 1][..k] == paths[..k];
      if paths[k] in dirs1 && paths[k] !in dirs0 {
        ElementsSpec(paths[..k], paths[k]);
        var i :| 0 <= i < k && paths[..k][i] == paths[k];
      }
    } else {
      assert FirstUncreatable(paths, files, dirs0, denied) == k;
    }
  }

  /** Creating all of `paths` succeeded. */
  lemma CreatedAll(paths: seq<string>, files: set<string>, dirs0: set<string>,
                   denied: set<string>, dirs1: set<string>)
    requires CreatedUpTo(paths, |paths|, files, dirs0, denied, dirs1)
    ensures DirectoriesCreated(paths, files, dirs0, denied, true, dirs1)
  {
  }

  /** One `Directory.CreateDirectory` call of the `try` block: the `k`-th of `paths`, after
      the first `k` have been created. */
  method CreateNext(ghost paths: seq<string>, k: nat, path: string, fs: FileSystem,
                    ghost dirs0: set<string>)
    returns (error: Option<string>)
    requires CreatedUpTo(paths, k, fs.files, dirs0, fs.denied, fs.dirs) && k < |paths|
    requires paths[k] == path
    modifies fs`dirs
    ensures error.None? ==> CreatedUpTo(paths, k + 1, fs.files, dirs0, fs.denied, fs.dirs)
    ensures error.Some? ==> DirectoriesCreated(paths, fs.files, dirs0, fs.denied, false, fs.dirs)
  {
    ghost var dirs1 := fs.dirs;
    error := fs.CreateDirectory(path);
    CreateStep(paths, k, fs.files, dirs0, fs.denied, dirs1, error.None?, fs.dirs);
  }

  /** The `Directory.CreateDirectory` calls of the `try` block, up to the first that
      throws. */
  method CreateProjectDirectories(projectRootPath: string, fs: FileSystem)
    returns (error: Option<string>)
    modifies fs`dirs
    ensures DirectoriesCreated(ProjectDirectories(projectRootPath), fs.files, old(fs.dirs),
                               fs.denied, error.None?, fs.dirs)
  {
    ghost var ds := ProjectDirectories(projectRootPath);
    ghost var dirs0 := fs.dirs;
    assert CreatedUpTo(ds, 0, fs.files, dirs0, fs.denied, fs.dirs);
    error := CreateNext(ds, 0, projectRootPath, fs, dirs0);
    if error.Some? {
      return;
    }
    var standardPaths := InitializeStandardPaths(projectRootPath);
    error := CreateNext(ds, 1, standardPaths.documentsPath, fs, dirs0);
    if error.Some? {
      return;
    }
    error := CreateNext(ds, 2, standardPaths.imagesPath, fs, dirs0);
    if error.Some? {
      return;
    }
    error := CreateNext(ds, 3, standardPaths.vmdkPath, fs, dirs0);
    if error.Some? {
      return;
    }
    error := CreateNext(ds, 4, standardPaths.adobeProjectsPath, fs, dirs0);
    if error.Some? {
      return;
    }
    error := CreateNext(ds, 5, standardPaths.customFoldersPath, fs, dirs0);
    if error.Some? {
      return;
    }
    error := CreateNext(ds, 6, standardPaths.otherPath, fs, dirs0);
    if error.None? {
      CreatedAll(ds, fs.files, dirs0, fs.denied, fs.dirs);
    }
  }

  /** Outside "Custom" mode a new project has no override, so in every mode its
      standard paths are in effect. */
  lemma NoOverridesOutsideCustomMode(projectName: string, globalProjectPath: string, mode: string,
                                     inputs: CustomPathInputs, activeMode: string)
    requires mode != "Custom"
    ensures var p := NewProject(projectName, globalProjectPath, mode, inputs);
      && p.customPaths == NoCustomPaths
      && !HasCustomPaths(p.customPaths)
      && GetActivePaths(p, activeMode) == StandardAsActive(p.standardPaths)
  {
  }

  /** Six blank text boxes open no gate: the standard paths are in effect. */
  lemma BlankInputsMeanStandardPaths(projectName: string, globalProjectPath: string, mode: string,
                                     inputs: CustomPathInputs, activeMode: string)
    requires forall c :: InputOf(inputs, c) == ""
    ensures var p := NewProject(projectName, globalProjectPath, mode, inputs);
      && !HasCustomPaths(p.customPaths)
      && GetActivePaths(p, activeMode) == StandardAsActive(p.standardPaths)
  {
    assert InputOf(inputs, Documents) == "" && InputOf(inputs, Images) == "";
    assert InputOf(inputs, VMDK) == "" && InputOf(inputs, AdobeProjects) == "";
    assert InputOf(inputs, CustomFolders) == "" && InputOf(inputs, Other) == "";
  }

  /** A blank text box beside a filled one is saved as "" rather than as null, so in
      "Custom" mode files of that category are sent to the path "". */
  lemma BlankInputBesideFilledOne(projectName: string, globalProjectPath: string,
                                  inputs: CustomPathInputs, filled: Category, blank: Category)
    requires InputOf(inputs, filled) != "" && InputOf(inputs, blank) == ""
    ensures var p := NewProject(projectName, globalProjectPath, "Custom", inputs);
      ActivePathOf(GetActivePaths(p, "Custom"), blank) == ""
  {
    var p := NewProject(projectName, globalProjectPath, "Custom", inputs);
    assert CustomPathOf(p.customPaths, blank) == Some(InputOf(inputs, blank));
    assert CustomPathOf(p.customPaths, filled) == Some(InputOf(inputs, filled));
    HasCustomPathsMeansSomeCategory(p.customPaths);
    EmptyOverrideIsUsed(p, blank);
  }

  /** End to end: with a blank text box beside a filled one, a file whose extension
      belongs to the blank box's category is never copied in "Custom" mode. */
  lemma BlankInputFailsPlacement(projectName: string, globalProjectPath: string,
                                 inputs: CustomPathInputs, filled: Category, filePath: string,
                                 files0: set<string>, dirs0: set<string>, denied: set<string>,
                                 status: Status, files1: set<string>, dirs1: set<string>)
    requires var blank := FolderCategory(GetTargetFolder(GetExtension(filePath)));
      InputOf(inputs, filled) != "" && InputOf(inputs, blank) == ""
    requires var p := NewProject(projectName, globalProjectPath, "Custom", inputs);
      Placed(filePath, GetTargetPath(p, GetExtension(filePath), "Custom"),
             files0, dirs0, denied, status, files1, dirs1)
    ensures status.Failed? && files1 == files0
  {
    var p := NewProject(projectName, globalProjectPath, "Custom", inputs);
    var blank := FolderCategory(GetTargetFolder(GetExtension(filePath)));
    TargetPathIsActivePath(p, GetExtension(filePath), "Custom");
    BlankInputBesideFilledOne(projectName, globalProjectPath, inputs, filled, blank);
    EmptyFolderFails(filePath, files0, dirs0, denied, status, files1, dirs1);
  }

  /** The refresh after a save keeps the new project exactly when the directory listing
      names it. */
  lemma CreatedProjectSurvivesRefresh(projects: map<string, Project>, globalProjectPath: string,
                                      directories: seq<string>, projectName: string, project: Project)
    requires globalProjectPath != ""
    ensures var refreshed := Reconcile(projects[projectName := project], globalProjectPath, true, directories);
      && (projectName in refreshed <==> projectName in directories)
      && (projectName in refreshed ==> refreshed[projectName] == project)
  {
  }

  /** What `SaveButton_Click` decides, from the typed name and the projects, the global
      path and the file system before the click: the guards in their order on the
      trimmed name, then the creation of the project's directories, which is attempted
      only once the guards pass and succeeds exactly when each of them can be created. */
  ghost predicate SaveDecided(projectNameText: string, projects: map<string, Project>,
                              globalProjectPath: string, files: set<string>, dirs0: set<string>,
                              denied: set<string>, outcome: SaveOutcome, dirs1: set<string>)
  {
    var projectName := Trim(projectNameText);
    var valid := projectName != "" && projectName !in projects && globalProjectPath != "";
    var ds := ProjectDirectories(Combine(globalProjectPath, projectName));
    && (outcome == NameRequired <==> AllWhiteSpace(projectNameText))
    && (outcome == NameTaken <==> projectName != "" && projectName in projects)
    && (outcome == GlobalPathNotSet <==>
          projectName != "" && projectName !in projects && globalProjectPath == "")
    && (outcome == Created <==>
          valid && forall i :: 0 <= i < |ds| ==> Creatable(files, dirs0, denied, ds[i]))
    && (!valid ==> dirs1 == dirs0)
    && (valid ==> DirectoriesCreated(ds, files, dirs0, denied, outcome == Created, dirs1))
  }

  class AddProjectWindow {
    const mainWindow: MainWindow

    constructor (mainWindow: MainWindow)
      ensures this.mainWindow == mainWindow
    {
      this.mainWindow := mainWindow;
    }

    /** `SaveButton_Click` up to the insertion: the guards in their order, the directory
        creation, the new entry and the new active project. */
    method SaveProject(projectNameText: string, inputs: CustomPathInputs, fs: FileSystem)
      returns (outcome: SaveOutcome)
      modifies mainWindow.config`projects, mainWindow.config`activeProject, fs`dirs
      ensures SaveDecided(projectNameText, old(mainWindow.config.projects),
                          mainWindow.config.globalProjectPath, fs.files, old(fs.dirs), fs.denied,
                          outcome, fs.dirs)
      ensures var config := mainWindow.config;
        var projectName := Trim(projectNameText);
        && (outcome != Created ==>
              config.projects == old(config.projects) && config.activeProject == old(config.activeProject))
        && (outcome == Created ==>
              && config.projects == old(config.projects)[projectName :=
                   NewProject(projectName, config.globalProjectPath, config.mode, inputs)]
              && config.activeProject == projectName)
    {
      var config := mainWindow.config;
      var projectName := Trim(projectNameText);
      TrimEmptyIffBlank(projectNameText);

      if projectName == "" {
        return NameRequired;
      }
      if projectName in config.projects {
        return NameTaken;
      }
      if config.globalProjectPath == "" {
        return GlobalPathNotSet;
      }

      var projectRootPath := Combine(config.globalProjectPath, projectName);
      var error := CreateProjectDirectories(projectRootPath, fs);
      if error.Some? {
        return CreationFailed(error.value);
      }
      var newProject := NewProject(projectName, config.globalProjectPath, config.mode, inputs);
      config.projects := config.projects[projectName := newProject];
      config.activeProject := projectName;
      return Created;
    }

    /** `SaveButton_Click`: on success the main window's project list is refreshed from
        the directories under the global project path, given as `globalExists` and
        `directories` as for `PopulateProjectsComboBox`. */
    method SaveButtonClick(projectNameText: string, inputs: CustomPathInputs, fs: FileSystem,
                           globalExists: bool, directories: seq<string>)
      returns (outcome: SaveOutcome)
      modifies mainWindow.config`projects, mainWindow.config`activeProject, fs`dirs
      ensures SaveDecided(projectNameText, old(mainWindow.config.projects),
                          mainWindow.config.globalProjectPath, fs.files, old(fs.dirs), fs.denied,
                          outcome, fs.dirs)
      ensures var config := mainWindow.config;
        var projectName := Trim(projectNameText);
        && (outcome != Created ==>
              config.projects == old(config.projects) && config.activeProject == old(config.activeProject))
        && (outcome == Created ==>
              && config.activeProject == projectName
              && config.projects == Reconcile(
                   old(config.projects)[projectName :=
                     NewProject(projectName, config.globalProjectPath, config.mode, inputs)],
                   config.globalProjectPath, globalExists, directories))
    {
      outcome := SaveProject(projectNameText, inputs, fs);
      if outcome == Created {
        mainWindow.PopulateProjectsComboBox(globalExists, directories);
      }
    }
  }
}
