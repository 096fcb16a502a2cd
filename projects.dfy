/**
 * A project's folders: the six standard paths derived from the project root, the six
 * optional custom overrides, and the resolution of the paths in effect for a mode
 * (`Project`, `StandardPaths`, `CustomPaths`, `ProjectPaths` and `ProjectExtensions`
 * in MainWindow.xaml.cs).
 */
module Projects {
  import opened Wrappers
  import opened Paths
  import opened FileTypeMapper

  datatype StandardPaths = StandardPaths(
    documentsPath: string, imagesPath: string, vmdkPath: string,
    adobeProjectsPath: string, customFoldersPath: string, otherPath: string)

  /** Custom overrides; `None` is a C# `null`, which is not the same as `Some("")`. */
  datatype CustomPaths = CustomPaths(
    documentsPath: Option<string>, imagesPath: Option<string>, vmdkPath: Option<string>,
    adobeProjectsPath: Option<string>, customFoldersPath: Option<string>,
    otherPath: Option<string>)

  /** The paths in effect for one placement. */
  datatype ProjectPaths = ProjectPaths(
    documentsPath: string, imagesPath: string, vmdkPath: string,
    adobeProjectsPath: string, customFoldersPath: string, otherPath: string)

  datatype Project = Project(name: string, standardPaths: StandardPaths, customPaths: CustomPaths)

  /** `new CustomPaths()`: every override null. */
  const NoCustomPaths: CustomPaths := CustomPaths(None, None, None, None, None, None)

  /** The six categories, to speak of "the field for category c". */
  datatype Category = Documents | Images | VMDK | AdobeProjects | CustomFolders | Other

  function FolderName(c: Category): string {
    match c
    case Documents => "Documents"
    case Images => "Images"
    case VMDK => "VMDK"
    case AdobeProjects => "Adobe Projects"
    case CustomFolders => "Custom Folders"
    case Other => "Other"
  }

  function StandardPathOf(s: StandardPaths, c: Category): string {
    match c
    case Documents => s.documentsPath
    case Images => s.imagesPath
    case VMDK => s.vmdkPath
    case AdobeProjects => s.adobeProjectsPath
    case CustomFolders => s.customFoldersPath
    case Other => s.otherPath
  }

  function CustomPathOf(s: CustomPaths, c: Category): Option<string> {
    match c
    case Documents => s.documentsPath
    case Images => s.imagesPath
    case VMDK => s.vmdkPath
    case AdobeProjects => s.adobeProjectsPath
    case CustomFolders => s.customFoldersPath
    case Other => s.otherPath
  }

  function ActivePathOf(p: ProjectPaths, c: Category): string {
    match c
    case Documents => p.documentsPath
    case Images => p.imagesPath
    case VMDK => p.vmdkPath
    case AdobeProjects => p.adobeProjectsPath
    case CustomFolders => p.customFoldersPath
    case Other => p.otherPath
  }

  // ---------------------------------------------------------------- standard paths

  /** `StandardPaths.InitializeStandardPaths(projectRootPath)`. */
  function InitializeStandardPaths(projectRootPath: string): StandardPaths {
    StandardPaths(
      Combine(projectRootPath, "Documents"),
      Combine(projectRootPath, "Images"),
      Combine(projectRootPath, "VMDK"),
      Combine(projectRootPath, "Adobe Projects"),
      Combine(projectRootPath, "Custom Folders"),
      Combine(projectRootPath, "Other"))
  }

  /** The six folder names are pairwise distinct. */
  lemma FolderNamesDistinct(c1: Category, c2: Category)
    ensures c1 != c2 ==> FolderName(c1) != FolderName(c2)
  {
    if c1 != c2 {
      assert FolderName(c1)[0] != FolderName(c2)[0] || |FolderName(c1)| != |FolderName(c2)|;
    }
  }

  /** Each standard path is the folder named after its category, directly inside the
      project root. */
  lemma StandardPathsLayout(projectRootPath: string, c: Category)
    ensures var path := StandardPathOf(InitializeStandardPaths(projectRootPath), c);
      && path == Combine(projectRootPath, FolderName(c))
      && FileName(path) == FolderName(c)
      && DirectoryName(path) == JoinPrefix(projectRootPath)
  {
    assert NoSep(FolderName(c));
    CombineSplitRoundTrip(projectRootPath, FolderName(c));
  }

  /** Different categories get different standard folders. */
  lemma StandardPathsDistinct(projectRootPath: string, c1: Category, c2: Category)
    ensures c1 != c2 ==>
      StandardPathOf(InitializeStandardPaths(projectRootPath), c1)
        != StandardPathOf(InitializeStandardPaths(projectRootPath), c2)
  {
    FolderNamesDistinct(c1, c2);
    StandardPathsLayout(projectRootPath, c1);
    StandardPathsLayout(projectRootPath, c2);
    CombineInjective(projectRootPath, FolderName(c1), FolderName(c2));
  }

  // ---------------------------------------------------------------- path resolution

  /** `string.IsNullOrEmpty`. */
  predicate IsNullOrEmpty(s: Option<string>) {
    s.None? || s.value == ""
  }

  /** `CustomPaths.HasCustomPaths()`: some override is neither null nor empty. */
  predicate HasCustomPaths(s: CustomPaths) {
    || !IsNullOrEmpty(s.documentsPath)
    || !IsNullOrEmpty(s.imagesPath)
    || !IsNullOrEmpty(s.vmdkPath)
    || !IsNullOrEmpty(s.adobeProjectsPath)
    || !IsNullOrEmpty(s.customFoldersPath)
    || !IsNullOrEmpty(s.otherPath)
  }

  /** `HasCustomPaths` looks at every category and needs one that is really set. */
  lemma HasCustomPathsMeansSomeCategory(s: CustomPaths)
    ensures HasCustomPaths(s) <==> exists c :: !IsNullOrEmpty(CustomPathOf(s, c))
  {
    if HasCustomPaths(s) {
      var c :| c in [Documents, Images, VMDK, AdobeProjects, CustomFolders, Other]
                && !IsNullOrEmpty(CustomPathOf(s, c));
    }
  }

  /** The standard set, as the paths in effect. */
  function StandardAsActive(s: StandardPaths): ProjectPaths {
    ProjectPaths(s.documentsPath, s.imagesPath, s.vmdkPath,
                 s.adobeProjectsPath, s.customFoldersPath, s.otherPath)
  }

  /** `Project.GetActivePaths(mode)`: in "Custom" mode with some override set, each field
      is its override unless that is null (`??`); otherwise the standard set. */
  function GetActivePaths(project: Project, mode: string): ProjectPaths {
    var s, c := project.standardPaths, project.customPaths;
    if mode == "Custom" && HasCustomPaths(c) then
      ProjectPaths(
        c.documentsPath.GetOr(s.documentsPath),
        c.imagesPath.GetOr(s.imagesPath),
        c.vmdkPath.GetOr(s.vmdkPath),
        c.adobeProjectsPath.GetOr(s.adobeProjectsPath),
        c.customFoldersPath.GetOr(s.customFoldersPath),
        c.otherPath.GetOr(s.otherPath))
    else
      StandardAsActive(s)
  }

  /** The two-stage rule, category by category: a set-level gate, then a per-field
      fallback that replaces only null overrides. */
  lemma ActivePathsRule(project: Project, mode: string, c: Category)
    ensures var s, cp := project.standardPaths, project.customPaths;
      ActivePathOf(GetActivePaths(project, mode), c)
        == if mode == "Custom" && HasCustomPaths(cp)
           then (if CustomPathOf(cp, c).Some? then CustomPathOf(cp, c).value else StandardPathOf(s, c))
           else StandardPathOf(s, c)
  {
  }

  /** Outside "Custom" mode, or with no override set, the standard paths are in effect. */
  lemma StandardUnlessGateOpen(project: Project, mode: string)
    requires mode != "Custom" || !HasCustomPaths(project.customPaths)
    ensures forall c :: ActivePathOf(GetActivePaths(project, mode), c)
                        == StandardPathOf(project.standardPaths, c)
  {
    forall c ensures ActivePathOf(GetActivePaths(project, mode), c)
                     == StandardPathOf(project.standardPaths, c) {
      ActivePathsRule(project, mode, c);
    }
  }

  /** In "Standard" mode the overrides, whatever they are, make no difference. */
  lemma OverridesIgnoredOutsideCustomMode(project: Project, mode: string, other: CustomPaths)
    requires mode != "Custom"
    ensures GetActivePaths(project.(customPaths := other), mode) == GetActivePaths(project, mode)
  {
  }

  /** Every path in effect is either the standard one or an override the user gave. */
  lemma ActivePathOrigin(project: Project, mode: string, c: Category)
    ensures var path := ActivePathOf(GetActivePaths(project, mode), c);
      path == StandardPathOf(project.standardPaths, c)
      || CustomPathOf(project.customPaths, c) == Some(path)
  {
    ActivePathsRule(project, mode, c);
  }

  /** An empty-string override is not a missing one: once the gate is open it is used as
      it is, and the category resolves to "". */
  lemma EmptyOverrideIsUsed(project: Project, c: Category)
    requires HasCustomPaths(project.customPaths)
    requires CustomPathOf(project.customPaths, c) == Some("")
    ensures ActivePathOf(GetActivePaths(project, "Custom"), c) == ""
  {
    ActivePathsRule(project, "Custom", c);
  }

  // ---------------------------------------------------------------- target folder

  /** The category a folder name selects in `GetTargetPath`'s switch. */
  function FolderCategory(folderName: string): Category {
    if folderName == "Documents" then Documents
    else if folderName == "Images" then Images
    else if folderName == "VMDK" then VMDK
    else if folderName == "Adobe Projects" then AdobeProjects
    else if folderName == "Custom Folders" then CustomFolders
    else Other
  }

  /** `GetTargetPath`'s switch on the folder name. */
  function SelectFolderPath(activePaths: ProjectPaths, folderName: string): string {
    if folderName == "Documents" then activePaths.documentsPath
    else if folderName == "Images" then activePaths.imagesPath
    else if folderName == "VMDK" then activePaths.vmdkPath
    else if folderName == "Adobe Projects" then activePaths.adobeProjectsPath
    else if folderName == "Custom Folders" then activePaths.customFoldersPath
    else activePaths.otherPath
  }

  /** `ProjectExtensions.GetTargetPath(project, fileExtension, mode)`. */
  function GetTargetPath(project: Project, fileExtension: string, mode: string): string {
    SelectFolderPath(GetActivePaths(project, mode), GetTargetFolder(fileExtension))
  }

  /** For the five folders the classifier can name, the switch picks the field of the
      category of that name. */
  lemma SelectFolderPathByCategory(activePaths: ProjectPaths, folderName: string)
    requires folderName in {"Documents", "Images", "VMDK", "Adobe Projects", "Other"}
    ensures var c := FolderCategory(folderName);
      && SelectFolderPath(activePaths, folderName) == ActivePathOf(activePaths, c)
      && FolderName(c) == folderName
      && c != CustomFolders
  {
    if folderName == "Other" {
      assert folderName != "Documents" && folderName != "Images" && folderName != "VMDK";
      assert folderName != "Adobe Projects" && folderName != "Custom Folders";
    }
  }

  /** The target is the path in effect for the extension's category, and that category
      is named by the classifier's folder and is never "Custom Folders": the
      `CustomFoldersPath` branch cannot be taken. */
  lemma TargetPathIsActivePath(project: Project, fileExtension: string, mode: string)
    ensures var c := FolderCategory(GetTargetFolder(fileExtension));
      && GetTargetPath(project, fileExtension, mode) == ActivePathOf(GetActivePaths(project, mode), c)
      && FolderName(c) == GetTargetFolder(fileExtension)
      && c != CustomFolders
  {
    TargetFolderRange(fileExtension);
    SelectFolderPathByCategory(GetActivePaths(project, mode), GetTargetFolder(fileExtension));
  }

  /** In "Standard" mode an image goes to the standard Images
      folder and an extension outside the table to the standard Other folder. */
  lemma StandardModeTargets(project: Project, fileExtension: string)
    ensures GetTargetFolder(fileExtension) == "Images" ==>
      GetTargetPath(project, fileExtension, "Standard") == project.standardPaths.imagesPath
    ensures GetTargetFolder(fileExtension) == "Other" ==>
      GetTargetPath(project, fileExtension, "Standard") == project.standardPaths.otherPath
  {
  }
}
