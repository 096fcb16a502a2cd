/**
 * The extension classifier (`FileTypeMapper` in MainWindow.xaml.cs): a fixed table of
 * twenty known extensions, grouped into four folders; everything else goes to "Other".
 */
module FileTypeMapper {
  import opened Text

  /** `FileTypeToFolderMap`: lower-case extension without its dot to folder name. */
  const FileTypeToFolderMap: map<string, string> := map[
    "doc" := "Documents", "docx" := "Documents", "pdf" := "Documents",
    "txt" := "Documents", "rtf" := "Documents",
    "jpg" := "Images", "jpeg" := "Images", "png" := "Images",
    "gif" := "Images", "bmp" := "Images", "tiff" := "Images",
    "vmdk" := "VMDK", "vdi" := "VMDK", "vhd" := "VMDK", "vhdx" := "VMDK",
    "psd" := "Adobe Projects", "ai" := "Adobe Projects", "indd" := "Adobe Projects",
    "prproj" := "Adobe Projects", "aep" := "Adobe Projects"
  ]

  /** The table's groups, written out one by one. */
  const DocumentExtensions: set<string> := {"doc", "docx", "pdf", "txt", "rtf"}
  const ImageExtensions: set<string> := {"jpg", "jpeg", "png", "gif", "bmp", "tiff"}
  const DiskImageExtensions: set<string> := {"vmdk", "vdi", "vhd", "vhdx"}
  const AdobeExtensions: set<string> := {"psd", "ai", "indd", "prproj", "aep"}

  /** The key an extension is looked up under: lower-cased, every leading dot removed. */
  function NormalizeExtension(fileExtension: string): string {
    TrimStart(ToLower(fileExtension), '.')
  }

  /** `GetTargetFolder`: the folder an extension belongs in. */
  function GetTargetFolder(fileExtension: string): string {
    var key := NormalizeExtension(fileExtension);
    if key in FileTypeToFolderMap then FileTypeToFolderMap[key] else "Other"
  }

  /** The table's keys are exactly the four groups. */
  lemma TableKeys(key: string)
    ensures key in FileTypeToFolderMap <==>
            key in DocumentExtensions + ImageExtensions + DiskImageExtensions + AdobeExtensions
  {
  }

  /** Each known key maps to its own group's folder. */
  lemma TableValues(key: string)
    requires key in FileTypeToFolderMap
    ensures FileTypeToFolderMap[key] == "Documents" <==> key in DocumentExtensions
    ensures FileTypeToFolderMap[key] == "Images" <==> key in ImageExtensions
    ensures FileTypeToFolderMap[key] == "VMDK" <==> key in DiskImageExtensions
    ensures FileTypeToFolderMap[key] == "Adobe Projects" <==> key in AdobeExtensions
  {
  }

  /** The classification agrees with the four groups: an extension lands in a group's
      folder exactly when its key is in that group, and in "Other" when it is in none. */
  lemma ClassifiedByGroup(fileExtension: string)
    ensures var key, folder := NormalizeExtension(fileExtension), GetTargetFolder(fileExtension);
      && (folder == "Documents" <==> key in DocumentExtensions)
      && (folder == "Images" <==> key in ImageExtensions)
      && (folder == "VMDK" <==> key in DiskImageExtensions)
      && (folder == "Adobe Projects" <==> key in AdobeExtensions)
      && (folder == "Other" <==>
            key !in DocumentExtensions + ImageExtensions + DiskImageExtensions + AdobeExtensions)
  {
    var key := NormalizeExtension(fileExtension);
    TableKeys(key);
    if key in FileTypeToFolderMap {
      TableValues(key);
    }
  }

  /** Case does not matter: an upper-cased extension is classified the same way. */
  lemma IgnoresCase(fileExtension: string)
    ensures GetTargetFolder(ToUpper(fileExtension)) == GetTargetFolder(fileExtension)
  {
    LowerOfUpper(fileExtension);
  }

  /** Leading dots do not matter, however many there are. */
  lemma IgnoresLeadingDots(dots: nat, fileExtension: string)
    ensures GetTargetFolder(Repeat('.', dots) + fileExtension) == GetTargetFolder(fileExtension)
  {
    LowerAppend(Repeat('.', dots), fileExtension);
    LowerOfDots(dots);
    TrimStartRepeat('.', dots, ToLower(fileExtension));
  }

  lemma {:induction false} LowerOfDots(n: nat)
    ensures ToLower(Repeat('.', n)) == Repeat('.', n)
  {
    if n > 0 {
      LowerOfDots(n - 1);
      assert Repeat('.', n)[1..] == Repeat('.', n - 1);
    }
  }

  /** The only folders an extension is ever sent to; in particular never "Custom Folders". */
  lemma TargetFolderRange(fileExtension: string)
    ensures GetTargetFolder(fileExtension) in {"Documents", "Images", "VMDK", "Adobe Projects", "Other"}
  {
    ClassifiedByGroup(fileExtension);
  }

  lemma NormalizeUpperJpg()
    ensures NormalizeExtension(".JPG") == "jpg"
  {
    assert ToLower("G") == "g" && ToLower("PG") == "pg" && ToLower("JPG") == "jpg";
    assert ToLower(".JPG") == ".jpg";
    assert TrimStart("jpg", '.') == "jpg";
    assert TrimStart(".jpg", '.') == "jpg";
  }

  lemma NormalizeDottedJpg()
    ensures NormalizeExtension("jpg") == "jpg"
    ensures NormalizeExtension("..jpg") == "jpg"
  {
    assert ToLower("g") == "g" && ToLower("pg") == "pg" && ToLower("jpg") == "jpg";
    assert ToLower(".jpg") == ".jpg" && ToLower("..jpg") == "..jpg";
    assert TrimStart("jpg", '.') == "jpg";
    assert TrimStart(".jpg", '.') == "jpg";
    assert TrimStart("..jpg", '.') == "jpg";
  }

  lemma JpgIsImage()
    ensures "jpg" in FileTypeToFolderMap && FileTypeToFolderMap["jpg"] == "Images"
  {
  }

  /** Upper case and leading dots do not matter: ".JPG", "jpg" and "..jpg" are images. */
  lemma ImageExamples()
    ensures GetTargetFolder(".JPG") == "Images"
    ensures GetTargetFolder("jpg") == "Images"
    ensures GetTargetFolder("..jpg") == "Images"
  {
    NormalizeUpperJpg();
    NormalizeDottedJpg();
    JpgIsImage();
  }

  lemma NormalizeXyz()
    ensures NormalizeExtension(".xyz") == "xyz"
    ensures NormalizeExtension("") == ""
  {
    assert ToLower("z") == "z" && ToLower("yz") == "yz" && ToLower("xyz") == "xyz";
    assert ToLower(".xyz") == ".xyz";
    assert TrimStart("xyz", '.') == "xyz";
    assert TrimStart(".xyz", '.') == "xyz";
  }

  lemma UnknownKeys()
    ensures "xyz" !in FileTypeToFolderMap && "" !in FileTypeToFolderMap
  {
  }

  /** Unknown and empty extensions are "Other". */
  lemma OtherExamples()
    ensures GetTargetFolder(".xyz") == "Other"
    ensures GetTargetFolder("") == "Other"
  {
    NormalizeXyz();
    UnknownKeys();
  }
}
