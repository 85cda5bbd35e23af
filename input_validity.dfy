/**
 * The rules behind the asset dialog's name box: the object path a save
 * would produce, and the ordered checks that decide whether the entered
 * (path, name) pair is acceptable and which error text explains why not.
 */
module InputValidity {
  import opened AssetDialogTypes

  const NoPathSelectedText: string := "You must select a path."

  /**
   * The object path a save produces: the selected path joined with the
   * asset name, then "." and the asset name again (package path plus
   * object name). Whatever the join does, the path ends in "." + name.
   */
  function ObjectPathForSave(join: (string, string) -> string, path: string, name: string): (r: string)
    ensures |r| > |name|
    ensures r[|r| - |name| - 1] == '.'
    ensures r[|r| - |name|..] == name
  {
    join(path, name) + "." + name
  }

  /** The text after the last '.' of s (all of s when it has no '.'). */
  function AfterLastDot(s: string): (r: string)
    ensures '.' !in r
    ensures |r| <= |s| && r == s[|s| - |r|..]
    ensures |r| < |s| ==> s[|s| - |r| - 1] == '.'
  {
    if s == [] then []
    else if s[|s| - 1] == '.' then []
    else AfterLastDot(s[..|s| - 1]) + [s[|s| - 1]]
  }

  /**
   * The object path for save keeps the asset name recoverable: for a name
   * without '.', the text after the path's last '.' is exactly that name.
   */
  lemma AssetNameFromObjectPath(join: (string, string) -> string, path: string, name: string)
    requires '.' !in name
    ensures AfterLastDot(ObjectPathForSave(join, path, name)) == name
  {
  }

  /**
   * The class handed to the create validator: the one listed class when
   * exactly one class name is configured, it is not NAME_None and a class of
   * that name exists; no class otherwise.
   */
  function AssetClassForCreate(classNames: seq<string>, findClass: string -> bool): (r: Option<string>)
    ensures r.Some? <==> |classNames| == 1 && classNames[0] != NameNone && findClass(classNames[0])
    ensures r.Some? ==> r.value in classNames
  {
    if |classNames| == 1 && classNames[0] != NameNone && findClass(classNames[0])
    then Some(classNames[0])
    else None
  }

  /** The error shown when an asset of another class already sits at the object path. */
  function AlreadyExistsText(assetClass: string, objectName: string): string
  {
    "An asset of type '" + assetClass + "' already exists at this location with the name '" + objectName + "'."
  }

  /** An asset of a class that is not listed already exists at the object path. */
  predicate UnlistedAssetAt(classNames: seq<string>, svc: Services, objectPath: string)
  {
    var existing := svc.assetByObjectPath(objectPath);
    existing.IsValid() && existing.assetClass !in classNames
  }

  /**
   * The checks that only a save dialog makes on a non-empty path and name:
   * the create validator first; when it accepts, and existing assets are
   * allowed with a warning and several classes are listed, an existing asset
   * at the object path must be of a listed class.
   */
  function SaveCheck(policy: ExistingAssetPolicy, classNames: seq<string>, svc: Services, objectPath: string): (r: Verdict)
    ensures var created := svc.validateForCreate(objectPath, AssetClassForCreate(classNames, svc.findClass), policy == AllowButWarn);
      && (r == Valid <==>
            created == Valid && !(policy == AllowButWarn && |classNames| > 1 && UnlistedAssetAt(classNames, svc, objectPath)))
      && (created.Invalid? ==> r == created)
      && (created.Valid? && r.Invalid? ==>
            r.message == AlreadyExistsText(svc.assetByObjectPath(objectPath).assetClass, svc.objectPathToObjectName(objectPath)))
  {
    var allowExisting := policy == AllowButWarn;
    var created := svc.validateForCreate(objectPath, AssetClassForCreate(classNames, svc.findClass), allowExisting);
    if created.Invalid? then created
    else if allowExisting && |classNames| > 1 then
      var existing := svc.assetByObjectPath(objectPath);
      if existing.IsValid() && existing.assetClass !in classNames
      then Invalid(AlreadyExistsText(existing.assetClass, svc.objectPathToObjectName(objectPath)))
      else Valid
    else Valid
  }

  /**
   * The verdict on the dialog's input, checks applied in order: an empty
   * name fails without any text, then an empty path fails with its own
   * text, then a save dialog makes its further checks.
   */
  function InputCheck(kind: DialogType, policy: ExistingAssetPolicy, classNames: seq<string>, svc: Services,
                      path: string, name: string): (r: Verdict)
    ensures name == "" ==> r == Invalid("")
    ensures name != "" && path == "" ==> r == Invalid(NoPathSelectedText)
    ensures kind == Open ==> (r == Valid <==> name != "" && path != "")
    ensures kind == Save && name != "" && path != "" ==>
      r == SaveCheck(policy, classNames, svc, ObjectPathForSave(svc.join, path, name))
  {
    if name == "" then Invalid("")
    else if path == "" then Invalid(NoPathSelectedText)
    else if kind == Open then Valid
    else SaveCheck(policy, classNames, svc, ObjectPathForSave(svc.join, path, name))
  }
}
