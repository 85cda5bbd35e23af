/**
 * Values shared by the asset dialog of the content browser: the dialog's
 * mode, its policy for existing assets, asset data as the asset registry
 * reports it, the verdicts of validity checks, and the notices the dialog
 * sends to the outside world (its delegates, its window and its prompts).
 */
module AssetDialogTypes {

  datatype Option<T> = None | Some(value: T)

  /** Outcome of a validity check: success, or failure with the text to show. */
  datatype Verdict = Valid | Invalid(message: string)

  /** EAssetDialogType: the dialog either opens existing assets or saves a new one. */
  datatype DialogType = Open | Save

  /** ESaveAssetDialogExistingAssetPolicy */
  datatype ExistingAssetPolicy = Disallow | AllowButWarn

  /** EAssetTypeActivationMethod */
  datatype ActivationMethod = DoubleClicked | Opened | Previewed

  /** ETextCommit */
  datatype TextCommit = Default | OnEnter | OnUserMovedFocus | OnCleared

  /** EVisibility, as far as the error label uses it */
  datatype Visibility = Visible | Hidden

  /** The string form of the engine's "no name" value (NAME_None). */
  const NameNone: string := "None"

  /**
   * FAssetData: the registry's record of one asset. A default record has
   * every name set to NAME_None and is not valid.
   */
  datatype AssetData = AssetData(objectPath: string, packagePath: string, assetName: string, assetClass: string)
  {
    predicate IsValid() { objectPath != NameNone }
  }

  /**
   * Everything the dialog observes or causes outside its own fields, in the
   * order it happens: the path-selected delegate, the delegates that deliver
   * a choice, the replace-asset question, the request to close the window,
   * and the cancelled delegate.
   */
  datatype Notice =
    | PathSelected(path: string)
    | AssetsChosenForOpen(assets: seq<AssetData>)
    | ObjectPathChosenForSave(objectPath: string)
    | ReplacePrompt(message: string)
    | CloseRequested
    | Cancelled
  {
    /** A notice that delivers the user's choice to the dialog's owner. */
    predicate IsChoice() { AssetsChosenForOpen? || ObjectPathChosenForSave? }
  }

  /**
   * The editor services the dialog consults, as total functions that do not
   * change while the dialog is alive:
   *   join                    the path join operator of FString (operator/)
   *   findClass               whether FindObject<UClass> finds a class of that name
   *   validateForCreate       ContentBrowserUtils::IsValidObjectPathForCreate
   *                           (object path, asset class, allow existing asset)
   *   assetByObjectPath       the asset registry's GetAssetByObjectPath
   *   objectPathToObjectName  FPackageName::ObjectPathToObjectName
   */
  datatype Services = Services(
    join: (string, string) -> string,
    findClass: string -> bool,
    validateForCreate: (string, Option<string>, bool) -> Verdict,
    assetByObjectPath: string -> AssetData,
    objectPathToObjectName: string -> string)
}
