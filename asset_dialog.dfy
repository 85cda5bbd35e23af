/**
 * The asset dialog widget of the content browser (SAssetDialog), reduced to
 * its state: the selected path and entered name, the result and text of the
 * last validity check, the assets selected for opening, and whether a valid
 * choice has been delivered. Each setter re-runs the validity check; the
 * confirm button, the error label and the two ways of confirming are gated
 * by these fields; destruction without a choice reports cancellation.
 */
module AssetDialogWidget {
  import opened AssetDialogTypes
  import opened InputValidity

  /** Some notice in s delivers a choice to the dialog's owner. */
  ghost predicate HasChoice(s: seq<Notice>)
  {
    exists i :: 0 <= i < |s| && s[i].IsChoice()
  }

  lemma HasChoiceAppend(s: seq<Notice>, t: seq<Notice>)
    ensures HasChoice(s + t) <==> HasChoice(s) || HasChoice(t)
  {
    if HasChoice(s + t) {
      var i :| 0 <= i < |s + t| && (s + t)[i].IsChoice();
      if i >= |s| { assert t[i - |s|].IsChoice(); }
    }
    if HasChoice(t) {
      var i :| 0 <= i < |t| && t[i].IsChoice();
      assert (s + t)[|s| + i].IsChoice();
    }
    if HasChoice(s) {
      var i :| 0 <= i < |s| && s[i].IsChoice();
      assert (s + t)[i].IsChoice();
    }
  }

  /** The question put to the user before an existing asset is replaced. */
  function ReplaceMessage(assetName: string): string
  {
    assetName + " already exists. Do you want to replace it?"
  }

  class AssetDialog {
    // Fixed when the dialog is built.
    const dialogType: DialogType
    const assetClassNames: seq<string>
    const existingAssetPolicy: ExistingAssetPolicy
    const services: Services

    var currentlySelectedPath: string
    var currentlyEnteredAssetName: string
    var currentlySelectedAssets: seq<AssetData>
    var lastInputValidityCheckSuccessful: bool
    var lastInputValidityErrorText: string
    var validAssetsChosen: bool
    /** What the dialog has told the outside world so far, oldest first. */
    var notices: seq<Notice>

    /** The verdict the validity rules give on the current path and name. */
    ghost function CurrentCheck(): Verdict
      reads this
    {
      InputCheck(dialogType, existingAssetPolicy, assetClassNames, services, currentlySelectedPath, currentlyEnteredAssetName)
    }

    /** The stored validity result and error text agree with the current input. */
    ghost predicate ValidityUpToDate()
      reads this
    {
      && lastInputValidityCheckSuccessful == CurrentCheck().Valid?
      && (CurrentCheck().Invalid? ==> lastInputValidityErrorText == CurrentCheck().message)
    }

    /**
     * A choice has been marked exactly when one was delivered; only the
     * dialog's own kind of choice is ever delivered; cancellation has not
     * been reported.
     */
    ghost predicate NoticesConsistent()
      reads this
    {
      && (validAssetsChosen <==> HasChoice(notices))
      && (forall i :: 0 <= i < |notices| && notices[i].AssetsChosenForOpen? ==> dialogType == Open)
      && (forall i :: 0 <= i < |notices| && notices[i].ObjectPathChosenForSave? ==> dialogType == Save)
      && (forall i :: 0 <= i < |notices| ==> !notices[i].Cancelled?)
    }

    ghost predicate Valid()
      reads this
    {
      ValidityUpToDate() && NoticesConsistent()
    }

    /**
     * Builds a dialog of the given kind (the default field values of the
     * constructor, then the state that Construct sets): select the default
     * path and, for a save dialog, enter the default asset name. An open
     * dialog keeps the Disallow policy and an empty name.
     */
    constructor (kind: DialogType, classNames: seq<string>, policy: ExistingAssetPolicy, svc: Services,
                 defaultPath: string, defaultAssetName: string)
      ensures Valid()
      ensures dialogType == kind && assetClassNames == classNames && services == svc
      ensures existingAssetPolicy == (if kind == Save then policy else Disallow)
      ensures currentlySelectedPath == defaultPath
      ensures currentlyEnteredAssetName == (if kind == Save then defaultAssetName else "")
      ensures currentlySelectedAssets == []
      ensures !validAssetsChosen
      ensures notices == [PathSelected(defaultPath)]
    {
      dialogType := kind;
      assetClassNames := classNames;
      existingAssetPolicy := if kind == Save then policy else Disallow;
      services := svc;
      currentlySelectedPath := "";
      currentlyEnteredAssetName := "";
      currentlySelectedAssets := [];
      lastInputValidityCheckSuccessful := false;
      lastInputValidityErrorText := "";
      validAssetsChosen := false;
      notices := [];
      new;
      SetCurrentlySelectedPath(defaultPath);
      if kind == Save {
        SetCurrentlyEnteredAssetName(defaultAssetName);
      }
    }

    /**
     * Re-runs the checks in order and records their verdict; on success the
     * previous error text is left in place (the label no longer shows it).
     */
    method UpdateInputValidity()
      requires NoticesConsistent()
      modifies this`lastInputValidityCheckSuccessful, this`lastInputValidityErrorText
      ensures Valid()
      ensures lastInputValidityErrorText ==
        if CurrentCheck().Invalid? then CurrentCheck().message else old(lastInputValidityErrorText)
    {
      lastInputValidityCheckSuccessful := true;

      if currentlyEnteredAssetName == "" {
        lastInputValidityErrorText := "";
        lastInputValidityCheckSuccessful := false;
      }

      if lastInputValidityCheckSuccessful {
        if currentlySelectedPath == "" {
          lastInputValidityErrorText := NoPathSelectedText;
          lastInputValidityCheckSuccessful := false;
        }
      }

      if dialogType == Save {
        if lastInputValidityCheckSuccessful {
          var objectPath := ObjectPathForSave(services.join, currentlySelectedPath, currentlyEnteredAssetName);
          var allowExistingAsset := existingAssetPolicy == AllowButWarn;
          var assetClass := AssetClassForCreate(assetClassNames, services.findClass);
          var created := services.validateForCreate(objectPath, assetClass, allowExistingAsset);
          if created.Invalid? {
            lastInputValidityErrorText := created.message;
            lastInputValidityCheckSuccessful := false;
          } else if allowExistingAsset && |assetClassNames| > 1 {
            var existingAsset := services.assetByObjectPath(objectPath);
            if existingAsset.IsValid() && existingAsset.assetClass !in assetClassNames {
              var objectName := services.objectPathToObjectName(objectPath);
              lastInputValidityErrorText := AlreadyExistsText(existingAsset.assetClass, objectName);
              lastInputValidityCheckSuccessful := false;
            }
          }
        }
      }
    }

    /** Selects a path, re-checks the input, then tells the path-selected delegate. */
    method SetCurrentlySelectedPath(newPath: string)
      requires Valid()
      modifies this`currentlySelectedPath, this`lastInputValidityCheckSuccessful,
               this`lastInputValidityErrorText, this`notices
      ensures Valid()
      ensures currentlySelectedPath == newPath
      ensures lastInputValidityErrorText ==
        if CurrentCheck().Invalid? then CurrentCheck().message else old(lastInputValidityErrorText)
      ensures notices == old(notices) + [PathSelected(newPath)]
    {
      currentlySelectedPath := newPath;
      UpdateInputValidity();
      HasChoiceAppend(notices, [PathSelected(newPath)]);
      notices := notices + [PathSelected(newPath)];
    }

    /** Enters an asset name and re-checks the input. */
    method SetCurrentlyEnteredAssetName(newName: string)
      requires Valid()
      modifies this`currentlyEnteredAssetName, this`lastInputValidityCheckSuccessful,
               this`lastInputValidityErrorText
      ensures Valid()
      ensures currentlyEnteredAssetName == newName
      ensures lastInputValidityErrorText ==
        if CurrentCheck().Invalid? then CurrentCheck().message else old(lastInputValidityErrorText)
    {
      currentlyEnteredAssetName := newName;
      UpdateInputValidity();
    }

    /**
     * The confirm button is enabled for an open dialog with a selection,
     * and for a save dialog whose current input passes every check.
     */
    function IsConfirmButtonEnabled(): (r: bool)
      reads this
      requires Valid()
      ensures r <==>
        || (dialogType == Open && |currentlySelectedAssets| > 0)
        || (dialogType == Save && CurrentCheck().Valid?)
    {
      match dialogType
      case Open => |currentlySelectedAssets| > 0
      case Save => lastInputValidityCheckSuccessful
    }

    /**
     * The error label shows the text of the failing check, and nothing when
     * the input is valid, whatever text an earlier failure left behind.
     */
    function GetNameErrorLabelText(): (r: string)
      reads this
      requires Valid()
      ensures CurrentCheck().Valid? ==> r == ""
      ensures CurrentCheck().Invalid? ==> r == CurrentCheck().message
      ensures currentlyEnteredAssetName == "" ==> r == ""
      ensures currentlyEnteredAssetName != "" && currentlySelectedPath == "" ==> r == NoPathSelectedText
    {
      if !lastInputValidityCheckSuccessful then lastInputValidityErrorText else ""
    }

    /** The error label is visible exactly when a check failed with some text. */
    function GetNameErrorLabelVisibility(): (r: Visibility)
      reads this
      requires Valid()
      ensures r == Visible <==> CurrentCheck().Invalid? && CurrentCheck().message != ""
      ensures currentlyEnteredAssetName == "" ==> r == Hidden
    {
      if GetNameErrorLabelText() == "" then Hidden else Visible
    }

    /** An asset of one of the listed classes already exists at the object path. */
    ghost predicate ListedAssetAt(objectPath: string)
      reads this
    {
      var existing := services.assetByObjectPath(objectPath);
      existing.IsValid() && existing.assetClass in assetClassNames
    }

    ghost function CurrentObjectPath(): string
      reads this
    {
      ObjectPathForSave(services.join, currentlySelectedPath, currentlyEnteredAssetName)
    }

    /** Committing a save asks the user before replacing an asset of a listed class. */
    ghost predicate AsksToReplace()
      reads this
    {
      && dialogType == Save && lastInputValidityCheckSuccessful
      && existingAssetPolicy == AllowButWarn && ListedAssetAt(CurrentObjectPath())
    }

    /**
     * Committing a save delivers the object path: a save dialog with valid
     * input, unless the user was asked to replace an asset and said no.
     */
    ghost predicate SaveProceeds(replaceAnswer: bool)
      reads this
    {
      && dialogType == Save && lastInputValidityCheckSuccessful
      && (existingAssetPolicy != AllowButWarn || !ListedAssetAt(CurrentObjectPath()) || replaceAnswer)
    }

    /** What committing a save tells the outside world, in order. */
    ghost function CommitNotices(replaceAnswer: bool): seq<Notice>
      reads this
    {
      (if AsksToReplace() then [ReplacePrompt(ReplaceMessage(currentlyEnteredAssetName))] else [])
      + (if SaveProceeds(replaceAnswer) then [ObjectPathChosenForSave(CurrentObjectPath()), CloseRequested] else [])
    }

    /**
     * Delivers the object path for save when the dialog saves, the input is
     * valid and no warned-about replacement is refused; replaceAnswer is the
     * user's answer to the replace question, consulted only when it is asked.
     */
    method CommitObjectPathForSave(replaceAnswer: bool)
      requires Valid()
      modifies this`validAssetsChosen, this`notices
      ensures Valid()
      ensures validAssetsChosen == (old(validAssetsChosen) || SaveProceeds(replaceAnswer))
      ensures notices == old(notices) + CommitNotices(replaceAnswer)
      ensures SaveProceeds(replaceAnswer) ==> CurrentCheck().Valid? && IsConfirmButtonEnabled()
    {
      if dialogType == Save {
        if lastInputValidityCheckSuccessful {
          var objectPath := ObjectPathForSave(services.join, currentlySelectedPath, currentlyEnteredAssetName);
          var proceedWithSave := true;
          var prompt: seq<Notice> := [];

          if existingAssetPolicy == AllowButWarn {
            var existingAsset := services.assetByObjectPath(objectPath);
            if existingAsset.IsValid() && existingAsset.assetClass in assetClassNames {
              prompt := [ReplacePrompt(ReplaceMessage(currentlyEnteredAssetName))];
              proceedWithSave := replaceAnswer;
            }
          }

          HasChoiceAppend(notices, prompt);
          notices := notices + prompt;
          if proceedWithSave {
            validAssetsChosen := true;
            var delivered := [ObjectPathChosenForSave(objectPath), CloseRequested];
            assert delivered[0].IsChoice();
            HasChoiceAppend(notices, delivered);
            notices := notices + delivered;
          }
        }
      }
    }

    /** Delivers the selected assets when the dialog opens assets and the selection is not empty. */
    method ChooseAssetsForOpen(selectedAssets: seq<AssetData>)
      requires Valid()
      modifies this`validAssetsChosen, this`notices
      ensures Valid()
      ensures validAssetsChosen == (old(validAssetsChosen) || (dialogType == Open && |selectedAssets| > 0))
      ensures notices == old(notices) +
        if dialogType == Open && |selectedAssets| > 0 then [AssetsChosenForOpen(selectedAssets), CloseRequested] else []
    {
      if dialogType == Open {
        if |selectedAssets| > 0 {
          validAssetsChosen := true;
          var delivered := [AssetsChosenForOpen(selectedAssets), CloseRequested];
          assert delivered[0].IsChoice();
          HasChoiceAppend(notices, delivered);
          notices := notices + delivered;
        }
      }
    }

    /**
     * A click on the confirm button: an open dialog delivers the picker's
     * current selection if there is one, a save dialog commits its input.
     */
    method OnConfirmClicked(currentSelection: seq<AssetData>, replaceAnswer: bool)
      requires Valid()
      modifies this`validAssetsChosen, this`notices
      ensures Valid()
      ensures dialogType == Open ==>
        && validAssetsChosen == (old(validAssetsChosen) || |currentSelection| > 0)
        && notices == old(notices) + if |currentSelection| > 0 then [AssetsChosenForOpen(currentSelection), CloseRequested] else []
      ensures dialogType == Save ==>
        && validAssetsChosen == (old(validAssetsChosen) || SaveProceeds(replaceAnswer))
        && notices == old(notices) + CommitNotices(replaceAnswer)
    {
      if dialogType == Open {
        if |currentSelection| > 0 {
          ChooseAssetsForOpen(currentSelection);
        }
      } else {
        CommitObjectPathForSave(replaceAnswer);
      }
    }

    /**
     * A single selection in the asset picker: remember the picker's current
     * selection and, for a valid asset, take over its path and name.
     */
    method OnAssetSelected(assetData: AssetData, currentSelection: seq<AssetData>)
      requires Valid()
      modifies this`currentlySelectedAssets, this`currentlySelectedPath, this`currentlyEnteredAssetName,
               this`lastInputValidityCheckSuccessful, this`lastInputValidityErrorText, this`notices
      ensures Valid()
      ensures currentlySelectedAssets == currentSelection
      ensures assetData.IsValid() ==>
        && currentlySelectedPath == assetData.packagePath
        && currentlyEnteredAssetName == assetData.assetName
        && notices == old(notices) + [PathSelected(assetData.packagePath)]
      ensures !assetData.IsValid() ==>
        && currentlySelectedPath == old(currentlySelectedPath)
        && currentlyEnteredAssetName == old(currentlyEnteredAssetName)
        && lastInputValidityErrorText == old(lastInputValidityErrorText)
        && notices == old(notices)
    {
      currentlySelectedAssets := currentSelection;
      if assetData.IsValid() {
        SetCurrentlySelectedPath(assetData.packagePath);
        SetCurrentlyEnteredAssetName(assetData.assetName);
      }
    }

    /**
     * Assets activated in the picker (double click or open; a preview is
     * ignored): an open dialog delivers them, a save dialog takes over the
     * first asset's path and name and commits.
     */
    method OnAssetsActivated(selectedAssets: seq<AssetData>, activationType: ActivationMethod, replaceAnswer: bool)
      requires Valid()
      modifies this`currentlySelectedPath, this`currentlyEnteredAssetName,
               this`lastInputValidityCheckSuccessful, this`lastInputValidityErrorText,
               this`validAssetsChosen, this`notices
      ensures Valid()
      ensures !(|selectedAssets| > 0 && activationType in {DoubleClicked, Opened}) ==>
        && currentlySelectedPath == old(currentlySelectedPath)
        && currentlyEnteredAssetName == old(currentlyEnteredAssetName)
        && lastInputValidityErrorText == old(lastInputValidityErrorText)
        && validAssetsChosen == old(validAssetsChosen)
        && notices == old(notices)
      ensures |selectedAssets| > 0 && activationType in {DoubleClicked, Opened} && dialogType == Open ==>
        && currentlySelectedPath == old(currentlySelectedPath)
        && currentlyEnteredAssetName == old(currentlyEnteredAssetName)
        && lastInputValidityErrorText == old(lastInputValidityErrorText)
        && validAssetsChosen
        && notices == old(notices) + [AssetsChosenForOpen(selectedAssets), CloseRequested]
      ensures |selectedAssets| > 0 && activationType in {DoubleClicked, Opened} && dialogType == Save ==>
        && currentlySelectedPath == selectedAssets[0].packagePath
        && currentlyEnteredAssetName == selectedAssets[0].assetName
        && validAssetsChosen == (old(validAssetsChosen) || SaveProceeds(replaceAnswer))
        && notices == old(notices) + [PathSelected(selectedAssets[0].packagePath)] + CommitNotices(replaceAnswer)
    {
      var correctActivationMethod := activationType == DoubleClicked || activationType == Opened;
      if |selectedAssets| > 0 && correctActivationMethod {
        if dialogType == Open {
          ChooseAssetsForOpen(selectedAssets);
        } else {
          var assetData := selectedAssets[0];
          SetCurrentlySelectedPath(assetData.packagePath);
          SetCurrentlyEnteredAssetName(assetData.assetName);
          CommitObjectPathForSave(replaceAnswer);
        }
      }
    }

    /**
     * The name box commits its text (on every edit, and on Enter): enter the
     * name, and commit the save when the commit came from Enter.
     */
    method OnAssetNameTextCommitted(text: string, commitType: TextCommit, replaceAnswer: bool)
      requires Valid()
      modifies this`currentlyEnteredAssetName, this`lastInputValidityCheckSuccessful,
               this`lastInputValidityErrorText, this`validAssetsChosen, this`notices
      ensures Valid()
      ensures currentlyEnteredAssetName == text
      ensures commitType != OnEnter ==> validAssetsChosen == old(validAssetsChosen) && notices == old(notices)
      ensures commitType == OnEnter ==>
        && validAssetsChosen == (old(validAssetsChosen) || SaveProceeds(replaceAnswer))
        && notices == old(notices) + CommitNotices(replaceAnswer)
    {
      SetCurrentlyEnteredAssetName(text);
      if commitType == OnEnter {
        CommitObjectPathForSave(replaceAnswer);
      }
    }

    /**
     * Destruction of the widget: the cancelled delegate fires exactly when
     * no choice was ever delivered.
     */
    method Destroy()
      requires Valid()
      modifies this`notices
      ensures notices == old(notices) + if validAssetsChosen then [] else [Cancelled]
      ensures Cancelled in notices <==> !HasChoice(old(notices))
    {
      if !validAssetsChosen {
        notices := notices + [Cancelled];
      }
    }
  }
}
