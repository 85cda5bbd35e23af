# Asset dialog of the content browser — a Dafny model

This project models the state machine behind the editor's asset dialog
(`SAssetDialog`), the window the editor shows to pick assets to open or to
choose where a new asset is saved. It covers four things:

- **Input validity.** The dialog keeps a selected path and an entered asset
  name. Every change to either re-runs a fixed sequence of checks:
  1. an empty name fails, with no error text;
  2. an empty path fails with "You must select a path.";
  3. a save dialog then asks the create validator about the object path;
  4. when existing assets are allowed with a warning and several asset
     classes are listed, the registry must not hold an asset of an unlisted
     class at that path.
  The result goes into a flag and an error text.
- **Gates.** The confirm button, the name error label, the commit of a save
  and the choice of assets to open all depend on that flag and on the
  selection. Once a choice has been delivered it stays delivered. Destroying
  the dialog reports cancellation exactly when no choice was delivered.
- **Object path for save.** It is the selected path joined with the name,
  then ".", then the name again.
- **Delete batching.** The delete command groups the data behind the
  selected files by the data source that owns them, so that each source gets
  one bulk delete. Data whose source refuses deletion produces that source's
  error text instead. Data with no owner is skipped.

The model is split into four modules:

- `AssetDialogTypes` (`asset_dialog_types.dfy`): the shared values.
- `InputValidity` (`input_validity.dfy`): the validity rules as pure
  functions, plus the object path.
- `AssetDialogWidget` (`asset_dialog.dfy`): the dialog as a class.
  - Its fields are the dialog's fields.
  - Its `Valid()` invariant says that the stored validity flag always equals
    the verdict of `InputValidity.InputCheck` on the current path and name.
    After a failed check the stored text is that check's message. A success
    leaves the earlier text in place, and the error label then hides it.
  - It also says that the "valid assets chosen" flag is set exactly when a
    choice was delivered.
- `DeleteBatching` (`delete_batching.dfy`): the grouping loop of the delete
  command, proved against a filter function.

The editor services the dialog calls are fields of a `Services` value:
- the path join operator;
- the class lookup;
- `IsValidObjectPathForCreate`;
- the asset registry lookup;
- `ObjectPathToObjectName`.

The user's answer to the replace question is a method parameter, and so is
whether a play-in-editor session is running. A data source's willingness to
delete is a function parameter. Delegate calls, the close request, the
replace question and the cancel callback are appended to the dialog's
`notices` log in the order they happen.

## Model

| member | source | states |
|---|---|---|
| `InputValidity.ObjectPathForSave` | UnrealEngine-release/Engine/Source/Editor/ContentBrowser/Private/SAssetDialog.cpp:831-834 | Whatever the path join returns, the object path for save ends in "." followed by the asset name. |
| `InputValidity.AssetNameFromObjectPath` | UnrealEngine-release/Engine/Source/Editor/ContentBrowser/Private/SAssetDialog.cpp:831-834 | For a name without '.', the text after the last '.' of the object path for save is exactly that name, so the name can be read back from the path. |
| `InputValidity.AssetClassForCreate` | UnrealEngine-release/Engine/Source/Editor/ContentBrowser/Private/SAssetDialog.cpp:795-796 | The validator gets a class exactly when one class name is listed, it is not NAME_None and the class lookup finds it. That class is then the listed one. |
| `InputValidity.SaveCheck` | UnrealEngine-release/Engine/Source/Editor/ContentBrowser/Private/SAssetDialog.cpp:787-815 | The save-only checks pass exactly when the create validator accepts the path and there is no unlisted-class asset there; that second condition applies only under AllowButWarn with more than one listed class. A validator refusal is passed through unchanged. Otherwise the failure text is the "already exists" message built from the existing asset's class and the object name. |
| `InputValidity.InputCheck` | UnrealEngine-release/Engine/Source/Editor/ContentBrowser/Private/SAssetDialog.cpp:767-815 | An empty name gives a failure with empty text, whatever the path is. A non-empty name with an empty path gives "You must select a path.". In Open mode the input is valid exactly when name and path are both non-empty, and the services are not consulted. In Save mode with both non-empty, the verdict is that of the save checks. |
| `AssetDialogWidget.AssetDialog.constructor` | UnrealEngine-release/Engine/Source/Editor/ContentBrowser/Private/SAssetDialog.cpp:44-52 | Starts with no choice made. Keeps the kind, the class names and the services. Keeps the configured policy only for a save dialog (an open dialog stays at Disallow). Selects the default path, which reports it to the path delegate. Enters the default name only for a save dialog. Establishes the invariant. This is also the state that Construct sets at lines 65-67, 98 and 120-121. |
| `AssetDialogWidget.AssetDialog.UpdateInputValidity` | UnrealEngine-release/Engine/Source/Editor/ContentBrowser/Private/SAssetDialog.cpp:767-816 | Afterwards the flag is exactly "InputCheck accepts the current path and name". A failure stores that check's text. A success leaves the previous text in place. |
| `AssetDialogWidget.AssetDialog.SetCurrentlySelectedPath` | UnrealEngine-release/Engine/Source/Editor/ContentBrowser/Private/SAssetDialog.cpp:753-759 | Sets the path and re-validates, so the flag equals the verdict on the new (path, name). Then it reports the path to the path delegate. It changes only the path, the flag, the error text and the notice log. |
| `AssetDialogWidget.AssetDialog.SetCurrentlyEnteredAssetName` | UnrealEngine-release/Engine/Source/Editor/ContentBrowser/Private/SAssetDialog.cpp:761-765 | Sets the name and re-validates, so the flag equals the verdict on the new (path, name). It changes only the name, the flag and the error text. |
| `AssetDialogWidget.AssetDialog.IsConfirmButtonEnabled` | UnrealEngine-release/Engine/Source/Editor/ContentBrowser/Private/SAssetDialog.cpp:661-677 | Enabled exactly when the dialog is an open dialog with at least one selected asset, or a save dialog whose current input passes every check. |
| `AssetDialogWidget.AssetDialog.GetNameErrorLabelText` | UnrealEngine-release/Engine/Source/Editor/ContentBrowser/Private/SAssetDialog.cpp:630-638 | Shows the failing check's text, and nothing when the input is valid, even if an earlier failure left text behind. So it is empty for an empty name, and "You must select a path." for a name with no path. |
| `AssetDialogWidget.AssetDialog.GetNameErrorLabelVisibility` | UnrealEngine-release/Engine/Source/Editor/ContentBrowser/Private/SAssetDialog.cpp:625-628 | Visible exactly when the current input fails with non-empty text, so it is hidden while the name is empty. |
| `AssetDialogWidget.AssetDialog.CommitObjectPathForSave` | UnrealEngine-release/Engine/Source/Editor/ContentBrowser/Private/SAssetDialog.cpp:836-866 | The object path is delivered and the window asked to close only when all of these hold: the dialog saves, the input is valid, and (the policy is not AllowButWarn, or no listed-class asset exists at the path, or the user answered yes). The replace question is asked only in the last case. The chosen flag is only ever set. A delivered path has passed every check, and the confirm button was enabled. |
| `AssetDialogWidget.AssetDialog.ChooseAssetsForOpen` | UnrealEngine-release/Engine/Source/Editor/ContentBrowser/Private/SAssetDialog.cpp:818-829 | Delivers the assets and requests closing exactly when the dialog opens assets and the selection is non-empty. Otherwise nothing changes. The chosen flag is only ever set. |
| `AssetDialogWidget.AssetDialog.OnConfirmClicked` | UnrealEngine-release/Engine/Source/Editor/ContentBrowser/Private/SAssetDialog.cpp:679-700 | An open dialog delivers the picker's current selection when it is non-empty. A save dialog commits its input, with the same outcome as the commit. |
| `AssetDialogWidget.AssetDialog.OnAssetSelected` | UnrealEngine-release/Engine/Source/Editor/ContentBrowser/Private/SAssetDialog.cpp:709-718 | Stores the picker's selection. A valid asset's package path and name become the dialog's path and name, and are re-validated. An invalid asset leaves path, name, text and notices alone. |
| `AssetDialogWidget.AssetDialog.OnAssetsActivated` | UnrealEngine-release/Engine/Source/Editor/ContentBrowser/Private/SAssetDialog.cpp:720-741 | Nothing happens unless the activation was a double click or an open with a non-empty selection. If it was, an open dialog delivers the assets. A save dialog takes the first asset's path and name, then commits. |
| `AssetDialogWidget.AssetDialog.OnAssetNameTextCommitted` | UnrealEngine-release/Engine/Source/Editor/ContentBrowser/Private/SAssetDialog.cpp:615-623 | Enters the text as the name. Only an Enter commit goes on to commit the save. |
| `AssetDialogWidget.AssetDialog.Destroy` | UnrealEngine-release/Engine/Source/Editor/ContentBrowser/Private/SAssetDialog.cpp:54-60 | The cancel callback fires exactly when no choice was ever delivered. |
| `DeleteBatching.ExecuteDelete` | UnrealEngine-release/Engine/Source/Editor/ContentBrowser/Private/SAssetDialog.cpp:362-408 | During a play-in-editor session nothing is grouped and only the "cannot delete in PIE" notification appears. Otherwise a source has a batch exactly when it owns and accepts some selected datum. Its batch is exactly those data, in selection order. The notifications are the refusal texts, in order. |
| `DeleteBatching.BatchMembership` | UnrealEngine-release/Engine/Source/Editor/ContentBrowser/Private/SAssetDialog.cpp:383-402 | A datum is in a source's batch exactly when it was selected and that source owns it and accepts its deletion. So refused data and data with no owner are in no batch. |
| `DeleteBatching.BatchesDisjoint` | UnrealEngine-release/Engine/Source/Editor/ContentBrowser/Private/SAssetDialog.cpp:382-402 | No datum is placed in the batches of two different sources. |
| `DeleteBatching.BatchPreservesOrder` | UnrealEngine-release/Engine/Source/Editor/ContentBrowser/Private/SAssetDialog.cpp:393-394 | Each batch is a subsequence of the selected data, so the selection order is preserved. |

## Left out

- The widget tree that `Construct` builds, plus `OnKeyDown`, `BindCommands`, the context menus (`OnGetFolderContextMenu`, `OnGetAssetContextMenu`, `SetupContextMenuContent`) and the focus handling (`SetFocusPostConstruct`, `FocusNameBox`). These are layout and focus in the UI toolkit.
- `CloseDialog` and `OnCancelClicked`: the window request is recorded as a `CloseRequested` notice. Window destruction is the `Destroy` method.
- Rename, explore, create-folder and folder delete (`CanExecute*`, `ExecuteRename`, `ExecuteExplore`, `ExecuteCreateNewFolder`, `ExecuteDeleteFolderConfirmed`) and the folder-delete confirmation in `ExecuteDelete`. These call content-browser services and the file system, which are not part of this model.
- The `BulkDeleteItems` calls. `ExecuteDelete` returns the batches each source would receive, as a map. The order in which the sources are visited is unspecified in the source, and the model does not fix it.
- `HandlePathSelected` and `HandleAssetViewFolderEntered`: each calls the path setter (modelled) and then a picker filter or path delegate (foreign).
- `GetAssetNameText` and `GetPathNameText`: they return the name and path fields as text.
- `SetOnAssetsChosenForOpen`, `SetOnObjectPathChosenForSave` and `SetOnAssetDialogCancelled`: delegate binding. A delegate call is recorded as a notice whether or not a delegate is bound.
- The bodies of the foreign services (path join, `FindObject`, `IsValidObjectPathForCreate`, the registry lookup, `ObjectPathToObjectName`, `CanDeleteItem`, the yes/no message box). They are parameters.
  - The services are assumed not to change while the dialog is alive. A registry that changes between validation and commit is not modelled.
- `FName` comparisons are modelled as exact string comparisons; the engine's case-insensitive comparison is not modelled. NAME_None is the string "None".
- The `ensure`/`ensureMsgf` diagnostics. With only the Open and Save dialog types, the unsupported-type branches cannot occur. A failed `ensure` in the two choose methods is modelled only by its effect: nothing happens.
- Localisation: texts are their English source strings, and `FText::Format` is written out as concatenation.
- The other files of the repository: the editor settings and material parameter reflection headers, the trace string store, the in-app-purchase restore proxy, the output log module and the display cluster configurator view interface. None of them holds logic of the asset dialog.
