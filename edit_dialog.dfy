/**
 * The form logic of MediaEditDialog (src/components/media/MediaEditDialog.tsx): its signals
 * `title`, `imageFile`, `imagePreview`, `error` and `storageType`, the effect that resets them
 * when the dialog opens or closes, choosing a file, and the guarded save.
 *
 * Saving the chosen image (the upload stub, or writing through the File System Access API)
 * is an oracle, `ImageStore`: it says what each of those calls returns or whether it throws.
 * `URL.createObjectURL` is a parameter. The `onSave` callback is recorded in `saves`.
 */
module EditDialog {
  import opened Wrappers
  import opened MediaItems
  import opened Text

  datatype Mode = Create | Edit

  /** A chosen file; only its name matters to the form. */
  datatype File = File(name: string)

  /** An awaited call that either returns a string or throws. */
  datatype Attempt = Returned(value: string) | Threw

  /**
   * How the environment answers saveImageFile: the upload call, whether `showDirectoryPicker`
   * exists, and the picker/file-handle/write sequence (returning the handle's name).
   */
  datatype ImageStore = ImageStore(upload: Attempt, hasDirectoryPicker: bool, localWrite: Attempt)

  /** uploadToRemoteServer is a stub that resolves with no value, which the form reads as empty. */
  const UploadStub: Attempt := Returned("")

  const MissingFieldsError: string := "Bitte Titel und Bild angeben."
  const UploadError: string := "Fehler beim Upload zum Server."
  const NoFileSystemError: string := "File System API wird nicht unterstützt."
  const LocalSaveError: string := "Fehler beim lokalen Speichern des Bildes."

  /** One call of `props.onSave(title, imageSrc, storageType)`. */
  datatype SaveCall = SaveCall(title: string, imageSrc: string, storageType: StorageType)

  /** The predicate behind both the save guard and the Save button's `disabled`. */
  predicate Incomplete(title: string, file: Option<File>, preview: string)
  {
    Trim(title) == "" || (file.None? && preview == "")
  }

  /** What saveImageFile returns (or that it throws), and the error it sets on the way. */
  datatype ImageSave = ImageSave(result: Attempt, error: Option<string>)

  function SaveImageFileOutcome(storageType: StorageType, env: ImageStore): (r: ImageSave)
    ensures r.error.Some? ==> r.result == Returned("")
    ensures r.result.Threw? ==> storageType.Local? && env.hasDirectoryPicker
  {
    if storageType == Remote then
      if env.upload.Threw? then ImageSave(Returned(""), Some(UploadError)) else ImageSave(env.upload, None)
    else if env.hasDirectoryPicker then ImageSave(env.localWrite, None)
    else ImageSave(Returned(""), Some(NoFileSystemError))
  }

  /** How handleSave ends: refused by the guard, given up after the image save, or completed with an onSave call. */
  datatype SaveOutcome = Rejected | Abandoned(error: Option<string>) | Saved(call: SaveCall)

  function HandleSaveOutcome(title: string, file: Option<File>, preview: string, storageType: StorageType,
                             env: ImageStore): (r: SaveOutcome)
    ensures r.Saved? ==> r.call.title == Trim(title) && r.call.storageType == storageType
    ensures r.Abandoned? ==> file.Some?
  {
    if Incomplete(title, file, preview) then Rejected
    else if file.None? then Saved(SaveCall(Trim(title), preview, storageType))
    else
      var saved := SaveImageFileOutcome(storageType, env);
      if saved.result.Threw? then Abandoned(Some(LocalSaveError))
      else if saved.result.value == "" then Abandoned(saved.error)
      else Saved(SaveCall(Trim(title), saved.result.value, storageType))
  }

  function ErrorAfterSave(outcome: SaveOutcome, error: string): string
  {
    match outcome
    case Rejected => MissingFieldsError
    case Abandoned(e) => e.GetOr(error)
    case Saved(_) => ""
  }

  function SavesAfterSave(outcome: SaveOutcome, saves: seq<SaveCall>): seq<SaveCall>
  {
    if outcome.Saved? then saves + [outcome.call] else saves
  }

  /** handleSave refuses exactly when the guard predicate holds. */
  lemma RejectedIffIncomplete(title: string, file: Option<File>, preview: string, storageType: StorageType,
                              env: ImageStore)
    ensures HandleSaveOutcome(title, file, preview, storageType, env) == Rejected <==> Incomplete(title, file, preview)
  {
  }

  /**
   * A completed save hands onSave a trimmed, non-blank title, the form's storage type and a
   * non-empty image: the preview when no file was chosen, else what saving the file returned.
   */
  lemma SavedCallFields(title: string, file: Option<File>, preview: string, storageType: StorageType,
                        env: ImageStore)
    requires HandleSaveOutcome(title, file, preview, storageType, env).Saved?
    ensures var c := HandleSaveOutcome(title, file, preview, storageType, env).call;
      && c.title == Trim(title) && c.title != "" && c.storageType == storageType && c.imageSrc != ""
      && (file.None? ==> c.imageSrc == preview)
      && (file.Some? ==> Returned(c.imageSrc) == SaveImageFileOutcome(storageType, env).result)
  {
  }

  /** With a file chosen, an empty or throwing image save means onSave is not called. */
  lemma FailedImageSaveAbandons(title: string, file: Option<File>, preview: string, storageType: StorageType,
                                env: ImageStore)
    requires file.Some? && !Incomplete(title, file, preview)
    requires SaveImageFileOutcome(storageType, env).result in {Threw, Returned("")}
    ensures HandleSaveOutcome(title, file, preview, storageType, env).Abandoned?
  {
  }

  /** As written, the upload stub means a remote save of a chosen file never reaches onSave. */
  lemma UploadStubNeverSaves(title: string, file: Option<File>, preview: string, env: ImageStore)
    requires file.Some? && env.upload == UploadStub
    ensures !HandleSaveOutcome(title, file, preview, Remote, env).Saved?
  {
  }

  /** The title the file input leaves: a blank title becomes the file's name without its extension. */
  function TitleAfterFileChoice(title: string, fileName: string): (r: string)
    ensures Trim(title) != "" ==> r == title
    ensures Trim(title) == "" ==> forall k :: ExtensionAt(fileName, k) ==> r == fileName[..k]
    ensures Trim(title) == "" && (forall k :: 0 <= k < |fileName| ==> !ExtensionAt(fileName, k)) ==> r == fileName
  {
    if Trim(title) == "" then StripExtension(fileName) else title
  }

  class MediaEditDialog {
    const mode: Mode
    const hasOnDelete: bool
    var isOpen: bool
    var item: Option<MediaItem>

    var title: string
    var imageFile: Option<File>
    var imagePreview: string
    var error: string
    var storageType: StorageType

    var saves: seq<SaveCall>

    /** The signals start empty and local; the effect then runs once against the initial props. */
    constructor (mode: Mode, hasOnDelete: bool, isOpen: bool, item: Option<MediaItem>)
      ensures this.mode == mode && this.hasOnDelete == hasOnDelete && this.isOpen == isOpen && this.item == item
      ensures saves == [] && imageFile.None? && error == "" && storageType == (if isOpen && item.Some? then item.value.storageType else Local)
      ensures title == (if isOpen && item.Some? then item.value.title else "")
      ensures imagePreview == (if isOpen && item.Some? then item.value.src else "")
    {
      this.mode := mode;
      this.hasOnDelete := hasOnDelete;
      this.isOpen := isOpen;
      this.item := item;
      title, imageFile, imagePreview, error, storageType := "", None, "", "", Local;
      saves := [];
      new;
      RunEffect();
    }

    /** The createEffect body: opening loads the item (or blanks), closing clears all but the title. */
    method RunEffect()
      modifies this`title, this`imageFile, this`imagePreview, this`error, this`storageType
      ensures imageFile.None? && error == ""
      ensures isOpen ==> && title == (if item.Some? then item.value.title else "")
                         && imagePreview == (if item.Some? then item.value.src else "")
                         && storageType == (if item.Some? then item.value.storageType else Local)
      ensures !isOpen ==> title == old(title) && imagePreview == "" && storageType == Local
    {
      if isOpen {
        title := if item.Some? then item.value.title else "";
        imageFile := None;
        error := "";
        imagePreview := if item.Some? then item.value.src else "";
        storageType := if item.Some? then item.value.storageType else Local;
      } else {
        imagePreview := "";
        imageFile := None;
        error := "";
        storageType := Local;
      }
    }

    /**
     * New props from the parent. The effect re-runs when what it last read changed: `isOpen`
     * always, and the item only while the dialog was open.
     */
    method SetProps(newIsOpen: bool, newItem: Option<MediaItem>)
      modifies this
      ensures isOpen == newIsOpen && item == newItem && saves == old(saves)
      ensures old(isOpen) == newIsOpen && (!newIsOpen || old(item) == newItem) ==>
        title == old(title) && imageFile == old(imageFile) && imagePreview == old(imagePreview)
        && error == old(error) && storageType == old(storageType)
      ensures old(isOpen) != newIsOpen || (newIsOpen && old(item) != newItem) ==>
        && imageFile.None? && error == ""
        && (newIsOpen ==> && title == (if newItem.Some? then newItem.value.title else "")
                          && imagePreview == (if newItem.Some? then newItem.value.src else "")
                          && storageType == (if newItem.Some? then newItem.value.storageType else Local))
        && (!newIsOpen ==> title == old(title) && imagePreview == "" && storageType == Local)
    {
      var rerun := isOpen != newIsOpen || (isOpen && item != newItem);
      isOpen, item := newIsOpen, newItem;
      if rerun {
        RunEffect();
      }
    }

    /** The title field's onInput. */
    method EditTitle(value: string)
      modifies this`title
      ensures title == value
    {
      title := value;
    }

    /** The storage-type radio buttons, which the dialog shows only in create mode. */
    method ChooseStorageType(t: StorageType)
      requires mode == Create
      modifies this`storageType
      ensures storageType == t
    {
      storageType := t;
    }

    /** handleFileChange: the first chosen file becomes the image, previewed through `objectUrl`. */
    method HandleFileChange(files: seq<File>, objectUrl: string)
      modifies this`imageFile, this`imagePreview, this`title
      ensures files == [] ==> imageFile == old(imageFile) && imagePreview == old(imagePreview) && title == old(title)
      ensures files != [] ==>
        imageFile == Some(files[0]) && imagePreview == objectUrl && title == TitleAfterFileChoice(old(title), files[0].name)
    {
      if files != [] {
        var file := files[0];
        imageFile := Some(file);
        imagePreview := objectUrl;
        if Trim(title) == "" {
          title := StripExtension(file.name);
        }
      }
    }

    /** saveImageFile: upload for a remote item, else write through the directory picker if there is one. */
    method SaveImageFile(file: File, env: ImageStore) returns (r: Attempt)
      modifies this`error
      ensures r == SaveImageFileOutcome(storageType, env).result
      ensures error == SaveImageFileOutcome(storageType, env).error.GetOr(old(error))
    {
      if storageType == Remote {
        if env.upload.Threw? {
          error := UploadError;
          return Returned("");
        }
        return env.upload;
      }
      if env.hasDirectoryPicker {
        return env.localWrite;
      }
      error := NoFileSystemError;
      return Returned("");
    }

    /** handleSave: check the guard, save a chosen file, then hand the result to onSave. */
    method HandleSave(env: ImageStore)
      modifies this`error, this`saves
      ensures error == ErrorAfterSave(HandleSaveOutcome(title, imageFile, imagePreview, storageType, env), old(error))
      ensures saves == SavesAfterSave(HandleSaveOutcome(title, imageFile, imagePreview, storageType, env), old(saves))
    {
      var trimmed := Trim(title);
      if trimmed == "" || (imageFile.None? && imagePreview == "") {
        error := MissingFieldsError;
        return;
      }
      var imageSrc := imagePreview;
      if imageFile.Some? {
        var saved := SaveImageFile(imageFile.value, env);
        if saved.Threw? {
          error := LocalSaveError;
          return;
        }
        imageSrc := saved.value;
        if imageSrc == "" {
          return;
        }
      }
      error := "";
      saves := saves + [SaveCall(trimmed, imageSrc, storageType)];
    }

    /** handleKeyDown on the title field: Enter saves. */
    method HandleKeyDown(key: string, env: ImageStore)
      modifies this`error, this`saves
      ensures key != "Enter" ==> error == old(error) && saves == old(saves)
      ensures key == "Enter" ==>
        && error == ErrorAfterSave(HandleSaveOutcome(title, imageFile, imagePreview, storageType, env), old(error))
        && saves == SavesAfterSave(HandleSaveOutcome(title, imageFile, imagePreview, storageType, env), old(saves))
    {
      if key == "Enter" {
        HandleSave(env);
      }
    }

    /** The Save button is disabled exactly when handleSave would refuse, whatever the environment. */
    function SaveDisabled(): (r: bool)
      reads this
      ensures forall env :: r <==> HandleSaveOutcome(title, imageFile, imagePreview, storageType, env).Rejected?
    {
      Incomplete(title, imageFile, imagePreview)
    }

    /** The Delete button is enabled only when editing and a delete handler was given. */
    function DeleteDisabled(): (r: bool)
      reads this
      ensures !r <==> mode == Edit && hasOnDelete
    {
      mode == Create || !hasOnDelete
    }
  }
}
