/**
 * app/communities/components/ui/image-post/CozyUploadPost.tsx: the form
 * that publishes an image post to a community. The FileReader, the image
 * upload and the post request are outside the model: a chosen file arrives
 * with its data URL already read, and a publish attempt is given its
 * outcome.
 */
module ImagePost {
  import opened Wrappers
  import opened JsText
  import opened TagList
  import opened FormFiles

  /** What a publish request can throw: `error.response?.data?.message` and `error.message`. */
  datatype Failure = Failure(serverMessage: Option<string>, message: Option<string>)

  /** How the upload and the create-post request end. */
  datatype PublishOutcome =
    | Created          // the request returned data
    | EmptyResponse    // the request returned no data
    | Failed(failure: Failure)

  const UploadFallback := "Error al subir la imagen. Por favor, inténtalo de nuevo."
  const EmptyResponseMessage := "Failed to create image post"
  const ModalFallback := "Ha ocurrido un error al publicar la imagen"

  /** The message a failed publish records: the server's, else the exception's, else the fallback. */
  function ErrorMessage(f: Failure): (r: string)
    ensures r != ""
    ensures Truthy(f.serverMessage) ==> r == f.serverMessage.value
    ensures !Truthy(f.serverMessage) && Truthy(f.message) ==> r == f.message.value
    ensures !Truthy(f.serverMessage) && !Truthy(f.message) ==> r == UploadFallback
  {
    OrElse(OrElse(f.serverMessage, f.message), Some(UploadFallback)).value
  }

  /** The failure an empty response raises: a plain `Error` with no server part. */
  function EmptyResponseFailure(): (f: Failure)
    ensures ErrorMessage(f) == EmptyResponseMessage
  {
    Failure(None, Some(EmptyResponseMessage))
  }

  /** Every piece of the form's state, so that a handler can state all of its effect at once. */
  datatype Form = Form(
    imagePreview: Option<string>, title: string, description: string,
    tags: seq<string>, inputTag: string, isDragging: bool, isUploading: bool,
    error: Option<string>, showErrorModal: bool, showSuccess: bool,
    file: Option<File>, pendingCloses: nat)

  class ImagePostForm {
    var imagePreview: Option<string>
    var title: string
    var description: string
    var tags: seq<string>
    var inputTag: string
    var isDragging: bool
    var isUploading: bool
    var error: Option<string>
    var showErrorModal: bool
    var showSuccess: bool
    /** `fileRef.current`. */
    var file: Option<File>
    /** The `onClose` calls scheduled by successful publishes and not yet run. */
    var pendingCloses: nat

    /** The current state as one value. */
    function State(): Form
      reads this
    {
      Form(imagePreview, title, description, tags, inputTag, isDragging, isUploading,
           error, showErrorModal, showSuccess, file, pendingCloses)
    }

    /**
     * Between handlers: the tags are an ordered set, no upload is in
     * progress, and a preview is only shown for a held file.
     */
    predicate Valid()
      reads this
    {
      IsTagSet(tags) && !isUploading && (imagePreview.Some? ==> file.Some?)
    }

    /** The first render: everything empty, nothing shown. */
    constructor ()
      ensures Valid()
      ensures State() == Form(None, "", "", [], "", false, false, None, false, false, None, 0)
    {
      imagePreview, title, description, tags, inputTag := None, "", "", [], "";
      isDragging, isUploading, error, showErrorModal, showSuccess := false, false, None, false, false;
      file, pendingCloses := None, 0;
    }

    /** Keep the file and show its preview. */
    method Accept(f: File)
      requires Valid()
      modifies this
      ensures Valid()
      ensures State() == old(State()).(file := Some(f), imagePreview := Some(f.dataUrl))
    {
      file := Some(f);
      imagePreview := Some(f.dataUrl);
    }

    /** `handleImageChange`: the first chosen file is taken, whatever its type. */
    method HandleImageChange(files: seq<File>)
      requires Valid()
      modifies this
      ensures Valid()
      ensures ChosenFile(files).None? ==> State() == old(State())
      ensures ChosenFile(files).Some? ==>
        State() == old(State()).(file := ChosenFile(files), imagePreview := Some(files[0].dataUrl))
    {
      var chosen := ChosenFile(files);
      if chosen.Some? {
        Accept(chosen.value);
      }
    }

    /** `handleDrop`: the drag ends; the first dropped file is taken only if it is an image. */
    method HandleDrop(files: seq<File>)
      requires Valid()
      modifies this
      ensures Valid()
      ensures DroppedFile(files).Some? ==>
        State() == old(State()).(isDragging := false, file := DroppedFile(files),
                                 imagePreview := Some(files[0].dataUrl))
      ensures DroppedFile(files).None? ==> State() == old(State()).(isDragging := false)
    {
      isDragging := false;
      var dropped := DroppedFile(files);
      if dropped.Some? {
        Accept(dropped.value);
      }
    }

    /** `handleDragOver`. */
    method HandleDragOver()
      requires Valid()
      modifies this
      ensures Valid()
      ensures State() == old(State()).(isDragging := true)
    {
      isDragging := true;
    }

    /** `handleDragLeave`. */
    method HandleDragLeave()
      requires Valid()
      modifies this
      ensures Valid()
      ensures State() == old(State()).(isDragging := false)
    {
      isDragging := false;
    }

    /** The title field's `onChange`. */
    method SetTitle(value: string)
      requires Valid()
      modifies this
      ensures Valid()
      ensures State() == old(State()).(title := value)
    {
      title := value;
    }

    /** The tag field's `onChange`. */
    method SetInputTag(value: string)
      requires Valid()
      modifies this
      ensures Valid()
      ensures State() == old(State()).(inputTag := value)
    {
      inputTag := value;
    }

    /** `handleAddTag`: the key press as `OnKeyDown` states it; the rest of the form is untouched. */
    method HandleAddTag(key: string)
      requires Valid()
      modifies this
      ensures Valid()
      ensures var after := OnKeyDown(key, TagInput(old(tags), old(inputTag)));
        State() == old(State()).(tags := after.tags, inputTag := after.inputTag)
    {
      OnKeyDownKeepsTagSet(key, TagInput(tags, inputTag));
      var after := OnKeyDown(key, TagInput(tags, inputTag));
      tags, inputTag := after.tags, after.inputTag;
    }

    /** `handleRemoveTag`: the given tag's one position is deleted, if it is there. */
    method HandleRemoveTag(tag: string)
      requires Valid()
      modifies this
      ensures Valid()
      ensures State() == old(State()).(tags := RemoveTag(old(tags), tag))
    {
      RemoveTagKeepsTagSet(tags, tag);
      tags := RemoveTag(tags, tag);
    }

    /** `disabled={!imagePreview || !title || isUploading}` on the publish button. */
    predicate PublishDisabled()
      reads this
    {
      !Truthy(imagePreview) || title == "" || isUploading
    }

    /** The guard at the top of `handlePublish`. */
    predicate CanPublish()
      reads this
    {
      Truthy(imagePreview) && file.Some? && title != ""
    }

    /** Between handlers, the publish button is enabled exactly when the handler's guard lets it through. */
    lemma EnabledButtonPublishes()
      requires Valid()
      ensures !PublishDisabled() <==> CanPublish()
    {
    }

    /**
     * `handlePublish`, with the two requests' outcome given. Without a
     * preview, a file and a title nothing happens. Otherwise a success
     * shows the success modal, resets preview, title, description, tags
     * and file, and schedules the close; a failure records the message and
     * opens the error modal. The upload flag is down again either way.
     */
    method HandlePublish(outcome: PublishOutcome) returns (attempted: bool)
      requires Valid()
      modifies this
      ensures Valid()
      ensures attempted == old(CanPublish())
      ensures !attempted ==> State() == old(State())
      ensures attempted && outcome.Created? ==>
        State() == old(State()).(error := None, showSuccess := true, imagePreview := None,
                                 title := "", description := "", tags := [], file := None,
                                 pendingCloses := old(pendingCloses) + 1)
      ensures attempted && !outcome.Created? ==>
        var failure := if outcome.Failed? then outcome.failure else EmptyResponseFailure();
        State() == old(State()).(error := Some(ErrorMessage(failure)), showErrorModal := true)
    {
      if !Truthy(imagePreview) || file.None? || title == "" {
        return false;
      }
      attempted := true;
      isUploading := true;
      error := None;
      match outcome {
        case Created =>
          showSuccess := true;
          imagePreview, title, description, tags := None, "", "", [];
          file := None;
          pendingCloses := pendingCloses + 1;
        case EmptyResponse =>
          error := Some(ErrorMessage(EmptyResponseFailure()));
          showErrorModal := true;
        case Failed(failure) =>
          error := Some(ErrorMessage(failure));
          showErrorModal := true;
      }
      isUploading := false;
    }

    /** The timer scheduled by a successful publish fires `onClose`. */
    method FireClose()
      requires Valid() && pendingCloses > 0
      modifies this
      ensures Valid()
      ensures State() == old(State()).(pendingCloses := old(pendingCloses) - 1)
    {
      pendingCloses := pendingCloses - 1;
    }

    /** The effect on `isOpen`: a closed dialog hides the success modal. */
    method OnOpenChange(isOpen: bool)
      requires Valid()
      modifies this
      ensures Valid()
      ensures State() == old(State()).(showSuccess := isOpen && old(showSuccess))
    {
      if !isOpen {
        showSuccess := false;
      }
    }

    /** The success modal's button hides it. */
    method CloseSuccess()
      requires Valid()
      modifies this
      ensures Valid()
      ensures State() == old(State()).(showSuccess := false)
    {
      showSuccess := false;
    }

    /** The error modal's text: the recorded error, or the generic message. */
    function ErrorModalMessage(): (r: string)
      reads this
      ensures r != ""
      ensures Truthy(error) ==> r == error.value
      ensures !Truthy(error) ==> r == ModalFallback
    {
      OrElse(error, Some(ModalFallback)).value
    }

    /** Closing the error modal hides it and forgets the error. */
    method CloseErrorModal()
      requires Valid()
      modifies this
      ensures Valid()
      ensures State() == old(State()).(showErrorModal := false, error := None)
    {
      showErrorModal, error := false, None;
    }
  }

  /**
   * After a failed publish the error modal shows exactly the failure's
   * message: the modal's own fallback is never reached, because a
   * recorded error is never empty.
   */
  method PublishFailureShown(form: ImagePostForm, failure: Failure) returns (shown: string)
    requires form.Valid() && form.CanPublish()
    modifies form
    ensures form.Valid() && form.showErrorModal
    ensures shown == ErrorMessage(failure)
  {
    var attempted := form.HandlePublish(Failed(failure));
    shown := form.ErrorModalMessage();
  }

  /**
   * A success clears the form, so an immediate second publish is refused
   * by the guard and changes nothing.
   */
  method PublishTwice(form: ImagePostForm, second: PublishOutcome) returns (again: bool)
    requires form.Valid() && form.CanPublish()
    modifies form
    ensures form.Valid() && form.showSuccess && form.tags == []
    ensures !again
  {
    var first := form.HandlePublish(Created);
    again := form.HandlePublish(second);
  }
}
