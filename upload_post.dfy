/**
 * components/CozyUploadPost.tsx: the earlier upload form, with a preview,
 * a description and tags but no title, no stored file and no publish
 * request of its own.
 */
module UploadPost {
  import opened Wrappers
  import opened JsText
  import opened TagList
  import opened FormFiles

  /** Every piece of the form's state. */
  datatype Form = Form(
    imagePreview: Option<string>, description: string, tags: seq<string>,
    inputTag: string, isDragging: bool)

  class UploadPostForm {
    var imagePreview: Option<string>
    var description: string
    var tags: seq<string>
    var inputTag: string
    var isDragging: bool

    /** The current state as one value. */
    function State(): Form
      reads this
    {
      Form(imagePreview, description, tags, inputTag, isDragging)
    }

    /** Between handlers the tags are an ordered set. */
    predicate Valid()
      reads this
    {
      IsTagSet(tags)
    }

    /** The first render: everything empty. */
    constructor ()
      ensures Valid()
      ensures State() == Form(None, "", [], "", false)
    {
      imagePreview, description, tags, inputTag, isDragging := None, "", [], "", false;
    }

    /** `handleImageChange`: the first chosen file's preview is shown, whatever its type. */
    method HandleImageChange(files: seq<File>)
      requires Valid()
      modifies this
      ensures Valid()
      ensures ChosenFile(files).None? ==> State() == old(State())
      ensures ChosenFile(files).Some? ==> State() == old(State()).(imagePreview := Some(files[0].dataUrl))
    {
      var chosen := ChosenFile(files);
      if chosen.Some? {
        imagePreview := Some(chosen.value.dataUrl);
      }
    }

    /** `handleDrop`: the drag ends; only an image's preview is shown. */
    method HandleDrop(files: seq<File>)
      requires Valid()
      modifies this
      ensures Valid()
      ensures DroppedFile(files).None? ==> State() == old(State()).(isDragging := false)
      ensures DroppedFile(files).Some? ==>
        State() == old(State()).(isDragging := false, imagePreview := Some(files[0].dataUrl))
    {
      isDragging := false;
      var dropped := DroppedFile(files);
      if dropped.Some? {
        imagePreview := Some(dropped.value.dataUrl);
      }
    }

    /** `handleDragOver`. */
    method HandleDragOver()
      requires Valid()
      modifies this
      ensures Valid()
      ensures State() == old(State()).(isDragging := true)
    {
      isDragging := true;
    }

    /** `handleDragLeave`. */
    method HandleDragLeave()
      requires Valid()
      modifies this
      ensures Valid()
      ensures State() == old(State()).(isDragging := false)
    {
      isDragging := false;
    }

    /** The tag field's `onChange`. */
    method SetInputTag(value: string)
      requires Valid()
      modifies this
      ensures Valid()
      ensures State() == old(State()).(inputTag := value)
    {
      inputTag := value;
    }

    /** `handleAddTag`: the key press as `OnKeyDown` states it. */
    method HandleAddTag(key: string)
      requires Valid()
      modifies this
      ensures Valid()
      ensures var after := OnKeyDown(key, TagInput(old(tags), old(inputTag)));
        State() == old(State()).(tags := after.tags, inputTag := after.inputTag)
    {
      OnKeyDownKeepsTagSet(key, TagInput(tags, inputTag));
      var after := OnKeyDown(key, TagInput(tags, inputTag));
      tags, inputTag := after.tags, after.inputTag;
    }

    /** `handleRemoveTag`: every tag except the given one, in order. */
    method HandleRemoveTag(tag: string)
      requires Valid()
      modifies this
      ensures Valid()
      ensures State() == old(State()).(tags := RemoveTag(old(tags), tag))
    {
      RemoveTagKeepsTagSet(tags, tag);
      tags := RemoveTag(tags, tag);
    }

    /** `disabled={!imagePreview}`: publishing is offered once a non-empty preview is shown. */
    predicate PublishEnabled()
      reads this
    {
      Truthy(imagePreview)
    }
  }

  /**
   * Only an accepted file enables publishing: a first file that is not an
   * image, dropped on a fresh form, leaves the button disabled, while the
   * same file through the file input enables it whenever its data URL is
   * non-empty.
   */
  method DropVersusChoose(f: File) returns (enabledByDrop: bool, enabledByChoice: bool)
    requires !StartsWith(f.mimeType, ImagePrefix)
    ensures !enabledByDrop
    ensures enabledByChoice <==> f.dataUrl != ""
  {
    var dropForm := new UploadPostForm();
    dropForm.HandleDrop([f]);
    enabledByDrop := dropForm.PublishEnabled();
    var chooseForm := new UploadPostForm();
    chooseForm.HandleImageChange([f]);
    enabledByChoice := chooseForm.PublishEnabled();
  }
}
