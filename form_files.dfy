/**
 * File acceptance shared by the two CozyUploadPost forms: the file input
 * takes the first chosen file whatever it is, a drop takes the first
 * dropped file only when its MIME type starts with `image/`.
 */
module FormFiles {
  import opened Wrappers
  import opened JsText

  /** A file as the browser hands it over: its MIME type and the data URL the reader produces. */
  datatype File = File(mimeType: string, dataUrl: string)

  const ImagePrefix := "image/"

  /** `e.target.files?.[0]`: the file-input path keeps the first file, if any. */
  function ChosenFile(files: seq<File>): (r: Option<File>)
    ensures r.Some? <==> files != []
    ensures r.Some? ==> r.value == files[0]
  {
    if files == [] then None else Some(files[0])
  }

  /** The drop path keeps the first file only when it is an image. */
  function DroppedFile(files: seq<File>): (r: Option<File>)
    ensures r.Some? <==> files != [] && StartsWith(files[0].mimeType, ImagePrefix)
    ensures r.Some? ==> r.value == files[0]
  {
    if files != [] && StartsWith(files[0].mimeType, ImagePrefix) then Some(files[0]) else None
  }

  /**
   * A drop is stricter than the file input: whatever a drop accepts the
   * input accepts too, and they differ exactly on a first file that is
   * not an image.
   */
  lemma DropStricterThanChoice(files: seq<File>)
    ensures DroppedFile(files).Some? ==> DroppedFile(files) == ChosenFile(files)
    ensures ChosenFile(files).Some? && DroppedFile(files).None? <==>
      files != [] && !StartsWith(files[0].mimeType, ImagePrefix)
  {
  }
}
