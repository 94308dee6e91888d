/**
  The upload component (Frontend/src/components/ImageUpload.jsx): its one
  piece of state, `dragActive`, the drag and drop handlers that update it, and
  the `handleFile` gate that either alerts or hands the file to the
  `onImageUpload` callback. `alert` and the callback are not called here: a
  handler returns the `Effect` it would have had.
 */
module ImageUpload {
  import opened Api

  /** What a handler does besides updating `dragActive`. */
  datatype Effect =
    | Nothing
    | Alerted(message: string)
    | Uploaded(file: File)

  /**
    `handleDrag`: entering or moving over the zone activates it, leaving
    deactivates it, any other event type leaves it as it was. `App.jsx` has
    the same handler for its own drop zone.
   */
  function DragActiveAfter(active: bool, eventType: string): (r: bool)
    ensures eventType in {"dragenter", "dragover"} ==> r
    ensures eventType == "dragleave" ==> !r
    ensures eventType !in {"dragenter", "dragover", "dragleave"} ==> r == active
  {
    if eventType == "dragenter" || eventType == "dragover" then true
    else if eventType == "dragleave" then false
    else active
  }

  /**
    `handleFile`: the type test, then the size test, each alerting and
    returning early; only a file that passes both reaches `onImageUpload`.
    It admits exactly the files `validateImageFile` admits, and alerts with
    the message that function would have thrown.
   */
  function HandleFile(file: File): (e: Effect)
    ensures e.Uploaded? <==> ValidateImageFile(file).Accepted?
    ensures e.Uploaded? ==> e.file == file
    ensures e.Alerted? <==> ValidateImageFile(file).Rejected?
    ensures e.Alerted? ==> e.message == ValidateImageFile(file).message
    ensures file.mimeType !in ["image/jpeg", "image/jpg", "image/png"]
            ==> e == Alerted("Please upload a valid image file (JPEG, JPG, or PNG)")
  {
    var validTypes := ["image/jpeg", "image/jpg", "image/png"];
    if file.mimeType !in validTypes then
      Alerted("Please upload a valid image file (JPEG, JPG, or PNG)")
    else
      var maxSize := 10 * 1024 * 1024;
      if file.size > maxSize then
        Alerted("File size must be less than 10MB")
      else
        Uploaded(file)
  }

  /**
    `handleDrop` and `handleChange` both pass on only the first file of the
    list, and only when there is one.
   */
  function FirstFile(files: seq<File>): (e: Effect)
    ensures files == [] ==> e == Nothing
    ensures files != [] ==> e == HandleFile(files[0])
    ensures e.Uploaded? ==> files != [] && e.file == files[0]
  {
    if |files| > 0 then HandleFile(files[0]) else Nothing
  }

  /** `handleChange`: it does not touch `dragActive`. */
  function HandleChange(files: seq<File>): (e: Effect)
    ensures e == FirstFile(files)
    ensures e.Uploaded? <==> files != [] && IsAcceptableImage(files[0])
    ensures e.Uploaded? ==> e.file == files[0]
    ensures e.Alerted? ==> files != [] && e == Alerted(ValidateImageFile(files[0]).message)
    ensures files == [] ==> e == Nothing
  {
    FirstFile(files)
  }

  /** The component's state. */
  class UploadArea {
    var dragActive: bool

    constructor ()
      ensures !dragActive
    {
      dragActive := false;
    }

    method HandleDrag(eventType: string)
      modifies this
      ensures dragActive == DragActiveAfter(old(dragActive), eventType)
    {
      if eventType == "dragenter" || eventType == "dragover" {
        dragActive := true;
      } else if eventType == "dragleave" {
        dragActive := false;
      }
    }

    /** A drop always deactivates the zone, then hands on the first file if there is one. */
    method HandleDrop(files: seq<File>) returns (e: Effect)
      modifies this
      ensures !dragActive
      ensures e == FirstFile(files)
    {
      dragActive := false;
      e := Nothing;
      if |files| > 0 {
        e := HandleFile(files[0]);
      }
    }
  }
}
