/**
 * The image picker (components/ui/image-upload.tsx): a preview URL and the
 * hidden file input.  `URL.createObjectURL` is the parameter `objectUrl`; the
 * parent's `onChange`/`onRemove` callbacks are returned as events.
 */
module ImageUpload {

  import opened Wrappers

  /** A picked file: its name and its size in bytes. */
  datatype FileRef = FileRef(name: string, size: nat)

  /** The 5 MB ceiling, `5 * 1024 * 1024` bytes. */
  const MaxBytes: nat := 5 * 1024 * 1024

  predicate Accepts(f: FileRef) {
    f.size <= MaxBytes
  }

  /** Exactly 5 MiB passes; one byte more does not. */
  lemma SizeBoundary(name: string)
    ensures MaxBytes == 5242880
    ensures Accepts(FileRef(name, 5242880)) && !Accepts(FileRef(name, 5242881))
  {
  }

  class Picker {
    /** `preview`. */
    var preview: Option<string>
    /** The file the hidden input holds, as the browser left it. */
    var selected: Option<FileRef>
    const disabled: bool

    /** The preview starts as the `value` the parent passes. */
    constructor (value: Option<string>, disabled: bool)
      ensures preview == value && selected.None? && this.disabled == disabled
    {
      preview := value;
      selected := None;
      this.disabled := disabled;
    }

    /**
     * `handleFileChange` for the input's new first file (None when the dialog
     * was closed).  The result is the file handed to `onChange`, if any, and
     * whether the size alert was raised.
     */
    method HandleFileChange(file: Option<FileRef>, objectUrl: string) returns (passed: Option<FileRef>, tooLarge: bool)
      modifies this
      ensures selected == file
      ensures file.None? ==> passed.None? && !tooLarge && preview == old(preview)
      ensures file.Some? && !Accepts(file.value) ==> passed.None? && tooLarge && preview == old(preview)
      ensures file.Some? && Accepts(file.value) ==> passed == file && !tooLarge && preview == Some(objectUrl)
    {
      selected := file;
      passed, tooLarge := None, false;
      if file.Some? {
        if file.value.size > 5 * 1024 * 1024 {
          tooLarge := true;
          return;
        }
        preview := Some(objectUrl);
        passed := file;
      }
    }

    /** `handleRemove`: no preview, the input emptied, and `onRemove` called (the result). */
    method HandleRemove() returns (removed: bool)
      modifies this
      ensures preview.None? && selected.None? && removed
    {
      preview := None;
      removed := true;
      selected := None;
    }

    /** `triggerUpload`: whether the file dialog opens. */
    method TriggerUpload() returns (opens: bool)
      ensures opens <==> !disabled
    {
      opens := !disabled;
    }
  }
}
