/**
 * The image picker component (src/components/common/FileUpload.tsx): the gate a picked file
 * passes before the parent hears of it, and which preview it shows.
 */
module FileUpload {
  import opened Wrappers
  import opened Multipart
  import Validation

  const DEFAULT_ACCEPT: string := "image/*"

  /** `previewUrl || localPreviewUrl`: the parent's preview unless it is missing or empty. */
  function DisplayUrl(previewUrl: Option<string>, localPreviewUrl: Option<string>): (url: Option<string>)
    ensures previewUrl.Some? && previewUrl.value != "" ==> url == previewUrl
    ensures previewUrl.None? || previewUrl == Some("") ==> url == localPreviewUrl
  {
    if previewUrl.Some? && previewUrl.value != "" then previewUrl else localPreviewUrl
  }

  /**
   * One mounted picker. `reported` lists the values passed to the parent's `onChange`, in order
   * (`None` for `null`); `alerts` the alert texts shown; `inputValue` the file input's value;
   * `pendingReads` the `FileReader`s started and not yet finished.
   */
  class Picker {
    /** The `accept` prop: it filters the browser's file dialog and nothing else. */
    const accept: string
    /** Whether the parent passed an `onChange` callback. */
    const hasOnChange: bool
    var localPreviewUrl: Option<string>
    var inputValue: string
    var alerts: seq<string>
    var reported: seq<Option<File>>
    var pendingReads: nat

    /** The parent only ever hears of files that pass `validateImageFile`. */
    ghost predicate Valid()
      reads this
    {
      forall i :: 0 <= i < |reported| && reported[i].Some? ==> Validation.ValidateImageFile(reported[i]).None?
    }

    constructor (accept: Option<string>, hasOnChange: bool)
      ensures Valid()
      ensures this.accept == accept.GetOr(DEFAULT_ACCEPT) && this.hasOnChange == hasOnChange
      ensures localPreviewUrl.None? && inputValue == "" && alerts == [] && reported == [] && pendingReads == 0
    {
      this.accept := accept.GetOr(DEFAULT_ACCEPT);
      this.hasOnChange := hasOnChange;
      localPreviewUrl := None;
      inputValue := "";
      alerts := [];
      reported := [];
      pendingReads := 0;
    }

    /**
     * `handleFileChange` for a change event whose first file is `selected`; `pickedValue` is the
     * value the browser gave the input. An empty selection reports `null` and clears the local
     * preview; a file that fails validation is alerted and the input cleared, and the parent is
     * not told; a valid file starts a preview read and is reported once.
     */
    method HandleFileChange(selected: Option<File>, pickedValue: string)
      requires Valid()
      modifies this
      ensures Valid()
      ensures selected.None? ==>
                && reported == old(reported) + (if hasOnChange then [None] else [])
                && localPreviewUrl.None?
                && alerts == old(alerts) && inputValue == pickedValue && pendingReads == old(pendingReads)
      ensures selected.Some? && Validation.ValidateImageFile(selected).Some? ==>
                && alerts == old(alerts) + [Validation.ValidateImageFile(selected).value]
                && inputValue == ""
                && reported == old(reported)
                && localPreviewUrl == old(localPreviewUrl) && pendingReads == old(pendingReads)
      ensures selected.Some? && Validation.ValidateImageFile(selected).None? ==>
                && reported == old(reported) + (if hasOnChange then [selected] else [])
                && pendingReads == old(pendingReads) + 1
                && alerts == old(alerts) && inputValue == pickedValue
                && localPreviewUrl == old(localPreviewUrl)
    {
      inputValue := pickedValue;
      if selected.None? {
        if hasOnChange {
          reported := reported + [None];
        }
        localPreviewUrl := None;
        return;
      }
      var validationError := Validation.ValidateImageFile(selected);
      if validationError.Some? {
        alerts := alerts + [validationError.value];
        inputValue := "";
        return;
      }
      pendingReads := pendingReads + 1;
      if hasOnChange {
        reported := reported + [selected];
      }
    }

    /** A started `FileReader` finishes: its data URL becomes the local preview. */
    method OnReaderLoadEnd(dataUrl: string)
      requires Valid() && pendingReads > 0
      modifies this
      ensures Valid()
      ensures localPreviewUrl == Some(dataUrl) && pendingReads == old(pendingReads) - 1
      ensures reported == old(reported) && alerts == old(alerts) && inputValue == old(inputValue)
    {
      localPreviewUrl := Some(dataUrl);
      pendingReads := pendingReads - 1;
    }
  }

  /** Whatever `accept` says, a PDF is turned away: the gate is `validateImageFile` alone. */
  method AcceptDoesNotWiden(pdf: File) returns (p: Picker)
    requires pdf.mime == "application/pdf" && pdf.size <= Validation.MAX_FILE_SIZE
    ensures p.accept == "application/pdf"
    ensures p.reported == [] && p.alerts == [Validation.FORMAT_MSG]
  {
    p := new Picker(Some("application/pdf"), true);
    p.HandleFileChange(Some(pdf), pdf.name);
  }
}
