/** The receipt-entry modal of components/upload-modal.tsx: a photo, a nominal amount and a
    description (keterangan). Saving with all three filled hands one `photo` entry to the form
    and clears the modal; closing clears it without handing anything over. */
module Upload {
  import opened Optional

  datatype Kind = Photo | Document

  /** An attachment as the modal emits it: `Omit<UploadedFile, 'id'>`. */
  datatype Entry = Entry(name: string, amount: string, kind: Kind, imageUri: Option<string>)

  /** An attachment as the form keeps it (`UploadedFile`): an entry with a local id. */
  datatype Attachment = Attachment(id: string, name: string, amount: string, kind: Kind, imageUri: Option<string>)

  /** What the image picker reports: permission refused, the picker cancelled, or the URI of the
      first picked asset. */
  datatype PickerOutcome = PermissionDenied | Cancelled | Picked(uri: string)

  /** The callback prop a handler invoked, if any. */
  datatype Callback = NoCallback | OnSubmit(entry: Entry) | OnClose

  /** `!!selectedImage`: in JavaScript both `null` and the empty string are false. */
  predicate HasImage(image: Option<string>) {
    image.Some? && image.value != ""
  }

  /** The guard of `handleModalSubmit`: an image, a nominal and a description. */
  predicate Ready(nominal: string, keterangan: string, image: Option<string>) {
    HasImage(image) && nominal != "" && keterangan != ""
  }

  /** The callback `handleModalSubmit` makes for the given fields. */
  function Emitted(nominal: string, keterangan: string, image: Option<string>): (cb: Callback)
    ensures cb != OnClose
    ensures cb.OnSubmit? <==> Ready(nominal, keterangan, image)
    ensures cb.OnSubmit? ==> cb.entry.kind == Photo && HasImage(cb.entry.imageUri)
    ensures cb.OnSubmit? ==> cb.entry.name == keterangan && cb.entry.amount == nominal
  {
    if Ready(nominal, keterangan, image)
    then OnSubmit(Entry(keterangan, nominal, Photo, image))
    else NoCallback
  }

  /** Whatever the fields, an entry that leaves the modal is a photo with an image: the modal
      never produces a `document` entry. */
  lemma EmittedEntriesArePhotos(nominal: string, keterangan: string, image: Option<string>)
    requires Emitted(nominal, keterangan, image).OnSubmit?
    ensures Emitted(nominal, keterangan, image).entry == Entry(keterangan, nominal, Photo, image)
    ensures image.Some? && image.value != "" && nominal != "" && keterangan != ""
  {
  }

  class UploadModal {
    var nominal: string
    var keterangan: string
    var selectedImage: Option<string>

    /** The state `resetForm` produces and the modal starts in. */
    predicate IsBlank()
      reads this
    {
      nominal == "" && keterangan == "" && selectedImage == None
    }

    constructor ()
      ensures IsBlank()
    {
      nominal, keterangan, selectedImage := "", "", None;
    }

    /** `onChangeText={setModalNominal}`. */
    method SetNominal(text: string)
      modifies this
      ensures nominal == text
      ensures keterangan == old(keterangan) && selectedImage == old(selectedImage)
    {
      nominal := text;
    }

    /** `onChangeText={setModalKeterangan}`. */
    method SetKeterangan(text: string)
      modifies this
      ensures keterangan == text
      ensures nominal == old(nominal) && selectedImage == old(selectedImage)
    {
      keterangan := text;
    }

    /** `handleImagePicker`: a refused permission or a cancelled picker leaves the image as it
        was; a pick replaces it with the first asset's URI. */
    method HandleImagePicker(outcome: PickerOutcome)
      modifies this
      ensures selectedImage == if outcome.Picked? then Some(outcome.uri) else old(selectedImage)
      ensures nominal == old(nominal) && keterangan == old(keterangan)
    {
      match outcome
      case PermissionDenied =>
      case Cancelled =>
      case Picked(uri) =>
        selectedImage := Some(uri);
    }

    /** `resetForm`: clears all three fields. A reset of a blank modal changes nothing, so
        resetting twice is resetting once. */
    method ResetForm()
      modifies this
      ensures IsBlank()
      ensures old(IsBlank()) ==> unchanged(this)
    {
      nominal, keterangan, selectedImage := "", "", None;
    }

    /** `handleModalSubmit`: with a field missing, nothing is called and nothing changes; otherwise
        `onSubmit` gets one photo entry built from the fields, and the modal is cleared. */
    method HandleModalSubmit() returns (cb: Callback)
      modifies this
      ensures cb == Emitted(old(nominal), old(keterangan), old(selectedImage))
      ensures !Ready(old(nominal), old(keterangan), old(selectedImage)) ==> unchanged(this)
      ensures Ready(old(nominal), old(keterangan), old(selectedImage)) ==> IsBlank()
    {
      if !Ready(nominal, keterangan, selectedImage) {
        return NoCallback;
      }
      cb := OnSubmit(Entry(keterangan, nominal, Photo, selectedImage));
      ResetForm();
    }

    /** `handleClose`: clears the fields and calls `onClose`, never `onSubmit`. */
    method HandleClose() returns (cb: Callback)
      modifies this
      ensures IsBlank() && cb == OnClose
    {
      ResetForm();
      cb := OnClose;
    }
  }
}
