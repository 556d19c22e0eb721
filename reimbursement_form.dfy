/** The claim form of components/reimbursement-form.tsx: it collects a claim type, a detail text
    and a picked date, gathers receipt attachments through the upload modal, and on submit writes
    one claim through the store. Each handler is one atomic step. */
module Form {
  import Seqs
  import Clock
  import Claims
  import Upload

  /** `claimTypes`, the categories the dropdown offers. */
  const ClaimTypes: seq<string> := ["Transportasi", "Makan", "Akomodasi", "Komunikasi"]

  /** The guard of `handleSubmit`, `!date || !claimType || !detail`. `date` holds a `Date` object
      from the first render on, and a `Date` is never false, so only the two strings can stop a
      submission. A claim with no picked date goes through with an empty date text. */
  predicate CanSubmit(claimType: string, detail: string) {
    claimType != "" && detail != ""
  }

  /** The fields `handleSubmit` passes to the store's add: the claim type serves as both title
      and category, no amount is entered, and the status asked for is `pending`. */
  function ClaimFor(claimType: string, detail: string, dateTitle: string): (d: Claims.Draft)
    ensures d.title == claimType && d.category == claimType
    ensures d.amount == "" && d.status == "pending"
    ensures d.date == dateTitle && d.detail == detail
  {
    Claims.Draft(claimType, "", dateTitle, "pending", claimType, detail)
  }

  /** The record a submission stores: the claim type is both its title and its category, the
      amount is empty, the date is the picked date text, and the status is `pending`. */
  lemma SubmittedRecord(slot: Claims.Slot, claimType: string, detail: string, dateTitle: string,
                        now: nat, nowIso: string, io: Claims.Io)
    requires io.writeOk
    ensures var r := Claims.AddStep(slot, ClaimFor(claimType, detail, dateTitle), now, nowIso, io).result;
            r.Ok? && r.value.title == claimType && r.value.category == claimType &&
            r.value.amount == "" && r.value.date == dateTitle && r.value.detail == detail &&
            r.value.status == "pending"
  {
  }

  /** The date takes no part in the guard: on a fresh form, choosing a category and typing a
      detail, without ever touching the date picker, and pressing submit with working storage
      stores a claim whose date text is empty. */
  method SubmitWithoutDate(slot: Claims.Slot, i: nat, text: string, now: nat, nowIso: string)
      returns (s: Submission)
    requires i < |ClaimTypes| && text != ""
    ensures s.Submitted? && s.item.date == ""
    ensures s.item.title == ClaimTypes[i] && s.item.detail == text && s.item.status == "pending"
  {
    var store := new Claims.ClaimStore(slot);
    var form := new ReimbursementForm(store);
    form.SelectClaimType(i);
    form.SetDetail(text);
    s := form.HandleSubmit(now, nowIso, Claims.Reliable);
  }

  /** What a press of the submit button led to. */
  datatype Submission =
    | Disabled           // the button is disabled while a submission is running
    | Incomplete         // the "fill in all fields" alert
    | Submitted(item: Claims.Item)
    | SaveFailed         // the "could not save" alert

  /** The filter predicate of `removeFile`: the attachments that go. */
  function HasId(id: string): Upload.Attachment -> bool {
    (f: Upload.Attachment) => f.id == id
  }

  /** The attachment `handleModalSubmit` builds: the clock's id followed by the entry's fields. */
  function Attach(e: Upload.Entry, now: nat): (a: Upload.Attachment)
    ensures Upload.Entry(a.name, a.amount, a.kind, a.imageUri) == e
    ensures a.id == Clock.Decimal(now)
  {
    Upload.Attachment(Clock.Decimal(now), e.name, e.amount, e.kind, e.imageUri)
  }

  /** Removing an attachment drops every attachment with that id, keeps the others in order, and
      is a no-op for an unknown id. */
  lemma RemoveFileKeepsOthers(files: seq<Upload.Attachment>, id: string)
    ensures forall f :: f in Seqs.Without(files, HasId(id)) <==> f in files && f.id != id
    ensures |Seqs.Without(files, HasId(id))| == |files| - Seqs.Count(files, HasId(id))
    ensures (forall i :: 0 <= i < |files| ==> files[i].id != id) ==> Seqs.Without(files, HasId(id)) == files
    ensures forall more :: Seqs.Without(files + more, HasId(id)) ==
                           Seqs.Without(files, HasId(id)) + Seqs.Without(more, HasId(id))
  {
    Seqs.WithoutLength(files, HasId(id));
    if forall i :: 0 <= i < |files| ==> files[i].id != id {
      Seqs.WithoutNothingDropped(files, HasId(id));
    }
    forall more: seq<Upload.Attachment> ensures Seqs.Without(files + more, HasId(id)) ==
                                       Seqs.Without(files, HasId(id)) + Seqs.Without(more, HasId(id)) {
      Seqs.WithoutConcat(files, more, HasId(id));
    }
  }

  class ReimbursementForm {
    var claimType: string
    var detail: string
    var dateTitle: string
    var showClaimTypeDropdown: bool
    var isSubmitting: bool
    var showUploadModal: bool
    var uploadedFiles: seq<Upload.Attachment>
    const store: Claims.ClaimStore
    const modal: Upload.UploadModal

    constructor (store: Claims.ClaimStore)
      ensures this.store == store && fresh(modal) && modal.IsBlank()
      ensures claimType == "" && detail == "" && dateTitle == ""
      ensures !showClaimTypeDropdown && !isSubmitting && !showUploadModal
      ensures uploadedFiles == []
    {
      this.store := store;
      modal := new Upload.UploadModal();
      claimType, detail, dateTitle := "", "", "";
      showClaimTypeDropdown, isSubmitting, showUploadModal := false, false, false;
      uploadedFiles := [];
    }

    /** Pressing the claim-type field opens or closes the dropdown. */
    method ToggleClaimTypeDropdown()
      modifies this
      ensures showClaimTypeDropdown == !old(showClaimTypeDropdown)
      ensures claimType == old(claimType) && detail == old(detail) && dateTitle == old(dateTitle)
      ensures isSubmitting == old(isSubmitting) && showUploadModal == old(showUploadModal)
      ensures uploadedFiles == old(uploadedFiles)
    {
      showClaimTypeDropdown := !showClaimTypeDropdown;
    }

    /** Choosing the `i`-th entry of the dropdown, which offers only `ClaimTypes`. */
    method SelectClaimType(i: nat)
      requires i < |ClaimTypes|
      modifies this
      ensures claimType == ClaimTypes[i] && !showClaimTypeDropdown
      ensures detail == old(detail) && dateTitle == old(dateTitle)
      ensures isSubmitting == old(isSubmitting) && showUploadModal == old(showUploadModal)
      ensures uploadedFiles == old(uploadedFiles)
    {
      claimType := ClaimTypes[i];
      showClaimTypeDropdown := false;
    }

    /** `onChangeText={setDetail}`. */
    method SetDetail(text: string)
      modifies this
      ensures detail == text
      ensures claimType == old(claimType) && dateTitle == old(dateTitle)
      ensures showClaimTypeDropdown == old(showClaimTypeDropdown)
      ensures isSubmitting == old(isSubmitting) && showUploadModal == old(showUploadModal)
      ensures uploadedFiles == old(uploadedFiles)
    {
      detail := text;
    }

    /** The date picker's `onChange`, with the picked moment already formatted as text. */
    method PickDate(formatted: string)
      modifies this
      ensures dateTitle == formatted
      ensures claimType == old(claimType) && detail == old(detail)
      ensures showClaimTypeDropdown == old(showClaimTypeDropdown)
      ensures isSubmitting == old(isSubmitting) && showUploadModal == old(showUploadModal)
      ensures uploadedFiles == old(uploadedFiles)
    {
      dateTitle := formatted;
    }

    /** `handleFileUpload`: shows the modal. */
    method HandleFileUpload()
      modifies this
      ensures showUploadModal
      ensures claimType == old(claimType) && detail == old(detail) && dateTitle == old(dateTitle)
      ensures showClaimTypeDropdown == old(showClaimTypeDropdown) && isSubmitting == old(isSubmitting)
      ensures uploadedFiles == old(uploadedFiles)
    {
      showUploadModal := true;
    }

    /** `closeUploadModal`: hides the modal. */
    method CloseUploadModal()
      modifies this
      ensures !showUploadModal
      ensures claimType == old(claimType) && detail == old(detail) && dateTitle == old(dateTitle)
      ensures showClaimTypeDropdown == old(showClaimTypeDropdown) && isSubmitting == old(isSubmitting)
      ensures uploadedFiles == old(uploadedFiles)
    {
      showUploadModal := false;
    }

    /** `handleModalSubmit`: appends the entry, with an id from the clock, after the earlier
        attachments, and hides the modal. */
    method HandleModalSubmit(e: Upload.Entry, now: nat)
      modifies this
      ensures uploadedFiles == old(uploadedFiles) + [Attach(e, now)]
      ensures !showUploadModal
      ensures claimType == old(claimType) && detail == old(detail) && dateTitle == old(dateTitle)
      ensures showClaimTypeDropdown == old(showClaimTypeDropdown) && isSubmitting == old(isSubmitting)
    {
      uploadedFiles := uploadedFiles + [Attach(e, now)];
      showUploadModal := false;
    }

    /** `removeFile`: keeps the attachments with another id, in order. */
    method RemoveFile(fileId: string)
      modifies this
      ensures uploadedFiles == Seqs.Without(old(uploadedFiles), HasId(fileId))
      ensures claimType == old(claimType) && detail == old(detail) && dateTitle == old(dateTitle)
      ensures showClaimTypeDropdown == old(showClaimTypeDropdown) && isSubmitting == old(isSubmitting)
      ensures showUploadModal == old(showUploadModal)
    {
      uploadedFiles := Seqs.Without(uploadedFiles, HasId(fileId));
    }

    /** The modal's save button wired to this form: when the modal emits an entry it is appended;
        otherwise the attachments stay as they were. Every attachment added this way is a photo
        with an image. */
    method SaveUpload(now: nat)
      modifies this, modal
      ensures var cb := Upload.Emitted(old(modal.nominal), old(modal.keterangan), old(modal.selectedImage));
              uploadedFiles == if cb.OnSubmit? then old(uploadedFiles) + [Attach(cb.entry, now)]
                               else old(uploadedFiles)
      ensures |uploadedFiles| > |old(uploadedFiles)| ==>
                uploadedFiles[|uploadedFiles| - 1].kind == Upload.Photo &&
                Upload.HasImage(uploadedFiles[|uploadedFiles| - 1].imageUri)
      ensures var cb := Upload.Emitted(old(modal.nominal), old(modal.keterangan), old(modal.selectedImage));
              showUploadModal == (if cb.OnSubmit? then false else old(showUploadModal)) &&
              (cb.OnSubmit? ==> modal.IsBlank()) &&
              (!cb.OnSubmit? ==> modal.nominal == old(modal.nominal) &&
                                 modal.keterangan == old(modal.keterangan) &&
                                 modal.selectedImage == old(modal.selectedImage))
      ensures claimType == old(claimType) && detail == old(detail) && dateTitle == old(dateTitle)
      ensures isSubmitting == old(isSubmitting) && showClaimTypeDropdown == old(showClaimTypeDropdown)
    {
      var cb := modal.HandleModalSubmit();
      if cb.OnSubmit? {
        HandleModalSubmit(cb.entry, now);
      }
    }

    /** The modal's close button wired to this form: the modal is cleared and hidden, and no
        attachment is added. */
    method DismissUpload()
      modifies this, modal
      ensures modal.IsBlank() && !showUploadModal
      ensures uploadedFiles == old(uploadedFiles)
      ensures claimType == old(claimType) && detail == old(detail) && dateTitle == old(dateTitle)
      ensures isSubmitting == old(isSubmitting) && showClaimTypeDropdown == old(showClaimTypeDropdown)
    {
      var cb := modal.HandleClose();
      CloseUploadModal();
    }

    /** `handleSubmit`. With a type or the detail missing, the store is not touched. Otherwise
        `isSubmitting` is raised, the claim is added, and `isSubmitting` is lowered again
        whether the add succeeded or failed. The attachments are neither read nor changed: they
        are not part of the stored claim. */
    method HandleSubmit(now: nat, nowIso: string, io: Claims.Io) returns (s: Submission)
      modifies this, store
      ensures !CanSubmit(old(claimType), old(detail)) ==> s == Incomplete && unchanged(store)
      ensures CanSubmit(old(claimType), old(detail)) ==>
        var step := Claims.AddStep(old(store.slot), ClaimFor(old(claimType), old(detail), old(dateTitle)),
                                   now, nowIso, io);
        store.slot == step.slot &&
        s == (if step.result.Ok? then Submitted(step.result.value) else SaveFailed) &&
        !isSubmitting
      ensures !CanSubmit(old(claimType), old(detail)) ==> isSubmitting == old(isSubmitting)
      ensures uploadedFiles == old(uploadedFiles)
      ensures claimType == old(claimType) && detail == old(detail) && dateTitle == old(dateTitle)
      ensures showUploadModal == old(showUploadModal) && showClaimTypeDropdown == old(showClaimTypeDropdown)
    {
      if !CanSubmit(claimType, detail) {
        return Incomplete;
      }
      isSubmitting := true;
      var r := store.Add(ClaimFor(claimType, detail, dateTitle), now, nowIso, io);
      s := if r.Ok? then Submitted(r.value) else SaveFailed;
      isSubmitting := false;
    }

    /** The submit button: `disabled={isSubmitting}`, so a press during a submission does
        nothing; otherwise it runs `HandleSubmit`. */
    method PressSubmit(now: nat, nowIso: string, io: Claims.Io) returns (s: Submission)
      modifies this, store
      ensures old(isSubmitting) ==> s == Disabled && unchanged(this) && unchanged(store)
      ensures !old(isSubmitting) && !CanSubmit(old(claimType), old(detail)) ==>
                s == Incomplete && unchanged(store)
      ensures !old(isSubmitting) && CanSubmit(old(claimType), old(detail)) ==>
        var step := Claims.AddStep(old(store.slot), ClaimFor(old(claimType), old(detail), old(dateTitle)),
                                   now, nowIso, io);
        store.slot == step.slot &&
        s == (if step.result.Ok? then Submitted(step.result.value) else SaveFailed)
      ensures !old(isSubmitting) ==> !isSubmitting
      ensures uploadedFiles == old(uploadedFiles)
      ensures claimType == old(claimType) && detail == old(detail) && dateTitle == old(dateTitle)
      ensures showUploadModal == old(showUploadModal) && showClaimTypeDropdown == old(showClaimTypeDropdown)
    {
      if isSubmitting {
        return Disabled;
      }
      s := HandleSubmit(now, nowIso, io);
    }
  }
}
