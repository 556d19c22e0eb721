# Reimbursement claims: store, form and list, modelled in Dafny

This project models the logic under the screens of a mobile expense-reimbursement app:

- **Claim store** (`utils/storage.ts`). All claims live in one storage slot under the key
  `@reimbursement_data`. Get seeds four sample claims into a missing slot. It falls back to those
  samples, without writing, when the read fails or the stored text does not decode. Add, update
  and delete each read the whole list, transform it and write it all back. A new claim is
  prepended and is always `pending`. Update merges a partial record into every claim with the id.
  Delete filters out every claim with the id. Clear removes the slot, and reset writes the samples
  back. Every write failure of set, add, update, delete, clear and reset is rethrown; only the
  seeding write inside get is caught.
- **Claim form** (`components/reimbursement-form.tsx`). It keeps a claim type, a detail text, a
  date text, an `isSubmitting` flag, the upload-modal flag and the list of receipt attachments.
  Submitting checks that a type and a detail are present and adds one claim through the store.
  Attachments are appended through the upload modal and removed by id. They are never stored with
  the claim.
- **Upload modal** (`components/upload-modal.tsx`). It holds a nominal amount, a description and a
  picked image. Saving with all three present hands the form one `photo` entry and clears the
  modal. Closing only clears it.
- **Claim list** (`components/reimbursement-list.tsx`). It shows what the store's get returns. Each
  status gets a colour and a label, and each category an icon. A `loading` flag surrounds every
  load and a `refreshing` flag surrounds a pull-to-refresh.

The storage slot is abstracted from its JSON text as `Absent | Corrupt | Stored(items)`. A value
`Io(readOk, seedOk, writeOk)` says how the platform storage answers one operation:

- whether `getItem` succeeds;
- whether the seeding write inside a get succeeds;
- whether the operation's own write succeeds.

Clock readings are parameters: `Date.now()` is a `nat` rendered in decimal, and the ISO timestamp
is a string. Each asynchronous handler is one atomic step. The store, form and list are classes
whose methods change their fields. Every store method is proved equal to a step function over
slots (`Fetch`, `AddStep`, `UpdateStep`, `DeleteStep`, `ClearStep`, `ResetStep`, `Save`). The
lemmas in `ClaimsProperties` state what the store promises in terms of those functions.

Behaviour worth knowing, as the code has it:

- A submission needs no date. `handleSubmit` tests `!date`, but `date` is always a `Date` object,
  so that test never rejects. A claim with no picked date is stored with an empty date text
  (`Form.CanSubmit`, `Form.SubmitWithoutDate`).
- Add never fails because of its read. The read is the store's own get, which never fails: a
  failed read gives the samples, and add then writes the new claim ahead of the samples
  (`ClaimsProperties.AddToAbsent`, `ClaimsProperties.AddToCorrupt`).
- Record ids are not guaranteed unique. Ids come from the millisecond clock: distinct readings
  give distinct ids (`Clock.DecimalInjective`), and a reading of 0 or above 4 cannot collide with a sample
  id (`ClaimsProperties.ClockIdAvoidsDefaults`), but two adds within one millisecond share an id.
- Submitting leaves the attachment list untouched; it goes away only when the screen is left.
- The list screen's catch branch in `loadReimbursementData` can never run, because get never fails.

## Model

| member | source | states |
|---|---|---|
| `Seqs.Without` | utils/storage.ts:126 | The order-preserving filter used by delete and by attachment removal: the result keeps exactly the elements not dropped and is never longer than the input |
| `Clock.Decimal` | utils/storage.ts:94 | `Date.now().toString()`: at least one digit, digits only, a single digit exactly for readings below 10, no leading zero |
| `Clock.DecimalInjective` | components/reimbursement-form.tsx:145 | Distinct clock readings give distinct ids |
| `Seqs.WithoutIdempotent` | utils/storage.ts:126 | Filtering twice equals filtering once, so deleting the same id twice leaves what one delete leaves |
| `Claims.Merge` | utils/storage.ts:113 | The shallow merge: the empty patch leaves a record as it was, and a patch without an id or a status keeps the record's own |
| `Claims.Created` | utils/storage.ts:92-97 | The new record carries every field the caller passed except the status, which is forced to pending, plus the clock's id and timestamp |
| `Claims.RemoveId` | utils/storage.ts:126 | Keeps exactly the records with another id and is never longer than its input |
| `Claims.Save` | utils/storage.ts:78-86 | Succeeds exactly when the write does; on success the slot holds the list, on failure it is unchanged |
| `Claims.AddStep` | utils/storage.ts:89-106 | Succeeds exactly when the write does; on success the slot holds the pending record followed by what get returned, on failure what get left |
| `Claims.UpdateStep` | utils/storage.ts:109-120 | Succeeds exactly when the write does; on success the slot holds a list as long as what get returned, on failure what get left |
| `Claims.DeleteStep` | utils/storage.ts:123-132 | Succeeds exactly when the write does; on success the slot holds no record with the id and is no longer than what get returned, on failure what get left |
| `Claims.ClearStep` | utils/storage.ts:135-142 | Succeeds exactly when the removal does, and then the slot is absent; otherwise it is unchanged |
| `Claims.ResetStep` | utils/storage.ts:145-152 | Succeeds exactly when the write does, and then the slot holds the samples; otherwise it is unchanged |
| `Claims.MergeMatching` | utils/storage.ts:112-114 | The update map keeps the length, replaces each record with the id by the shallow merge and leaves every other record as it was |
| `Claims.Fetch` | utils/storage.ts:61-75 | Get returns either the samples or exactly what a readable slot stores, and its only write is seeding a missing slot with the samples |
| `Claims.ClaimStore.constructor` | utils/storage.ts:14 | A store over the given slot |
| `Claims.ClaimStore.Get` | utils/storage.ts:61-75 | The returned list and the new slot are those of `Fetch`: it never fails, and it may seed |
| `Claims.ClaimStore.Set` | utils/storage.ts:78-86 | Overwrites the slot with the list, or reports the failure and leaves the slot alone |
| `Claims.ClaimStore.Add` | utils/storage.ts:89-106 | Result and new slot are those of `AddStep`: read, prepend the new pending record, write back, return the record or rethrow |
| `Claims.ClaimStore.Update` | utils/storage.ts:109-120 | Result and new slot are those of `UpdateStep`: read, merge into the matching records, write back or rethrow |
| `Claims.ClaimStore.Delete` | utils/storage.ts:123-132 | Result and new slot are those of `DeleteStep`: read, filter out the id, write back or rethrow |
| `Claims.ClaimStore.Clear` | utils/storage.ts:135-142 | The slot becomes absent, or the failure is reported and the slot is unchanged |
| `Claims.ClaimStore.ResetToDefault` | utils/storage.ts:145-152 | The slot holds the four samples, or the failure is reported and the slot is unchanged |
| `ClaimsProperties.DefaultsShape` | utils/storage.ts:17-58 | Four samples with distinct ids; the first has id "1", is titled "Transportasi Meeting Client" and is approved; pending and rejected also occur |
| `ClaimsProperties.ClockIdAvoidsDefaults` | utils/storage.ts:94 | An id from the clock reading 0 or from any reading above 4 differs from every sample id |
| `ClaimsProperties.GetSeedsDefaults` | utils/storage.ts:64-69 | On a missing slot get returns exactly the samples and stores them, unless the seeding write fails; then the slot stays missing and the samples are still returned |
| `ClaimsProperties.GetReturnsStored` | utils/storage.ts:63-65 | On a decodable slot get returns the stored list unchanged and writes nothing |
| `ClaimsProperties.GetFallsBack` | utils/storage.ts:71-74 | A failed read or undecodable text gives the samples and leaves the slot as it was |
| `ClaimsProperties.GetTwice` | utils/storage.ts:61-75 | Two successful reads with no write between them return the same list; after a seeding first read the second writes nothing |
| `ClaimsProperties.AddForcesPending` | utils/storage.ts:92-97 | Add succeeds exactly when its write does; the returned record is pending whatever status was passed, has the clock's id and timestamp and the caller's other fields |
| `ClaimsProperties.AddPrepends` | utils/storage.ts:99-101 | After a successful add the slot holds the new record followed by exactly the list get returned: one longer, old order kept |
| `ClaimsProperties.AddToAbsent` | utils/storage.ts:64-74 | Add on a missing slot stores the new record followed by the four samples (five records), whether its read failed or succeeded and even if the seeding write failed |
| `ClaimsProperties.AddToCorrupt` | utils/storage.ts:71-74 | Add on undecodable text overwrites it with the new record followed by the samples |
| `ClaimsProperties.AddTwice` | utils/storage.ts:99 | Adding a then b and reading back gives b, a, then the earlier list |
| `ClaimsProperties.WriteFailuresPropagate` | utils/storage.ts:82-84 | A failed write makes set, add, update, delete, clear and reset report failure; the slot is what the operation's read left |
| `ClaimsProperties.MergeMatchingNoMatch` | utils/storage.ts:112-114 | With no record carrying the id, the update map returns the list unchanged |
| `ClaimsProperties.MergeMatchingIdempotent` | utils/storage.ts:112-114 | Updating twice with the same patch equals updating once, for every patch, including one that changes the id |
| `ClaimsProperties.UpdateMergesMatching` | utils/storage.ts:109-115 | A successful update stores a list of the same length in which records with the id are merged and all others are unchanged |
| `ClaimsProperties.UpdateUnknownId` | utils/storage.ts:112-115 | Updating an unknown id on a stored list leaves the slot exactly as it was |
| `ClaimsProperties.DeleteKeepsOthers` | utils/storage.ts:126-127 | A successful delete stores exactly the records with another id, and the list shrinks by the number that had it |
| `ClaimsProperties.RemoveIdKeepsOrder` | utils/storage.ts:126 | Filtering a list equals filtering its front followed by filtering its back, so survivors keep their relative order |
| `ClaimsProperties.DeleteUnknownId` | utils/storage.ts:126-127 | Deleting an unknown id on a stored list leaves the slot exactly as it was |
| `ClaimsProperties.DeleteThenGet` | utils/storage.ts:123-132 | Deleting the id of one stored record and reading back gives one record fewer and none with that id |
| `ClaimsProperties.ClearThenGet` | utils/storage.ts:135-142 | After clear the slot is missing, and the next get seeds and returns the four samples |
| `ClaimsProperties.ResetThenGet` | utils/storage.ts:145-152 | A successful reset stores the samples, and every read then returns them, whether it succeeds or falls back |
| `ClaimsProperties.SeedAddClearScenario` | utils/storage.ts:61-142 | Through the store object on working storage: the first get on empty storage shows the samples, an added claim comes back pending and the next get shows it ahead of the samples, and after clear get shows the samples again |
| `ClaimsProperties.SeedThenAddScenario` | utils/storage.ts:61-106 | From empty storage get shows four samples led by the approved transport claim; an added claim comes back pending and the next get shows five records with it first |
| `Upload.HasImage` | components/upload-modal.tsx:56 | `!!selectedImage`: an image counts only when it is present and not the empty string |
| `Upload.Ready` | components/upload-modal.tsx:56 | The save guard: an image, a nominal and a description, all present |
| `Upload.Emitted` | components/upload-modal.tsx:55-68 | The modal calls onSubmit exactly when an image (neither null nor empty), a nominal and a description are present, never onClose, with a photo entry named after the description and carrying the nominal |
| `Upload.EmittedEntriesArePhotos` | components/upload-modal.tsx:61-66 | Any entry the modal emits is exactly a photo with the description, the nominal and a present image |
| `Upload.UploadModal.constructor` | components/upload-modal.tsx:31-33 | The modal starts blank |
| `Upload.UploadModal.SetNominal` | components/upload-modal.tsx:127 | Sets the nominal only |
| `Upload.UploadModal.SetKeterangan` | components/upload-modal.tsx:140 | Sets the description only |
| `Upload.UploadModal.HandleImagePicker` | components/upload-modal.tsx:35-53 | Refused permission or a cancelled picker leaves the image as it was; a pick sets it to the first asset's URI; the text fields are untouched |
| `Upload.UploadModal.ResetForm` | components/upload-modal.tsx:72-76 | All three fields are cleared, and a reset of a blank modal changes nothing (idempotent) |
| `Upload.UploadModal.HandleModalSubmit` | components/upload-modal.tsx:55-70 | With a field missing, no callback and no change; otherwise one onSubmit with the photo entry, and the modal is blank |
| `Upload.UploadModal.HandleClose` | components/upload-modal.tsx:78-81 | The modal is blank and onClose, never onSubmit, is called |
| `Form.SubmittedRecord` | components/reimbursement-form.tsx:103-110 | A submitted claim has the claim type as title and category, an empty amount, the date text, the detail, and status pending |
| `Form.CanSubmit` | components/reimbursement-form.tsx:96 | The submit guard admits exactly a non-empty type and a non-empty detail; the always-present date object plays no part |
| `Form.ClaimFor` | components/reimbursement-form.tsx:103-110 | The fields handed to add: the type as title and category, no amount, the date text, the detail, status pending |
| `Form.SubmitWithoutDate` | components/reimbursement-form.tsx:71-110 | On a fresh form, choosing a category and a detail without touching the date picker and submitting with working storage stores a pending claim with an empty date text |
| `Form.Attach` | components/reimbursement-form.tsx:144-147 | An attachment carries exactly the entry's fields, with the clock's decimal id |
| `Form.RemoveFileKeepsOthers` | components/reimbursement-form.tsx:153-155 | Removal keeps exactly the attachments with another id, in relative order, shrinks by the number removed, and is a no-op for an unknown id |
| `Form.ReimbursementForm.constructor` | components/reimbursement-form.tsx:31-44 | Empty type, detail and date text, flags down, no attachments, a blank modal |
| `Form.ReimbursementForm.ToggleClaimTypeDropdown` | components/reimbursement-form.tsx:199 | Flips the dropdown flag and nothing else |
| `Form.ReimbursementForm.SelectClaimType` | components/reimbursement-form.tsx:209-216 | Sets the type to the chosen offered category and closes the dropdown |
| `Form.ReimbursementForm.SetDetail` | components/reimbursement-form.tsx:233 | Sets the detail only |
| `Form.ReimbursementForm.PickDate` | components/reimbursement-form.tsx:74-80 | Sets the date text only |
| `Form.ReimbursementForm.HandleFileUpload` | components/reimbursement-form.tsx:133-135 | Shows the modal and changes nothing else |
| `Form.ReimbursementForm.CloseUploadModal` | components/reimbursement-form.tsx:157-159 | Hides the modal and changes nothing else |
| `Form.ReimbursementForm.HandleModalSubmit` | components/reimbursement-form.tsx:144-150 | Appends exactly one attachment with the clock's id and the entry's fields after the unchanged earlier ones, and hides the modal |
| `Form.ReimbursementForm.RemoveFile` | components/reimbursement-form.tsx:153-155 | The attachments become the order-preserving filter of those with another id |
| `Form.ReimbursementForm.SaveUpload` | components/reimbursement-form.tsx:346-350 | The modal's save wired to the form: when the modal emits an entry it is appended, the modal is blank and hidden; otherwise attachments, modal fields and visibility are unchanged; any appended attachment is a photo with an image; the other form fields are unchanged |
| `Form.ReimbursementForm.DismissUpload` | components/reimbursement-form.tsx:346-350 | The modal's close wired to the form blanks the modal, hides it, adds no attachment and changes no other form field |
| `Form.ReimbursementForm.HandleSubmit` | components/reimbursement-form.tsx:95-131 | With the type or detail missing the store is untouched; otherwise the store takes the add step for the form's fields, the outcome reports the stored record or the failure, and isSubmitting ends false; attachments never change |
| `Form.ReimbursementForm.PressSubmit` | components/reimbursement-form.tsx:327-329 | While isSubmitting the press does nothing; otherwise it is exactly a submit: with the type or detail missing the store is untouched, else the store takes the add step and the outcome reports the record or the failure; isSubmitting ends false and no other field changes |
| `Listing.StatusColor` | components/reimbursement-list.tsx:57-68 | approved, pending and rejected each have their own colour (#27ae60, #f39c12, #e74c3c), and exactly the other strings get #95a5a6 |
| `Listing.StatusText` | components/reimbursement-list.tsx:70-81 | approved, pending and rejected read Disetujui, Menunggu and Ditolak, and exactly the other strings read Unknown |
| `Listing.TypeIcon` | components/reimbursement-list.tsx:83-96 | Transportasi, Makan, Akomodasi and Komunikasi map to car, restaurant, bed and call icons, and exactly the strings outside the form's categories get document-outline |
| `Listing.KnownStatusesDistinct` | components/reimbursement-list.tsx:57-81 | Two different known statuses get different colours and labels, none of them the fallback |
| `Listing.ClaimTypesHaveIcons` | components/reimbursement-form.tsx:46-51 | Every category the form offers gets its own non-fallback icon |
| `Listing.StoredStatusesAreKnown` | components/reimbursement-list.tsx:132-133 | Every sample and every newly added claim shows a known status; a new claim shows the pending colour |
| `Listing.EmptyOnlyWhenStoredEmpty` | components/reimbursement-list.tsx:180-186 | The empty-state message appears only when a readable slot stores an empty list |
| `Listing.ReimbursementList.constructor` | components/reimbursement-list.tsx:22-24 | Nothing shown, loading on, not refreshing |
| `Listing.ReimbursementList.Load` | components/reimbursement-list.tsx:26-37 | Shows exactly what get returns, leaves the store as get leaves it, and ends with loading off |
| `Listing.ReimbursementList.Refresh` | components/reimbursement-list.tsx:39-43 | One load, then both refreshing and loading are off |

## Left out

- JSON encoding and the platform key-value store: the slot is the abstract `Absent | Corrupt | Stored`, and every storage outcome is a parameter. Text that decodes to something other than a list of claims (for example the text `null`) cannot be represented: in the source, get returns such a value as it is. For `null`, a number, a boolean or an object, add, update and delete then throw a TypeError; for a JSON string, update and delete throw and add stores the new claim followed by the string's characters; for an array, add never throws, and update and delete throw a TypeError when an element is `null` and otherwise do not.
- Clocks: `Date.now()` and `new Date().toISOString()` are parameters. Ids are not claimed unique, because the code does not make them so.
- Date picking and `moment` formatting: the picked date arrives already formatted as text.
- Permission prompts and the image library: only their outcome (refused, cancelled, first asset's URI) is modelled.
- Alerts, navigation (`router.back`), rendering, styles, and when React runs `useEffect` and `useFocusEffect`: the list's loads are the `Load` method, called whenever the screen mounts or regains focus.
- `console.error` logging in every catch branch.
- The static approval-line data of the form: it is display data with no behaviour.
- app/reimbursement.tsx: a route wrapper with no logic.
- Interleaving of asynchronous handlers: each runs as one atomic step, so the raised `isSubmitting` and `loading` flags are never observed mid-operation.
- Form.ReimbursementForm.PressSubmit: the disabled button only matters while a submission is in flight. Under atomic steps `isSubmitting` is false whenever a press can happen, so the guard is modelled but never exercised.
- Claims.Merge: a patch field that is present with the value `undefined` overwrites in JavaScript; the model treats a field as either present with a string or missing.
- Upload.UploadModal.HandleImagePicker: a picker result that is not cancelled but has no assets would throw in the source; the model takes the first asset's URI as given.
