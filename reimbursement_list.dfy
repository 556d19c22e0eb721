/** The claim list of components/reimbursement-list.tsx: it shows what the store's get returns,
    with a colour and a label per status and an icon per category, and keeps a `loading` flag
    around each load and a `refreshing` flag around a pull-to-refresh. */
module Listing {
  import Claims
  import Form

  const Green: string := "#27ae60"
  const Amber: string := "#f39c12"
  const Red: string := "#e74c3c"
  const Grey: string := "#95a5a6"

  const FallbackIcon: string := "document-outline"

  /** The three statuses a claim can have. */
  predicate KnownStatus(status: string) {
    status == "approved" || status == "pending" || status == "rejected"
  }

  /** `getStatusColor`: each known status has its own colour, and every other string the grey
      fallback. */
  function StatusColor(status: string): (c: string)
    ensures c == Green <==> status == "approved"
    ensures c == Amber <==> status == "pending"
    ensures c == Red <==> status == "rejected"
    ensures c == Grey <==> !KnownStatus(status)
  {
    match status
    case "approved" => Green
    case "pending" => Amber
    case "rejected" => Red
    case _ => Grey
  }

  /** `getStatusText`: each known status has its own Indonesian label, and every other string
      reads `Unknown`. */
  function StatusText(status: string): (t: string)
    ensures t == "Disetujui" <==> status == "approved"
    ensures t == "Menunggu" <==> status == "pending"
    ensures t == "Ditolak" <==> status == "rejected"
    ensures t == "Unknown" <==> !KnownStatus(status)
  {
    match status
    case "approved" => "Disetujui"
    case "pending" => "Menunggu"
    case "rejected" => "Ditolak"
    case _ => "Unknown"
  }

  /** `getTypeIcon`: the four categories have their own icons, and every other string the
      generic document icon. */
  function TypeIcon(category: string): (icon: string)
    ensures icon == "car-outline" <==> category == "Transportasi"
    ensures icon == "restaurant-outline" <==> category == "Makan"
    ensures icon == "bed-outline" <==> category == "Akomodasi"
    ensures icon == "call-outline" <==> category == "Komunikasi"
    ensures icon == FallbackIcon <==> category !in Form.ClaimTypes
  {
    match category
    case "Transportasi" => "car-outline"
    case "Makan" => "restaurant-outline"
    case "Akomodasi" => "bed-outline"
    case "Komunikasi" => "call-outline"
    case _ => FallbackIcon
  }

  /** The status badge tells the three statuses apart, in colour and in text, and tells each
      of them apart from an unrecognised status. */
  lemma KnownStatusesDistinct(a: string, b: string)
    requires KnownStatus(a) && KnownStatus(b) && a != b
    ensures StatusColor(a) != StatusColor(b) && StatusText(a) != StatusText(b)
    ensures StatusColor(a) != Grey && StatusText(a) != "Unknown"
  {
  }

  /** Every category the form offers gets an icon of its own, never the fallback, and no two
      categories share one. */
  lemma ClaimTypesHaveIcons()
    ensures forall t :: t in Form.ClaimTypes ==> TypeIcon(t) != FallbackIcon
    ensures forall i, j :: 0 <= i < j < |Form.ClaimTypes| ==>
              TypeIcon(Form.ClaimTypes[i]) != TypeIcon(Form.ClaimTypes[j])
  {
  }

  /** Every record the store can create or seed shows a known status: new claims are `pending`,
      and the defaults are approved, pending or rejected. */
  lemma StoredStatusesAreKnown(slot: Claims.Slot, d: Claims.Draft, now: nat, nowIso: string, io: Claims.Io)
    ensures forall i :: 0 <= i < |Claims.Defaults| ==> KnownStatus(Claims.Defaults[i].status)
    ensures Claims.AddStep(slot, d, now, nowIso, io).result.Ok? ==>
              StatusColor(Claims.AddStep(slot, d, now, nowIso, io).result.value.status) == Amber
  {
  }

  /** The screen shows its empty-state message only when a readable slot holds an empty list:
      every fallback path shows the four defaults. */
  lemma EmptyOnlyWhenStoredEmpty(slot: Claims.Slot, io: Claims.Io)
    requires Claims.Fetch(slot, io).items == []
    ensures io.readOk && slot == Claims.Stored([])
  {
  }

  class ReimbursementList {
    var items: seq<Claims.Item>
    var loading: bool
    var refreshing: bool
    const store: Claims.ClaimStore

    /** The first render: nothing shown yet, the spinner on. */
    constructor (store: Claims.ClaimStore)
      ensures this.store == store
      ensures items == [] && loading && !refreshing
    {
      this.store := store;
      items, loading, refreshing := [], true, false;
    }

    /** `loadReimbursementData`: raise `loading`, show what get returns, lower `loading`. The
        source's catch branch is never taken, because get itself never fails. */
    method Load(io: Claims.Io)
      modifies this, store
      ensures var f := Claims.Fetch(old(store.slot), io);
              items == f.items && store.slot == f.slot
      ensures !loading
      ensures refreshing == old(refreshing)
    {
      loading := true;
      var data := store.Get(io);
      items := data;
      loading := false;
    }

    /** `onRefresh`: raise `refreshing`, load once, lower `refreshing`. */
    method Refresh(io: Claims.Io)
      modifies this, store
      ensures var f := Claims.Fetch(old(store.slot), io);
              items == f.items && store.slot == f.slot
      ensures !loading && !refreshing
    {
      refreshing := true;
      Load(io);
      refreshing := false;
    }
  }
}
