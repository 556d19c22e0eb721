/** The claim store of utils/storage.ts: one storage slot under the key `@reimbursement_data`
    holding the whole list of claims. Every mutating operation reads the full list, transforms
    it (prepend, merge, filter) and writes the full list back.

    The slot is abstracted from its JSON text: it is missing, holds text that does not decode,
    or holds a decodable list. What the platform storage does with each access of one operation
    is an `Io` parameter, so that every failure path of the source can be followed. */
module Claims {
  import opened Optional
  import Seqs
  import Clock

  /** A persisted claim (`ReimbursementItem`). `category` is the record's `type` field. `status`
      is a string: the stored list is whatever decoded, and the list screen has a branch for
      any other value. */
  datatype Item = Item(
    id: string,
    title: string,
    amount: string,
    date: string,
    status: string,
    category: string,
    detail: string,
    createdAt: string)

  /** What a caller hands to `addReimbursementItem`: a claim without `id` and `createdAt`. */
  datatype Draft = Draft(
    title: string,
    amount: string,
    date: string,
    status: string,
    category: string,
    detail: string)

  /** `Partial<ReimbursementItem>`: each field is either present, and then overrides, or missing. */
  datatype Patch = Patch(
    id: Option<string>,
    title: Option<string>,
    amount: Option<string>,
    date: Option<string>,
    status: Option<string>,
    category: Option<string>,
    detail: Option<string>,
    createdAt: Option<string>)

  /** The storage slot under `STORAGE_KEY`, `@reimbursement_data`, the one key the store uses. */
  datatype Slot = Absent | Corrupt | Stored(items: seq<Item>)

  /** How the platform storage answers the accesses of one store operation: whether `getItem`
      succeeds, whether the seeding `setItem` inside a read succeeds, and whether the
      operation's own write succeeds. */
  datatype Io = Io(readOk: bool, seedOk: bool, writeOk: bool)

  const Reliable: Io := Io(true, true, true)

  /** The result of an operation that may throw: the source rethrows every storage error
      after logging it. */
  datatype Outcome<+T> = Ok(value: T) | Failed

  /** The four built-in sample claims (`defaultReimbursementData`). */
  const Defaults: seq<Item> := [
    Item("1", "Transportasi Meeting Client", "Rp 150.000", "15 Jan 2024", "approved",
         "Transportasi", "Biaya transportasi untuk meeting dengan client di Jakarta",
         "2024-01-15T10:00:00.000Z"),
    Item("2", "Makan Siang Tim", "Rp 300.000", "14 Jan 2024", "pending",
         "Makan", "Makan siang bersama tim untuk diskusi project",
         "2024-01-14T12:00:00.000Z"),
    Item("3", "Hotel Business Trip", "Rp 800.000", "12 Jan 2024", "approved",
         "Akomodasi", "Menginap di hotel untuk business trip ke Surabaya",
         "2024-01-12T15:00:00.000Z"),
    Item("4", "Pulsa Internet", "Rp 50.000", "10 Jan 2024", "rejected",
         "Komunikasi", "Pembelian pulsa internet untuk keperluan kerja",
         "2024-01-10T09:00:00.000Z")
  ]

  /** The empty patch `{}`. */
  const Unchanged: Patch := Patch(None, None, None, None, None, None, None, None)

  /** `{ ...item, ...updates }`: every field present in the patch replaces the item's. */
  function Merge(item: Item, p: Patch): (r: Item)
    ensures p == Unchanged ==> r == item
    ensures p.id == None ==> r.id == item.id
    ensures p.status == None ==> r.status == item.status
  {
    Item(
      p.id.GetOr(item.id),
      p.title.GetOr(item.title),
      p.amount.GetOr(item.amount),
      p.date.GetOr(item.date),
      p.status.GetOr(item.status),
      p.category.GetOr(item.category),
      p.detail.GetOr(item.detail),
      p.createdAt.GetOr(item.createdAt))
  }

  /** The record `addReimbursementItem` builds: the caller's fields, the clock's id and
      timestamp, and the status forced to `pending`. */
  function Created(d: Draft, now: nat, nowIso: string): (n: Item)
    ensures n.status == "pending"
    ensures Draft(n.title, n.amount, n.date, d.status, n.category, n.detail) == d
    ensures n.id == Clock.Decimal(now) && n.createdAt == nowIso
  {
    Item(Clock.Decimal(now), d.title, d.amount, d.date, "pending", d.category, d.detail, nowIso)
  }

  /** `existingData.map(item => item.id === id ? { ...item, ...updates } : item)`. */
  function MergeMatching(s: seq<Item>, id: string, p: Patch): (r: seq<Item>)
    ensures |r| == |s|
    ensures forall i :: 0 <= i < |s| && s[i].id != id ==> r[i] == s[i]
    ensures forall i :: 0 <= i < |s| && s[i].id == id ==> r[i] == Merge(s[i], p)
  {
    if s == [] then []
    else [if s[0].id == id then Merge(s[0], p) else s[0]] + MergeMatching(s[1..], id, p)
  }

  /** The filter predicate of `deleteReimbursementItem`: the items that go. */
  function HasId(id: string): Item -> bool {
    (x: Item) => x.id == id
  }

  /** `existingData.filter(item => item.id !== id)`. */
  function RemoveId(s: seq<Item>, id: string): (r: seq<Item>)
    ensures |r| <= |s|
    ensures forall x :: x in r <==> x in s && x.id != id
  {
    Seqs.Without(s, HasId(id))
  }

  /** What `getReimbursementData` returns, and the slot it leaves behind. */
  datatype Fetched = Fetched(items: seq<Item>, slot: Slot)

  /** `getReimbursementData`. A decodable list is returned as stored. A missing slot is seeded
      with the defaults, which are returned. A failed read, text that does not decode, or a
      failed seeding write is caught: the defaults are returned and nothing is written. */
  function Fetch(slot: Slot, io: Io): (f: Fetched)
    ensures f.items == Defaults || (io.readOk && slot == Stored(f.items))
    ensures f.slot == slot || (slot == Absent && f.slot == Stored(Defaults))
  {
    if !io.readOk then Fetched(Defaults, slot)
    else match slot
      case Stored(items) => Fetched(items, slot)
      case Corrupt => Fetched(Defaults, slot)
      case Absent => Fetched(Defaults, if io.seedOk then Stored(Defaults) else Absent)
  }

  /** The result of a writing operation and the slot it leaves behind. */
  datatype Step<+T> = Step(result: Outcome<T>, slot: Slot)

  /** `setReimbursementData`: overwrite the slot, or fail and leave it alone. */
  function Save(items: seq<Item>, slot: Slot, writeOk: bool): (st: Step<()>)
    ensures st.result.Ok? <==> writeOk
    ensures writeOk ==> st.slot == Stored(items)
    ensures !writeOk ==> st.slot == slot
  {
    if writeOk then Step(Ok(()), Stored(items)) else Step(Failed, slot)
  }

  /** `addReimbursementItem`: read, prepend the new record, write back, return the record. */
  function AddStep(slot: Slot, d: Draft, now: nat, nowIso: string, io: Io): (st: Step<Item>)
    ensures st.result.Ok? <==> io.writeOk
    ensures st.result.Ok? ==> st.result.value.status == "pending" &&
                              st.slot == Stored([st.result.value] + Fetch(slot, io).items)
    ensures st.result.Failed? ==> st.slot == Fetch(slot, io).slot
  {
    var f := Fetch(slot, io);
    var n := Created(d, now, nowIso);
    if io.writeOk then Step(Ok(n), Stored([n] + f.items)) else Step(Failed, f.slot)
  }

  /** `updateReimbursementItem`: read, merge the patch into every matching record, write back. */
  function UpdateStep(slot: Slot, id: string, p: Patch, io: Io): (st: Step<()>)
    ensures st.result.Ok? <==> io.writeOk
    ensures st.result.Ok? ==> st.slot.Stored? && |st.slot.items| == |Fetch(slot, io).items|
    ensures st.result.Failed? ==> st.slot == Fetch(slot, io).slot
  {
    var f := Fetch(slot, io);
    Save(MergeMatching(f.items, id, p), f.slot, io.writeOk)
  }

  /** `deleteReimbursementItem`: read, keep the records with another id, write back. */
  function DeleteStep(slot: Slot, id: string, io: Io): (st: Step<()>)
    ensures st.result.Ok? <==> io.writeOk
    ensures st.result.Ok? ==> st.slot.Stored? && |st.slot.items| <= |Fetch(slot, io).items| &&
                              forall x :: x in st.slot.items ==> x.id != id
    ensures st.result.Failed? ==> st.slot == Fetch(slot, io).slot
  {
    var f := Fetch(slot, io);
    Save(RemoveId(f.items, id), f.slot, io.writeOk)
  }

  /** `clearReimbursementData`: remove the key. */
  function ClearStep(slot: Slot, removeOk: bool): (st: Step<()>)
    ensures st.result.Ok? <==> removeOk
    ensures st.slot == if removeOk then Absent else slot
  {
    if removeOk then Step(Ok(()), Absent) else Step(Failed, slot)
  }

  /** `resetToDefaultData`: overwrite the slot with the defaults. */
  function ResetStep(slot: Slot, writeOk: bool): (st: Step<()>)
    ensures st.result.Ok? <==> writeOk
    ensures st.result.Ok? ==> st.slot == Stored(Defaults)
    ensures st.result.Failed? ==> st.slot == slot
  {
    Save(Defaults, slot, writeOk)
  }

  /** The store object: the one slot, read and overwritten in place. */
  class ClaimStore {
    var slot: Slot

    constructor (initial: Slot)
      ensures slot == initial
    {
      slot := initial;
    }

    /** `getReimbursementData`: never fails; may seed the slot. */
    method Get(io: Io) returns (items: seq<Item>)
      modifies this
      ensures Fetched(items, slot) == Fetch(old(slot), io)
    {
      if !io.readOk {
        // getItem threw; the catch returns the defaults
        return Defaults;
      }
      match slot
      case Stored(s) =>
        items := s;
      case Corrupt =>
        // JSON.parse threw; the catch returns the defaults
        items := Defaults;
      case Absent =>
        // a failed seeding write is caught as well
        var seeded := Set(Defaults, io.seedOk);
        items := Defaults;
    }

    /** `setReimbursementData`: a failed write is rethrown. */
    method Set(items: seq<Item>, writeOk: bool) returns (r: Outcome<()>)
      modifies this
      ensures Step(r, slot) == Save(items, old(slot), writeOk)
    {
      if writeOk {
        slot := Stored(items);
        r := Ok(());
      } else {
        r := Failed;
      }
    }

    method Add(d: Draft, now: nat, nowIso: string, io: Io) returns (r: Outcome<Item>)
      modifies this
      ensures Step(r, slot) == AddStep(old(slot), d, now, nowIso, io)
    {
      var existing := Get(io);
      var n := Created(d, now, nowIso);
      var saved := Set([n] + existing, io.writeOk);
      r := if saved.Ok? then Ok(n) else Failed;
    }

    method Update(id: string, p: Patch, io: Io) returns (r: Outcome<()>)
      modifies this
      ensures Step(r, slot) == UpdateStep(old(slot), id, p, io)
    {
      var existing := Get(io);
      r := Set(MergeMatching(existing, id, p), io.writeOk);
    }

    method Delete(id: string, io: Io) returns (r: Outcome<()>)
      modifies this
      ensures Step(r, slot) == DeleteStep(old(slot), id, io)
    {
      var existing := Get(io);
      r := Set(RemoveId(existing, id), io.writeOk);
    }

    method Clear(removeOk: bool) returns (r: Outcome<()>)
      modifies this
      ensures Step(r, slot) == ClearStep(old(slot), removeOk)
    {
      if removeOk {
        slot := Absent;
        r := Ok(());
      } else {
        r := Failed;
      }
    }

    method ResetToDefault(writeOk: bool) returns (r: Outcome<()>)
      modifies this
      ensures Step(r, slot) == ResetStep(old(slot), writeOk)
    {
      r := Set(Defaults, writeOk);
    }
  }
}
