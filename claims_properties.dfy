/** What the claim store promises its callers, stated over the step functions that the
    `ClaimStore` methods are proved equal to. */
module ClaimsProperties {
  import opened Claims
  import Seqs
  import Clock

  /** The built-in set: four claims with ids "1" to "4", the first an approved transport claim,
      every status represented. */
  lemma DefaultsShape()
    ensures |Defaults| == 4
    ensures Defaults[0].id == "1" && Defaults[0].status == "approved"
    ensures Defaults[0].title == "Transportasi Meeting Client"
    ensures Defaults[1].status == "pending" && Defaults[3].status == "rejected"
    ensures forall i, j :: 0 <= i < j < |Defaults| ==> Defaults[i].id != Defaults[j].id
  {
  }

  /** An id taken from the clock reading 0 or from any reading above 4 differs from every built-in
      id, so a new claim never shadows a default one. Nothing else makes ids unique: two claims added within the
      same millisecond share an id. */
  lemma ClockIdAvoidsDefaults(now: nat)
    requires now == 0 || now > 4
    ensures forall i :: 0 <= i < |Defaults| ==> Defaults[i].id != Clock.Decimal(now)
  {
    if now < 10 {
      assert Clock.Decimal(now) == [Clock.Digit(now)];
    }
  }

  /** On a missing slot, get returns exactly the defaults and writes them, unless that write
      fails; then nothing is written and the defaults are still returned. */
  lemma GetSeedsDefaults(io: Io)
    requires io.readOk
    ensures Fetch(Absent, io) == Fetched(Defaults, if io.seedOk then Stored(Defaults) else Absent)
  {
  }

  /** On a decodable slot, get returns the list as stored and writes nothing. */
  lemma GetReturnsStored(items: seq<Item>, io: Io)
    requires io.readOk
    ensures Fetch(Stored(items), io) == Fetched(items, Stored(items))
  {
  }

  /** A failed read or undecodable text gives the defaults, silently, and the slot stays as it was. */
  lemma GetFallsBack(slot: Slot, io: Io)
    requires !io.readOk || slot == Corrupt
    ensures Fetch(slot, io) == Fetched(Defaults, slot)
  {
  }

  /** Two gets with no write between them, both reading successfully, return the same list; once
      the first has seeded, the second writes nothing. */
  lemma GetTwice(slot: Slot, first: Io, second: Io)
    requires first.readOk && second.readOk
    ensures Fetch(Fetch(slot, first).slot, second).items == Fetch(slot, first).items
    ensures first.seedOk ==> Fetch(Fetch(slot, first).slot, second).slot == Fetch(slot, first).slot
  {
  }

  /** Add succeeds exactly when its write does, and the record it returns is `pending` whatever
      status the caller passed, carries the clock's id and timestamp and the caller's fields. */
  lemma AddForcesPending(slot: Slot, d: Draft, now: nat, nowIso: string, io: Io)
    ensures AddStep(slot, d, now, nowIso, io).result.Ok? <==> io.writeOk
    ensures AddStep(slot, d, now, nowIso, io).result.Ok? ==>
      var n := AddStep(slot, d, now, nowIso, io).result.value;
      n.status == "pending" && n.id == Clock.Decimal(now) && n.createdAt == nowIso &&
      n.title == d.title && n.amount == d.amount && n.date == d.date &&
      n.category == d.category && n.detail == d.detail
  {
  }

  /** A successful add stores the new record ahead of everything get returned, which keeps its
      order: the list grows by exactly one. */
  lemma AddPrepends(slot: Slot, d: Draft, now: nat, nowIso: string, io: Io)
    requires io.writeOk
    ensures var prev := Fetch(slot, io).items;
            var after := AddStep(slot, d, now, nowIso, io).slot;
            after.Stored? && |after.items| == |prev| + 1 &&
            after.items[0] == AddStep(slot, d, now, nowIso, io).result.value &&
            after.items[1..] == prev
  {
    var prev := Fetch(slot, io).items;
    var n := Created(d, now, nowIso);
    assert ([n] + prev)[1..] == prev;
  }

  /** Add on a missing slot stores the new record followed by the four defaults, whether its read
      succeeded or failed and whether or not the seeding write inside that read succeeded. */
  lemma AddToAbsent(d: Draft, now: nat, nowIso: string, io: Io)
    requires io.writeOk
    ensures AddStep(Absent, d, now, nowIso, io).slot == Stored([Created(d, now, nowIso)] + Defaults)
    ensures |AddStep(Absent, d, now, nowIso, io).slot.items| == 5
  {
  }

  /** Add on undecodable text overwrites it with the new record followed by the defaults: the
      unreadable claims are lost. */
  lemma AddToCorrupt(d: Draft, now: nat, nowIso: string, io: Io)
    requires io.writeOk
    ensures AddStep(Corrupt, d, now, nowIso, io).slot == Stored([Created(d, now, nowIso)] + Defaults)
  {
  }

  /** Adding `a` then `b` and reading back gives `b`, then `a`, then what was there before. */
  lemma AddTwice(slot: Slot, a: Draft, b: Draft, t1: nat, t2: nat, iso1: string, iso2: string)
    ensures var s1 := AddStep(slot, a, t1, iso1, Reliable).slot;
            var s2 := AddStep(s1, b, t2, iso2, Reliable).slot;
            Fetch(s2, Reliable).items ==
              [Created(b, t2, iso2), Created(a, t1, iso1)] + Fetch(slot, Reliable).items
  {
    var prev := Fetch(slot, Reliable).items;
    var na, nb := Created(a, t1, iso1), Created(b, t2, iso2);
    assert [nb] + ([na] + prev) == [nb, na] + prev;
  }

  /** A write failure in any mutating operation is reported, not swallowed; the slot is left as
      the operation's read left it (a missing slot may have been seeded by that read). */
  lemma WriteFailuresPropagate(slot: Slot, items: seq<Item>, d: Draft, now: nat, nowIso: string, id: string, p: Patch, io: Io)
    requires !io.writeOk
    ensures Save(items, slot, false) == Step(Failed, slot)
    ensures AddStep(slot, d, now, nowIso, io) == Step(Failed, Fetch(slot, io).slot)
    ensures UpdateStep(slot, id, p, io) == Step(Failed, Fetch(slot, io).slot)
    ensures DeleteStep(slot, id, io) == Step(Failed, Fetch(slot, io).slot)
    ensures ClearStep(slot, false) == Step(Failed, slot)
    ensures ResetStep(slot, false) == Step(Failed, slot)
  {
  }

  /** When no record has the id, the merge changes nothing. */
  lemma {:induction false} MergeMatchingNoMatch(s: seq<Item>, id: string, p: Patch)
    requires forall i :: 0 <= i < |s| ==> s[i].id != id
    ensures MergeMatching(s, id, p) == s
  {
    if s != [] {
      MergeMatchingNoMatch(s[1..], id, p);
    }
  }

  /** Updating twice with the same patch is the same as updating once, whatever the patch: a
      patch that changes the id leaves records the second pass no longer matches. */
  lemma MergeMatchingIdempotent(s: seq<Item>, id: string, p: Patch)
    ensures MergeMatching(MergeMatching(s, id, p), id, p) == MergeMatching(s, id, p)
  {
    var once := MergeMatching(s, id, p);
    var twice := MergeMatching(once, id, p);
    forall i | 0 <= i < |s| ensures twice[i] == once[i] {
      if s[i].id == id {
        assert once[i] == Merge(s[i], p);
      }
    }
  }

  /** A successful update keeps the length and order: the records with the id become the merge,
      every other record is left as it was. */
  lemma UpdateMergesMatching(slot: Slot, id: string, p: Patch, io: Io)
    requires io.writeOk
    ensures var prev := Fetch(slot, io).items;
            var after := UpdateStep(slot, id, p, io).slot;
            after.Stored? && |after.items| == |prev| &&
            (forall i :: 0 <= i < |prev| && prev[i].id != id ==> after.items[i] == prev[i]) &&
            (forall i :: 0 <= i < |prev| && prev[i].id == id ==> after.items[i] == Merge(prev[i], p))
  {
  }

  /** Updating an id nobody has leaves a stored list exactly as it was. */
  lemma UpdateUnknownId(items: seq<Item>, id: string, p: Patch, io: Io)
    requires io.readOk && io.writeOk
    requires forall i :: 0 <= i < |items| ==> items[i].id != id
    ensures UpdateStep(Stored(items), id, p, io) == Step(Ok(()), Stored(items))
  {
    MergeMatchingNoMatch(items, id, p);
  }

  /** A successful delete keeps exactly the records with another id, and the list shrinks by
      the number of records that had it. */
  lemma DeleteKeepsOthers(slot: Slot, id: string, io: Io)
    requires io.writeOk
    ensures var prev := Fetch(slot, io).items;
            var after := DeleteStep(slot, id, io).slot;
            after.Stored? &&
            (forall x :: x in after.items <==> x in prev && x.id != id) &&
            |after.items| == |prev| - Seqs.Count(prev, HasId(id))
  {
    var prev := Fetch(slot, io).items;
    Seqs.WithoutLength(prev, HasId(id));
  }

  /** Deleting keeps the survivors in their original relative order: the filter of a list is
      the filter of its front followed by the filter of its back. */
  lemma RemoveIdKeepsOrder(front: seq<Item>, back: seq<Item>, id: string)
    ensures RemoveId(front + back, id) == RemoveId(front, id) + RemoveId(back, id)
  {
    Seqs.WithoutConcat(front, back, HasId(id));
  }

  /** Deleting an id nobody has leaves a stored list exactly as it was. */
  lemma DeleteUnknownId(items: seq<Item>, id: string, io: Io)
    requires io.readOk && io.writeOk
    requires forall i :: 0 <= i < |items| ==> items[i].id != id
    ensures DeleteStep(Stored(items), id, io) == Step(Ok(()), Stored(items))
  {
    Seqs.WithoutNothingDropped(items, HasId(id));
  }

  /** After deleting an id that one stored record has, get returns one record fewer and none
      with that id. */
  lemma DeleteThenGet(items: seq<Item>, k: nat)
    requires k < |items|
    requires forall i :: 0 <= i < |items| && i != k ==> items[i].id != items[k].id
    ensures var after := Fetch(DeleteStep(Stored(items), items[k].id, Reliable).slot, Reliable).items;
            |after| == |items| - 1 &&
            forall i :: 0 <= i < |after| ==> after[i].id != items[k].id
  {
    var id := items[k].id;
    Seqs.WithoutOnly(items, HasId(id), k);
    var after := RemoveId(items, id);
    assert Fetch(DeleteStep(Stored(items), id, Reliable).slot, Reliable).items == after;
    forall i | 0 <= i < |after| ensures after[i].id != id {
      assert after[i] in after;
    }
  }

  /** After clear, the next get seeds and returns the four defaults again. */
  lemma ClearThenGet(slot: Slot)
    ensures ClearStep(slot, true).slot == Absent
    ensures Fetch(ClearStep(slot, true).slot, Reliable) == Fetched(Defaults, Stored(Defaults))
  {
  }

  /** After a successful reset, every read returns the defaults, whether it succeeds or falls back. */
  lemma ResetThenGet(slot: Slot, io: Io)
    ensures ResetStep(slot, true) == Step(Ok(()), Stored(Defaults))
    ensures Fetch(ResetStep(slot, true).slot, io).items == Defaults
  {
  }

  /** From empty storage: get shows the four defaults, the first an approved transport claim; a
      taxi claim added afterwards comes back `pending`, and the next get shows five records with
      the new one first. */
  lemma SeedThenAddScenario(now: nat, nowIso: string)
    ensures var seeded := Fetch(Absent, Reliable);
            |seeded.items| == 4 && seeded.items[0].title == "Transportasi Meeting Client" &&
            seeded.items[0].status == "approved"
    ensures var seeded := Fetch(Absent, Reliable);
            var taxi := Draft("Taxi", "", "20 Jan 2024", "approved", "Transportasi", "Client visit");
            var added := AddStep(seeded.slot, taxi, now, nowIso, Reliable);
            var shown := Fetch(added.slot, Reliable).items;
            added.result.Ok? && added.result.value.status == "pending" &&
            |shown| == 5 && shown[0] == added.result.value && shown[1..] == Defaults
  {
    var taxi := Draft("Taxi", "", "20 Jan 2024", "approved", "Transportasi", "Client visit");
    var n := Created(taxi, now, nowIso);
    assert ([n] + Defaults)[1..] == Defaults;
  }

  /** A caller's view through the store object itself, on working storage: the first get on empty
      storage shows the defaults; an added taxi claim comes back `pending` and the next get shows
      it ahead of the defaults; after clear, get shows the defaults again. */
  method SeedAddClearScenario(now: nat, nowIso: string)
      returns (first: seq<Item>, added: Outcome<Item>, afterAdd: seq<Item>, afterClear: seq<Item>)
    ensures first == Defaults
    ensures added.Ok? && added.value.status == "pending" && added.value.category == "Transportasi"
    ensures afterAdd == [added.value] + Defaults
    ensures afterClear == Defaults
  {
    var store := new ClaimStore(Absent);
    first := store.Get(Reliable);
    var taxi := Draft("Taxi", "", "20 Jan 2024", "approved", "Transportasi", "Client visit");
    added := store.Add(taxi, now, nowIso, Reliable);
    afterAdd := store.Get(Reliable);
    var cleared := store.Clear(true);
    afterClear := store.Get(Reliable);
  }
}
