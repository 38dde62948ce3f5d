/** IdempotencyRegistry (api/audit.py): the first request with an identifier scores,
    identical retries wait for its entry. */
module LocalRegistry {
  import opened Wrappers
  import opened HashChain

  type RequestId = string
  type EntryId = nat

  /** The result an entry is published with, or the error it failed with. */
  datatype EntryState<T> = Pending | Published(result: T) | FailedWith(error: string)

  datatype Entry<T> = Entry(id: RequestId, digest: Digest, state: EntryState<T>)

  /** `slots` is the dictionary; `entries` the entry objects, which reservations keep a
      reference to after the dictionary has dropped them. */
  datatype Table<T> = Table(slots: map<RequestId, EntryId>, entries: seq<Entry<T>>)

  datatype Reservation = Owner(entry: EntryId) | Replay(entry: EntryId)

  datatype RegistryError = Conflict | NotOwner | OwnerReplay

  ghost predicate TableOk<T(!new)>(t: Table<T>)
  {
    forall id :: id in t.slots ==> t.slots[id] < |t.entries| && t.entries[t.slots[id]].id == id
  }

  function Reserved<T>(t: Table<T>, id: RequestId, digest: Digest): (Table<T>, Result<Reservation, RegistryError>)
    requires id in t.slots ==> t.slots[id] < |t.entries|
  {
    if id in t.slots then
      if t.entries[t.slots[id]].digest != digest then (t, Err(Conflict)) else (t, Ok(Replay(t.slots[id])))
    else
      (Table(t.slots[id := |t.entries|], t.entries + [Entry(id, digest, Pending)]), Ok(Owner(|t.entries|)))
  }

  function Completed<T>(t: Table<T>, x: EntryId, result: T): Table<T>
    requires x < |t.entries|
  {
    t.(entries := t.entries[x := t.entries[x].(state := Published(result))])
  }

  /** Drop the entry from the dictionary if it is still the current one, and set its
      error. */
  function Failed<T>(t: Table<T>, x: EntryId, error: string): Table<T>
    requires x < |t.entries|
  {
    var id := t.entries[x].id;
    Table(if id in t.slots && t.slots[id] == x then t.slots - {id} else t.slots,
          t.entries[x := t.entries[x].(state := FailedWith(error))])
  }

  /** At most the state of this entry differs. */
  predicate OnlyChanged<T(==)>(before: seq<Entry<T>>, after: seq<Entry<T>>, x: EntryId)
  {
    |after| == |before| && forall y :: 0 <= y < |before| ==>
      && after[y].id == before[y].id && after[y].digest == before[y].digest
      && (y != x ==> after[y] == before[y])
  }

  class IdempotencyRegistry<T(!new)> {
    var slots: map<RequestId, EntryId>
    var entries: seq<Entry<T>>

    constructor ()
      ensures TableOf() == Table(map[], [])
    {
      slots, entries := map[], [];
    }

    function TableOf(): Table<T>
      reads this
    {
      Table(slots, entries)
    }

    method Reserve(id: RequestId, digest: Digest) returns (r: Result<Reservation, RegistryError>)
      requires TableOk(TableOf())
      modifies this
      ensures (TableOf(), r) == Reserved(old(TableOf()), id, digest)
      ensures old(entries) <= entries && slots - {id} == old(slots) - {id}
      ensures r.Ok? ==> id in slots && slots[id] == r.value.entry && entries[r.value.entry].digest == digest
      ensures r.Ok? ==> (r.value.Owner? <==> id !in old(slots))
      ensures r.Err? ==> slots == old(slots) && entries == old(entries) && entries[slots[id]].digest != digest
      ensures TableOk(TableOf())
    {
      if id in slots {
        var existing := slots[id];
        if entries[existing].digest != digest {
          return Err(Conflict);
        }
        return Ok(Replay(existing));
      }
      var x := |entries|;
      entries := entries + [Entry(id, digest, Pending)];
      slots := slots[id := x];
      r := Ok(Owner(x));
    }

    method Complete(reservation: Reservation, result: T) returns (r: Result<(), RegistryError>)
      requires TableOk(TableOf()) && reservation.entry < |entries|
      modifies this
      ensures r == if reservation.Owner? then Ok(()) else Err(NotOwner)
      ensures TableOf() == if reservation.Owner? then Completed(old(TableOf()), reservation.entry, result) else old(TableOf())
      ensures slots == old(slots) && OnlyChanged(old(entries), entries, reservation.entry)
      ensures TableOk(TableOf())
    {
      if !reservation.Owner? {
        return Err(NotOwner);
      }
      entries := entries[reservation.entry := entries[reservation.entry].(state := Published(result))];
      r := Ok(());
    }

    method Fail(reservation: Reservation, error: string) returns (r: Result<(), RegistryError>)
      requires TableOk(TableOf()) && reservation.entry < |entries|
      modifies this
      ensures r == if reservation.Owner? then Ok(()) else Err(NotOwner)
      ensures TableOf() == if reservation.Owner? then Failed(old(TableOf()), reservation.entry, error) else old(TableOf())
      ensures OnlyChanged(old(entries), entries, reservation.entry)
      ensures forall k :: k in old(slots) && old(slots)[k] != reservation.entry ==> k in slots && slots[k] == old(slots)[k]
      ensures reservation.Owner? ==> forall k :: k in slots ==> slots[k] != reservation.entry
      ensures TableOk(TableOf())
    {
      if !reservation.Owner? {
        return Err(NotOwner);
      }
      var x := reservation.entry;
      var id := entries[x].id;
      if id in slots && slots[id] == x {
        slots := slots - {id};
      }
      entries := entries[x := entries[x].(state := FailedWith(error))];
      r := Ok(());
    }
  }
}
