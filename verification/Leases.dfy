/** internal/lease: time-bounded registrations. */
module Leases {
  import opened Types

  datatype Entry = Entry(id: Id, name: Name, ownerKey: string, token: string, ttl: int, expiresAt: int)

  type Table = map<Id, Entry>

  datatype LeaseError = NotFound | Unauthorized

  predicate Elapsed(e: Entry, now: int) { now >= e.expiresAt }

  // ----- What the operations do to the table -----

  /** The table and the answer after a renewal at time `now`. */
  function Renewal(t: Table, id: Id, token: string, now: int): (Table, Result<int, LeaseError>) {
    if id !in t then (t, Err(NotFound))
    else if Elapsed(t[id], now) then (t - {id}, Err(NotFound))
    else if t[id].token != token then (t, Err(Unauthorized))
    else (t[id := t[id].(expiresAt := now + t[id].ttl)], Ok(now + t[id].ttl))
  }

  function Deletion(t: Table, id: Id, token: string): (Table, Option<LeaseError>) {
    if id !in t then (t, Some(NotFound))
    else if t[id].token != token then (t, Some(Unauthorized))
    else (t - {id}, None)
  }

  function Surviving(t: Table, now: int): Table {
    map id | id in t && !Elapsed(t[id], now) :: t[id]
  }

  function Overdue(t: Table, now: int): set<Id> {
    set id | id in t && Elapsed(t[id], now)
  }

  function NewEntry(id: Id, name: Name, ownerKey: string, token: string, ttl: int, now: int): Entry {
    Entry(id, name, ownerKey, token, ttl, now + ttl)
  }

  /** The table is divided exactly at the deadline: up to it a lease survives a sweep, from
      it on it is overdue. */
  lemma DividedAtDeadline(t: Table, now: int, id: Id)
    requires id in t
    ensures id in Surviving(t, now) <==> now < t[id].expiresAt
    ensures id in Overdue(t, now) <==> now >= t[id].expiresAt
    ensures id in Surviving(t, now) ==> Surviving(t, now)[id] == t[id]
  {}

  class Manager {
    const ttl: int
    var entries: Table

    constructor (ttl: int)
      ensures this.ttl == (if ttl <= 0 then 15_000_000_000 else ttl) && entries == map[]
    {
      this.ttl := if ttl <= 0 then 15 * SECOND else ttl;
      entries := map[];
    }

    method AddWithTTL(id: Id, name: Name, ownerKey: string, token: string, ttl: int, now: int) returns (e: Entry)
      modifies this
      ensures e == NewEntry(id, name, ownerKey, token, if ttl <= 0 then this.ttl else ttl, now)
      ensures entries == old(entries)[id := e]
    {
      var effective := ttl;
      if effective <= 0 {
        effective := this.ttl;
      }
      e := Entry(id, name, ownerKey, token, effective, now + effective);
      entries := entries[id := e];
    }

    method Renew(id: Id, token: string, now: int) returns (r: Result<int, LeaseError>)
      modifies this
      ensures (entries, r) == Renewal(old(entries), id, token, now)
    {
      if id !in entries {
        return Err(NotFound);
      }
      var e := entries[id];
      if !(now < e.expiresAt) {
        entries := entries - {id};
        return Err(NotFound);
      }
      if e.token != token {
        return Err(Unauthorized);
      }
      entries := entries[id := e.(expiresAt := now + e.ttl)];
      r := Ok(now + e.ttl);
    }

    method Delete(id: Id, token: string) returns (r: Option<LeaseError>)
      modifies this
      ensures (entries, r) == Deletion(old(entries), id, token)
    {
      if id !in entries {
        return Some(NotFound);
      }
      if entries[id].token != token {
        return Some(Unauthorized);
      }
      entries := entries - {id};
      r := None;
    }

    method Remove(id: Id)
      modifies this
      ensures entries == old(entries) - {id}
    {
      entries := entries - {id};
    }

    method Get(id: Id) returns (r: Option<Entry>)
      ensures r == if id in entries then Some(entries[id]) else None
    {
      r := if id in entries then Some(entries[id]) else None;
    }

    /** Selects and deletes under one lock: the table is split exactly at the
        deadline and each overdue entry is handed out once. */
    method TakeExpired(now: int) returns (out: seq<Entry>, ids: seq<Id>)
      modifies this
      ensures entries == Surviving(old(entries), now)
      ensures |out| == |ids|
      ensures forall i :: 0 <= i < |ids| ==> ids[i] in old(entries) && out[i] == old(entries)[ids[i]]
      ensures forall i, j :: 0 <= i < j < |ids| ==> ids[i] != ids[j]
      ensures (set i | 0 <= i < |ids| :: ids[i]) == Overdue(old(entries), now)
    {
      out, ids := [], [];
      var todo := entries.Keys;
      while todo != {}
        invariant todo <= entries.Keys <= old(entries).Keys
        invariant forall id :: id in entries ==> entries[id] == old(entries)[id]
        invariant forall id :: id in old(entries) && id !in todo ==>
          (id in entries <==> !Elapsed(old(entries)[id], now)) && (id in ids <==> Elapsed(old(entries)[id], now))
        invariant |out| == |ids|
        invariant forall i :: 0 <= i < |ids| ==>
          ids[i] in old(entries) && ids[i] !in todo && out[i] == old(entries)[ids[i]]
        invariant forall i, j :: 0 <= i < j < |ids| ==> ids[i] != ids[j]
      {
        var id :| id in todo;
        todo := todo - {id};
        var e := entries[id];
        if !(now < e.expiresAt) {
          out, ids := out + [e], ids + [id];
          entries := entries - {id};
        }
      }
    }
  }
}
