/** The in-memory repositories and the room as the mutable objects they are. */
module Stores {
  import opened Collections
  import opened QueueTypes
  import opened Snapshot
  import L = LiveSession
  import C = Claims
  import SyncTypes

  // ---------------------------------------------------------------- queue items

  class InMemoryQueueItemRepository {
    var rows: OrderedMap<string, Row>

    constructor ()
      ensures rows == EmptyMap()
    {
      rows := EmptyMap();
    }

    method FindById(id: string) returns (r: Option<Row>)
      ensures r == if id in rows.at then Some(rows.at[id]) else None
    {
      r := if id in rows.at then Some(rows.at[id]) else None;
    }

    /** Scan the rows in insertion order, keep the session's, sort by creation time. */
    method FindAllForSession(sessionId: string) returns (found: seq<Row>)
      ensures found == L.SessionRows(rows, sessionId)
    {
      found := Scan(rows.Values(), L.OfSession(sessionId));
      found := StableSort(found, L.RowOrder);
    }

    static method Scan(values: seq<Row>, keep: Row -> bool) returns (out: seq<Row>)
      ensures out == Filter(values, keep)
    {
      out := [];
      for i := 0 to |values|
        invariant out == Filter(values[..i], keep)
      {
        FilterSnoc(values[..i], values[i], keep);
        assert values[..i + 1] == values[..i] + [values[i]];
        if keep(values[i]) {
          out := out + [values[i]];
        }
      }
      assert values[..|values|] == values;
    }

    method Create(row: Row)
      modifies this
      ensures rows == old(rows).Put(row.id, row)
    {
      rows := rows.Put(row.id, row);
    }

    /** An absent decision time leaves the stored one alone; an unknown id is not an error. */
    method SetStatus(id: string, status: Status, decidedAt: Option<int>) returns (r: Option<Row>)
      requires id in rows.at ==> rows.at[id].id == id
      modifies this
      ensures r.None? <==> id !in old(rows).at
      ensures r.None? ==> rows == old(rows)
      ensures r.Some? ==> rows == old(rows).Put(id, r.value)
      ensures r.Some? ==> r.value == old(rows).at[id].(status := status,
        decidedAt := if decidedAt.Some? then decidedAt else old(rows).at[id].decidedAt)
    {
      if id !in rows.at {
        return None;
      }
      var row := rows.at[id].(status := status);
      if decidedAt.Some? {
        row := row.(decidedAt := decidedAt);
      }
      rows := rows.Put(id, row);
      r := Some(row);
    }

    method Delete(id: string)
      modifies this
      ensures rows == old(rows).Remove(id)
    {
      rows := rows.Remove(id);
    }

    method IncrementSkipVotes(id: string) returns (votes: nat)
      modifies this
      ensures id !in old(rows).at ==> votes == 0 && rows == old(rows)
      ensures id in old(rows).at ==>
        votes == old(rows).at[id].skipVotes + 1 && rows == old(rows).Put(id, L.Voted(old(rows).at[id]))
    {
      if id !in rows.at {
        return 0;
      }
      rows := rows.Put(id, L.Voted(rows.at[id]));
      votes := rows.at[id].skipVotes;
    }
  }

  // ---------------------------------------------------------------- skip votes

  class InMemoryQueueSkipVoteRepository {
    var rows: set<(string, string)>
    const queueItems: InMemoryQueueItemRepository

    constructor (queueItems: InMemoryQueueItemRepository)
      ensures rows == {} && this.queueItems == queueItems
    {
      rows := {};
      this.queueItems := queueItems;
    }

    /** One vote per guest and item; a repeated vote changes neither the ledger nor the count. */
    method RecordVote(itemId: string, guestId: string) returns (inserted: bool, voteCount: nat)
      modifies this, queueItems
      ensures inserted <==> (itemId, guestId) !in old(rows)
      ensures !inserted ==> rows == old(rows) && queueItems.rows == old(queueItems.rows)
      ensures inserted ==> rows == old(rows) + {(itemId, guestId)}
      ensures inserted && itemId in old(queueItems.rows).at ==>
        var voted := L.Voted(old(queueItems.rows).at[itemId]);
        queueItems.rows == old(queueItems.rows).Put(itemId, voted) && voteCount == voted.skipVotes
      ensures inserted && itemId !in old(queueItems.rows).at ==> queueItems.rows == old(queueItems.rows)
    {
      var item := queueItems.FindById(itemId);
      if (itemId, guestId) in rows {
        return false, if item.Some? then item.value.skipVotes else 0;
      }
      rows := rows + {(itemId, guestId)};
      voteCount := queueItems.IncrementSkipVotes(itemId);
      inserted := true;
    }
  }

  // ---------------------------------------------------------------- mic claims

  class InMemoryKaraokeClaimRepository {
    var rows: seq<Claim>

    constructor ()
      ensures rows == []
    {
      rows := [];
    }

    method FindAllForItem(itemId: string) returns (found: seq<Claim>)
      ensures found == C.ItemClaims(rows, itemId)
    {
      found := Scan(C.OnItem(itemId));
      found := StableSort(found, C.ClaimOrder);
    }

    method FindAllForSession(sessionId: string) returns (found: seq<Claim>)
      ensures found == C.SessionClaims(rows, sessionId)
    {
      found := Scan(C.InSession(sessionId));
      found := StableSort(found, C.ClaimOrder);
    }

    method Scan(keep: Claim -> bool) returns (out: seq<Claim>)
      ensures out == Filter(rows, keep)
    {
      out := [];
      for i := 0 to |rows|
        invariant out == Filter(rows[..i], keep)
      {
        FilterSnoc(rows[..i], rows[i], keep);
        assert rows[..i + 1] == rows[..i] + [rows[i]];
        if keep(rows[i]) {
          out := out + [rows[i]];
        }
      }
      assert rows[..|rows|] == rows;
    }

    method FindByItemAndGuest(itemId: string, guestId: string) returns (r: Option<Claim>)
      ensures r == C.FindClaim(rows, itemId, guestId)
    {
      var i := 0;
      while i < |rows|
        invariant 0 <= i <= |rows|
        invariant C.FindClaim(rows[i..], itemId, guestId) == C.FindClaim(rows, itemId, guestId)
      {
        if rows[i].queueItemId == itemId && rows[i].guestId == guestId {
          return Some(rows[i]);
        }
        assert rows[i..][1..] == rows[i + 1..];
        i := i + 1;
      }
      r := None;
    }

    /** A second claim for the same item and guest is refused, as the unique index would. */
    method Create(claim: Claim) returns (created: bool)
      modifies this
      ensures created <==> C.FindClaim(old(rows), claim.queueItemId, claim.guestId).None?
      ensures rows == if created then old(rows) + [claim] else old(rows)
    {
      var existing := FindByItemAndGuest(claim.queueItemId, claim.guestId);
      created := existing.None?;
      if created {
        rows := rows + [claim];
      }
    }

    method Delete(id: string)
      modifies this
      ensures rows == C.DeleteClaim(old(rows), id)
    {
      rows := C.DeleteClaim(rows, id);
    }
  }

  // ---------------------------------------------------------------- the room

  /** Equal but for the assembly time. */
  ghost predicate SameButStamp(a: Snapshot, b: Snapshot) {
    a == b.(snapshotAtEpochMs := a.snapshotAtEpochMs)
  }

  lemma StampOfMove(a: Snapshot, b: Snapshot, id: string)
    requires SameButStamp(a, b)
    ensures SameButStamp(ApplyApproved(a, id), ApplyApproved(b, id))
      && SameButStamp(ApplyRejected(a, id), ApplyRejected(b, id))
  {
  }

  lemma StampOfEdit(a: Snapshot, b: Snapshot, id: string, edit: ClaimsEdit)
    requires SameButStamp(a, b)
    ensures SameButStamp(UpdateItemById(a, id, edit), UpdateItemById(b, id, edit))
  {
  }

  lemma StampOfTrack(a: Snapshot, b: Snapshot, track: Option<SyncTypes.NowPlaying>)
    requires SameButStamp(a, b)
    ensures SameButStamp(ApplyNowPlaying(a, track), ApplyNowPlaying(b, track))
  {
  }

  lemma StampOfSpotlight(a: Snapshot, b: Snapshot, id: Option<string>, claims: seq<ClaimSummary>)
    requires SameButStamp(a, b)
    ensures SameButStamp(ApplySpotlight(a, id, claims), ApplySpotlight(b, id, claims))
  {
  }

  lemma StampDoesNotMatter(a: Snapshot, b: Snapshot, e: Event)
    requires SameButStamp(a, b)
    ensures SameButStamp(ApplyEvent(a, e), ApplyEvent(b, e))
  {
    match e
    case ItemApproved(id) => StampOfMove(a, b, id);
    case ItemRejected(id) => StampOfMove(a, b, id);
    case NowPlayingUpdated(track) => StampOfTrack(a, b, track);
    case ClaimAdded(id, claim) => StampOfEdit(a, b, id, AddSinger(claim));
    case ClaimRemoved(id, guestId) => StampOfEdit(a, b, id, DropSinger(guestId));
    case Spotlight(id, claims) => StampOfSpotlight(a, b, id, claims);
    case _ => StampOfField(a, b, e);
  }

  /** The other events write single fields or extend a list. */
  lemma StampOfField(a: Snapshot, b: Snapshot, e: Event)
    requires SameButStamp(a, b)
    requires !e.ItemApproved? && !e.ItemRejected? && !e.NowPlayingUpdated? && !e.ClaimAdded? && !e.ClaimRemoved?
      && !e.Spotlight?
    ensures SameButStamp(ApplyEvent(a, e), ApplyEvent(b, e))
  {
  }

  /** A client that was sent a snapshot and folds the events published since shows what the room
      shows: the room's own stamps change nothing else. */
  lemma {:induction false} ReplicaFollowsRoom(sent: Snapshot, events: seq<Event>, times: seq<int>)
    requires |times| == |events|
    ensures SameButStamp(RoomAfter(sent, events, times), Fold(sent, events))
  {
    if events != [] {
      ReplicaFollowsRoom(sent, Init(events), Init(times));
      StampDoesNotMatter(RoomAfter(sent, Init(events), Init(times)), Fold(sent, Init(events)), Last(events));
    }
  }

  /** The room's snapshot after publishing `events` at `times`. */
  function RoomAfter(s: Snapshot, events: seq<Event>, times: seq<int>): Snapshot
    requires |times| == |events|
  {
    if events == [] then s else L.Published(RoomAfter(s, Init(events), Init(times)), Last(events), Last(times))
  }

  class NodeSessionRoom {
    const sessionId: string
    var snapshot: Snapshot
    var clients: set<string>
    var subscribers: OrderedMap<string, seq<Event>>   // each transport with the events handed to it

    constructor (sessionId: string, now: int)
      ensures this.sessionId == sessionId && snapshot == EmptySnapshot(sessionId, now)
      ensures clients == {} && subscribers == EmptyMap()
    {
      this.sessionId := sessionId;
      snapshot := EmptySnapshot(sessionId, now);
      clients := {};
      subscribers := EmptyMap();
    }

    /** Only connected clients have a transport. */
    ghost predicate Valid()
      reads this
    {
      subscribers.Valid() && forall c :: c in subscribers.at ==> c in clients
    }

    method Connect(clientId: string, clientSession: string) returns (ok: bool)
      requires Valid()
      modifies this`clients
      ensures Valid() && ok == (clientSession == sessionId)
      ensures clients == if ok then old(clients) + {clientId} else old(clients)
    {
      ok := clientSession == sessionId;
      if ok {
        clients := clients + {clientId};
      }
    }

    method Disconnect(clientId: string)
      requires Valid()
      modifies this`clients, this`subscribers
      ensures Valid() && clients == old(clients) - {clientId}
      ensures subscribers == old(subscribers).Remove(clientId)
    {
      RemoveValid(subscribers, clientId);
      clients := clients - {clientId};
      subscribers := subscribers.Remove(clientId);
    }

    method Subscribe(clientId: string) returns (ok: bool)
      requires Valid()
      modifies this`subscribers
      ensures Valid() && ok == (clientId in clients)
      ensures subscribers == if ok then old(subscribers).Put(clientId, []) else old(subscribers)
    {
      ok := clientId in clients;
      if ok {
        PutValid(subscribers, clientId, []);
        subscribers := subscribers.Put(clientId, []);
      }
    }

    /** Hand the event to every transport. A failing one stops nobody else. */
    method Deliver(e: Event)
      requires Valid()
      modifies this`subscribers
      ensures Valid() && subscribers.keys == old(subscribers).keys
      ensures forall c :: c in subscribers.at ==>
        c in old(subscribers).at && subscribers.at[c] == old(subscribers).at[c] + [e]
    {
      ghost var before := subscribers;
      var i := 0;
      while i < |subscribers.keys|
        invariant 0 <= i <= |subscribers.keys|
        invariant subscribers.keys == before.keys && subscribers.at.Keys == before.at.Keys && before.Valid()
        invariant forall k :: 0 <= k < i ==> subscribers.at[before.keys[k]] == before.at[before.keys[k]] + [e]
        invariant forall k :: i <= k < |before.keys| ==> subscribers.at[before.keys[k]] == before.at[before.keys[k]]
      {
        var c := subscribers.keys[i];
        subscribers := subscribers.Put(c, subscribers.at[c] + [e]);
        i := i + 1;
      }
    }

    /** Fold, hand the event to every transport, restamp. */
    method Publish(e: Event, now: int)
      requires Valid()
      modifies this`snapshot, this`subscribers
      ensures Valid() && snapshot == L.Published(old(snapshot), e, now)
      ensures subscribers.keys == old(subscribers).keys
      ensures forall c :: c in subscribers.at ==>
        c in old(subscribers).at && subscribers.at[c] == old(subscribers).at[c] + [e]
    {
      snapshot := ApplyEvent(snapshot, e);
      Deliver(e);
      snapshot := snapshot.(snapshotAtEpochMs := now);
    }

    method SetSnapshot(s: Snapshot)
      modifies this`snapshot
      ensures snapshot == s
    {
      snapshot := s;
    }
  }
}
