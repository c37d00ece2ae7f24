/** Mic claims of one queue item, in creation order, as the repository returns them. */
module Claims {
  import opened Collections
  import opened QueueTypes
  import opened Snapshot

  predicate ClaimOrder(a: Claim, b: Claim) {
    a.createdAt <= b.createdAt
  }

  function OnItem(itemId: string): Claim -> bool {
    (c: Claim) => c.queueItemId == itemId
  }

  function OtherThan(claimId: string): Claim -> bool {
    (c: Claim) => c.id != claimId
  }

  function InSession(sessionId: string): Claim -> bool {
    (c: Claim) => c.sessionId == sessionId
  }

  /** `findAllForItem`. The store keeps insertion order. */
  function ItemClaims(claims: seq<Claim>, itemId: string): seq<Claim> {
    StableSort(Filter(claims, OnItem(itemId)), ClaimOrder)
  }

  /** `findAllForSession`. */
  function SessionClaims(claims: seq<Claim>, sessionId: string): seq<Claim> {
    StableSort(Filter(claims, InSession(sessionId)), ClaimOrder)
  }

  /** `findByItemAndGuest`: the first match in insertion order. */
  function FindClaim(claims: seq<Claim>, itemId: string, guestId: string): (r: Option<Claim>)
    ensures r.Some? ==> r.value in claims && r.value.queueItemId == itemId && r.value.guestId == guestId
    ensures r.None? ==> forall c :: c in claims ==> !(c.queueItemId == itemId && c.guestId == guestId)
  {
    if claims == [] then None
    else if claims[0].queueItemId == itemId && claims[0].guestId == guestId then Some(claims[0])
    else FindClaim(claims[1..], itemId, guestId)
  }

  function DeleteClaim(claims: seq<Claim>, claimId: string): seq<Claim> {
    Filter(claims, OtherThan(claimId))
  }

  /** What a foreign key deletes with the item. */
  function DeleteItemClaims(claims: seq<Claim>, itemId: string): seq<Claim> {
    Filter(claims, OffItem(itemId))
  }

  function OffItem(itemId: string): Claim -> bool {
    (c: Claim) => c.queueItemId != itemId
  }

  function Summaries(claims: seq<Claim>): (r: seq<ClaimSummary>)
    ensures |r| == |claims|
    ensures forall i :: 0 <= i < |claims| ==> r[i] == ClaimSummary(claims[i].guestId, claims[i].displayName)
  {
    if claims == [] then []
    else Summaries(Init(claims)) + [ClaimSummary(Last(claims).guestId, Last(claims).displayName)]
  }

  /** The singers of an item as every view shows them. */
  function Singers(claims: seq<Claim>, itemId: string): seq<ClaimSummary> {
    Summaries(ItemClaims(claims, itemId))
  }

  /** `groupClaimSummaries(sessionClaims).get(itemId) ?? []`. */
  function GroupedSingers(sessionClaims: seq<Claim>, itemId: string): seq<ClaimSummary> {
    Summaries(Filter(sessionClaims, OnItem(itemId)))
  }

  /** One claim per guest and item, and ids are keys. */
  ghost predicate ClaimsDistinct(claims: seq<Claim>) {
    forall i, j :: 0 <= i < j < |claims| ==>
      && claims[i].id != claims[j].id
      && !(claims[i].queueItemId == claims[j].queueItemId && claims[i].guestId == claims[j].guestId)
  }

  lemma ClaimOrderIsTotalPreorder()
    ensures TotalPreorder(ClaimOrder)
  {
  }

  lemma ItemClaimsMembers(claims: seq<Claim>, itemId: string)
    ensures forall c :: c in ItemClaims(claims, itemId) ==> c in claims && c.queueItemId == itemId
    ensures forall c :: c in claims && c.queueItemId == itemId ==> c in ItemClaims(claims, itemId)
    ensures |ItemClaims(claims, itemId)| == |Filter(claims, OnItem(itemId))|
  {
    FilterMembers(claims, OnItem(itemId));
    SortMembers(Filter(claims, OnItem(itemId)), ClaimOrder);
  }

  lemma SummariesSnoc(claims: seq<Claim>, c: Claim)
    ensures Summaries(claims + [c]) == Summaries(claims) + [ClaimSummary(c.guestId, c.displayName)]
  {
  }

  /** A newest claim joins the end of its item's list and no other list changes. */
  lemma SingersAfterCreate(claims: seq<Claim>, c: Claim, itemId: string)
    requires forall d :: d in claims ==> d.createdAt <= c.createdAt
    ensures Singers(claims + [c], itemId) ==
      if c.queueItemId == itemId then Singers(claims, itemId) + [ClaimSummary(c.guestId, c.displayName)]
      else Singers(claims, itemId)
  {
    FilterSnoc(claims, c, OnItem(itemId));
    if c.queueItemId == itemId {
      FilterMembers(claims, OnItem(itemId));
      SortAppend(Filter(claims, OnItem(itemId)), c, ClaimOrder);
      SummariesSnoc(ItemClaims(claims, itemId), c);
    }
  }

  lemma ItemClaimsAfterDelete(claims: seq<Claim>, claimId: string, itemId: string)
    ensures ItemClaims(DeleteClaim(claims, claimId), itemId) == Filter(ItemClaims(claims, itemId), OtherThan(claimId))
  {
    ClaimOrderIsTotalPreorder();
    FilterFilter(claims, OtherThan(claimId), OnItem(itemId));
    SortFilter(Filter(claims, OnItem(itemId)), ClaimOrder, OtherThan(claimId));
  }

  lemma WithoutGuestSnoc(cs: seq<ClaimSummary>, c: ClaimSummary, guestId: string)
    ensures WithoutGuest(cs + [c], guestId) ==
      if c.guestId != guestId then WithoutGuest(cs, guestId) + [c] else WithoutGuest(cs, guestId)
  {
    FilterSnoc(cs, c, (x: ClaimSummary) => x.guestId != guestId);
  }

  /** Dropping the claim by its key and dropping the singer by guest are the same when they single
      out the same claim. */
  lemma {:induction false} SummariesWithout(cs: seq<Claim>, claimId: string, guestId: string)
    requires forall c :: c in cs ==> (c.id == claimId <==> c.guestId == guestId)
    ensures Summaries(Filter(cs, OtherThan(claimId))) == WithoutGuest(Summaries(cs), guestId)
  {
    if cs != [] {
      var h, l := Init(cs), Last(cs);
      assert cs == h + [l];
      SummariesWithout(h, claimId, guestId);
      FilterSnoc(h, l, OtherThan(claimId));
      SummariesSnoc(h, l);
      SummariesSnoc(Filter(h, OtherThan(claimId)), l);
      WithoutGuestSnoc(Summaries(h), ClaimSummary(l.guestId, l.displayName), guestId);
    }
  }

  lemma WithoutAbsentGuest(claims: seq<Claim>, itemId: string, guestId: string)
    requires forall c :: c in claims ==> !(c.queueItemId == itemId && c.guestId == guestId)
    ensures WithoutGuest(Singers(claims, itemId), guestId) == Singers(claims, itemId)
  {
    ItemClaimsMembers(claims, itemId);
    var cs, ss := ItemClaims(claims, itemId), Singers(claims, itemId);
    forall s | s in ss ensures s.guestId != guestId {
      var i :| 0 <= i < |ss| && ss[i] == s;
      assert cs[i] in cs;
    }
    FilterAll(ss, (x: ClaimSummary) => x.guestId != guestId);
  }

  /** Deleting a guest's claim removes that singer from its item and nothing else. */
  lemma SingersAfterDelete(claims: seq<Claim>, claim: Claim, itemId: string)
    requires ClaimsDistinct(claims) && claim in claims
    ensures Singers(DeleteClaim(claims, claim.id), itemId) ==
      if claim.queueItemId == itemId then WithoutGuest(Singers(claims, itemId), claim.guestId)
      else Singers(claims, itemId)
  {
    var cs := ItemClaims(claims, itemId);
    ItemClaimsAfterDelete(claims, claim.id, itemId);
    ItemClaimsMembers(claims, itemId);
    if claim.queueItemId == itemId {
      forall c | c in cs ensures c.id == claim.id <==> c.guestId == claim.guestId {
        SameClaim(claims, c, claim);
      }
      SummariesWithout(cs, claim.id, claim.guestId);
    } else {
      forall c | c in cs ensures c.id != claim.id {
        SameClaim(claims, c, claim);
      }
      FilterAll(cs, OtherThan(claim.id));
    }
  }

  /** A newest claim by a guest not yet on the item, as an edit of one item's singers. */
  lemma CreateIsEdit(claims: seq<Claim>, c: Claim)
    requires forall d :: d in claims ==> d.createdAt <= c.createdAt
    requires forall d :: d in claims ==> !(d.queueItemId == c.queueItemId && d.guestId == c.guestId)
    ensures Singers(claims + [c], c.queueItemId) ==
      EditClaims(Singers(claims, c.queueItemId), AddSinger(ClaimSummary(c.guestId, c.displayName)))
    ensures forall k :: k != c.queueItemId ==> Singers(claims + [c], k) == Singers(claims, k)
  {
    SingersAfterCreate(claims, c, c.queueItemId);
    WithoutAbsentGuest(claims, c.queueItemId, c.guestId);
    forall k | k != c.queueItemId ensures Singers(claims + [c], k) == Singers(claims, k) {
      SingersAfterCreate(claims, c, k);
    }
  }

  /** Deleting a claim, as an edit of one item's singers. */
  lemma DeleteIsEdit(claims: seq<Claim>, c: Claim)
    requires ClaimsDistinct(claims) && c in claims
    ensures Singers(DeleteClaim(claims, c.id), c.queueItemId) ==
      EditClaims(Singers(claims, c.queueItemId), DropSinger(c.guestId))
    ensures forall k :: k != c.queueItemId ==> Singers(DeleteClaim(claims, c.id), k) == Singers(claims, k)
  {
    SingersAfterDelete(claims, c, c.queueItemId);
    forall k | k != c.queueItemId ensures Singers(DeleteClaim(claims, c.id), k) == Singers(claims, k) {
      SingersAfterDelete(claims, c, k);
    }
  }

  lemma SameClaim(claims: seq<Claim>, c: Claim, d: Claim)
    requires ClaimsDistinct(claims) && c in claims && d in claims
    ensures c.id == d.id ==> c == d
    ensures c.queueItemId == d.queueItemId && c.guestId == d.guestId ==> c == d
  {
    var i :| 0 <= i < |claims| && claims[i] == c;
    var j :| 0 <= j < |claims| && claims[j] == d;
  }

  lemma FilterKeepsDistinct(claims: seq<Claim>, keep: Claim -> bool)
    requires ClaimsDistinct(claims)
    ensures ClaimsDistinct(Filter(claims, keep))
  {
    assert Distinct(claims);
    FilterDistinct(claims, keep);
    FilterMembers(claims, keep);
    var r := Filter(claims, keep);
    forall i, j | 0 <= i < j < |r|
      ensures r[i].id != r[j].id && !(r[i].queueItemId == r[j].queueItemId && r[i].guestId == r[j].guestId)
    {
      assert r[i] in r && r[j] in r && r[i] != r[j];
      SameClaim(claims, r[i], r[j]);
    }
  }

  /** Dropping an item's claims leaves it without singers and every other item with its own. */
  lemma SingersAfterCascade(claims: seq<Claim>, itemId: string, k: string)
    ensures Singers(DeleteItemClaims(claims, itemId), k) == if k == itemId then [] else Singers(claims, k)
  {
    var kept := DeleteItemClaims(claims, itemId);
    FilterMembers(claims, OffItem(itemId));
    if k == itemId {
      FilterNone(kept, OnItem(k));
    } else {
      FilterFilter(claims, OffItem(itemId), OnItem(k));
      FilterMembers(claims, OnItem(k));
      FilterAll(Filter(claims, OnItem(k)), OffItem(itemId));
    }
  }

  /** Grouping the session's sorted claims by item gives each item its claims in creation order. */
  lemma GroupingMatches(claims: seq<Claim>, sessionId: string, itemId: string)
    requires forall c :: c in claims && c.queueItemId == itemId ==> c.sessionId == sessionId
    ensures GroupedSingers(SessionClaims(claims, sessionId), itemId) == Singers(claims, itemId)
  {
    ClaimOrderIsTotalPreorder();
    SortFilter(Filter(claims, InSession(sessionId)), ClaimOrder, OnItem(itemId));
    FilterFilter(claims, InSession(sessionId), OnItem(itemId));
    FilterMembers(claims, OnItem(itemId));
    FilterAll(Filter(claims, OnItem(itemId)), InSession(sessionId));
  }
}
