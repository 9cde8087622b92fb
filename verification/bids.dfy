/**
 * The bid router of the farmer backend: placing a bid, listing bids,
 * the campaign view with its bid statistics, deleting a bid, and the bid
 * action handler (accept / reject / counter offer) with the contract it
 * creates when a bid is accepted.
 *
 * Each handler is a method on the store; the action handler is proved
 * against `BidActionSpec`, a function from the database before the request
 * to the answer and the database after it, and the lemmas below state what
 * the handler promises in terms of that function.
 */
module Bids {
  import opened Values
  import opened Text
  import opened Firestore
  import opened Schemas
  import opened Crud
  import opened Amounts

  const BidsCollection := "bids"
  const CampaignsCollection := "campaigns"
  const ContractsCollection := "contracts"
  const BidNotFound := "Bid not found"
  const AutoRejectNote := "Automatically rejected - another bid was accepted"
  const CounterAmountRequired := "Counter amount required for counter offer"

  /** The role every campaign owner is assumed to have when a bid is
      accepted (campaigns may live in the other backend, so it is not read). */
  const CampaignOwnerType := "buyer"

  /** `BidResponse(bid, message)`. */
  datatype BidResponse = BidResponse(bid: Record, message: string)

  /** The 500 answer of the action handler to an exception raised with
      the text `failure`. */
  function ActionError(failure: string): HttpError {
    HttpError(500, "Error handling bid action: " + failure)
  }

  /** The 500 answer when an accepted or countered bid has no `campaignId`
      (the `KeyError` names the missing key). */
  const MissingCampaignId := ActionError("'campaignId'")

  // ---------------------------------------------------------------------
  // create_bid and delete_bid

  /** The two ISO timestamps a new bid is stored with. */
  function Stamps(now: string): Record {
    map["createdAt" := Str(now), "updatedAt" := Str(now)]
  }

  /** The stored form of a new bid: the body by alias plus both timestamps. */
  function NewBidDoc(b: BidCreate, now: string): (r: Record)
    ensures r.Keys == BidRecord(b).Keys + {"createdAt", "updatedAt"}
    ensures forall k :: k in BidRecord(b) ==> r[k] == BidRecord(b)[k]
  {
    BidRecord(b) + Stamps(now)
  }

  /** `create_bid`; `bidId` is the `uuid4` text the handler generates. */
  method CreateBid(store: MockFirestore, b: BidCreate, now: string, bidId: string)
    returns (resp: BidResponse)
    modifies store
    ensures store.db == Stored(Ensured(old(store.db), BidsCollection), DocRef(BidsCollection, bidId), NewBidDoc(b, now))
    ensures resp == BidResponse(Tagged(bidId, NewBidDoc(b, now)), "Bid created successfully by " + b.bidderName)
  {
    var data := NewBidDoc(b, now);
    var c := store.Collection(BidsCollection);
    store.Set(DocumentRef(c, Some(bidId), ""), data);
    resp := BidResponse(Tagged(bidId, data), "Bid created successfully by " + b.bidderName);
  }

  /** A stored new bid validates as the bid that was placed. */
  lemma NewBidDocDecodes(b: BidCreate, now: string)
    ensures DecodeBid(NewBidDoc(b, now)) == Some(b)
  {
    DecodeBidWithExtra(b, Stamps(now));
  }

  /** The response to `create_bid`, the stored bid tagged with its id,
      validates as the bid that was placed. */
  lemma CreatedBidResponseDecodes(b: BidCreate, now: string, bidId: string)
    ensures DecodeBid(Tagged(bidId, NewBidDoc(b, now))) == Some(b)
  {
    MergeThenSet(BidRecord(b), Stamps(now), "id", Str(bidId));
    DecodeBidWithExtra(b, Stamps(now)["id" := Str(bidId)]);
  }

  /** The answer `Bid(**bid_data)` gives for a placed bid is the stored bid
      tagged with its id, since that holds no key outside the fields of
      `Bid`: `create_bid` answers exactly what it stored. */
  lemma CreatedBidAnswer(b: BidCreate, now: string, bidId: string)
    ensures BidAnswer(b, Tagged(bidId, NewBidDoc(b, now)), now) == Tagged(bidId, NewBidDoc(b, now))
  {
    var extra := Stamps(now)["id" := Str(bidId)];
    MergeThenSet(BidRecord(b), Stamps(now), "id", Str(bidId));
    assert extra == map["id" := Str(bidId), "createdAt" := Str(now), "updatedAt" := Str(now)];
    BidAnswerOfDump(b, Str(bidId), Str(now), Str(now), now);
  }

  /** A bid's dump, with fields outside the bid's own keys added, validates
      as that bid. */
  lemma DecodeBidWithExtra(b: BidCreate, extra: Record)
    requires extra.Keys !! BidFieldKeys
    ensures DecodeBid(BidRecord(b) + extra) == Some(b)
  {
    BidRecordRoundTrip(b, map[]);
    assert BidRecord(b) + map[] == BidRecord(b);
    DecodeBidIgnoresExtra(BidRecord(b), extra);
  }

  lemma MergeThenSet(base: Record, fields: Record, k: string, v: Value)
    ensures (base + fields)[k := v] == base + fields[k := v]
  {
  }

  /** `delete_bid`. */
  method DeleteBid(store: MockFirestore, bidId: string) returns (r: Result<string, HttpError>)
    modifies store
    ensures bidId !in Docs(old(store.db), BidsCollection) ==>
      r == Err(HttpError(404, BidNotFound)) && store.db == Ensured(old(store.db), BidsCollection)
    ensures bidId in Docs(old(store.db), BidsCollection) ==>
      r == Ok("Bid deleted successfully") && store.db == Deleted(old(store.db), DocRef(BidsCollection, bidId))
  {
    r := DeleteOne(store, BidsCollection, bidId, BidNotFound, "Bid deleted successfully");
  }

  // ---------------------------------------------------------------------
  // get_all_bids

  /** The one condition a chain of `where` calls leaves in force: the last
      one applied, each applied only when its parameter is a non-empty text. */
  function BidsFilter(campaignId: Option<string>, bidderType: Option<string>, status: Option<string>,
                      campaignKey: string, bidderKey: string): (f: Option<Filter>)
    ensures f.None? <==> !Truthy(OptStr(campaignId)) && !Truthy(OptStr(bidderType)) && !Truthy(OptStr(status))
  {
    if Truthy(OptStr(status)) then Some(Filter("status", "==", Str(status.value)))
    else if Truthy(OptStr(bidderType)) then Some(Filter(bidderKey, "==", Str(bidderType.value)))
    else if Truthy(OptStr(campaignId)) then Some(Filter(campaignKey, "==", Str(campaignId.value)))
    else None
  }

  /** The listing with the filter field names given as parameters. */
  method ListBids(store: MockFirestore, campaignId: Option<string>, bidderType: Option<string>,
                  status: Option<string>, campaignKey: string, bidderKey: string)
    returns (resp: ListResponse)
    modifies store
    ensures store.db == Ensured(old(store.db), BidsCollection)
    ensures IsListingOf(resp.data, store.db[BidsCollection], BidsFilter(campaignId, bidderType, status, campaignKey, bidderKey))
    ensures resp.count == |resp.data|
  {
    var query := store.Collection(BidsCollection);
    if Truthy(OptStr(campaignId)) {
      query := Where(query, campaignKey, "==", Str(campaignId.value));
    }
    if Truthy(OptStr(bidderType)) {
      query := Where(query, bidderKey, "==", Str(bidderType.value));
    }
    if Truthy(OptStr(status)) {
      query := Where(query, "status", "==", Str(status.value));
    }
    var docs := store.Stream(query);
    var data := TagDocs(docs);
    TaggedStreamIsListing(docs, data, store.db[BidsCollection], query.filter);
    resp := ListResponse(data, |data|);
  }

  /** `get_all_bids` as written, filtering on `campaign_id` and `bidder_type`. */
  method GetAllBids(store: MockFirestore, campaignId: Option<string>, bidderType: Option<string>,
                    status: Option<string>)
    returns (resp: ListResponse)
    modifies store
    ensures store.db == Ensured(old(store.db), BidsCollection)
    ensures IsListingOf(resp.data, store.db[BidsCollection],
                        BidsFilter(campaignId, bidderType, status, "campaign_id", "bidder_type"))
    ensures resp.count == |resp.data|
  {
    resp := ListBids(store, campaignId, bidderType, status, "campaign_id", "bidder_type");
  }

  /** `get_all_bids` filtering on the field names bids are stored under. */
  method GetAllBidsFixed(store: MockFirestore, campaignId: Option<string>, bidderType: Option<string>,
                         status: Option<string>)
    returns (resp: ListResponse)
    modifies store
    ensures store.db == Ensured(old(store.db), BidsCollection)
    ensures IsListingOf(resp.data, store.db[BidsCollection],
                        BidsFilter(campaignId, bidderType, status, "campaignId", "bidderType"))
    ensures resp.count == |resp.data|
  {
    resp := ListBids(store, campaignId, bidderType, status, "campaignId", "bidderType");
  }

  /** When a status is given, the other two parameters have no effect. */
  lemma StatusFilterWins(campaignId: Option<string>, bidderType: Option<string>, status: string,
                         campaignKey: string, bidderKey: string)
    requires status != ""
    ensures BidsFilter(campaignId, bidderType, Some(status), campaignKey, bidderKey)
         == BidsFilter(None, None, Some(status), campaignKey, bidderKey)
  {
  }

  /** A listing under a condition on a field that no document holds is empty. */
  lemma ListingOnAbsentFieldIsEmpty(data: seq<Record>, coll: Collection, field: string, v: Value)
    requires forall k :: k in coll ==> field !in coll[k]
    requires IsListingOf(data, coll, Some(Filter(field, "==", v)))
    ensures data == []
  {
    assert MatchingIds(coll, Some(Filter(field, "==", v))) == {};
  }

  // ---------------------------------------------------------------------
  // get_campaign_with_bids

  /** `CampaignWithBids`: the placeholder campaign, its bids and the statistics. */
  datatype CampaignWithBids = CampaignWithBids(
    id: string, title: string, bids: seq<Record>, activeBidsCount: nat,
    highestBid: Option<string>, lowestBid: Option<string>)

  /** `s[:n]`. */
  function Prefix(s: string, n: nat): (p: string)
    ensures |p| <= n && |p| <= |s| && p == s[..|p|]
    ensures |s| <= n ==> p == s
  {
    if |s| <= n then s else s[..n]
  }

  /** The amount a listed bid contributes: its `key` field when that is a
      non-empty text that reads as a number. */
  function BidAmountOf(bid: Record, key: string): Option<int> {
    if key in bid && Truthy(bid[key]) && bid[key].Str? then ParseAmountText(bid[key].s) else None
  }

  /** The values present in a sequence of optional values, in order. */
  function Present(xs: seq<Option<int>>): seq<int>
    decreases |xs|
  {
    if xs == [] then []
    else Present(xs[..|xs| - 1]) + (if xs[|xs| - 1].Some? then [xs[|xs| - 1].value] else [])
  }

  lemma PresentAppend(xs: seq<Option<int>>, o: Option<int>)
    ensures Present(xs + [o]) == Present(xs) + (if o.Some? then [o.value] else [])
  {
    assert (xs + [o])[..|xs|] == xs;
  }

  /** A value is present exactly when some entry holds it. */
  lemma {:induction false} PresentMembers(xs: seq<Option<int>>, x: int)
    ensures x in Present(xs) <==> exists i :: 0 <= i < |xs| && xs[i] == Some(x)
    decreases |xs|
  {
    if xs != [] {
      var init := xs[..|xs| - 1];
      PresentMembers(init, x);
      if exists i :: 0 <= i < |xs| && xs[i] == Some(x) {
        var i :| 0 <= i < |xs| && xs[i] == Some(x);
        if i < |init| {
          assert init[i] == Some(x);
        }
      }
      if exists i :: 0 <= i < |init| && init[i] == Some(x) {
        var i :| 0 <= i < |init| && init[i] == Some(x);
        assert xs[i] == init[i];
      }
    }
  }

  /** The amount of each bid of a list, in order. */
  function AmountOpts(bids: seq<Record>, key: string): (r: seq<Option<int>>)
    ensures |r| == |bids|
    ensures forall i :: 0 <= i < |bids| ==> r[i] == BidAmountOf(bids[i], key)
  {
    seq(|bids|, i requires 0 <= i < |bids| => BidAmountOf(bids[i], key))
  }

  /** The amounts of a list of bids, in order. */
  function AmountsOf(bids: seq<Record>, key: string): seq<int> {
    Present(AmountOpts(bids, key))
  }

  lemma AmountsOfAppend(bids: seq<Record>, bid: Record, key: string)
    ensures AmountsOf(bids + [bid], key)
         == AmountsOf(bids, key) + (if BidAmountOf(bid, key).Some? then [BidAmountOf(bid, key).value] else [])
  {
    assert AmountOpts(bids + [bid], key) == AmountOpts(bids, key) + [BidAmountOf(bid, key)];
    PresentAppend(AmountOpts(bids, key), BidAmountOf(bid, key));
  }

  /** The amounts are exactly those of the bids that carry one. */
  lemma AmountsOfMembers(bids: seq<Record>, key: string, x: int)
    ensures x in AmountsOf(bids, key) <==> exists i :: 0 <= i < |bids| && BidAmountOf(bids[i], key) == Some(x)
  {
    var xs := AmountOpts(bids, key);
    PresentMembers(xs, x);
    if exists i :: 0 <= i < |bids| && BidAmountOf(bids[i], key) == Some(x) {
      var i :| 0 <= i < |bids| && BidAmountOf(bids[i], key) == Some(x);
      assert xs[i] == Some(x);
    }
  }

  /** The number of bids whose status is "pending". */
  function CountPending(bids: seq<Record>): (n: nat)
    ensures n <= |bids|
    decreases |bids|
  {
    if bids == [] then 0
    else CountPending(bids[..|bids| - 1]) + (if IsPendingBid(bids[|bids| - 1]) then 1 else 0)
  }

  predicate IsPendingBid(bid: Record) {
    Get(bid, "status", Null) == Str("pending")
  }

  /** The loop of the campaign view: tag each streamed bid with its id and
      collect the amounts that read as numbers. */
  method CollectBids(docs: seq<(string, Record)>, amountKey: string)
    returns (bids: seq<Record>, amounts: seq<int>)
    ensures |bids| == |docs|
    ensures forall i :: 0 <= i < |docs| ==> bids[i] == Tagged(docs[i].0, docs[i].1)
    ensures amounts == AmountsOf(bids, amountKey)
  {
    bids := [];
    amounts := [];
    for i := 0 to |docs|
      invariant |bids| == i
      invariant forall j :: 0 <= j < i ==> bids[j] == Tagged(docs[j].0, docs[j].1)
      invariant amounts == AmountsOf(bids, amountKey)
    {
      var bid := Tagged(docs[i].0, docs[i].1);
      AmountsOfAppend(bids, bid, amountKey);
      ghost var prev := bids;
      bids := bids + [bid];
      assert forall j :: 0 <= j < i ==> bids[j] == prev[j];
      var amount := BidAmountOf(bid, amountKey);
      if amount.Some? {
        amounts := amounts + [amount.value];
      }
    }
  }

  predicate NoAmounts(bids: seq<Record>, key: string) {
    forall i :: 0 <= i < |bids| ==> BidAmountOf(bids[i], key).None?
  }

  /** `h` is the amount of some bid and no bid's amount exceeds it. */
  predicate IsHighestAmount(bids: seq<Record>, key: string, h: int) {
    && (exists i :: 0 <= i < |bids| && BidAmountOf(bids[i], key) == Some(h))
    && (forall i :: 0 <= i < |bids| && BidAmountOf(bids[i], key).Some? ==> BidAmountOf(bids[i], key).value <= h)
  }

  /** `l` is the amount of some bid and no bid's amount is below it. */
  predicate IsLowestAmount(bids: seq<Record>, key: string, l: int) {
    && (exists i :: 0 <= i < |bids| && BidAmountOf(bids[i], key) == Some(l))
    && (forall i :: 0 <= i < |bids| && BidAmountOf(bids[i], key).Some? ==> l <= BidAmountOf(bids[i], key).value)
  }

  lemma HighestAndLowest(bids: seq<Record>, key: string)
    requires AmountsOf(bids, key) != []
    ensures IsHighestAmount(bids, key, MaxOf(AmountsOf(bids, key)))
    ensures IsLowestAmount(bids, key, MinOf(AmountsOf(bids, key)))
  {
    var amounts := AmountsOf(bids, key);
    AmountsOfMembers(bids, key, MaxOf(amounts));
    AmountsOfMembers(bids, key, MinOf(amounts));
    forall i | 0 <= i < |bids| && BidAmountOf(bids[i], key).Some?
      ensures BidAmountOf(bids[i], key).value in amounts
    {
      AmountsOfMembers(bids, key, BidAmountOf(bids[i], key).value);
    }
  }

  lemma NoAmountsIffEmpty(bids: seq<Record>, key: string)
    ensures NoAmounts(bids, key) <==> AmountsOf(bids, key) == []
  {
    if !NoAmounts(bids, key) {
      var i :| 0 <= i < |bids| && BidAmountOf(bids[i], key).Some?;
      AmountsOfMembers(bids, key, BidAmountOf(bids[i], key).value);
    }
    if AmountsOf(bids, key) != [] {
      AmountsOfMembers(bids, key, AmountsOf(bids, key)[0]);
    }
  }

  /** The campaign view with the query and amount field names as parameters. */
  method CampaignWithBidsOn(store: MockFirestore, campaignId: string, campaignKey: string, amountKey: string)
    returns (view: CampaignWithBids)
    modifies store
    ensures store.db == Ensured(old(store.db), BidsCollection)
    ensures view.id == campaignId && view.title == "Campaign " + Prefix(campaignId, 8) + "..."
    ensures IsListingOf(view.bids, store.db[BidsCollection], Some(Filter(campaignKey, "==", Str(campaignId))))
    ensures view.activeBidsCount == CountPending(view.bids)
    ensures view.highestBid.None? <==> NoAmounts(view.bids, amountKey)
    ensures view.lowestBid.None? <==> NoAmounts(view.bids, amountKey)
    ensures view.highestBid.Some? ==>
      exists h :: IsHighestAmount(view.bids, amountKey, h) && view.highestBid.value == FormatAmount(h)
    ensures view.lowestBid.Some? ==>
      exists l :: IsLowestAmount(view.bids, amountKey, l) && view.lowestBid.value == FormatAmount(l)
  {
    var title := "Campaign " + Prefix(campaignId, 8) + "...";
    var c := store.Collection(BidsCollection);
    var q := Where(c, campaignKey, "==", Str(campaignId));
    var docs := store.Stream(q);
    var bids, amounts := CollectBids(docs, amountKey);
    TaggedStreamIsListing(docs, bids, store.db[BidsCollection], q.filter);
    var active := CountPending(bids);
    NoAmountsIffEmpty(bids, amountKey);
    if amounts == [] {
      view := CampaignWithBids(campaignId, title, bids, active, None, None);
    } else {
      HighestAndLowest(bids, amountKey);
      view := CampaignWithBids(campaignId, title, bids, active,
                               Some(FormatAmount(MaxOf(amounts))), Some(FormatAmount(MinOf(amounts))));
    }
  }

  /** The campaign data `get_campaign_with_bids` builds instead of reading
      the stored campaign: only an id and a title. */
  function PlaceholderCampaign(campaignId: string): Record {
    map["id" := Str(campaignId), "title" := Str("Campaign " + Prefix(campaignId, 8) + "...")]
  }

  /** The placeholder lacks the required fields of `Campaign` (crop, crop
      type, location, duration, estimated yield, status), so building the
      view from it always fails. */
  lemma PlaceholderNeverValidates(campaignId: string)
    ensures !ValidatesAsCampaign(PlaceholderCampaign(campaignId))
    ensures "title" in PlaceholderCampaign(campaignId) && "crop" !in PlaceholderCampaign(campaignId)
  {
  }

  /** `get_campaign_with_bids` as written: the bids are streamed by
      `campaign_id` and their amounts read from `bid_amount`, then the view
      is built on the placeholder campaign, which fails validation; the
      answer is always the 500, carrying the text `failure` of the
      validation error. */
  method GetCampaignWithBids(store: MockFirestore, campaignId: string, failure: string)
    returns (r: Result<CampaignWithBids, HttpError>)
    modifies store
    ensures store.db == Ensured(old(store.db), BidsCollection)
    ensures r == Err(HttpError(500, "Error retrieving campaign with bids: " + failure))
  {
    var view := CampaignWithBidsOn(store, campaignId, "campaign_id", "bid_amount");
    var campaign := PlaceholderCampaign(campaignId);
    PlaceholderNeverValidates(campaignId);
    r := if ValidatesAsCampaign(campaign) then Ok(view)
         else Err(HttpError(500, "Error retrieving campaign with bids: " + failure));
  }

  /** The campaign view reading the field names bids are stored under.
      Only the bid part is modelled: the intended handler also needs
      campaign data that validates as `Campaign` (`ValidatesAsCampaign`),
      which the placeholder never does. */
  method GetCampaignWithBidsFixed(store: MockFirestore, campaignId: string) returns (view: CampaignWithBids)
    modifies store
    ensures store.db == Ensured(old(store.db), BidsCollection)
    ensures view.id == campaignId && view.title == "Campaign " + Prefix(campaignId, 8) + "..."
    ensures IsListingOf(view.bids, store.db[BidsCollection], Some(Filter("campaignId", "==", Str(campaignId))))
    ensures view.activeBidsCount == CountPending(view.bids)
    ensures view.highestBid.None? <==> NoAmounts(view.bids, "bidAmount")
    ensures view.lowestBid.None? <==> NoAmounts(view.bids, "bidAmount")
    ensures view.highestBid.Some? ==>
      exists h :: IsHighestAmount(view.bids, "bidAmount", h) && view.highestBid.value == FormatAmount(h)
    ensures view.lowestBid.Some? ==>
      exists l :: IsLowestAmount(view.bids, "bidAmount", l) && view.lowestBid.value == FormatAmount(l)
  {
    view := CampaignWithBidsOn(store, campaignId, "campaignId", "bidAmount");
  }

  /** A bid placed through `create_bid` has neither `campaign_id` nor
      `bid_amount`, so the as-written view never lists it and never reads
      its amount. */
  lemma CreatedBidInvisibleAsWritten(b: BidCreate, now: string, campaignId: string)
    ensures !Matches(Some(Filter("campaign_id", "==", Str(campaignId))), NewBidDoc(b, now))
    ensures BidAmountOf(NewBidDoc(b, now), "bid_amount").None?
  {
    var keys := BidRecord(b).Keys;
    assert "campaign_id" !in keys && "bid_amount" !in keys;
    assert "campaign_id" !in NewBidDoc(b, now) && "bid_amount" !in NewBidDoc(b, now);
  }

  /** The fields of a bid placed through `create_bid`. */
  const PlacedBidKeys: set<string> := {"campaignId", "bidderType", "bidderId", "bidderName", "bidAmount",
                                       "quantity", "qualityGrade", "deliveryTerms", "notes", "status",
                                       "createdAt", "updatedAt"}

  lemma NewBidDocKeys(b: BidCreate, now: string)
    ensures NewBidDoc(b, now).Keys == PlacedBidKeys
  {
  }

  /** `GET /api/bids?campaign_id=...` as written: when every stored bid has
      the fields `create_bid` writes, the listing is empty. */
  lemma ListByCampaignAsWrittenIsEmpty(coll: Collection, campaignId: string, data: seq<Record>)
    requires campaignId != ""
    requires forall k :: k in coll ==> coll[k].Keys == PlacedBidKeys
    requires IsListingOf(data, coll, BidsFilter(Some(campaignId), None, None, "campaign_id", "bidder_type"))
    ensures data == []
  {
    assert "campaign_id" !in PlacedBidKeys;
    ListingOnAbsentFieldIsEmpty(data, coll, "campaign_id", Str(campaignId));
  }

  /** The same listing on the stored field name holds every placed bid of
      the campaign. */
  lemma ListByCampaignFixedFindsPlacedBid(coll: Collection, bidId: string, b: BidCreate, now: string, data: seq<Record>)
    requires b.campaignId != ""
    requires bidId in coll && coll[bidId] == NewBidDoc(b, now)
    requires IsListingOf(data, coll, BidsFilter(Some(b.campaignId), None, None, "campaignId", "bidderType"))
    ensures Tagged(bidId, NewBidDoc(b, now)) in data
  {
    CreatedBidVisibleFixed(b, now);
    ListingIsComplete(data, coll, Some(Filter("campaignId", "==", Str(b.campaignId))), bidId);
  }

  /** With the stored field names, a placed bid is listed under its campaign
      and its amount is read when it is a whole number. */
  lemma CreatedBidVisibleFixed(b: BidCreate, now: string)
    ensures Matches(Some(Filter("campaignId", "==", Str(b.campaignId))), NewBidDoc(b, now))
    ensures b.bidAmount != "" ==> BidAmountOf(NewBidDoc(b, now), "bidAmount") == ParseAmountText(b.bidAmount)
  {
  }

  // ---------------------------------------------------------------------
  // handle_bid_action: the pieces

  /** The refusals of `accept` for a campaign owner of role `ownerType`:
      nobody accepts a bid of their own role, and a farmer owner accepts
      only counter offers. */
  function AcceptRefusal(ownerType: string, bid: Record): (e: Option<HttpError>)
    ensures e.Some? ==> e.value.status == 400
  {
    if Get(bid, "bidderType", Null) == Str(ownerType) then
      Some(HttpError(400, "A " + ownerType + " cannot accept their own bid. Only the opposite party can accept bids."))
    else if ownerType == "farmer" && Get(bid, "status", Null) != Str("counter_offered") then
      Some(HttpError(400, "Farmers can only accept buyer counter-offers, not initial farmer bids."))
    else None
  }

  /** With the owner role fixed to "buyer", an accept is refused exactly for
      bids placed by buyers; the farmer-owner rule never applies. */
  lemma AcceptRefusedIffBuyerBid(bid: Record)
    ensures AcceptRefusal(CampaignOwnerType, bid).Some? <==> Get(bid, "bidderType", Null) == Str("buyer")
  {
  }

  /** For a farmer owner the second rule would admit only counter offers. */
  lemma FarmerOwnerAcceptsOnlyCounterOffers(bid: Record)
    ensures AcceptRefusal("farmer", bid).None? <==>
      Get(bid, "bidderType", Null) != Str("farmer") && Get(bid, "status", Null) == Str("counter_offered")
  {
  }

  /** `status in ['pending', 'counter_offered']`. */
  predicate IsOpen(bid: Record) {
    Get(bid, "status", Null) == Str("pending") || Get(bid, "status", Null) == Str("counter_offered")
  }

  /** The stream of the accepted bid's siblings: bids whose `campaignId` equals it. */
  function SameCampaign(cid: Value): Option<Filter> {
    Some(Filter("campaignId", "==", cid))
  }

  /** The fields written into every automatically rejected bid. */
  function RejectionFields(now: string): Record {
    map["status" := Str("rejected"), "actionNotes" := Str(AutoRejectNote), "updatedAt" := Str(now)]
  }

  /** Whether accepting `acceptedId` of campaign `cid` rejects bid `k`: a
      different, still open bid of the same campaign. */
  predicate AutoRejects(bids: Collection, k: string, acceptedId: string, cid: Value)
    requires k in bids
  {
    k != acceptedId && Matches(SameCampaign(cid), bids[k]) && IsOpen(bids[k])
  }

  /** The bids after those among `visited` that accepting rejects are rejected. */
  function AutoRejectedAmong(bids: Collection, visited: set<string>, acceptedId: string, cid: Value, now: string)
    : (r: Collection)
    ensures r.Keys == bids.Keys
  {
    map k | k in bids :: if k in visited && AutoRejects(bids, k, acceptedId, cid) then Merge(bids[k], RejectionFields(now)) else bids[k]
  }

  /** The bids after accepting `acceptedId` of campaign `cid`. */
  function AutoRejected(bids: Collection, acceptedId: string, cid: Value, now: string): (r: Collection)
    ensures r.Keys == bids.Keys
    ensures forall k :: k in bids && AutoRejects(bids, k, acceptedId, cid) ==> r[k] == Merge(bids[k], RejectionFields(now))
    ensures forall k :: k in bids && !AutoRejects(bids, k, acceptedId, cid) ==> r[k] == bids[k]
  {
    AutoRejectedAmong(bids, bids.Keys, acceptedId, cid, now)
  }

  lemma AutoRejectedAmongNone(bids: Collection, acceptedId: string, cid: Value, now: string)
    ensures AutoRejectedAmong(bids, {}, acceptedId, cid, now) == bids
  {
  }

  /** Visiting every bid of the campaign is visiting every bid. */
  lemma AutoRejectedAmongMatching(bids: Collection, acceptedId: string, cid: Value, now: string)
    ensures AutoRejectedAmong(bids, MatchingIds(bids, SameCampaign(cid)), acceptedId, cid, now)
         == AutoRejected(bids, acceptedId, cid, now)
  {
  }

  /** One step of the rejection loop over the stream of the campaign's bids. */
  lemma RejectStep(bids: Collection, others: seq<(string, Record)>, i: int,
                   acceptedId: string, cid: Value, now: string)
    requires IsStreamOf(others, bids, SameCampaign(cid))
    requires 0 <= i < |others|
    ensures var cur := AutoRejectedAmong(bids, IdsOf(others[..i]), acceptedId, cid, now);
      var id := others[i].0;
      var next := AutoRejectedAmong(bids, IdsOf(others[..i + 1]), acceptedId, cid, now);
      && id in cur && cur[id] == bids[id] && others[i].1 == bids[id]
      && (id != acceptedId && IsOpen(others[i].1) ==> next == cur[id := Merge(cur[id], RejectionFields(now))])
      && (!(id != acceptedId && IsOpen(others[i].1)) ==> next == cur)
  {
    var id := others[i].0;
    assert others[..i + 1] == others[..i] + [others[i]];
    IdsOfAppend(others[..i], id, others[i].1);
    assert id !in IdsOf(others[..i]) by {
      forall j | 0 <= j < i ensures others[..i][j].0 != id {
        assert others[..i][j] == others[j];
      }
    }
    assert id in IdsOf(others);
    assert Matches(SameCampaign(cid), bids[id]);
  }

  /** `bid_data.get('counterAmount') or bid_data.get('bidAmount', '')`. */
  function AgreedPrice(bid: Record): Value {
    var counter := Get(bid, "counterAmount", Null);
    if Truthy(counter) then counter else Get(bid, "bidAmount", Str(""))
  }

  function ContractNotes(bid: Record): string {
    "Contract created from accepted bid. Original bid: " + PyStr(Get(bid, "bidAmount", Null))
    + (if Truthy(Get(bid, "counterAmount", Null)) then ", Final negotiated price: " + PyStr(AgreedPrice(bid)) else "")
  }

  predicate BidderIs(bid: Record, role: string) {
    Get(bid, "bidderType", Null) == Str(role)
  }

  /** The contract created from an accepted bid of campaign `cid`. */
  function ContractRecord(bid: Record, bidId: string, campaign: Record, cid: Value, contractId: string, now: string)
    : (c: Record)
  {
    var agreed := AgreedPrice(bid);
    map[
      "title" := Str("\U{1F4C4} Contract: " + PyStr(Get(campaign, "title", Str("Unknown Campaign")))),
      "crop" := Get(campaign, "crop", Str("")),
      "cropType" := Get(campaign, "cropType", Str("")),
      "location" := Get(campaign, "location", Str("")),
      "duration" := Get(campaign, "duration", Str("")),
      "estimatedYield" := Get(bid, "quantity", Str("")),
      "minimumQuotation" := agreed,
      "currentBid" := agreed,
      "deliveryTerms" := Get(bid, "deliveryTerms", Str("Standard delivery terms")),
      "qualityGrade" := Get(bid, "qualityGrade", Str("Standard")),
      "contractNotes" := Str(ContractNotes(bid)),
      "createdAt" := Str(now),
      "updatedAt" := Str(now),
      "totalBids" := Int(1),
      "status" := Str("completed"),
      "contractStatus" := Str("active"),
      "originalCampaignId" := cid,
      "originalBidId" := Str(bidId),
      "id" := Str(contractId),
      "agreedPrice" := agreed,
      "farmerId" := if BidderIs(bid, "farmer") then Get(bid, "bidderId", Null) else Get(campaign, "userId", Null),
      "farmerName" := if BidderIs(bid, "farmer") then Get(bid, "bidderName", Null) else Str("Unknown Farmer"),
      "buyerId" := if BidderIs(bid, "buyer") then Get(bid, "bidderId", Null) else Get(campaign, "userId", Null),
      "buyerName" := if BidderIs(bid, "buyer") then Get(bid, "bidderName", Null) else Str("Unknown Buyer")]
  }

  /** The fields merged into the campaign when its contract is created. */
  function CampaignClosure(contractId: string, agreed: Value, now: string): Record {
    map["status" := Str("completed"), "contractId" := Str(contractId), "finalPrice" := agreed, "updatedAt" := Str(now)]
  }

  /** The database after `_create_contract_from_bid`: nothing when the bid's
      campaign id is missing or empty; otherwise the campaigns collection is
      constructed, and when the campaign exists the contract is stored under
      `contractId` and the campaign is closed with a link to it.  No step
      of it can raise, so its error handler is never reached. */
  function ContractEffect(db: Db, bid: Record, bidId: string, contractId: string, now: string): (r: Db)
    ensures forall c :: c in db && c != CampaignsCollection && c != ContractsCollection ==> c in r && r[c] == db[c]
  {
    var cid := Get(bid, "campaignId", Null);
    if !Truthy(cid) then db
    else
      var db1 := Ensured(db, CampaignsCollection);
      if !(cid.Str? && cid.s in db1[CampaignsCollection]) then db1
      else
        var campaign := db1[CampaignsCollection][cid.s];
        RecordContract(db1, cid.s, contractId, ContractRecord(bid, bidId, campaign, cid, contractId, now),
                       CampaignClosure(contractId, AgreedPrice(bid), now))
  }

  /** The two writes of a contract creation: the contract is stored under
      `contractId`, then `closure` is merged into the campaign. */
  function RecordContract(db: Db, campaignId: string, contractId: string, contract: Record, closure: Record)
    : (r: Db)
    requires CampaignsCollection in db && campaignId in db[CampaignsCollection]
    ensures r.Keys == db.Keys + {ContractsCollection}
    ensures forall c :: c in db && c != CampaignsCollection && c != ContractsCollection ==> r[c] == db[c]
    ensures contractId in r[ContractsCollection] && r[ContractsCollection][contractId] == contract
    ensures r[CampaignsCollection] == db[CampaignsCollection][campaignId := Merge(db[CampaignsCollection][campaignId], closure)]
  {
    var db2 := Ensured(db, ContractsCollection);
    var db3 := Stored(db2, DocRef(ContractsCollection, contractId), contract);
    Updated(db3, DocRef(CampaignsCollection, campaignId), closure)
  }

  /** The bid as it is written back: the action's changes, then the notes
      when they are a non-empty text, then the update time. */
  function Finished(bid: Record, notes: Option<string>, now: string): (r: Record)
    ensures "updatedAt" in r && r["updatedAt"] == Str(now)
    ensures Truthy(OptStr(notes)) ==> "actionNotes" in r && r["actionNotes"] == Str(notes.value)
    ensures forall k :: k in bid && k != "updatedAt" && (k != "actionNotes" || !Truthy(OptStr(notes))) ==> k in r && r[k] == bid[k]
    ensures r.Keys == bid.Keys + {"updatedAt"} + (if Truthy(OptStr(notes)) then {"actionNotes"} else {})
  {
    var noted := if Truthy(OptStr(notes)) then bid["actionNotes" := Str(notes.value)] else bid;
    noted["updatedAt" := Str(now)]
  }

  /** The common tail of every successful action: write the finished bid
      back and answer with it. */
  function FinishSpec(db: Db, bidId: string, bid: Record, notes: Option<string>, now: string, message: string)
    : (out: (Result<BidResponse, HttpError>, Db))
    requires BidsCollection in db
    ensures out.1.Keys == db.Keys
    ensures forall c :: c in db && c != BidsCollection ==> out.1[c] == db[c]
  {
    var final := Finished(bid, notes, now);
    (Ok(BidResponse(Tagged(bidId, final), message)), Updated(db, DocRef(BidsCollection, bidId), final))
  }

  /** Whether a stored bid validates as a `Bid` once an action has given it
      `status`. */
  predicate ValidatesAs(bid: Record, status: string) {
    DecodeBid(bid["status" := Str(status)]).Some?
  }

  /** The bid an action answers with: the stored bid with the action's
      status, as `Bid` reads it, with the id and the timestamps of the bid
      as written. Nothing else the action added is part of it. */
  function ActionAnswer(bid: Record, status: string, written: Record, now: string): (a: Record)
    requires ValidatesAs(bid, status)
    ensures a.Keys == BidAnswerKeys
    ensures a["status"] == Str(status)
    ensures "id" in written ==> a["id"] == written["id"]
    ensures DecodeBid(a) == DecodeBid(bid["status" := Str(status)])
  {
    var b := DecodeBid(bid["status" := Str(status)]).value;
    assert FieldOf(bid["status" := Str(status)], "status", "status") == Some(Str(status));
    BidAnswerFields(b, written, now);
    BidAnswer(b, written, now)
  }

  /** The keys the action handler adds to a bid besides its status. */
  lemma AddedKeysAreNotBidFields()
    ensures "rejectedBy" !in BidFieldKeys && "counterAmount" !in BidFieldKeys
    ensures "actionNotes" !in BidFieldKeys && "updatedAt" !in BidFieldKeys && "id" !in BidFieldKeys
  {
  }

  /** The fields the action handler adds to a bid besides its status (who
      rejected it, the counter amount, the action notes, the update time and
      the id of the response) are not fields of `Bid`: whether the answer
      validates is decided by the bid before they were added. */
  lemma FinishedDecodes(bid: Record, notes: Option<string>, now: string, bidId: string)
    ensures DecodeBid(Tagged(bidId, Finished(bid, notes, now))) == DecodeBid(bid)
  {
    var noted := if Truthy(OptStr(notes)) then bid["actionNotes" := Str(notes.value)] else bid;
    AddedKeysAreNotBidFields();
    if Truthy(OptStr(notes)) {
      DecodeBidOutsideField(bid, "actionNotes", Str(notes.value));
    }
    DecodeBidOutsideField(noted, "updatedAt", Str(now));
    DecodeBidOutsideField(noted["updatedAt" := Str(now)], "id", Str(bidId));
  }

  /** Validation as a `Bid` does not depend on which of the statuses an
      action gives, and a bid that validates as stored validates with any
      of them. */
  lemma ValidatesAsAnyStatus(bid: Record, s1: BidStatus, s2: BidStatus)
    ensures ValidatesAs(bid, BidStatusName(s1)) <==> ValidatesAs(bid, BidStatusName(s2))
    ensures DecodeBid(bid).Some? ==> ValidatesAs(bid, BidStatusName(s1))
  {
    var b1 := bid["status" := Str(BidStatusName(s1))];
    var b2 := bid["status" := Str(BidStatusName(s2))];
    assert b1["status" := Str(BidStatusName(s2))] == b2;
    assert b2["status" := Str(BidStatusName(s1))] == b1;
    if ValidatesAs(bid, BidStatusName(s1)) {
      DecodeBidSetStatus(b1, s2);
    }
    if ValidatesAs(bid, BidStatusName(s2)) {
      DecodeBidSetStatus(b2, s1);
    }
    if DecodeBid(bid).Some? {
      DecodeBidSetStatus(bid, s1);
    }
  }

  /** The final write replaces the stored bid by the finished one when the
      finished bid has every field the stored one has. */
  lemma FinishWrites(db: Db, bidId: string, bid: Record, notes: Option<string>, now: string, message: string)
    requires BidsCollection in db && bidId in db[BidsCollection]
    requires db[BidsCollection][bidId].Keys <= bid.Keys
    ensures var out := FinishSpec(db, bidId, bid, notes, now, message);
      var final := Finished(bid, notes, now);
      && out.0 == Ok(BidResponse(Tagged(bidId, final), message))
      && out.1[BidsCollection] == db[BidsCollection][bidId := final]
  {
    var final := Finished(bid, notes, now);
    assert Merge(db[BidsCollection][bidId], final) == final;
  }

  function AcceptSpec(db: Db, bidId: string, notes: Option<string>, now: string, contractId: string)
    : (out: (Result<BidResponse, HttpError>, Db))
    requires BidsCollection in db && bidId in db[BidsCollection]
  {
    var bid := db[BidsCollection][bidId];
    var refusal := AcceptRefusal(CampaignOwnerType, bid);
    if refusal.Some? then (Err(refusal.value), db)
    else
      var accepted := bid["status" := Str("accepted")];
      if "campaignId" !in accepted then (Err(MissingCampaignId), db)
      else
        var cid := accepted["campaignId"];
        var db1 := db[BidsCollection := AutoRejected(db[BidsCollection], bidId, cid, now)];
        var db2 := ContractEffect(db1, accepted, bidId, contractId, now);
        FinishSpec(db2, bidId, accepted, notes, now, "Bid accepted successfully")
  }

  function RejectSpec(db: Db, bidId: string, notes: Option<string>, now: string)
    : (out: (Result<BidResponse, HttpError>, Db))
    requires BidsCollection in db && bidId in db[BidsCollection]
  {
    var bid := db[BidsCollection][bidId];
    var byBuyer := BidderIs(bid, "farmer");
    var rejected := bid["status" := Str("rejected")]["rejectedBy" := Str(if byBuyer then "buyer" else "farmer")];
    FinishSpec(db, bidId, rejected, notes, now,
               if byBuyer then "Farmer bid rejected by buyer" else "Buyer counter offer rejected by farmer")
  }

  /** The fields merged into the campaign of a countered bid. */
  function CounterFields(amount: string, now: string): Record {
    map["currentBid" := Str(amount), "updatedAt" := Str(now)]
  }

  /** The campaign merge of a counter offer: `fields` are merged into the
      campaign the bid names when that id is a text. */
  function CampaignMerged(db: Db, cid: Value, fields: Record): (db2: Db)
    ensures db2.Keys == db.Keys + {CampaignsCollection}
  {
    var db1 := Ensured(db, CampaignsCollection);
    if cid.Str? then Updated(db1, DocRef(CampaignsCollection, cid.s), fields) else db1
  }

  /** The campaign merge touches no other campaign and no other collection. */
  lemma CampaignMergedFrame(db: Db, cid: Value, fields: Record)
    ensures var db2 := CampaignMerged(db, cid, fields);
      && Docs(db2, CampaignsCollection).Keys == Docs(db, CampaignsCollection).Keys
      && (forall k :: k in Docs(db, CampaignsCollection) && Str(k) != cid
            ==> Docs(db2, CampaignsCollection)[k] == Docs(db, CampaignsCollection)[k])
      && (forall c :: c != CampaignsCollection ==> Docs(db2, c) == Docs(db, c))
  {
  }

  function CounterSpec(db: Db, bidId: string, counterAmount: Option<string>, notes: Option<string>, now: string)
    : (out: (Result<BidResponse, HttpError>, Db))
    requires BidsCollection in db && bidId in db[BidsCollection]
  {
    if !Truthy(OptStr(counterAmount)) then (Err(HttpError(400, CounterAmountRequired)), db)
    else
      var amount := counterAmount.value;
      var countered := db[BidsCollection][bidId]["status" := Str("counter_offered")]["counterAmount" := Str(amount)];
      var db1 := Ensured(db, CampaignsCollection);
      if "campaignId" !in countered then (Err(MissingCampaignId), db1)
      else
        var cid := countered["campaignId"];
        FinishSpec(CampaignMerged(db, cid, CounterFields(amount, now)), bidId, countered, notes, now, "Counter offer made: " + amount)
  }

  /** The response `handle_bid_action` builds and the database it leaves,
      given the update time and the id the contract would get. */
  function BidActionSpec(db: Db, bidId: string, action: BidAction, now: string, contractId: string)
    : (out: (Result<BidResponse, HttpError>, Db))
  {
    var db0 := Ensured(db, BidsCollection);
    if bidId !in db0[BidsCollection] then (Err(HttpError(404, BidNotFound)), db0)
    else
      match action.action
      case Accept => AcceptSpec(db0, bidId, action.notes, now, contractId)
      case Reject => RejectSpec(db0, bidId, action.notes, now)
      case CounterOffer => CounterSpec(db0, bidId, action.counterAmount, action.notes, now)
  }

  /** What the handler answers for the response it built, `Bid(**bid_data)`.
      A built bid that does not validate as a `Bid` becomes a 500, after the
      write; `failure` is the text of the validation error, which the model
      does not compute. A bid that validates is answered with the fields of
      `Bid` only, so the keys an action adds are not part of the answer. */
  function Respond(built: Result<BidResponse, HttpError>, failure: string, now: string)
    : (r: Result<BidResponse, HttpError>)
    ensures built.Err? ==> r == built
    ensures built.Ok? && DecodeBid(built.value.bid).None? ==> r == Err(ActionError(failure))
    ensures r.Ok? ==> built.Ok? && r.value.message == built.value.message
    ensures r.Ok? ==> DecodeBid(r.value.bid) == DecodeBid(built.value.bid) && r.value.bid.Keys == BidAnswerKeys
  {
    if built.Err? then built
    else
      match DecodeBid(built.value.bid)
      case None => Err(ActionError(failure))
      case Some(b) => Ok(BidResponse(BidAnswer(b, built.value.bid, now), built.value.message))
  }

  // ---------------------------------------------------------------------
  // handle_bid_action: the handler

  /** The rejection loop of `accept`: every other open bid streamed under
      the accepted bid's campaign id is rejected. */
  method RejectOtherBids(store: MockFirestore, acceptedId: string, cid: Value, now: string)
    requires BidsCollection in store.db
    modifies store
    ensures store.db == old(store.db)[BidsCollection := AutoRejected(old(store.db)[BidsCollection], acceptedId, cid, now)]
  {
    ghost var db0 := store.db;
    var bids0 := store.db[BidsCollection];
    var c := store.Collection(BidsCollection);
    var q := Where(c, "campaignId", "==", cid);
    var others := store.Stream(q);
    AutoRejectedAmongNone(bids0, acceptedId, cid, now);
    assert db0[BidsCollection := bids0] == db0;
    assert IdsOf(others[..0]) == {};
    var i := 0;
    while i < |others|
      invariant 0 <= i <= |others|
      invariant store.db == db0[BidsCollection := AutoRejectedAmong(bids0, IdsOf(others[..i]), acceptedId, cid, now)]
    {
      RejectStep(bids0, others, i, acceptedId, cid, now);
      var otherId := others[i].0;
      var otherData := others[i].1;
      if otherId != acceptedId && IsOpen(otherData) {
        var bids := store.Collection(BidsCollection);
        ghost var cur := AutoRejectedAmong(bids0, IdsOf(others[..i]), acceptedId, cid, now);
        UpdatedInPlace(db0, BidsCollection, cur, otherId, RejectionFields(now));
        store.Update(DocRef(BidsCollection, otherId), RejectionFields(now));
      }
      i := i + 1;
    }
    assert others[..|others|] == others;
    AutoRejectedAmongMatching(bids0, acceptedId, cid, now);
  }

  lemma UpdatedInPlace(db: Db, name: string, coll: Collection, id: string, fields: Record)
    requires id in coll
    ensures Updated(db[name := coll], DocRef(name, id), fields) == db[name := coll[id := Merge(coll[id], fields)]]
  {
  }

  /** `_create_contract_from_bid`, given the id the contract gets. */
  method CreateContractFromBid(store: MockFirestore, bid: Record, bidId: string, contractId: string, now: string)
    modifies store
    ensures store.db == ContractEffect(old(store.db), bid, bidId, contractId, now)
  {
    var cid := Get(bid, "campaignId", Null);
    if !Truthy(cid) {
      return;
    }
    var campaigns := store.Collection(CampaignsCollection);
    if !cid.Str? {
      // a campaign id that is not text names no stored campaign
      return;
    }
    var campaignRef := DocumentRef(campaigns, Some(cid.s), "");
    if !store.Exists(campaignRef) {
      return;
    }
    var campaign := store.SnapshotToDict(campaignRef);
    var contract := ContractRecord(bid, bidId, campaign, cid, contractId, now);
    var contracts := store.Collection(ContractsCollection);
    store.Set(DocumentRef(contracts, Some(contractId), ""), contract);
    var campaigns2 := store.Collection(CampaignsCollection);
    store.Update(campaignRef, CampaignClosure(contractId, AgreedPrice(bid), now));
  }

  /** `handle_bid_action`. */
  method HandleBidAction(store: MockFirestore, bidId: string, action: BidAction, now: string, contractId: string,
                         failure: string)
    returns (r: Result<BidResponse, HttpError>)
    modifies store
    ensures var (built, db1) := BidActionSpec(old(store.db), bidId, action, now, contractId);
      r == Respond(built, failure, now) && store.db == db1
  {
    var bids := store.Collection(BidsCollection);
    var bidRef := DocumentRef(bids, Some(bidId), "");
    if !store.Exists(bidRef) {
      return Err(HttpError(404, BidNotFound));
    }
    ghost var db0 := store.db;
    ghost var spec := BidActionSpec(old(store.db), bidId, action, now, contractId);
    assert spec == BidActionSpec(db0, bidId, action, now, contractId);
    var bid := store.SnapshotToDict(bidRef);
    var message: string;
    match action.action {
      case Accept =>
        var refusal := AcceptRefusal(CampaignOwnerType, bid);
        if refusal.Some? {
          return Err(refusal.value);
        }
        bid := bid["status" := Str("accepted")];
        message := "Bid accepted successfully";
        if "campaignId" !in bid {
          return Err(MissingCampaignId);
        }
        RejectOtherBids(store, bidId, bid["campaignId"], now);
        CreateContractFromBid(store, bid, bidId, contractId, now);
        assert spec == FinishSpec(store.db, bidId, bid, action.notes, now, message);
      case Reject =>
        bid := bid["status" := Str("rejected")];
        if BidderIs(bid, "farmer") {
          bid := bid["rejectedBy" := Str("buyer")];
          message := "Farmer bid rejected by buyer";
        } else {
          bid := bid["rejectedBy" := Str("farmer")];
          message := "Buyer counter offer rejected by farmer";
        }
        RejectUnfolds(db0, bidId, action, now, contractId);
      case CounterOffer =>
        if !Truthy(OptStr(action.counterAmount)) {
          return Err(HttpError(400, CounterAmountRequired));
        }
        var amount := action.counterAmount.value;
        bid := bid["status" := Str("counter_offered")]["counterAmount" := Str(amount)];
        message := "Counter offer made: " + amount;
        var campaigns := store.Collection(CampaignsCollection);
        if "campaignId" !in bid {
          return Err(MissingCampaignId);
        }
        var cid := bid["campaignId"];
        if cid.Str? {
          store.Update(DocumentRef(campaigns, Some(cid.s), ""), CounterFields(amount, now));
        }
        assert spec == FinishSpec(store.db, bidId, bid, action.notes, now, message);
    }
    r := FinishAction(store, bidId, bid, action.notes, now, message, failure);
  }

  /** The common tail of `handle_bid_action`: the notes and the update time
      are added, the bid is written back, and the answer is the written bid
      once it validates as a `Bid`. */
  method FinishAction(store: MockFirestore, bidId: string, bid: Record, notes: Option<string>, now: string,
                      message: string, failure: string)
    returns (r: Result<BidResponse, HttpError>)
    requires BidsCollection in store.db
    modifies store
    ensures var (built, db1) := FinishSpec(old(store.db), bidId, bid, notes, now, message);
      r == Respond(built, failure, now) && store.db == db1
  {
    var finished := bid;
    if Truthy(OptStr(notes)) {
      finished := finished["actionNotes" := Str(notes.value)];
    }
    finished := finished["updatedAt" := Str(now)];
    var bids := store.Collection(BidsCollection);
    store.Update(DocRef(BidsCollection, bidId), finished);
    r := Respond(Ok(BidResponse(Tagged(bidId, finished), message)), failure, now);
  }

  // ---------------------------------------------------------------------
  // handle_bid_action: what it promises

  /** An unknown bid is answered with 404 and no document changes. */
  lemma UnknownBidIsNotFound(db: Db, bidId: string, action: BidAction, now: string, contractId: string)
    requires bidId !in Docs(db, BidsCollection)
    ensures BidActionSpec(db, bidId, action, now, contractId).0 == Err(HttpError(404, BidNotFound))
    ensures forall c :: Docs(BidActionSpec(db, bidId, action, now, contractId).1, c) == Docs(db, c)
  {
  }

  /** The requests that fail, for a bid that exists: accepting a buyer's bid
      (400), a counter offer without an amount (400), accepting or
      countering a bid without a campaign id (500), and any action whose
      updated bid does not validate as a `Bid` (500, after the write). */
  lemma ActionFailsIff(db: Db, bidId: string, action: BidAction, now: string, contractId: string, failure: string)
    requires bidId in Docs(db, BidsCollection)
    ensures var r := Respond(BidActionSpec(db, bidId, action, now, contractId).0, failure, now);
      var bid := db[BidsCollection][bidId];
      && (r.Err? <==>
            || (action.action == Accept
                && (BidderIs(bid, "buyer") || "campaignId" !in bid || !ValidatesAs(bid, "accepted")))
            || (action.action == Reject && !ValidatesAs(bid, "rejected"))
            || (action.action == CounterOffer
                && (!Truthy(OptStr(action.counterAmount)) || "campaignId" !in bid || !ValidatesAs(bid, "counter_offered"))))
      && (r.Err? && r.error.status == 400 <==>
            || (action.action == Accept && BidderIs(bid, "buyer"))
            || (action.action == CounterOffer && !Truthy(OptStr(action.counterAmount))))
  {
    var bid := db[BidsCollection][bidId];
    assert Ensured(db, BidsCollection)[BidsCollection] == db[BidsCollection];
    match action.action
    case Accept =>
      if !BidderIs(bid, "buyer") && "campaignId" in bid {
        AcceptAnswer(db, bidId, action, now, contractId, failure);
      }
    case Reject =>
      RejectAnswer(db, bidId, action, now, contractId, failure);
    case CounterOffer =>
      if Truthy(OptStr(action.counterAmount)) && "campaignId" in bid {
        CounterOfferAnswer(db, bidId, action, now, contractId, failure);
      }
  }

  /** A request refused before anything is written (an unknown bid, an
      accept of a buyer's bid, a counter offer without an amount, an accept
      or counter offer of a bid without a campaign id) fails and changes no
      document; at most an empty collection is created. */
  lemma RefusedActionWritesNothing(db: Db, bidId: string, action: BidAction, now: string, contractId: string)
    requires var bids := Docs(db, BidsCollection);
      || bidId !in bids
      || (action.action == Accept && (BidderIs(bids[bidId], "buyer") || "campaignId" !in bids[bidId]))
      || (action.action == CounterOffer && (!Truthy(OptStr(action.counterAmount)) || "campaignId" !in bids[bidId]))
    ensures var (r, db1) := BidActionSpec(db, bidId, action, now, contractId);
      r.Err? && forall c :: Docs(db1, c) == Docs(db, c)
  {
  }

  /** Accepting a bid marks it accepted, rejects every other open bid of the
      same campaign and leaves every other bid as it was. */
  lemma AcceptUpdatesBids(db: Db, bidId: string, action: BidAction, now: string, contractId: string)
    requires bidId in Docs(db, BidsCollection) && action.action == Accept
    requires !BidderIs(db[BidsCollection][bidId], "buyer") && "campaignId" in db[BidsCollection][bidId]
    ensures var (r, db1) := BidActionSpec(db, bidId, action, now, contractId);
      var bids := db[BidsCollection];
      var cid := bids[bidId]["campaignId"];
      && BidsCollection in db1 && db1[BidsCollection].Keys == bids.Keys
      && db1[BidsCollection][bidId] == Finished(bids[bidId]["status" := Str("accepted")], action.notes, now)
      && (forall k :: k in bids && k != bidId && AutoRejects(bids, k, bidId, cid) ==>
            db1[BidsCollection][k] == Merge(bids[k], RejectionFields(now)))
      && (forall k :: k in bids && k != bidId && !AutoRejects(bids, k, bidId, cid) ==>
            db1[BidsCollection][k] == bids[k])
  {
    var db0 := Ensured(db, BidsCollection);
    var bid := db[BidsCollection][bidId];
    var accepted := bid["status" := Str("accepted")];
    var cid := accepted["campaignId"];
    var db1 := db0[BidsCollection := AutoRejected(db0[BidsCollection], bidId, cid, now)];
    AcceptUnfolds(db, bidId, action, now, contractId);
    var db2 := ContractEffect(db1, accepted, bidId, contractId, now);
    assert db2[BidsCollection] == db1[BidsCollection];
    assert db1[BidsCollection][bidId] == bid;
    FinishWrites(db2, bidId, accepted, action.notes, now, "Bid accepted successfully");
  }

  /** The answer to an accept that passes the checks: the accepted bid as
      written when it validates as a `Bid`, and a 500 otherwise. */
  lemma AcceptAnswer(db: Db, bidId: string, action: BidAction, now: string, contractId: string, failure: string)
    requires bidId in Docs(db, BidsCollection) && action.action == Accept
    requires !BidderIs(db[BidsCollection][bidId], "buyer") && "campaignId" in db[BidsCollection][bidId]
    ensures var bid := db[BidsCollection][bidId];
      var final := Finished(bid["status" := Str("accepted")], action.notes, now);
      Respond(BidActionSpec(db, bidId, action, now, contractId).0, failure, now)
        == if ValidatesAs(bid, "accepted")
           then Ok(BidResponse(ActionAnswer(bid, "accepted", Tagged(bidId, final), now), "Bid accepted successfully"))
           else Err(ActionError(failure))
  {
    var accepted := db[BidsCollection][bidId]["status" := Str("accepted")];
    AcceptUpdatesBids(db, bidId, action, now, contractId);
    FinishedDecodes(accepted, action.notes, now, bidId);
  }

  /** After an accept, no other bid of the campaign is still open: only one
      bid of a campaign can be settled by acceptance at a time. */
  lemma AcceptLeavesNoOtherOpenBid(db: Db, bidId: string, action: BidAction, now: string, contractId: string, k: string)
    requires bidId in Docs(db, BidsCollection) && action.action == Accept
    requires !BidderIs(db[BidsCollection][bidId], "buyer") && "campaignId" in db[BidsCollection][bidId]
    requires k in db[BidsCollection] && k != bidId
    requires Matches(SameCampaign(db[BidsCollection][bidId]["campaignId"]), db[BidsCollection][k])
    ensures var db1 := BidActionSpec(db, bidId, action, now, contractId).1;
      BidsCollection in db1 && k in db1[BidsCollection] && !IsOpen(db1[BidsCollection][k])
  {
    AcceptUpdatesBids(db, bidId, action, now, contractId);
  }

  /** With the bid's campaign stored, contract creation stores the contract
      and closes that campaign. */
  lemma ContractEffectWithCampaign(db: Db, bid: Record, bidId: string, contractId: string, now: string)
    requires var cid := Get(bid, "campaignId", Null);
      cid.Str? && cid.s != "" && cid.s in Docs(db, CampaignsCollection)
    ensures var r := ContractEffect(db, bid, bidId, contractId, now);
      var cid := Get(bid, "campaignId", Null);
      var campaign := db[CampaignsCollection][cid.s];
      && ContractsCollection in r && contractId in r[ContractsCollection]
      && r[ContractsCollection][contractId] == ContractRecord(bid, bidId, campaign, cid, contractId, now)
      && CampaignsCollection in r
      && r[CampaignsCollection] == db[CampaignsCollection][cid.s := Merge(campaign, CampaignClosure(contractId, AgreedPrice(bid), now))]
  {
    assert Ensured(db, CampaignsCollection) == db;
  }

  /** Accepting a bid whose campaign exists stores the contract under the
      new contract id and closes the campaign with a link to it and the
      agreed price; no other campaign changes. */
  lemma AcceptCreatesContract(db: Db, bidId: string, action: BidAction, now: string, contractId: string)
    requires bidId in Docs(db, BidsCollection) && action.action == Accept
    requires var bid := db[BidsCollection][bidId];
      !BidderIs(bid, "buyer") && "campaignId" in bid && bid["campaignId"].Str?
      && bid["campaignId"].s != "" && bid["campaignId"].s in Docs(db, CampaignsCollection)
    ensures var db1 := BidActionSpec(db, bidId, action, now, contractId).1;
      var bid := db[BidsCollection][bidId];
      var cid := bid["campaignId"].s;
      var campaign := db[CampaignsCollection][cid];
      && ContractsCollection in db1 && contractId in db1[ContractsCollection]
      && db1[ContractsCollection][contractId]
         == ContractRecord(bid["status" := Str("accepted")], bidId, campaign, Str(cid), contractId, now)
      && CampaignsCollection in db1
      && db1[CampaignsCollection] == db[CampaignsCollection][cid := Merge(campaign, CampaignClosure(contractId, AgreedPrice(bid), now))]
  {
    var bid := db[BidsCollection][bidId];
    var accepted := bid["status" := Str("accepted")];
    assert AgreedPrice(accepted) == AgreedPrice(bid);
    var cid := accepted["campaignId"];
    var db1 := Ensured(db, BidsCollection)[BidsCollection := AutoRejected(db[BidsCollection], bidId, cid, now)];
    assert db1[CampaignsCollection] == db[CampaignsCollection];
    assert Get(accepted, "campaignId", Null) == cid;
    ContractEffectWithCampaign(db1, accepted, bidId, contractId, now);
    AcceptUnfolds(db, bidId, action, now, contractId);
    var db2 := ContractEffect(db1, accepted, bidId, contractId, now);
    var db3 := FinishSpec(db2, bidId, accepted, action.notes, now, "Bid accepted successfully").1;
    assert db3[ContractsCollection] == db2[ContractsCollection];
    assert db3[CampaignsCollection] == db2[CampaignsCollection];
  }

  /** An accept that passes the checks is the rejection of the other bids,
      then contract creation, then the write of the accepted bid. */
  lemma AcceptUnfolds(db: Db, bidId: string, action: BidAction, now: string, contractId: string)
    requires bidId in Docs(db, BidsCollection) && action.action == Accept
    requires !BidderIs(db[BidsCollection][bidId], "buyer") && "campaignId" in db[BidsCollection][bidId]
    ensures var accepted := db[BidsCollection][bidId]["status" := Str("accepted")];
      var db1 := Ensured(db, BidsCollection)[BidsCollection := AutoRejected(db[BidsCollection], bidId, accepted["campaignId"], now)];
      var db2 := ContractEffect(db1, accepted, bidId, contractId, now);
      && BidsCollection in db2
      && BidActionSpec(db, bidId, action, now, contractId)
         == FinishSpec(db2, bidId, accepted, action.notes, now, "Bid accepted successfully")
  {
    assert Ensured(db, BidsCollection) == db;
  }

  /** When the bid's campaign is not stored, contract creation writes no
      document. */
  lemma ContractEffectWithoutCampaign(db: Db, bid: Record, bidId: string, contractId: string, now: string)
    requires var cid := Get(bid, "campaignId", Null); !(cid.Str? && cid.s in Docs(db, CampaignsCollection))
    ensures var r := ContractEffect(db, bid, bidId, contractId, now);
      && Docs(r, CampaignsCollection) == Docs(db, CampaignsCollection)
      && Docs(r, ContractsCollection) == Docs(db, ContractsCollection)
  {
  }

  /** Contract creation is best effort: when the campaign is not stored,
      accepting the bid (which `AcceptUpdatesBids` describes) writes no
      contract and no campaign. */
  lemma AcceptWithoutCampaign(db: Db, bidId: string, action: BidAction, now: string, contractId: string)
    requires bidId in Docs(db, BidsCollection) && action.action == Accept
    requires var bid := db[BidsCollection][bidId];
      !BidderIs(bid, "buyer") && "campaignId" in bid
      && !(bid["campaignId"].Str? && bid["campaignId"].s in Docs(db, CampaignsCollection))
    ensures var db1 := BidActionSpec(db, bidId, action, now, contractId).1;
      && Docs(db1, ContractsCollection) == Docs(db, ContractsCollection)
      && Docs(db1, CampaignsCollection) == Docs(db, CampaignsCollection)
  {
    var db0 := Ensured(db, BidsCollection);
    var bid := db[BidsCollection][bidId];
    var accepted := bid["status" := Str("accepted")];
    var cid := accepted["campaignId"];
    var db1 := db0[BidsCollection := AutoRejected(db0[BidsCollection], bidId, cid, now)];
    assert Docs(db1, CampaignsCollection) == Docs(db, CampaignsCollection);
    assert Docs(db1, ContractsCollection) == Docs(db, ContractsCollection);
    assert Get(accepted, "campaignId", Null) == cid;
    AcceptUnfolds(db, bidId, action, now, contractId);
    var db2 := ContractEffect(db1, accepted, bidId, contractId, now);
    ContractEffectWithoutCampaign(db1, accepted, bidId, contractId, now);
    assert BidsCollection in db2;
    var db3 := FinishSpec(db2, bidId, accepted, action.notes, now, "Bid accepted successfully").1;
    assert Docs(db3, CampaignsCollection) == Docs(db2, CampaignsCollection);
    assert Docs(db3, ContractsCollection) == Docs(db2, ContractsCollection);
  }

  /** The buyer of a contract is the bidder when the bidder is a buyer, and
      the campaign owner otherwise; for a bid that accept lets through it is
      always the campaign owner, since a buyer's bid cannot be accepted. */
  lemma ContractBuyer(bid: Record, bidId: string, campaign: Record, cid: Value, contractId: string, now: string)
    ensures var c := ContractRecord(bid, bidId, campaign, cid, contractId, now);
      && (BidderIs(bid, "buyer") ==> c["buyerId"] == Get(bid, "bidderId", Null) && c["buyerName"] == Get(bid, "bidderName", Null))
      && (!BidderIs(bid, "buyer") ==> c["buyerId"] == Get(campaign, "userId", Null) && c["buyerName"] == Str("Unknown Buyer"))
      && (AcceptRefusal(CampaignOwnerType, bid).None? ==> c["buyerId"] == Get(campaign, "userId", Null))
  {
  }

  /** The farmer of a contract is the bidder when the bidder is a farmer,
      and the campaign owner otherwise. */
  lemma ContractFarmer(bid: Record, bidId: string, campaign: Record, cid: Value, contractId: string, now: string)
    ensures var c := ContractRecord(bid, bidId, campaign, cid, contractId, now);
      && (BidderIs(bid, "farmer") ==> c["farmerId"] == Get(bid, "bidderId", Null) && c["farmerName"] == Get(bid, "bidderName", Null))
      && (!BidderIs(bid, "farmer") ==> c["farmerId"] == Get(campaign, "userId", Null) && c["farmerName"] == Str("Unknown Farmer"))
  {
  }

  /** The agreed price of a contract is the counter amount when the bid
      carries one and the bid amount otherwise. */
  lemma ContractPrice(bid: Record, bidId: string, campaign: Record, cid: Value, contractId: string, now: string)
    ensures var c := ContractRecord(bid, bidId, campaign, cid, contractId, now);
      && (Truthy(Get(bid, "counterAmount", Null)) ==> c["agreedPrice"] == bid["counterAmount"])
      && (!Truthy(Get(bid, "counterAmount", Null)) ==> c["agreedPrice"] == Get(bid, "bidAmount", Str("")))
  {
  }

  /** A contract links back to its bid and campaign and carries its own id. */
  lemma ContractTerms(bid: Record, bidId: string, campaign: Record, cid: Value, contractId: string, now: string)
    ensures var c := ContractRecord(bid, bidId, campaign, cid, contractId, now);
      && c["originalBidId"] == Str(bidId) && c["originalCampaignId"] == cid && c["id"] == Str(contractId)
  {
  }

  /** A contract is created completed, active, and counting one bid. */
  lemma ContractStarts(bid: Record, bidId: string, campaign: Record, cid: Value, contractId: string, now: string)
    ensures var c := ContractRecord(bid, bidId, campaign, cid, contractId, now);
      && c["status"] == Str("completed") && c["contractStatus"] == Str("active") && c["totalBids"] == Int(1)
  {
  }

  /** Rejecting a bid marks it rejected and records who rejected it (the
      buyer for a farmer's bid, the farmer otherwise), with the notes and
      the time; the bid keeps its other fields and nothing else changes.
      The write happens whether or not the rejected bid validates as a
      `Bid`; the answer is the bid when it does and a 500 otherwise. */
  lemma RejectEffect(db: Db, bidId: string, action: BidAction, now: string, contractId: string)
    requires bidId in Docs(db, BidsCollection) && action.action == Reject
    ensures var (r, db1) := BidActionSpec(db, bidId, action, now, contractId);
      var bid := db[BidsCollection][bidId];
      var farmerBid := BidderIs(bid, "farmer");
      && BidsCollection in db1 && bidId in db1[BidsCollection]
      && db1[BidsCollection][bidId]["status"] == Str("rejected")
      && db1[BidsCollection][bidId]["rejectedBy"] == Str(if farmerBid then "buyer" else "farmer")
      && db1[BidsCollection][bidId]["updatedAt"] == Str(now)
      && db1[BidsCollection]
         == db[BidsCollection][bidId := Finished(bid["status" := Str("rejected")]["rejectedBy" := Str(if farmerBid then "buyer" else "farmer")],
                                                 action.notes, now)]
      && (forall k :: k in db[BidsCollection] && k != bidId ==> k in db1[BidsCollection] && db1[BidsCollection][k] == db[BidsCollection][k])
      && (forall c :: c != BidsCollection ==> Docs(db1, c) == Docs(db, c))
  {
    var bid := db[BidsCollection][bidId];
    var farmerBid := BidderIs(bid, "farmer");
    var who := Str(if farmerBid then "buyer" else "farmer");
    RejectUnfolds(db, bidId, action, now, contractId);
    FinishWrites(db, bidId, bid["status" := Str("rejected")]["rejectedBy" := who], action.notes, now,
                 if farmerBid then "Farmer bid rejected by buyer" else "Buyer counter offer rejected by farmer");
    RejectedFields(bid, who, action.notes, now);
  }

  lemma RejectedFields(bid: Record, who: Value, notes: Option<string>, now: string)
    ensures var f := Finished(bid["status" := Str("rejected")]["rejectedBy" := who], notes, now);
      f["status"] == Str("rejected") && f["rejectedBy"] == who && f["updatedAt"] == Str(now)
  {
  }

  /** The answer to a reject: the rejected bid as written, with the message
      naming who rejected it, when it validates as a `Bid`, and a 500
      otherwise. */
  lemma RejectAnswer(db: Db, bidId: string, action: BidAction, now: string, contractId: string, failure: string)
    requires bidId in Docs(db, BidsCollection) && action.action == Reject
    ensures var bid := db[BidsCollection][bidId];
      var farmerBid := BidderIs(bid, "farmer");
      var final := Finished(bid["status" := Str("rejected")]["rejectedBy" := Str(if farmerBid then "buyer" else "farmer")],
                            action.notes, now);
      var message := if farmerBid then "Farmer bid rejected by buyer" else "Buyer counter offer rejected by farmer";
      Respond(BidActionSpec(db, bidId, action, now, contractId).0, failure, now)
        == if ValidatesAs(bid, "rejected") then Ok(BidResponse(ActionAnswer(bid, "rejected", Tagged(bidId, final), now), message))
           else Err(ActionError(failure))
  {
    var bid := db[BidsCollection][bidId];
    var rejecter := Str(if BidderIs(bid, "farmer") then "buyer" else "farmer");
    var rejected := bid["status" := Str("rejected")];
    AddedKeysAreNotBidFields();
    DecodeBidOutsideField(rejected, "rejectedBy", rejecter);
    FinishedDecodes(rejected["rejectedBy" := rejecter], action.notes, now, bidId);
  }

  /** A counter offer marks the bid countered with the amount, with the
      notes and the time, keeping its other fields, and leaves every other
      bid as it was (`CounterOfferFrame` says what it does to the other
      collections). */
  lemma CounterOfferEffect(db: Db, bidId: string, action: BidAction, now: string, contractId: string)
    requires bidId in Docs(db, BidsCollection) && action.action == CounterOffer
    requires Truthy(OptStr(action.counterAmount)) && "campaignId" in db[BidsCollection][bidId]
    ensures var (r, db1) := BidActionSpec(db, bidId, action, now, contractId);
      var amount := action.counterAmount.value;
      && BidsCollection in db1 && bidId in db1[BidsCollection]
      && db1[BidsCollection][bidId]["status"] == Str("counter_offered")
      && db1[BidsCollection][bidId]["counterAmount"] == Str(amount)
      && db1[BidsCollection][bidId]["updatedAt"] == Str(now)
      && db1[BidsCollection]
         == db[BidsCollection][bidId := Finished(db[BidsCollection][bidId]["status" := Str("counter_offered")]["counterAmount" := Str(amount)],
                                                 action.notes, now)]
      && (forall k :: k in db[BidsCollection] && k != bidId ==> k in db1[BidsCollection] && db1[BidsCollection][k] == db[BidsCollection][k])
  {
    var amount := action.counterAmount.value;
    var countered := db[BidsCollection][bidId]["status" := Str("counter_offered")]["counterAmount" := Str(amount)];
    var db2 := CounterFinishes(db, bidId, action, now, contractId);
    FinishWrites(db2, bidId, countered, action.notes, now, "Counter offer made: " + amount);
    CounteredFields(db[BidsCollection][bidId], amount, action.notes, now);
  }

  lemma CounteredFields(bid: Record, amount: string, notes: Option<string>, now: string)
    ensures var f := Finished(bid["status" := Str("counter_offered")]["counterAmount" := Str(amount)], notes, now);
      f["status"] == Str("counter_offered") && f["counterAmount"] == Str(amount) && f["updatedAt"] == Str(now)
  {
  }

  /** A counter offer writes only the bids and the campaign the bid names:
      no campaign is added or removed, every other campaign is kept and
      every other collection is unchanged. */
  lemma CounterOfferFrame(db: Db, bidId: string, action: BidAction, now: string, contractId: string)
    requires bidId in Docs(db, BidsCollection) && action.action == CounterOffer
    requires Truthy(OptStr(action.counterAmount)) && "campaignId" in db[BidsCollection][bidId]
    ensures var db1 := BidActionSpec(db, bidId, action, now, contractId).1;
      && Docs(db1, CampaignsCollection).Keys == Docs(db, CampaignsCollection).Keys
      && (forall k :: k in Docs(db, CampaignsCollection) && Str(k) != db[BidsCollection][bidId]["campaignId"]
            ==> Docs(db1, CampaignsCollection)[k] == Docs(db, CampaignsCollection)[k])
      && (forall c :: c != BidsCollection && c != CampaignsCollection ==> Docs(db1, c) == Docs(db, c))
  {
    var db2 := CounterFinishes(db, bidId, action, now, contractId);
    var countered := db[BidsCollection][bidId]["status" := Str("counter_offered")]["counterAmount" := Str(action.counterAmount.value)];
    var out := FinishSpec(db2, bidId, countered, action.notes, now, "Counter offer made: " + action.counterAmount.value);
    CampaignMergedFrame(db, db[BidsCollection][bidId]["campaignId"], CounterFields(action.counterAmount.value, now));
    assert Docs(out.1, CampaignsCollection) == Docs(db2, CampaignsCollection);
  }

  /** The answer to a counter offer with an amount, for a bid with a
      campaign id: the countered bid as written when it validates as a
      `Bid`, and a 500 otherwise. */
  lemma CounterOfferAnswer(db: Db, bidId: string, action: BidAction, now: string, contractId: string, failure: string)
    requires bidId in Docs(db, BidsCollection) && action.action == CounterOffer
    requires Truthy(OptStr(action.counterAmount)) && "campaignId" in db[BidsCollection][bidId]
    ensures var bid := db[BidsCollection][bidId];
      var amount := action.counterAmount.value;
      var final := Finished(bid["status" := Str("counter_offered")]["counterAmount" := Str(amount)], action.notes, now);
      Respond(BidActionSpec(db, bidId, action, now, contractId).0, failure, now)
        == if ValidatesAs(bid, "counter_offered")
           then Ok(BidResponse(ActionAnswer(bid, "counter_offered", Tagged(bidId, final), now), "Counter offer made: " + amount))
           else Err(ActionError(failure))
  {
    var amount := action.counterAmount.value;
    var bid := db[BidsCollection][bidId];
    var countered := bid["status" := Str("counter_offered")]["counterAmount" := Str(amount)];
    var db2 := CounterFinishes(db, bidId, action, now, contractId);
    FinishedDecodes(countered, action.notes, now, bidId);
    AddedKeysAreNotBidFields();
    DecodeBidOutsideField(bid["status" := Str("counter_offered")], "counterAmount", Str(amount));
  }

  /** A counter offer with an amount, for a bid with a campaign id, is the
      write of the countered bid to the database as the campaign update
      leaves it, whose bids are those before the request. */
  lemma CounterFinishes(db: Db, bidId: string, action: BidAction, now: string, contractId: string)
    returns (db2: Db)
    requires bidId in Docs(db, BidsCollection) && action.action == CounterOffer
    requires Truthy(OptStr(action.counterAmount)) && "campaignId" in db[BidsCollection][bidId]
    ensures BidsCollection in db2 && db2[BidsCollection] == db[BidsCollection]
    ensures db2 == CampaignMerged(db, db[BidsCollection][bidId]["campaignId"], CounterFields(action.counterAmount.value, now))
    ensures var amount := action.counterAmount.value;
      var countered := db[BidsCollection][bidId]["status" := Str("counter_offered")]["counterAmount" := Str(amount)];
      BidActionSpec(db, bidId, action, now, contractId)
        == FinishSpec(db2, bidId, countered, action.notes, now, "Counter offer made: " + amount)
  {
    var amount := action.counterAmount.value;
    var countered := db[BidsCollection][bidId]["status" := Str("counter_offered")]["counterAmount" := Str(amount)];
    assert countered["campaignId"] == db[BidsCollection][bidId]["campaignId"];
    db2 := CampaignMerged(db, db[BidsCollection][bidId]["campaignId"], CounterFields(amount, now));
    CounterUnfolds(db, bidId, action, now, contractId);
  }

  /** A counter offer sets the amount as the current bid of the campaign
      when that campaign is stored. */
  lemma CounterOfferRaisesCampaign(db: Db, bidId: string, action: BidAction, now: string, contractId: string)
    requires bidId in Docs(db, BidsCollection) && action.action == CounterOffer
    requires Truthy(OptStr(action.counterAmount)) && "campaignId" in db[BidsCollection][bidId]
    requires var cid := db[BidsCollection][bidId]["campaignId"]; cid.Str? && cid.s in Docs(db, CampaignsCollection)
    ensures var db1 := BidActionSpec(db, bidId, action, now, contractId).1;
      var cid := db[BidsCollection][bidId]["campaignId"].s;
      && CampaignsCollection in db1 && cid in db1[CampaignsCollection]
      && db1[CampaignsCollection][cid] == Merge(db[CampaignsCollection][cid], CounterFields(action.counterAmount.value, now))
      && db1[CampaignsCollection][cid]["currentBid"] == Str(action.counterAmount.value)
      && db1[CampaignsCollection].Keys == db[CampaignsCollection].Keys
      && (forall k :: k in db[CampaignsCollection] && k != cid ==> db1[CampaignsCollection][k] == db[CampaignsCollection][k])
  {
    var amount := action.counterAmount.value;
    var cid := db[BidsCollection][bidId]["campaignId"].s;
    CounterUnfolds(db, bidId, action, now, contractId);
    CounterSpecRaisesCampaign(db, bidId, amount, action.notes, now);
    var db1 := CounterSpec(db, bidId, action.counterAmount, action.notes, now).1;
    CounterSetsCurrentBid(db[CampaignsCollection][cid], amount, now);
    assert db1[CampaignsCollection][cid] == Merge(db[CampaignsCollection][cid], CounterFields(amount, now));
    CounterOfferFrame(db, bidId, action, now, contractId);
  }

  lemma CounterSetsCurrentBid(campaign: Record, amount: string, now: string)
    ensures Merge(campaign, CounterFields(amount, now))["currentBid"] == Str(amount)
  {
    assert "currentBid" in CounterFields(amount, now);
  }

  /** A reject of a stored bid is the write of the bid marked rejected and
      tagged with who rejected it. */
  lemma RejectUnfolds(db: Db, bidId: string, action: BidAction, now: string, contractId: string)
    requires bidId in Docs(db, BidsCollection) && action.action == Reject
    ensures var rejected := db[BidsCollection][bidId]["status" := Str("rejected")];
      var farmerBid := BidderIs(rejected, "farmer");
      BidActionSpec(db, bidId, action, now, contractId)
        == FinishSpec(db, bidId, rejected["rejectedBy" := Str(if farmerBid then "buyer" else "farmer")], action.notes, now,
                      if farmerBid then "Farmer bid rejected by buyer" else "Buyer counter offer rejected by farmer")
  {
    assert Ensured(db, BidsCollection) == db;
  }

  /** A counter offer on a stored bid is the counter-offer branch on the
      database as it is. */
  lemma CounterUnfolds(db: Db, bidId: string, action: BidAction, now: string, contractId: string)
    requires bidId in Docs(db, BidsCollection) && action.action == CounterOffer
    ensures BidActionSpec(db, bidId, action, now, contractId)
         == CounterSpec(db, bidId, action.counterAmount, action.notes, now)
  {
    assert Ensured(db, BidsCollection) == db;
  }

  lemma CounterSpecRaisesCampaign(db: Db, bidId: string, amount: string, notes: Option<string>, now: string)
    requires BidsCollection in db && bidId in db[BidsCollection] && amount != ""
    requires "campaignId" in db[BidsCollection][bidId]
    requires var cid := db[BidsCollection][bidId]["campaignId"]; cid.Str? && cid.s in Docs(db, CampaignsCollection)
    ensures var db1 := CounterSpec(db, bidId, Some(amount), notes, now).1;
      var cid := db[BidsCollection][bidId]["campaignId"].s;
      && CampaignsCollection in db1 && cid in db1[CampaignsCollection]
      && db1[CampaignsCollection][cid] == Merge(db[CampaignsCollection][cid], CounterFields(amount, now))
  {
    var countered := db[BidsCollection][bidId]["status" := Str("counter_offered")]["counterAmount" := Str(amount)];
    var cid := countered["campaignId"];
    var db2 := Updated(db, DocRef(CampaignsCollection, cid.s), CounterFields(amount, now));
    assert Ensured(db, CampaignsCollection) == db;
    assert CounterSpec(db, bidId, Some(amount), notes, now)
        == FinishSpec(db2, bidId, countered, notes, now, "Counter offer made: " + amount);
  }

  /** After a counter offer, the price a later acceptance agrees on is the
      counter amount. */
  lemma CounteredBidAgreesOnCounter(db: Db, bidId: string, action: BidAction, now: string, contractId: string)
    requires bidId in Docs(db, BidsCollection) && action.action == CounterOffer
    requires Truthy(OptStr(action.counterAmount)) && "campaignId" in db[BidsCollection][bidId]
    ensures var db1 := BidActionSpec(db, bidId, action, now, contractId).1;
      BidsCollection in db1 && bidId in db1[BidsCollection]
      && AgreedPrice(db1[BidsCollection][bidId]) == Str(action.counterAmount.value)
  {
    CounterOfferEffect(db, bidId, action, now, contractId);
  }
}
