/**
 * The campaign router of the farmer backend: list, read, create, update,
 * delete and list-by-status over the "campaigns" collection.
 */
module Campaigns {
  import opened Values
  import opened Firestore
  import opened Schemas
  import opened Crud

  const CampaignsCollection := "campaigns"
  const CampaignNotFound := "Campaign not found"

  /** The stored form of a created campaign: the body by alias plus both
      timestamps as `datetime` values. */
  function NewCampaignDoc(c: CampaignCreate, now: string): (r: Record)
    ensures r.Keys == CampaignRecord(c).Keys + {"createdAt", "updatedAt"}
    ensures r["createdAt"] == Time(now) && r["updatedAt"] == Time(now)
    ensures forall k :: k in CampaignRecord(c) ==> r[k] == CampaignRecord(c)[k]
  {
    CampaignRecord(c)["createdAt" := Time(now)]["updatedAt" := Time(now)]
  }

  /** The fields an update writes: the whole body (defaults included) and a
      new `updatedAt`. */
  function CampaignUpdateFields(c: CampaignCreate, now: string): (r: Record)
    ensures r.Keys == CampaignRecord(c).Keys + {"updatedAt"}
    ensures "createdAt" !in r && r["updatedAt"] == Time(now)
  {
    CampaignRecord(c)["updatedAt" := Time(now)]
  }

  method GetCampaigns(store: MockFirestore) returns (resp: ListResponse)
    modifies store
    ensures store.db == Ensured(old(store.db), CampaignsCollection)
    ensures IsListingOf(resp.data, store.db[CampaignsCollection], None)
    ensures resp.count == |resp.data|
  {
    resp := ListAll(store, CampaignsCollection);
  }

  method GetCampaign(store: MockFirestore, campaignId: string) returns (r: Result<Record, HttpError>)
    modifies store
    ensures store.db == Ensured(old(store.db), CampaignsCollection)
    ensures r.Ok? <==> campaignId in store.db[CampaignsCollection]
    ensures r.Ok? ==> r.value == Tagged(campaignId, store.db[CampaignsCollection][campaignId])
    ensures r.Err? ==> r.error == HttpError(404, CampaignNotFound)
  {
    r := GetOne(store, CampaignsCollection, campaignId, CampaignNotFound);
  }

  /** `create_campaign`; `freshId` is the id `document()` generates. */
  method CreateCampaign(store: MockFirestore, c: CampaignCreate, now: string, freshId: string)
    returns (created: Record)
    modifies store
    ensures store.db == Stored(Ensured(old(store.db), CampaignsCollection),
                               DocRef(CampaignsCollection, freshId), NewCampaignDoc(c, now))
    ensures created == Tagged(freshId, NewCampaignDoc(c, now))
  {
    created := CreateOne(store, CampaignsCollection, NewCampaignDoc(c, now), freshId);
  }

  /** A created campaign reads back as what the create returned. */
  method CreateThenGet(store: MockFirestore, c: CampaignCreate, now: string, freshId: string)
    returns (created: Record, fetched: Result<Record, HttpError>)
    modifies store
    ensures fetched == Ok(created)
    ensures "status" in created && created["status"] == Str(CampaignStatusName(c.status))
  {
    created := CreateCampaign(store, c, now, freshId);
    fetched := GetCampaign(store, freshId);
  }

  /** `update_campaign`: the body (with its defaults) plus `updatedAt` is
      merged into the stored campaign; the response is the body plus the id. */
  method UpdateCampaign(store: MockFirestore, campaignId: string, c: CampaignCreate, now: string)
    returns (r: Result<Record, HttpError>)
    modifies store
    ensures campaignId !in Docs(old(store.db), CampaignsCollection) ==>
      r == Err(HttpError(404, CampaignNotFound)) && store.db == Ensured(old(store.db), CampaignsCollection)
    ensures campaignId in Docs(old(store.db), CampaignsCollection) ==>
      r == Ok(Tagged(campaignId, CampaignUpdateFields(c, now)))
      && store.db == Updated(old(store.db), DocRef(CampaignsCollection, campaignId), CampaignUpdateFields(c, now))
  {
    r := UpdateOne(store, CampaignsCollection, campaignId, CampaignUpdateFields(c, now), CampaignNotFound);
  }

  /** An update keeps what the body does not carry (the creation time, a
      linked contract and its final price) and overwrites every body field,
      so a body that omits the status resets a completed campaign to
      "upcoming". */
  lemma UpdateCampaignEffect(stored: Record, c: CampaignCreate, now: string)
    ensures var r := Merge(stored, CampaignUpdateFields(c, now));
      && (forall k :: k in stored && k !in CampaignRecord(c) && k != "updatedAt" ==> r[k] == stored[k])
      && r["status"] == Str(CampaignStatusName(c.status))
      && r["updatedAt"] == Time(now)
  {
  }

  lemma OmittedStatusResetsCampaign(stored: Record, title: string, crop: string, cropType: string,
                                    location: string, duration: string, estimatedYield: string, now: string)
    requires "status" in stored && stored["status"] == Str("completed")
    ensures var c := NewCampaignCreate(title, crop, cropType, location, duration, estimatedYield,
                                       None, None, None, None, None, None);
      Merge(stored, CampaignUpdateFields(c, now))["status"] == Str("upcoming")
  {
  }

  method DeleteCampaign(store: MockFirestore, campaignId: string) returns (r: Result<string, HttpError>)
    modifies store
    ensures campaignId !in Docs(old(store.db), CampaignsCollection) ==>
      r == Err(HttpError(404, CampaignNotFound)) && store.db == Ensured(old(store.db), CampaignsCollection)
    ensures campaignId in Docs(old(store.db), CampaignsCollection) ==>
      r == Ok("Campaign " + campaignId + " deleted successfully")
      && store.db == Deleted(old(store.db), DocRef(CampaignsCollection, campaignId))
  {
    r := DeleteOne(store, CampaignsCollection, campaignId, CampaignNotFound,
                   "Campaign " + campaignId + " deleted successfully");
  }

  /** `get_campaigns_by_status` as written: the `filter=` call fails against
      the in-memory store, so every request answers 500. */
  method GetCampaignsByStatus(store: MockFirestore, statusFilter: string)
    returns (r: Result<ListResponse, HttpError>)
    modifies store
    ensures store.db == Ensured(old(store.db), CampaignsCollection)
    ensures r == Err(HttpError(500, "Error fetching campaigns by status: " + WhereKeywordError))
  {
    r := ListByStatusAsWritten(store, CampaignsCollection, statusFilter, "Error fetching campaigns by status: ");
  }

  /** The intended status listing: the campaigns whose status is the one asked for. */
  method GetCampaignsByStatusFixed(store: MockFirestore, statusFilter: string)
    returns (resp: ListResponse)
    modifies store
    ensures store.db == Ensured(old(store.db), CampaignsCollection)
    ensures IsListingOf(resp.data, store.db[CampaignsCollection], Some(Filter("status", "==", Str(statusFilter))))
    ensures resp.count == |resp.data|
  {
    resp := ListByStatus(store, CampaignsCollection, statusFilter);
  }
}
