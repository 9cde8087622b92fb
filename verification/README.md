# Farmer–buyer marketplace: bids, contracts, stores and WhatsApp helpers

This project models the core of the kirmada agriAi marketplace in Dafny and proves properties of that model. Farmers and buyers negotiate crop prices through bids on campaigns. An accepted bid becomes a contract.

- **Document store** (`firestore.dfy`): the in-memory store the backends use when no Firestore credentials are present. It is a class `MockFirestore` whose one field `db` maps collection names to collections, and a collection maps document ids to documents.
  - Its operations are collection construction, `add`, `document`, `set`, `update` (a merge), `delete`, the snapshot's `exists`/`to_dict`, and `stream` with an optional single-equality filter.
  - Each method is proved against a function on the database value (`Ensured`, `Stored`, `Updated`, `Deleted`, `MatchingIds`).
- **Schemas** (`schemas.dfy`): the role and status literals as datatypes, the request bodies with their defaults, and their stored form keyed by the field aliases.
- **Campaign and order routers** (`crud.dfy`, `campaigns.dfy`, `orders.dfy`): list, read, create, update, delete, list by status, and the order status update with its whitelist. The shared handling is written once in `Crud`, over a collection name.
- **Bid router** (`bids.dfy`, `amounts.dfy`):
  - placing, listing and deleting bids;
  - the campaign view with its pending count and highest/lowest amounts;
  - the bid action handler: accept, reject, counter offer.
  - The action handler is a method proved against `BidActionSpec`, which maps the database before a request to the response the handler builds and the database after it; `Respond` turns a built bid that does not validate as a `Bid` into a 500, and answers a valid one with the fields of `Bid` only. Accepting a bid auto-rejects the campaign's other open bids, writes a contract derived from the bid and its campaign, and closes the campaign.
- **Contract progress map** (`progress.dfy`): the in-memory `contract_progress_store` with its POST and GET endpoints.
- **WhatsApp assistant helpers** (`values.dfy`, `text.dfy`, `languages.dfy`, `sessions.dfy`, `outbound.dfy`):
  - per-number sessions whose chat history is bounded to the newest 20 messages;
  - the preferred-language lookup;
  - keyword-count language detection;
  - `language xx` command parsing and handling;
  - localized audio error messages with their fallbacks;
  - the text read back after a voice question;
  - recipient-address normalisation and body truncation of outgoing messages.

Python semantics the code relies on are written out in `Values` and `Text`: truthiness, `dict.get`, `dict.update`, `str()`, `str.strip`, `str.split`, substring `in`, slicing and truncation. Ids (`uuid4`) and timestamps (`datetime.now`) are parameters of the handlers that use them. One `now` stands for every clock reading within one request.

Some behaviour of the code that the model keeps as it is:
- Accept, reject and counter offer do not look at the bid's current status: an accepted or rejected bid can be acted on again.
- A counter offer's amount is not compared with the bid amount or with an earlier counter.
- Accept rejects the campaign's other pending and countered bids itself (`Bids.AutoRejected`).
- Accept writes one document at a time: the other bids, then the contract and the campaign, then the accepted bid. Contract creation is skipped when the campaign is not stored (`Bids.AcceptWithoutCampaign`).
- The progress map stores whatever payload is posted.
- The contract's buyer is the bidder only when the bidder is a buyer. Accept refuses buyers' bids, so for every accepted bid the contract's buyer is the campaign owner (`Bids.ContractBuyer`).
- The farmer-owner rule of accept is unreachable, because the owner role is fixed to "buyer" (`Bids.AcceptRefusedIffBuyerBid`).
- The "❌ Error setting language" reply cannot occur (`Languages.ReplyIsNeverAnError`).

## Model

| member | source | states |
|---|---|---|
| Values.Merge | buyer-aid-portal-main/backend/app/services/firestore_config.py:80-83 | `dict.update`: the keys are the union; given fields overwrite or are added; every other key keeps its value |
| Text.Truncate | farmer-vertex-ai/functions/whatsapp_full.py:715-716 | a text within the limit is unchanged; a longer one becomes its first n characters followed by "..." (length n+3) |
| Text.TruncateIdempotent | farmer-vertex-ai/functions/whatsapp_full.py:715-716 | truncating twice at the same limit is truncating once |
| Amounts.ParseInteger | farmer-aid-portal-main/backend/app/routers/bids.py:77-78 | a negative reading comes only from a text that starts with '-' |
| Amounts.FormatAmount | farmer-aid-portal-main/backend/app/routers/bids.py:84-85 | a printed amount is non-empty and starts with the rupee sign |
| Amounts.FormatAmountRoundTrip | farmer-aid-portal-main/backend/app/routers/bids.py:75-85 | removing the rupee sign and the thousands separators from a printed amount and parsing it gives the amount back |
| Amounts.MaxOf | farmer-aid-portal-main/backend/app/routers/bids.py:84 | `max`: the result is an element of the list and no element exceeds it |
| Amounts.MinOf | farmer-aid-portal-main/backend/app/routers/bids.py:85 | `min`: the result is an element of the list and no element is below it |
| Schemas.ParseUserType | farmer-aid-portal-main/backend/app/models/schemas.py:6 | exactly "farmer" and "buyer" are roles, and each parses back to its own name |
| Schemas.ParseCampaignStatus | farmer-aid-portal-main/backend/app/models/schemas.py:20-27 | exactly active / completed / upcoming are accepted, each naming itself |
| Schemas.ParseBidStatus | farmer-aid-portal-main/backend/app/models/schemas.py:48-59 | exactly pending / accepted / rejected / counter_offered are accepted, each naming itself |
| Schemas.ParseOrderStatus | farmer-aid-portal-main/backend/app/models/schemas.py:129-134 | exactly pending / shipped / delivered / cancelled are accepted, each naming itself |
| Schemas.ParseBidAction | farmer-aid-portal-main/backend/app/models/schemas.py:67-70 | an action body validates iff its action is accept, reject or counter_offer; the amount and the notes are kept |
| Schemas.ShadowedCounterIsRejected | farmer-aid-portal-main/backend/app/models/schemas.py:51-70 | the second `BidAction` shadows the first: "counter" is refused and "counter_offer" is the counter action |
| Schemas.CampaignCreateDefaults | farmer-aid-portal-main/backend/app/models/schemas.py:9-23 | an omitted status is "upcoming", the role is "farmer", there are no bids, and there is no creator id or prices |
| Schemas.CampaignRecord | farmer-aid-portal-main/backend/app/models/schemas.py:9-23 | the stored form has exactly the twelve aliased keys; the status and role are their literal names |
| Schemas.BidCreateDefaults | farmer-aid-portal-main/backend/app/models/schemas.py:37-49 | an omitted status is "pending", the quality grade is "Grade A", and there is no bidder id |
| Schemas.BidRecord | farmer-aid-portal-main/backend/app/models/schemas.py:37-49 | the stored form has exactly the ten aliased keys; `campaignId`, `bidAmount` and `status` hold the body's values (the rest by `Schemas.BidRecordRoundTrip`) |
| Schemas.DecodeBid | farmer-aid-portal-main/backend/app/models/schemas.py:37-64 | validation as `Bid`: each field is read by alias or by name, the optional ones default; a document that validates holds its status under "status" as the status literal |
| Schemas.DecodeBidDefaults | farmer-aid-portal-main/backend/app/models/schemas.py:37-61 | a document with only the required fields validates with no bidder id, quality "Grade A", no delivery terms and no notes |
| Schemas.DecodeBidByName | farmer-aid-portal-main/backend/app/models/schemas.py:37-64 | with `populate_by_name`, a body keyed by field names validates as the same bid as its aliased form |
| Schemas.DecodeBidFrame | farmer-aid-portal-main/backend/app/models/schemas.py:37-61 | validation reads only the `Bid` field keys: two documents equal on them validate alike |
| Schemas.DecodeBidOutsideField | farmer-aid-portal-main/backend/app/models/schemas.py:37-61 | setting a key that is no `Bid` field does not change validation |
| Schemas.BidAnswer | farmer-aid-portal-main/backend/app/models/schemas.py:37-64 | a validated `Bid` as a response carries it: exactly the field keys by alias plus `id`, `createdAt` and `updatedAt`, and it validates back as the same bid |
| Schemas.BidAnswerFields | farmer-aid-portal-main/backend/app/models/schemas.py:57-61 | the answered bid has the validated status and the document's id |
| Schemas.BidAnswerOfDump | farmer-aid-portal-main/backend/app/models/schemas.py:37-64 | a dump with only the id and the timestamps added is answered unchanged |
| Schemas.CampaignRecordValidates | farmer-aid-portal-main/backend/app/models/schemas.py:9-34 | every stored campaign has the required fields of `Campaign` (`ValidatesAsCampaign`: title, crop, crop type, location, duration, estimated yield and a status literal, each read by alias or by name) |
| Schemas.BidRecordRoundTrip | farmer-aid-portal-main/backend/app/models/schemas.py:37-61 | the stored form of a bid body, with any extra keys, validates as that same body |
| Schemas.OrderCreateDefault | farmer-aid-portal-main/backend/app/models/schemas.py:129-130 | an omitted order status is "pending" |
| Schemas.OrderRecord | farmer-aid-portal-main/backend/app/models/schemas.py:121-130 | the stored order has exactly its seven keys, and its status is the literal name |
| Firestore.Ensured | buyer-aid-portal-main/backend/app/services/firestore_config.py:16-19 | constructing a collection adds it empty only when absent; every existing collection is unchanged |
| Firestore.Docs | buyer-aid-portal-main/backend/app/services/firestore_config.py:46 | the documents of a collection, empty for an absent one |
| Firestore.Where | buyer-aid-portal-main/backend/app/services/firestore_config.py:34-41 | `where` gives a handle on the same collection holding only its own condition |
| Firestore.WhereKeepsLastFilter | buyer-aid-portal-main/backend/app/services/firestore_config.py:34-41 | chained `where` calls keep only the last condition |
| Firestore.MatchingIds | buyer-aid-portal-main/backend/app/services/firestore_config.py:48-60 | an id is streamed iff it is stored and either there is no filter, or the document holds the field with an equal value under "==" (any other operator yields nothing) |
| Firestore.DocumentRef | buyer-aid-portal-main/backend/app/services/firestore_config.py:27-32 | `document(id)` names the given id; `document()` names the fresh id |
| Firestore.AddIdInjective | buyer-aid-portal-main/backend/app/services/firestore_config.py:23 | different collection sizes give different `add` ids |
| Firestore.FirstAddIdsCount | buyer-aid-portal-main/backend/app/services/firestore_config.py:21-25 | the ids `doc_1` … `doc_n` are n distinct ids, which is why a search over the first n+1 of them finds one free in a collection of n |
| Firestore.AddAfterDeleteOverwrites | buyer-aid-portal-main/backend/app/services/firestore_config.py:21-25 | with `doc_1` and `doc_2` stored and `doc_1` deleted, `add` picks `doc_2`, which is taken, and replaces it |
| Firestore.Stored | buyer-aid-portal-main/backend/app/services/firestore_config.py:76-78 | `set` replaces or creates exactly that document; every other document and collection is unchanged |
| Firestore.Updated | buyer-aid-portal-main/backend/app/services/firestore_config.py:80-83 | `update` merges into an existing document, is a no-op for a missing one, and changes nothing else |
| Firestore.Deleted | buyer-aid-portal-main/backend/app/services/firestore_config.py:85-88 | `delete` removes exactly that id; everything else is unchanged |
| Firestore.DeleteAbsentIsNoop | buyer-aid-portal-main/backend/app/services/firestore_config.py:85-88 | deleting a missing document leaves the database equal |
| Firestore.MockFirestore.constructor | buyer-aid-portal-main/backend/app/services/firestore_config.py:11 | the store starts empty |
| Firestore.MockFirestore.Collection | buyer-aid-portal-main/backend/app/services/firestore_config.py:16-19 | the handle is unfiltered; the database becomes `Ensured`, unchanged when the collection exists |
| Firestore.MockFirestore.Add | buyer-aid-portal-main/backend/app/services/firestore_config.py:21-25 | the id is `doc_<size+1>` and the data is stored under it (as written, whether or not the id is taken) |
| Firestore.MockFirestore.AddFresh | buyer-aid-portal-main/backend/app/services/firestore_config.py:21-25 | the id is not taken, the data is stored under it, and the collection grows by exactly one |
| Firestore.MockFirestore.Set | buyer-aid-portal-main/backend/app/services/firestore_config.py:76-78 | the database becomes `Stored(old, d, data)` |
| Firestore.MockFirestore.Update | buyer-aid-portal-main/backend/app/services/firestore_config.py:80-83 | the database becomes `Updated(old, d, fields)` |
| Firestore.MockFirestore.Delete | buyer-aid-portal-main/backend/app/services/firestore_config.py:85-88 | the database becomes `Deleted(old, d)` |
| Firestore.MockFirestore.SnapshotToDict | buyer-aid-portal-main/backend/app/services/firestore_config.py:101-106 | `to_dict` is the stored document when it exists and the empty record otherwise |
| Firestore.MockFirestore.Stream | buyer-aid-portal-main/backend/app/services/firestore_config.py:43-62 | the stream lists every matching document exactly once, each with its stored data, and nothing else |
| Firestore.StreamStep | buyer-aid-portal-main/backend/app/services/firestore_config.py:48-60 | one step of the stream loop keeps "the documents built are exactly the matching ones already visited" |
| Crud.Tagged | farmer-aid-portal-main/backend/app/routers/campaigns.py:23-24 | a returned document is its data with `id` set to the document id; other keys are kept |
| Crud.TagDocs | farmer-aid-portal-main/backend/app/routers/campaigns.py:21-25 | the listing loop tags each streamed document, in stream order, and drops none |
| Crud.TaggedStreamIsListing | farmer-aid-portal-main/backend/app/routers/campaigns.py:19-27 | tagging a stream gives a listing: each matching document once, tagged with its id |
| Crud.ListingIsComplete | farmer-aid-portal-main/backend/app/routers/campaigns.py:19-27 | every stored document that the filter lets through is in the listing |
| Crud.ListAll | farmer-aid-portal-main/backend/app/routers/campaigns.py:13-29 | lists every document of the collection tagged with its id; count equals the number listed |
| Crud.GetOne | farmer-aid-portal-main/backend/app/routers/campaigns.py:31-48 | Ok iff the id is stored, answering the tagged document; 404 otherwise |
| Crud.CreateOne | farmer-aid-portal-main/backend/app/routers/campaigns.py:50-69 | stores the data under the fresh id and answers it tagged with that id |
| Crud.UpdateOne | farmer-aid-portal-main/backend/app/routers/campaigns.py:71-94 | a missing id is 404 with no write; otherwise the data is merged in and the answer is the submitted data tagged |
| Crud.DeleteOne | farmer-aid-portal-main/backend/app/routers/campaigns.py:96-114 | a missing id is 404 with no write; otherwise exactly that document is removed |
| Crud.ListByStatusAsWritten | farmer-aid-portal-main/backend/app/routers/campaigns.py:116-133 | as written against the in-memory store: always a 500 naming the rejected `filter` keyword |
| Crud.ListByStatus | farmer-aid-portal-main/backend/app/routers/campaigns.py:116-131 | lists exactly the documents whose status equals the filter |
| Crud.StatusListingHasStatus | farmer-aid-portal-main/backend/app/routers/campaigns.py:122-131 | every document of a status listing has that status |
| Campaigns.NewCampaignDoc | farmer-aid-portal-main/backend/app/routers/campaigns.py:57-59 | a created campaign is the body by alias plus `createdAt` and `updatedAt` |
| Campaigns.CampaignUpdateFields | farmer-aid-portal-main/backend/app/routers/campaigns.py:83-84 | an update writes the body and a new `updatedAt`, never `createdAt` |
| Campaigns.GetCampaigns | farmer-aid-portal-main/backend/app/routers/campaigns.py:13-29 | every stored campaign, each tagged with its id; count equals the number returned |
| Campaigns.GetCampaign | farmer-aid-portal-main/backend/app/routers/campaigns.py:31-48 | 404 "Campaign not found" iff the id is not stored; otherwise the tagged campaign |
| Campaigns.CreateCampaign | farmer-aid-portal-main/backend/app/routers/campaigns.py:50-69 | stores the new campaign under the fresh id and returns it with that id |
| Campaigns.CreateThenGet | farmer-aid-portal-main/backend/app/routers/campaigns.py:31-69 | reading a just-created campaign answers exactly what the create returned |
| Campaigns.UpdateCampaign | farmer-aid-portal-main/backend/app/routers/campaigns.py:71-94 | a missing id is 404 with no write; otherwise the body plus `updatedAt` is merged in |
| Campaigns.UpdateCampaignEffect | farmer-aid-portal-main/backend/app/routers/campaigns.py:82-86 | an update keeps the fields the body does not carry and overwrites the status |
| Campaigns.OmittedStatusResetsCampaign | farmer-aid-portal-main/backend/app/routers/campaigns.py:83-86 | a body without a status sets a completed campaign back to "upcoming" |
| Campaigns.DeleteCampaign | farmer-aid-portal-main/backend/app/routers/campaigns.py:96-114 | a missing id is 404; otherwise exactly that campaign is removed, with its message |
| Campaigns.GetCampaignsByStatus | farmer-aid-portal-main/backend/app/routers/campaigns.py:116-133 | as written: always 500 against the in-memory store |
| Campaigns.GetCampaignsByStatusFixed | farmer-aid-portal-main/backend/app/routers/campaigns.py:116-131 | the campaigns whose status equals the filter, each once |
| Orders.NewOrderDoc | buyer-aid-portal-main/backend/app/routers/orders.py:56-58 | a created order is the body plus both timestamps |
| Orders.OrderUpdateFields | buyer-aid-portal-main/backend/app/routers/orders.py:82-83 | an update writes the body and a new `updatedAt`, never `createdAt` |
| Orders.GetOrders | buyer-aid-portal-main/backend/app/routers/orders.py:12-28 | every stored order tagged with its id; count equals the number returned |
| Orders.GetOrder | buyer-aid-portal-main/backend/app/routers/orders.py:30-47 | 404 "Order not found" iff the id is not stored; otherwise the tagged order |
| Orders.CreateOrder | buyer-aid-portal-main/backend/app/routers/orders.py:49-68 | stores the new order under the fresh id and returns it with that id |
| Orders.UpdateOrder | buyer-aid-portal-main/backend/app/routers/orders.py:70-93 | a missing id is 404 with no write; otherwise the body plus `updatedAt` is merged in |
| Orders.DeleteOrder | buyer-aid-portal-main/backend/app/routers/orders.py:95-113 | a missing id is 404; otherwise exactly that order is removed |
| Orders.GetOrdersByStatus | buyer-aid-portal-main/backend/app/routers/orders.py:115-132 | as written: always 500 against the in-memory store |
| Orders.GetOrdersByStatusFixed | buyer-aid-portal-main/backend/app/routers/orders.py:115-130 | the orders whose status equals the filter, each once |
| Orders.ValidOrderStatusIff | buyer-aid-portal-main/backend/app/routers/orders.py:147-148 | a status is accepted iff it is one of the four literals (a missing status is not) |
| Orders.OrderStatusSpec | buyer-aid-portal-main/backend/app/routers/orders.py:134-164 | whatever the request, the orders collection exists afterwards |
| Orders.UpdateOrderStatus | buyer-aid-portal-main/backend/app/routers/orders.py:134-164 | the answer and the new database are those of `OrderStatusSpec` |
| Orders.OrderStatusUpdateEffect | buyer-aid-portal-main/backend/app/routers/orders.py:151-160 | a valid update sets only `status` and `updatedAt` of that order, answers the re-read order tagged with its id, and changes no other order or collection |
| Orders.OrderStatusRefusalChangesNothing | buyer-aid-portal-main/backend/app/routers/orders.py:142-149 | a refused update changes no document; it is 404 exactly when the order is unknown (400 otherwise) |
| Bids.NewBidDoc | farmer-aid-portal-main/backend/app/routers/bids.py:116-118 | a placed bid is the aliased body plus both timestamps |
| Bids.CreateBid | farmer-aid-portal-main/backend/app/routers/bids.py:103-149 | stores the bid under the given id and answers it tagged, with "Bid created successfully by <name>" |
| Bids.NewBidDocDecodes | farmer-aid-portal-main/backend/app/routers/bids.py:116-124 | the stored bid validates as the bid that was placed |
| Bids.CreatedBidResponseDecodes | farmer-aid-portal-main/backend/app/routers/bids.py:116-139 | the response, the stored bid with its id, validates as the bid that was placed |
| Bids.CreatedBidAnswer | farmer-aid-portal-main/backend/app/routers/bids.py:137-144 | `Bid(**bid_data)` of a placed bid is the stored bid tagged with its id, so `create_bid` answers exactly what it stored |
| Bids.DeleteBid | farmer-aid-portal-main/backend/app/routers/bids.py:301-320 | an unknown bid is 404 with no write; otherwise exactly that bid is removed |
| Bids.BidsFilter | farmer-aid-portal-main/backend/app/routers/bids.py:25-31 | the listing is unfiltered iff no filter parameter is a non-empty text |
| Bids.GetAllBids | farmer-aid-portal-main/backend/app/routers/bids.py:13-45 | as written: the bids matching the last non-empty filter, on `campaign_id` / `bidder_type` / `status` |
| Bids.GetAllBidsFixed | farmer-aid-portal-main/backend/app/routers/bids.py:13-45 | the same listing over the stored field names `campaignId` / `bidderType` |
| Bids.StatusFilterWins | farmer-aid-portal-main/backend/app/routers/bids.py:25-31 | given a status, the campaign and bidder parameters have no effect |
| Bids.Prefix | farmer-aid-portal-main/backend/app/routers/bids.py:60 | `s[:n]` is the first min(n, len) characters of s |
| Bids.AmountsOfMembers | farmer-aid-portal-main/backend/app/routers/bids.py:74-80 | a number is among the collected amounts iff some listed bid's amount reads as it |
| Bids.CountPending | farmer-aid-portal-main/backend/app/routers/bids.py:83 | the pending count never exceeds the number of bids |
| Bids.CollectBids | farmer-aid-portal-main/backend/app/routers/bids.py:69-80 | the loop tags every streamed bid in order and collects exactly the amounts that parse |
| Bids.HighestAndLowest | farmer-aid-portal-main/backend/app/routers/bids.py:84-85 | the max and min of the collected amounts are the amount of some bid, and bound every bid's amount |
| Bids.NoAmountsIffEmpty | farmer-aid-portal-main/backend/app/routers/bids.py:84-85 | no amounts are collected iff no bid's amount parses |
| Bids.CampaignWithBidsOn | farmer-aid-portal-main/backend/app/routers/bids.py:60-85 | the bid part of the view over given field names: placeholder title, listing, pending count, and highest/lowest absent iff nothing parses, otherwise the true max/min printed |
| Bids.PlaceholderNeverValidates | farmer-aid-portal-main/backend/app/routers/bids.py:60-94 | the placeholder campaign `{id, title}` lacks the crop and the other required fields, so it never validates as `Campaign` |
| Bids.GetCampaignWithBids | farmer-aid-portal-main/backend/app/routers/bids.py:47-101 | as written: the bids collection is ensured and the answer is always the 500 "Error retrieving campaign with bids", since the view is built on the placeholder |
| Bids.GetCampaignWithBidsFixed | farmer-aid-portal-main/backend/app/routers/bids.py:60-85 | the bid part of the view over the stored names `campaignId` and `bidAmount`, with the same statistics guarantees |
| Bids.CreatedBidInvisibleAsWritten | farmer-aid-portal-main/backend/app/routers/bids.py:63-75 | a bid placed through `create_bid` never matches the `campaign_id` filter and its `bid_amount` is never read |
| Bids.ListByCampaignAsWrittenIsEmpty | farmer-aid-portal-main/backend/app/routers/bids.py:25-27 | `GET /api/bids?campaign_id=…`: when every stored bid has the fields `create_bid` writes, the listing is empty |
| Bids.ListByCampaignFixedFindsPlacedBid | farmer-aid-portal-main/backend/app/routers/bids.py:25-42 | filtering on the stored name `campaignId`, a placed bid is in its campaign's listing, tagged with its id |
| Bids.CreatedBidVisibleFixed | farmer-aid-portal-main/backend/app/routers/bids.py:63-78 | with the stored names a placed bid matches its campaign and its amount is read |
| Bids.AcceptRefusal | farmer-aid-portal-main/backend/app/routers/bids.py:175-191 | every refusal of accept is a 400 |
| Bids.AcceptRefusedIffBuyerBid | farmer-aid-portal-main/backend/app/routers/bids.py:175-191 | with the owner fixed to "buyer", accept is refused exactly for buyers' bids |
| Bids.FarmerOwnerAcceptsOnlyCounterOffers | farmer-aid-portal-main/backend/app/routers/bids.py:187-191 | a farmer owner would accept exactly non-farmer bids in `counter_offered` |
| Bids.AutoRejected | farmer-aid-portal-main/backend/app/routers/bids.py:196-210 | other open bids of the campaign get status rejected, the auto-reject note and `updatedAt`; every other bid is unchanged |
| Bids.RejectStep | farmer-aid-portal-main/backend/app/routers/bids.py:200-210 | one loop step rejects the streamed bid exactly when it is another open bid |
| Bids.RejectOtherBids | farmer-aid-portal-main/backend/app/routers/bids.py:196-210 | the rejection loop leaves the bids collection equal to `AutoRejected` and nothing else changed |
| Bids.ContractEffect | farmer-aid-portal-main/backend/app/routers/bids.py:322-388 | contract creation touches no collection but campaigns and contracts |
| Bids.CreateContractFromBid | farmer-aid-portal-main/backend/app/routers/bids.py:322-388 | the database becomes `ContractEffect` of the old one |
| Bids.Finished | farmer-aid-portal-main/backend/app/routers/bids.py:238-242 | the written bid has the new `updatedAt`, and the notes when they are non-empty; every other field is kept |
| Bids.Respond | farmer-aid-portal-main/backend/app/routers/bids.py:247-256 | an error is answered as built; a built bid that does not validate as `Bid` becomes the 500 "Error handling bid action"; a valid one is answered with the same message and with exactly the `Bid` keys, validating as the same bid |
| Bids.ActionAnswer | farmer-aid-portal-main/backend/app/routers/bids.py:247-251 | the bid an action answers holds exactly the `Bid` keys, the action's status and the written bid's id, and validates as the stored bid with that status; `rejectedBy`, `counterAmount` and `actionNotes` are not among its keys |
| Bids.HandleBidAction | farmer-aid-portal-main/backend/app/routers/bids.py:151-256 | the new database is that of `BidActionSpec` and the answer is `Respond` of the response it builds |
| Bids.FinishAction | farmer-aid-portal-main/backend/app/routers/bids.py:238-251 | adds the notes and the time, writes the bid back, and answers it through `Respond` (the `Bid` fields of the written bid, or the 500), as `FinishSpec` says |
| Bids.FinishedDecodes | farmer-aid-portal-main/backend/app/routers/bids.py:238-249 | the notes, the time and the id added to a bid do not change whether it validates as `Bid` |
| Bids.ValidatesAsAnyStatus | farmer-aid-portal-main/backend/app/routers/bids.py:193-249 | whether a bid validates does not depend on which status the action gives it, and a valid stored bid validates with any of them |
| Bids.UnknownBidIsNotFound | farmer-aid-portal-main/backend/app/routers/bids.py:158-160 | an unknown bid is 404 "Bid not found" and no document changes |
| Bids.ActionFailsIff | farmer-aid-portal-main/backend/app/routers/bids.py:165-256 | for a stored bid, an action fails iff it is an accept of a buyer's bid or a counter without an amount (exactly the 400s), an accept or counter on a bid without `campaignId`, or an action whose updated bid does not validate as `Bid` (500) |
| Bids.RefusedActionWritesNothing | farmer-aid-portal-main/backend/app/routers/bids.py:158-236 | a request refused before the write (unknown bid, accept of a buyer's bid, counter without an amount, accept or counter without `campaignId`) fails and changes no document |
| Bids.AcceptAnswer | farmer-aid-portal-main/backend/app/routers/bids.py:193-256 | an accept that passes the checks answers `ActionAnswer` of the bid with status accepted (so without `counterAmount` or `actionNotes`), with "Bid accepted successfully", when it validates as `Bid`, and the 500 otherwise |
| Bids.RejectAnswer | farmer-aid-portal-main/backend/app/routers/bids.py:215-256 | a reject answers `ActionAnswer` of the bid with status rejected (so without `rejectedBy`), with the message naming who rejected it, when it validates as `Bid`, and the 500 otherwise |
| Bids.CounterOfferAnswer | farmer-aid-portal-main/backend/app/routers/bids.py:225-256 | a counter with an amount answers `ActionAnswer` of the bid with status counter_offered (so without `counterAmount`), with "Counter offer made: <amount>", when it validates as `Bid`, and the 500 otherwise |
| Bids.AcceptUpdatesBids | farmer-aid-portal-main/backend/app/routers/bids.py:193-245 | accept writes the bid as accepted (with notes and time); other open bids of the campaign are rejected; all other bids are unchanged |
| Bids.AcceptLeavesNoOtherOpenBid | farmer-aid-portal-main/backend/app/routers/bids.py:196-210 | after accept no other bid of that campaign is pending or counter_offered |
| Bids.AcceptCreatesContract | farmer-aid-portal-main/backend/app/routers/bids.py:331-381 | with the campaign stored, the contract is stored under its id, and the campaign is merged with completed, `contractId`, `finalPrice` and `updatedAt`; no other campaign changes |
| Bids.ContractEffectWithoutCampaign | farmer-aid-portal-main/backend/app/routers/bids.py:326-334 | without a stored campaign, contract creation changes no campaign or contract |
| Bids.ContractEffectWithCampaign | farmer-aid-portal-main/backend/app/routers/bids.py:330-381 | with the campaign stored, the contract record is stored under its id and that campaign alone gets the closure fields (completed, contract link, final price) merged in |
| Bids.AcceptWithoutCampaign | farmer-aid-portal-main/backend/app/routers/bids.py:326-334 | when the bid's campaign is not stored, accept writes no contract and no campaign (the bid itself is written as `Bids.AcceptUpdatesBids` says) |
| Bids.ContractBuyer | farmer-aid-portal-main/backend/app/routers/bids.py:356-357 | the buyer is the bidder for a buyer's bid and the campaign owner otherwise, which is always the case for an accepted bid |
| Bids.ContractFarmer | farmer-aid-portal-main/backend/app/routers/bids.py:354-355 | the farmer is the bidder for a farmer's bid and the campaign owner otherwise |
| Bids.ContractPrice | farmer-aid-portal-main/backend/app/routers/bids.py:337-338 | the agreed price is the counter amount when that is truthy, else the bid amount (default empty text) |
| Bids.ContractTerms | farmer-aid-portal-main/backend/app/routers/bids.py:357-371 | the contract links back to its bid and campaign and carries its own id |
| Bids.ContractStarts | farmer-aid-portal-main/backend/app/routers/bids.py:349-351 | the contract starts completed, active, and counting one bid |
| Bids.RejectEffect | farmer-aid-portal-main/backend/app/routers/bids.py:215-245 | reject writes the bid as rejected, `rejectedBy` buyer for a farmer's bid and farmer otherwise, with the time, whether or not it validates; the bids collection becomes exactly the old one with that bid replaced by the stored bid so changed and then given the notes and the time (`Finished`), so its other fields are kept; no other bid and no other collection changes |
| Bids.CounterOfferEffect | farmer-aid-portal-main/backend/app/routers/bids.py:225-245 | a counter writes the bid as counter_offered with the amount and the time; the bids collection becomes exactly the old one with that bid replaced by the stored bid so changed and then given the notes and the time (`Finished`), so its other fields are kept; other bids are unchanged |
| Bids.CounterOfferFrame | farmer-aid-portal-main/backend/app/routers/bids.py:225-245 | a counter adds and removes no campaign, keeps every campaign other than the one the bid names, and leaves every collection other than bids and campaigns unchanged |
| Bids.CampaignMerged | farmer-aid-portal-main/backend/app/routers/bids.py:232-236 | the campaign update of a counter adds the campaigns collection when absent and no other collection |
| Bids.CounterOfferRaisesCampaign | farmer-aid-portal-main/backend/app/routers/bids.py:232-236 | a counter sets the stored campaign's `currentBid` to the amount, keeping its other fields; the other campaigns are unchanged and none is added |
| Bids.CounteredBidAgreesOnCounter | farmer-aid-portal-main/backend/app/routers/bids.py:339 | after a counter, the price a later accept agrees on is the counter amount |
| Progress.Lookup | farmer-aid-portal-main/backend/app/main.py:38-42 | a GET succeeds iff a non-empty payload is stored, and then answers the id and that payload |
| Progress.ContractProgressStore.constructor | farmer-aid-portal-main/backend/app/main.py:27 | the store starts empty |
| Progress.ContractProgressStore.UpdateContractProgress | farmer-aid-portal-main/backend/app/main.py:29-33 | the payload replaces any earlier one under the id; the reply echoes id and payload with success |
| Progress.ContractProgressStore.GetContractProgress | farmer-aid-portal-main/backend/app/main.py:35-42 | success iff a non-empty payload is stored, answering it; "no progress" otherwise |
| Progress.ContractProgressStore.PostThenGet | farmer-aid-portal-main/backend/app/main.py:29-42 | a GET after a POST returns the posted payload when it is non-empty, and "no progress" when it is empty; GETs of other ids are unchanged |
| Progress.LastPostWins | farmer-aid-portal-main/backend/app/main.py:32 | of two POSTs, the later non-empty payload is the one read |
| Progress.PostKeepsOtherContracts | farmer-aid-portal-main/backend/app/main.py:32 | a POST does not change what a GET of another id answers |
| Progress.UnknownContractHasNoProgress | farmer-aid-portal-main/backend/app/main.py:38-42 | a GET for an id never posted is not a success |
| Languages.KeywordCount | farmer-vertex-ai/functions/whatsapp_full.py:149-150 | the count never exceeds the number of keywords |
| Languages.KeywordCountPositiveIff | farmer-vertex-ai/functions/whatsapp_full.py:149-150 | the count is positive iff some keyword occurs in the text |
| Languages.DetectLanguage | farmer-vertex-ai/functions/whatsapp_full.py:143-161 | the detected code is always a supported language |
| Languages.DetectLanguageCases | farmer-vertex-ai/functions/whatsapp_full.py:152-157 | "hi" iff more Hindi than Kannada keywords occur; "kn" iff some Kannada keyword occurs and not more Hindi ones; "en" iff no keyword of either list occurs |
| Languages.AudioErrorFallbacks | farmer-vertex-ai/functions/whatsapp_full.py:634-678 | the message in the language when supported, the English one of that type otherwise, "❌ Error occurred" for an unknown type |
| Languages.AudioResponseShape | farmer-vertex-ai/functions/whatsapp_full.py:706-718 | the text is bounded; a question of at most 100 characters appears whole after the opening; a cut answer ends in "..." and a short one ends the text |
| Languages.UnknownLanguageAnswersInEnglish | farmer-vertex-ai/functions/whatsapp_full.py:714 | an unsupported language gets the English template |
| Languages.CodeCommand | farmer-vertex-ai/functions/whatsapp_full.py:775-792 | only a supported code is ever set |
| Languages.ParseLanguageCommand | farmer-vertex-ai/functions/whatsapp_full.py:769-797 | a parsed command never names an unsupported code |
| Languages.CommandSetsSupportedLanguage | farmer-vertex-ai/functions/whatsapp_full.py:769-786 | "language xx" (any letter case, or the Hindi/Kannada command word) with a supported xx sets xx |
| Languages.CommandWithUnknownCodeShowsMenu | farmer-vertex-ai/functions/whatsapp_full.py:776-790 | with an unsupported code the menu is shown |
| Languages.BareCommandWordShowsMenu | farmer-vertex-ai/functions/whatsapp_full.py:794-795 | a bare "language", "languages", "भाषा" or "ಭಾಷೆ" shows the menu |
| Languages.CommandReply | farmer-vertex-ai/functions/whatsapp_full.py:778-797 | there is no reply exactly for a message that is not a command |
| Languages.ReplyIsNeverAnError | farmer-vertex-ai/functions/whatsapp_full.py:779-788 | no parsed command is answered with the error reply |
| Sessions.LastN | farmer-vertex-ai/functions/whatsapp_full.py:398-399 | `s[-n:]`: the last min(n, len) elements, as a suffix |
| Sessions.Appended | farmer-vertex-ai/functions/whatsapp_full.py:395-399 | the history stays within 20 and ends with the new message; below the limit it is appended, at the limit the oldest is dropped |
| Sessions.HistoryIsNewestMessages | farmer-vertex-ai/functions/whatsapp_full.py:395-399 | after any number of messages the history is the newest 20 of all of them, in order |
| Sessions.UserContents | farmer-vertex-ai/functions/whatsapp_full.py:173 | the user texts are at most as many as the messages |
| Sessions.JoinWithSpace | farmer-vertex-ai/functions/whatsapp_full.py:173 | joining gives "" for no parts, the part itself for one, and a non-empty text for more |
| Sessions.PreferredIsSticky | farmer-vertex-ai/functions/whatsapp_full.py:163-184 | the answer is supported, the stored preference stays supported, and once stored it is what every later lookup answers |
| Sessions.NoUserTextMeansEnglish | farmer-vertex-ai/functions/whatsapp_full.py:172-180 | with no preference and no user message among the last three, the answer is "en" and nothing is stored |
| Sessions.UserSession.constructor | farmer-vertex-ai/functions/whatsapp_full.py:389-393 | a new session has the number, an empty history and context, and the activity time |
| Sessions.UserSession.AddMessage | farmer-vertex-ai/functions/whatsapp_full.py:395-399 | the history becomes `Appended`; the context is kept; the activity time is set |
| Sessions.SessionRegistry.constructor | farmer-vertex-ai/functions/whatsapp_full.py:90 | no sessions at first |
| Sessions.SessionRegistry.GetUserSession | farmer-vertex-ai/functions/whatsapp_full.py:401-405 | creates an empty session only for an unseen number; otherwise returns the same session and changes nothing |
| Sessions.SessionRegistry.SetUserLanguage | farmer-vertex-ai/functions/whatsapp_full.py:186-199 | true iff the code is supported; then only that number's preference changes, and no session's history or last-activity time; otherwise nothing changes |
| Sessions.SessionRegistry.HandleLanguageCommands | farmer-vertex-ai/functions/whatsapp_full.py:767-797 | the reply is that of the parsed command; a set command stores the code in that number's context (a new session with an empty history when the number is unseen) and touches no other session; other messages change no session; no chat history or last-activity time of an existing session changes |
| Sessions.SessionRegistry.PreferredLanguage | farmer-vertex-ai/functions/whatsapp_full.py:163-184 | answer and stored context are those of `Preferred`; a new number gets a session with an empty history and "en"; the numbers are the old ones plus this one; other sessions, every history and every last-activity time are unchanged |
| Outbound.Recipient | farmer-vertex-ai/functions/whatsapp_full.py:1198-1201 | the recipient always starts with `whatsapp:` |
| Outbound.RecipientKeepsNumber | farmer-vertex-ai/functions/whatsapp_full.py:1198-1201 | for a number without the prefix: after `whatsapp:` comes the number, with `+` added only when missing |
| Outbound.RecipientIdempotent | farmer-vertex-ai/functions/whatsapp_full.py:1198-1201 | normalising twice is normalising once |
| Outbound.OutgoingBodyBounds | farmer-vertex-ai/functions/whatsapp_full.py:1205-1206 | a body is at most 1503 characters, keeps the first 1500, and is unchanged when within the limit |
| Outbound.Outgoing | farmer-vertex-ai/functions/whatsapp_full.py:1188-1213 | a message is sent iff the client is available, to a `whatsapp:` recipient, with a bounded body |

## Left out

- I/O and foreign services: the Flask and FastAPI routing and response validation, Twilio sends, Whisper transcription, text-to-speech, Cloud Storage, the language-model agents and the image models. The Twilio client's availability is a boolean parameter of `Outbound.Outgoing`.
- Real Firestore: the model is the in-memory store the backends fall back to. `init_firestore`, `get_db`, `clear_mock_data` and `get_mock_data` are not part of this model.
- Aliasing in the in-memory store: `set` (firestore_config.py:76-78) stores the caller's dict itself, and `to_dict` and `stream` hand out the stored dict itself. A handler's later edits of that dict therefore land in the store: the `id` tag added after `set` (campaigns.py:63,66; orders.py:62,65; bids.py:124,138) ends up stored in the document, and so does `status = 'accepted'` before a 500. The model writes and reads copies, as real Firestore does, so stored documents never carry that `id` key.
- Stream order: streams are specified as sets of matching documents, each listed once. Python dict insertion order is not modelled.
- Floats and formatting: amounts are whole numbers. The rounding of `:,.0f` is not modelled.
- Amounts.ParseInteger: reads only an optional sign followed by ASCII digits, so it is weaker than `float()` (bids.py:77-78). `float()` also reads "5000.00", "5.", "1e3", "1_000", non-ASCII digits, and "inf"/"nan"; for such amounts the model collects nothing where the code collects a number. `Amounts.ParseAmountText` inherits this.
- `get_bidding_stats` (bids.py:258-299): it averages float amounts, so it is left out with the floats.
- Pydantic details:
  - `default_factory` timestamps and response-model validation errors are not modelled.
  - The `Contract` model (schemas.py:80-118) is not modelled. Contracts are written as raw dicts (`Bids.ContractRecord`) and are never validated in this core.
  - The first, shadowed `BidAction` appears only through `Schemas.ShadowedCounterIsRejected`.
- The buyer backend's copies of the campaign router and the schemas, and both contract routers, repeat the modelled code with other collection names, so they are not modelled separately.
- Text: `Text.Lower` folds ASCII letters only. Python's full Unicode case mapping is not modelled, though the Hindi and Kannada command words have no case.
- Time: one `now` parameter stands for every `datetime.now()` of a request. `lastActivity` is stored as that text.
- `uuid4` ids are parameters. The model assumes nothing about their uniqueness: a repeated id overwrites, just as `set` does.
- Exception handlers that only log (language detection, language setting, contract creation) are not modelled. In the modelled code no step reaches them.
- `format_voice_response` and the welcome and help texts are fixed templates and are not part of this model.
- Bids.GetCampaignWithBids: the campaign is the placeholder `{id, title}`, as in the code, and the stored campaign is never read. The text of the validation error is the parameter `failure`, and validation of the listed bids as `Bid` is not modelled, since the placeholder already fails.
- Bids.GetCampaignWithBidsFixed: models the bid part of the intended view only. The intended handler would also need campaign data that validates as `Campaign` (`Schemas.ValidatesAsCampaign`), for example the stored campaign (`Schemas.CampaignRecordValidates`).
- Schemas.DecodeBid: `id`, `createdAt` and `updatedAt` are not validated. The handlers store the timestamps as ISO texts, which pydantic parses as datetimes. A stored bid with a malformed timestamp would fail `Bid(**bid_data)` (bids.py:249), but `Bids.ActionFailsIff` counts it as valid.
- Bids.Respond: the text of a validation error is the parameter `failure`; the model does not compute pydantic's message. The answered timestamps are the stored texts, not datetimes re-serialised by pydantic.
- Campaigns.GetCampaign: answers the stored campaign tagged with its id, as `Crud.GetOne` does. `Campaign(**campaign_data)` (campaigns.py:44) keeps only the fields of `Campaign`, so the source answers a campaign closed by accept without its `contractId` and `finalPrice` (bids.py:376-381), while the model's answer keeps them. The projection onto the model's fields is modelled for bids only (`Bids.Respond`).
- Crud.GetOne, Crud.CreateOne, Crud.UpdateOne and Orders.UpdateOrderStatus: the 500 that `Campaign(**…)` or `Order(**…)` raises for a document that does not validate (campaigns.py:44,67,90; orders.py:43,66,160) is not modelled; their answers are the tagged dicts. Campaigns stored by `create_campaign` do validate (`Schemas.CampaignRecordValidates`).

## Findings

| source | as written | input that shows it | evidently intended | confidence | as-written member | corrected member |
|---|---|---|---|---|---|---|
| farmer-aid-portal-main/backend/app/routers/bids.py:25-31 | the bid listing filters on `campaign_id` and `bidder_type` | place a bid through `create_bid`, which stores `campaignId`/`bidderType`, then `GET /api/bids?campaign_id=<its campaign>`: the listing is empty | filter on `campaignId` and `bidderType`, the keys `create_bid` and `handle_bid_action` use | not executed | Bids.ListByCampaignAsWrittenIsEmpty | Bids.ListByCampaignFixedFindsPlacedBid |
| farmer-aid-portal-main/backend/app/routers/campaigns.py:122 | `where(filter=FieldFilter(...))`, which the in-memory store's positional `where` does not accept | any status, e.g. `GET /status/active` with no credentials: always 500 | list the campaigns (and orders, orders.py:121) whose status equals the filter | not executed | Crud.ListByStatusAsWritten | Crud.StatusListingHasStatus |
| buyer-aid-portal-main/backend/app/services/firestore_config.py:23 | `add` names a document `doc_<size+1>` | store `doc_1`, `doc_2`, delete `doc_1`, then `add(x)`: the id is `doc_2` and the stored `doc_2` is replaced | a new id that no stored document has | not executed | Firestore.AddAfterDeleteOverwrites | Firestore.MockFirestore.AddFresh |
