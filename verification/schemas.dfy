/**
 * The request and record schemas of the farmer portal: the enumerated
 * literals (roles, campaign, bid and order statuses, bid actions), the
 * defaults a request body gets for the fields it omits, and the documents
 * the routers store (`model_dump(by_alias=True)`).
 */
module Schemas {
  import opened Values

  /** The two roles of the marketplace. */
  datatype UserType = Farmer | Buyer

  function UserTypeName(u: UserType): string {
    match u
    case Farmer => "farmer"
    case Buyer => "buyer"
  }

  /** Validation of a role literal: exactly "farmer" and "buyer" are accepted. */
  function ParseUserType(s: string): (u: Option<UserType>)
    ensures u.Some? <==> (s == "farmer" || s == "buyer")
    ensures u.Some? ==> UserTypeName(u.value) == s
  {
    if s == "farmer" then Some(Farmer)
    else if s == "buyer" then Some(Buyer)
    else None
  }

  datatype CampaignStatus = Active | Completed | Upcoming

  function CampaignStatusName(st: CampaignStatus): string {
    match st
    case Active => "active"
    case Completed => "completed"
    case Upcoming => "upcoming"
  }

  function ParseCampaignStatus(s: string): (st: Option<CampaignStatus>)
    ensures st.Some? <==> (s == "active" || s == "completed" || s == "upcoming")
    ensures st.Some? ==> CampaignStatusName(st.value) == s
  {
    if s == "active" then Some(Active)
    else if s == "completed" then Some(Completed)
    else if s == "upcoming" then Some(Upcoming)
    else None
  }

  datatype BidStatus = Pending | Accepted | Rejected | CounterOffered

  function BidStatusName(st: BidStatus): string {
    match st
    case Pending => "pending"
    case Accepted => "accepted"
    case Rejected => "rejected"
    case CounterOffered => "counter_offered"
  }

  function ParseBidStatus(s: string): (st: Option<BidStatus>)
    ensures st.Some? <==> (s == "pending" || s == "accepted" || s == "rejected" || s == "counter_offered")
    ensures st.Some? ==> BidStatusName(st.value) == s
  {
    if s == "pending" then Some(Pending)
    else if s == "accepted" then Some(Accepted)
    else if s == "rejected" then Some(Rejected)
    else if s == "counter_offered" then Some(CounterOffered)
    else None
  }

  datatype OrderStatus = OrderPending | Shipped | Delivered | Cancelled

  function OrderStatusName(st: OrderStatus): string {
    match st
    case OrderPending => "pending"
    case Shipped => "shipped"
    case Delivered => "delivered"
    case Cancelled => "cancelled"
  }

  function ParseOrderStatus(s: string): (st: Option<OrderStatus>)
    ensures st.Some? <==> (s == "pending" || s == "shipped" || s == "delivered" || s == "cancelled")
    ensures st.Some? ==> OrderStatusName(st.value) == s
  {
    if s == "pending" then Some(OrderPending)
    else if s == "shipped" then Some(Shipped)
    else if s == "delivered" then Some(Delivered)
    else if s == "cancelled" then Some(Cancelled)
    else None
  }

  /** The actions of the second, effective `BidAction` model (it shadows the
      first one, whose literals were accept / reject / counter). */
  datatype BidActionKind = Accept | Reject | CounterOffer

  function BidActionKindName(a: BidActionKind): string {
    match a
    case Accept => "accept"
    case Reject => "reject"
    case CounterOffer => "counter_offer"
  }

  /** A validated bid-action request body.  It has no `counter_terms` field:
      the model that declared one is shadowed, and extra keys are ignored. */
  datatype BidAction = BidAction(action: BidActionKind, counterAmount: Option<string>, notes: Option<string>)

  /** Validation of a bid-action request body; `None` is the framework's 422. */
  function ParseBidAction(action: string, counterAmount: Option<string>, notes: Option<string>): (r: Option<BidAction>)
    ensures r.Some? <==> (action == "accept" || action == "reject" || action == "counter_offer")
    ensures r.Some? ==> BidActionKindName(r.value.action) == action
    ensures r.Some? ==> r.value.counterAmount == counterAmount && r.value.notes == notes
  {
    if action == "accept" then Some(BidAction(Accept, counterAmount, notes))
    else if action == "reject" then Some(BidAction(Reject, counterAmount, notes))
    else if action == "counter_offer" then Some(BidAction(CounterOffer, counterAmount, notes))
    else None
  }

  /** The literal "counter" of the shadowed model is no longer an action. */
  lemma ShadowedCounterIsRejected(counterAmount: Option<string>, notes: Option<string>)
    ensures ParseBidAction("counter", counterAmount, notes) == None
    ensures ParseBidAction("counter_offer", counterAmount, notes) == Some(BidAction(CounterOffer, counterAmount, notes))
  {
  }

  /** A campaign request body (`CampaignCreate`) after defaults are applied. */
  datatype CampaignCreate = CampaignCreate(
    title: string, crop: string, cropType: string, location: string, duration: string,
    estimatedYield: string, minimumQuotation: Option<string>, currentBid: Option<string>,
    totalBids: int, status: CampaignStatus, userType: UserType, userId: Option<string>)

  /** A campaign body with the omitted (`None`) optional fields defaulted:
      status "upcoming", creator role "farmer", no bids yet, no creator id. */
  function NewCampaignCreate(
    title: string, crop: string, cropType: string, location: string, duration: string,
    estimatedYield: string, minimumQuotation: Option<string>, currentBid: Option<string>,
    totalBids: Option<int>, status: Option<CampaignStatus>, userType: Option<UserType>,
    userId: Option<string>): CampaignCreate
  {
    CampaignCreate(title, crop, cropType, location, duration, estimatedYield,
                   minimumQuotation, currentBid, totalBids.GetOr(0), status.GetOr(Upcoming),
                   userType.GetOr(Farmer), userId)
  }

  lemma CampaignCreateDefaults(title: string, crop: string, cropType: string, location: string,
                               duration: string, estimatedYield: string)
    ensures var c := NewCampaignCreate(title, crop, cropType, location, duration, estimatedYield,
                                       None, None, None, None, None, None);
      c.status == Upcoming && c.userType == Farmer && c.totalBids == 0 && c.userId.None?
      && c.minimumQuotation.None? && c.currentBid.None?
  {
  }

  /** The stored form of a campaign body, keyed by the field aliases. */
  function CampaignRecord(c: CampaignCreate): (r: Record)
    ensures r.Keys == {"title", "crop", "cropType", "location", "duration", "estimatedYield",
                       "minimumQuotation", "currentBid", "totalBids", "status", "userType", "userId"}
    ensures r["status"] == Str(CampaignStatusName(c.status)) && r["userType"] == Str(UserTypeName(c.userType))
  {
    map["title" := Str(c.title), "crop" := Str(c.crop), "cropType" := Str(c.cropType),
        "location" := Str(c.location), "duration" := Str(c.duration),
        "estimatedYield" := Str(c.estimatedYield),
        "minimumQuotation" := OptStr(c.minimumQuotation), "currentBid" := OptStr(c.currentBid),
        "totalBids" := Int(c.totalBids), "status" := Str(CampaignStatusName(c.status)),
        "userType" := Str(UserTypeName(c.userType)), "userId" := OptStr(c.userId)]
  }

  /** Whether a record has the required fields of `Campaign`, each read by
      alias or by name: the texts title, crop, crop type, location,
      duration and estimated yield, and a status that is a campaign status
      literal. The optional fields are not checked. */
  predicate ValidatesAsCampaign(r: Record) {
    && RequiredText(FieldOf(r, "title", "title")).Some?
    && RequiredText(FieldOf(r, "crop", "crop")).Some?
    && RequiredText(FieldOf(r, "cropType", "crop_type")).Some?
    && RequiredText(FieldOf(r, "location", "location")).Some?
    && RequiredText(FieldOf(r, "duration", "duration")).Some?
    && RequiredText(FieldOf(r, "estimatedYield", "estimated_yield")).Some?
    && var status := RequiredText(FieldOf(r, "status", "status"));
       status.Some? && ParseCampaignStatus(status.value).Some?
  }

  /** A stored campaign has every required field of `Campaign`. */
  lemma CampaignRecordValidates(c: CampaignCreate)
    ensures ValidatesAsCampaign(CampaignRecord(c))
  {
    var r := CampaignRecord(c);
    assert FieldOf(r, "status", "status") == Some(Str(CampaignStatusName(c.status)));
    assert ParseCampaignStatus(CampaignStatusName(c.status)) == Some(c.status) by {
      match c.status
      case Active =>
      case Completed =>
      case Upcoming =>
    }
  }

  /** A bid request body (`BidCreate`) after defaults are applied. */
  datatype BidCreate = BidCreate(
    campaignId: string, bidderType: UserType, bidderId: Option<string>, bidderName: string,
    bidAmount: string, quantity: string, qualityGrade: string, deliveryTerms: Option<string>,
    notes: Option<string>, status: BidStatus)

  /** A bid body with the omitted optional fields defaulted: quality
      "Grade A" and status "pending". */
  function NewBidCreate(
    campaignId: string, bidderType: UserType, bidderId: Option<string>, bidderName: string,
    bidAmount: string, quantity: string, qualityGrade: Option<string>,
    deliveryTerms: Option<string>, notes: Option<string>, status: Option<BidStatus>): BidCreate
  {
    BidCreate(campaignId, bidderType, bidderId, bidderName, bidAmount, quantity,
              qualityGrade.GetOr("Grade A"), deliveryTerms, notes, status.GetOr(Pending))
  }

  lemma BidCreateDefaults(campaignId: string, bidderType: UserType, bidderName: string,
                          bidAmount: string, quantity: string)
    ensures var b := NewBidCreate(campaignId, bidderType, None, bidderName, bidAmount, quantity,
                                  None, None, None, None);
      b.status == Pending && b.qualityGrade == "Grade A" && b.bidderId.None?
  {
  }

  /** The stored form of a bid body, keyed by the field aliases. */
  function BidRecord(b: BidCreate): (r: Record)
    ensures r.Keys == {"campaignId", "bidderType", "bidderId", "bidderName", "bidAmount",
                       "quantity", "qualityGrade", "deliveryTerms", "notes", "status"}
    ensures r["campaignId"] == Str(b.campaignId) && r["bidAmount"] == Str(b.bidAmount)
    ensures r["status"] == Str(BidStatusName(b.status))
  {
    map["campaignId" := Str(b.campaignId), "bidderType" := Str(UserTypeName(b.bidderType)),
        "bidderId" := OptStr(b.bidderId), "bidderName" := Str(b.bidderName),
        "bidAmount" := Str(b.bidAmount), "quantity" := Str(b.quantity),
        "qualityGrade" := Str(b.qualityGrade), "deliveryTerms" := OptStr(b.deliveryTerms),
        "notes" := OptStr(b.notes), "status" := Str(BidStatusName(b.status))]
  }

  /** Reading an optional string field back (`None` or a string). */
  function DecodeOptStr(v: Value): Option<Option<string>> {
    match v
    case Null => Some(None)
    case Str(s) => Some(Some(s))
    case _ => None
  }

  /** A field as a model with `populate_by_name` reads it: under its alias
      when that key is present, otherwise under its field name. */
  function FieldOf(r: Record, alias: string, name: string): (v: Option<Value>)
    ensures alias in r ==> v == Some(r[alias])
    ensures alias !in r && name in r ==> v == Some(r[name])
    ensures alias !in r && name !in r ==> v.None?
  {
    if alias in r then Some(r[alias]) else if name in r then Some(r[name]) else None
  }

  /** A required `str` field: present and a string. */
  function RequiredText(f: Option<Value>): Option<string> {
    if f.Some? && f.value.Str? then Some(f.value.s) else None
  }

  /** A `str` field with a default: the default when absent, else a string. */
  function TextOr(f: Option<Value>, default: string): Option<string> {
    if f.None? then Some(default) else RequiredText(f)
  }

  /** An `Optional[str]` field defaulting to `None`. */
  function OptionalText(f: Option<Value>): Option<Option<string>> {
    if f.None? then Some(None) else DecodeOptStr(f.value)
  }

  /** Every key the `Bid` fields are read from, by alias or by name. */
  const BidFieldKeys: set<string> :=
    {"campaignId", "campaign_id", "bidderType", "bidder_type", "bidderId", "bidder_id",
     "bidderName", "bidder_name", "bidAmount", "bid_amount", "quantity", "qualityGrade",
     "quality_grade", "deliveryTerms", "delivery_terms", "notes", "status"}

  /** The values the `Bid` fields are read from, each by alias or by name. */
  datatype RawBid = RawBid(
    campaignId: Option<Value>, bidderType: Option<Value>, bidderId: Option<Value>,
    bidderName: Option<Value>, bidAmount: Option<Value>, quantity: Option<Value>,
    qualityGrade: Option<Value>, deliveryTerms: Option<Value>, notes: Option<Value>,
    status: Option<Value>)

  function RawBidOf(r: Record): RawBid {
    RawBid(FieldOf(r, "campaignId", "campaign_id"), FieldOf(r, "bidderType", "bidder_type"),
           FieldOf(r, "bidderId", "bidder_id"), FieldOf(r, "bidderName", "bidder_name"),
           FieldOf(r, "bidAmount", "bid_amount"), FieldOf(r, "quantity", "quantity"),
           FieldOf(r, "qualityGrade", "quality_grade"), FieldOf(r, "deliveryTerms", "delivery_terms"),
           FieldOf(r, "notes", "notes"), FieldOf(r, "status", "status"))
  }

  /** The field checks of `Bid`: the required fields must be strings (the
      role and the status one of their literals) and the optional ones
      default when absent. */
  function DecodeRawBid(raw: RawBid): (b: Option<BidCreate>)
    ensures b.Some? ==> raw.status == Some(Str(BidStatusName(b.value.status)))
    ensures b.Some? ==> raw.campaignId == Some(Str(b.value.campaignId))
    ensures b.Some? ==> raw.bidAmount == Some(Str(b.value.bidAmount))
  {
    var campaignId := RequiredText(raw.campaignId);
    var bidderType := RequiredText(raw.bidderType);
    var bidderId := OptionalText(raw.bidderId);
    var bidderName := RequiredText(raw.bidderName);
    var bidAmount := RequiredText(raw.bidAmount);
    var quantity := RequiredText(raw.quantity);
    var qualityGrade := TextOr(raw.qualityGrade, "Grade A");
    var deliveryTerms := OptionalText(raw.deliveryTerms);
    var notes := OptionalText(raw.notes);
    var status := RequiredText(raw.status);
    if && campaignId.Some? && bidderType.Some? && ParseUserType(bidderType.value).Some?
       && bidderId.Some? && bidderName.Some? && bidAmount.Some? && quantity.Some?
       && qualityGrade.Some? && deliveryTerms.Some? && notes.Some?
       && status.Some? && ParseBidStatus(status.value).Some?
    then
      var st := ParseBidStatus(status.value).value;
      assert status.value == BidStatusName(st);
      Some(BidCreate(campaignId.value, ParseUserType(bidderType.value).value, bidderId.value,
                     bidderName.value, bidAmount.value, quantity.value, qualityGrade.value,
                     deliveryTerms.value, notes.value, st))
    else None
  }

  /** Validation of a document against the `Bid` model (schemas.py): each
      field is read by alias or by name, then checked; other keys are
      ignored. */
  function DecodeBid(r: Record): (b: Option<BidCreate>)
    ensures b.Some? ==> FieldOf(r, "status", "status") == Some(Str(BidStatusName(b.value.status)))
    ensures b.Some? ==> FieldOf(r, "campaignId", "campaign_id") == Some(Str(b.value.campaignId))
    ensures b.Some? ==> FieldOf(r, "bidAmount", "bid_amount") == Some(Str(b.value.bidAmount))
  {
    DecodeRawBid(RawBidOf(r))
  }

  lemma UserTypeNameParses(t: UserType)
    ensures ParseUserType(UserTypeName(t)) == Some(t)
  {
    match t { case Farmer => case Buyer => }
  }

  lemma BidStatusNameParses(s: BidStatus)
    ensures ParseBidStatus(BidStatusName(s)) == Some(s)
  {
    match s { case Pending => case Accepted => case Rejected => case CounterOffered => }
  }

  /** The raw fields of a bid body as its dump holds them. */
  function RawOf(b: BidCreate): RawBid {
    RawBid(Some(Str(b.campaignId)), Some(Str(UserTypeName(b.bidderType))), Some(OptStr(b.bidderId)),
           Some(Str(b.bidderName)), Some(Str(b.bidAmount)), Some(Str(b.quantity)),
           Some(Str(b.qualityGrade)), Some(OptStr(b.deliveryTerms)), Some(OptStr(b.notes)),
           Some(Str(BidStatusName(b.status))))
  }

  lemma RawOfDecodes(b: BidCreate)
    ensures DecodeRawBid(RawOf(b)) == Some(b)
  {
    UserTypeNameParses(b.bidderType);
    BidStatusNameParses(b.status);
    assert OptionalText(Some(OptStr(b.bidderId))) == Some(b.bidderId);
    assert OptionalText(Some(OptStr(b.deliveryTerms))) == Some(b.deliveryTerms);
    assert OptionalText(Some(OptStr(b.notes))) == Some(b.notes);
  }

  lemma BidRecordRaw(b: BidCreate, extra: Record)
    requires extra.Keys !! BidRecord(b).Keys
    ensures RawBidOf(BidRecord(b) + extra) == RawOf(b)
  {
  }

  /** Dumping a bid body and validating the dump gives the body back, also
      when other keys (timestamps, the id) were added to the dump. */
  lemma BidRecordRoundTrip(b: BidCreate, extra: Record)
    requires extra.Keys !! BidRecord(b).Keys
    ensures DecodeBid(BidRecord(b) + extra) == Some(b)
  {
    BidRecordRaw(b, extra);
    RawOfDecodes(b);
  }

  /** A document with only the required fields validates with the defaults:
      no bidder id, quality "Grade A", no delivery terms and no notes. */
  lemma DecodeBidDefaults(campaignId: string, bidderType: UserType, bidderName: string,
                          bidAmount: string, quantity: string, status: BidStatus)
    ensures DecodeBid(map["campaignId" := Str(campaignId), "bidderType" := Str(UserTypeName(bidderType)),
                          "bidderName" := Str(bidderName), "bidAmount" := Str(bidAmount),
                          "quantity" := Str(quantity), "status" := Str(BidStatusName(status))])
         == Some(BidCreate(campaignId, bidderType, None, bidderName, bidAmount, quantity, "Grade A",
                           None, None, status))
  {
    var r := map["campaignId" := Str(campaignId), "bidderType" := Str(UserTypeName(bidderType)),
                  "bidderName" := Str(bidderName), "bidAmount" := Str(bidAmount),
                  "quantity" := Str(quantity), "status" := Str(BidStatusName(status))];
    UserTypeNameParses(bidderType);
    BidStatusNameParses(status);
    assert RawBidOf(r) == RawBid(Some(Str(campaignId)), Some(Str(UserTypeName(bidderType))), None,
                                 Some(Str(bidderName)), Some(Str(bidAmount)), Some(Str(quantity)),
                                 None, None, None, Some(Str(BidStatusName(status))));
  }

  /** A bid body keyed by field names instead of aliases. */
  function BidRecordByName(b: BidCreate): (r: Record)
    ensures r.Keys !! {"campaignId", "bidderType", "bidderId", "bidderName", "bidAmount", "qualityGrade", "deliveryTerms"}
  {
    map["campaign_id" := Str(b.campaignId), "bidder_type" := Str(UserTypeName(b.bidderType)),
        "bidder_id" := OptStr(b.bidderId), "bidder_name" := Str(b.bidderName),
        "bid_amount" := Str(b.bidAmount), "quantity" := Str(b.quantity),
        "quality_grade" := Str(b.qualityGrade), "delivery_terms" := OptStr(b.deliveryTerms),
        "notes" := OptStr(b.notes), "status" := Str(BidStatusName(b.status))]
  }

  /** With `populate_by_name`, a body keyed by field names validates just as
      its aliased dump does. */
  lemma DecodeBidByName(b: BidCreate)
    ensures DecodeBid(BidRecordByName(b)) == Some(b)
  {
    assert RawBidOf(BidRecordByName(b)) == RawOf(b);
    RawOfDecodes(b);
  }

  /** Validation reads nothing but the `Bid` field keys. */
  lemma DecodeBidFrame(r1: Record, r2: Record)
    requires forall k :: k in BidFieldKeys ==> (k in r1 <==> k in r2) && (k in r1 ==> r1[k] == r2[k])
    ensures DecodeBid(r1) == DecodeBid(r2)
  {
    assert RawBidOf(r1) == RawBidOf(r2);
  }

  /** Keys outside the `Bid` fields do not affect validation. */
  lemma DecodeBidIgnoresExtra(r: Record, extra: Record)
    requires extra.Keys !! BidFieldKeys
    ensures DecodeBid(r + extra) == DecodeBid(r)
  {
    assert RawBidOf(r + extra) == RawBidOf(r);
  }

  /** Setting a key outside the `Bid` fields does not affect validation. */
  lemma DecodeBidOutsideField(r: Record, k: string, v: Value)
    requires k !in BidFieldKeys
    ensures DecodeBid(r[k := v]) == DecodeBid(r)
  {
    assert RawBidOf(r[k := v]) == RawBidOf(r);
  }

  /** A valid bid stays valid when its status is set to another literal. */
  lemma DecodeBidSetStatus(r: Record, s: BidStatus)
    requires DecodeBid(r).Some?
    ensures DecodeBid(r["status" := Str(BidStatusName(s))]).Some?
  {
    BidStatusNameParses(s);
    var r2 := r["status" := Str(BidStatusName(s))];
    assert FieldOf(r2, "status", "status") == Some(Str(BidStatusName(s)));
    forall k | k in BidFieldKeys && k != "status" ensures (k in r <==> k in r2) && (k in r ==> r[k] == r2[k]) {
    }
  }

  /** The keys of a `Bid` as a response serialises it: the fields by alias,
      the id and the two timestamps. */
  const BidAnswerKeys: set<string> :=
    {"campaignId", "bidderType", "bidderId", "bidderName", "bidAmount", "quantity", "qualityGrade",
     "deliveryTerms", "notes", "status", "id", "createdAt", "updatedAt"}

  /** A field read by alias or by name, with a default when neither key is present. */
  function FieldOr(r: Record, alias: string, name: string, default: Value): Value {
    var f := FieldOf(r, alias, name);
    if f.Some? then f.value else default
  }

  /** The `Bid` a response carries for a document `r` that validated as `b`.
      The model keeps its own fields only: those of `b` by alias, and the id
      and the timestamps read from `r`. An absent id is `None`, and an absent
      timestamp is the current time. */
  function BidAnswer(b: BidCreate, r: Record, now: string): (a: Record)
    ensures a.Keys == BidAnswerKeys
    ensures DecodeBid(a) == Some(b)
  {
    var extra := map["id" := FieldOr(r, "id", "id", Null),
                     "createdAt" := FieldOr(r, "createdAt", "created_at", Str(now)),
                     "updatedAt" := FieldOr(r, "updatedAt", "updated_at", Str(now))];
    BidRecordRoundTrip(b, extra);
    BidRecord(b) + extra
  }

  /** A dump with only the id and the timestamps added is answered as it is. */
  lemma BidAnswerOfDump(b: BidCreate, id: Value, created: Value, updated: Value, now: string)
    ensures var r := BidRecord(b) + map["id" := id, "createdAt" := created, "updatedAt" := updated];
      BidAnswer(b, r, now) == r
  {
    var extra := map["id" := id, "createdAt" := created, "updatedAt" := updated];
    var r := BidRecord(b) + extra;
    assert FieldOr(r, "id", "id", Null) == id;
    assert FieldOr(r, "createdAt", "created_at", Str(now)) == created;
    assert FieldOr(r, "updatedAt", "updated_at", Str(now)) == updated;
  }

  /** An answered bid has the validated status and the document's id. */
  lemma BidAnswerFields(b: BidCreate, r: Record, now: string)
    ensures BidAnswer(b, r, now)["status"] == Str(BidStatusName(b.status))
    ensures "id" in r ==> BidAnswer(b, r, now)["id"] == r["id"]
  {
  }

  /** An order request body (`OrderCreate`) after defaults are applied. */
  datatype OrderCreate = OrderCreate(
    product: string, quantity: string, supplier: string, orderDate: string,
    deliveryDate: string, amount: string, status: OrderStatus)

  /** An order body with an omitted status defaulted to "pending". */
  function NewOrderCreate(product: string, quantity: string, supplier: string, orderDate: string,
                          deliveryDate: string, amount: string, status: Option<OrderStatus>): OrderCreate
  {
    OrderCreate(product, quantity, supplier, orderDate, deliveryDate, amount, status.GetOr(OrderPending))
  }

  lemma OrderCreateDefault(product: string, quantity: string, supplier: string, orderDate: string,
                           deliveryDate: string, amount: string)
    ensures NewOrderCreate(product, quantity, supplier, orderDate, deliveryDate, amount, None).status == OrderPending
  {
  }

  /** The stored form of an order body. */
  function OrderRecord(o: OrderCreate): (r: Record)
    ensures r.Keys == {"product", "quantity", "supplier", "orderDate", "deliveryDate", "amount", "status"}
    ensures r["status"] == Str(OrderStatusName(o.status))
  {
    map["product" := Str(o.product), "quantity" := Str(o.quantity), "supplier" := Str(o.supplier),
        "orderDate" := Str(o.orderDate), "deliveryDate" := Str(o.deliveryDate),
        "amount" := Str(o.amount), "status" := Str(OrderStatusName(o.status))]
  }
}
