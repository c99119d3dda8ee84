/** Fundraisers run by an individual: one partition per organiser,
    "Individual" + emailId, sorted by "Fundraiser" + fundraiserId. */
module FundraisersIndividual {
  import opened Outcomes
  import opened Storage
  import opened Keys

  /** `individualEmailId` and `individualFundraiserId` carry the json tags "pk" and "sk". */
  datatype FundraiserIndividual = FundraiserIndividual(
    individualEmailId: string,
    individualFundraiserId: string,
    individualFirstname: string,
    individualLastname: string,
    individualPhoneNo: string,
    individualFundraiserTitle: string,
    individualFundraiserCause: string,
    individualFundraiserLocation: string,
    individualFundraiserDescription: string,
    individualFundraiserPhoto: string,
    individualFundraiserTargetAmount: string)

  const Zero: FundraiserIndividual := FundraiserIndividual("", "", "", "", "", "", "", "", "", "", "")

  function ToItem(u: FundraiserIndividual): (item: Item)
    ensures FromItem(item) == u
    ensures KeyOf(item) == Key(u.individualEmailId, u.individualFundraiserId)
  {
    map["pk" := u.individualEmailId, "sk" := u.individualFundraiserId,
        "firstname" := u.individualFirstname, "lastname" := u.individualLastname,
        "phoneNo" := u.individualPhoneNo, "fundraiserTitle" := u.individualFundraiserTitle,
        "fundraiserCause" := u.individualFundraiserCause,
        "fundraiserLocation" := u.individualFundraiserLocation,
        "fundraiserDescription" := u.individualFundraiserDescription,
        "fundraiserPhoto" := u.individualFundraiserPhoto,
        "fundraiserTargetAmount" := u.individualFundraiserTargetAmount]
  }

  function FromItem(item: Item): FundraiserIndividual
  {
    FundraiserIndividual(
      Attr(item, "pk"), Attr(item, "sk"), Attr(item, "firstname"), Attr(item, "lastname"),
      Attr(item, "phoneNo"), Attr(item, "fundraiserTitle"), Attr(item, "fundraiserCause"),
      Attr(item, "fundraiserLocation"), Attr(item, "fundraiserDescription"),
      Attr(item, "fundraiserPhoto"), Attr(item, "fundraiserTargetAmount"))
  }

  /** The key rewriting of Create and Update: both key fields tagged, nothing else changed. */
  function Tag(u: FundraiserIndividual): (v: FundraiserIndividual)
    ensures KeyOf(ToItem(v)) == FundraiserIndividualKey(u.individualEmailId, u.individualFundraiserId)
    ensures v.(individualEmailId := u.individualEmailId, individualFundraiserId := u.individualFundraiserId) == u
  {
    u.(individualEmailId := Tagged(IndividualTag, u.individualEmailId),
       individualFundraiserId := Tagged(FundraiserTag, u.individualFundraiserId))
  }

  /** FetchFundraiserIndividual: a point lookup of ("Individual" + emailId, "Fundraiser" + fundraiserId). */
  function FetchFundraiserIndividual(items: map<Key, Item>, emailId: string, fundraiserId: string,
                                     getFails: bool, unmarshalFails: bool): (r: Result<FundraiserIndividual>)
    ensures getFails ==> r == Err(FailedToFetchRecord)
    ensures !getFails && unmarshalFails ==> r == Err(FailedToUnmarshalRecord)
    ensures !getFails && !unmarshalFails && FundraiserIndividualKey(emailId, fundraiserId) in items ==>
      r == Ok(FromItem(items[FundraiserIndividualKey(emailId, fundraiserId)]))
    ensures !getFails && !unmarshalFails && FundraiserIndividualKey(emailId, fundraiserId) !in items ==> r == Ok(Zero)
  {
    match GetItem(items, FundraiserIndividualKey(emailId, fundraiserId), getFails)
    case Err(e) => Err(e)
    case Ok(item) => if unmarshalFails then Err(FailedToUnmarshalRecord) else Ok(FromItem(item))
  }

  /** FetchFundraisersIndividual: the records of partition "Individual" + emailId
      whose sort key begins with "Fundraiser", keyed by storage key. */
  function FetchFundraisersIndividual(items: map<Key, Item>, emailId: string, queryFails: bool, unmarshalFails: bool)
    : (r: Result<map<Key, FundraiserIndividual>>)
    ensures queryFails ==> r == Err(FailedToFetchRecord)
    ensures !queryFails && unmarshalFails ==> r == Err(FailedToUnmarshalRecord)
    ensures !queryFails && !unmarshalFails ==> r.Ok?
    ensures r.Ok? ==> forall k :: k in r.value <==>
      k in items && k.pk == Tagged(IndividualTag, emailId) && FundraiserTag <= k.sk
    ensures r.Ok? ==> forall k :: k in r.value ==> r.value[k] == FromItem(items[k])
  {
    if queryFails then Err(FailedToFetchRecord)
    else
      var found := Query(items, Tagged(IndividualTag, emailId), FundraiserTag);
      if unmarshalFails then Err(FailedToUnmarshalRecord)
      else Ok(map k | k in found :: FromItem(found[k]))
  }

  /** A listing never returns the fundraisers of another email address, nor
      those an NGO runs under the same fundraiser id. */
  lemma ListingScoped(items: map<Key, Item>, emailId: string, otherEmailId: string, fundraiserId: string, ngoId: string)
    requires otherEmailId != emailId
    ensures var listed := FetchFundraisersIndividual(items, emailId, false, false).value;
      && FundraiserIndividualKey(otherEmailId, fundraiserId) !in listed
      && FundraiserNgoKey(ngoId, fundraiserId) !in listed
  {
    TaggedInjective(IndividualTag, emailId, otherEmailId);
    PartitionsDisjoint(ngoId, emailId, "");
  }

  /** The marshal-and-put tail shared by Create and Update. */
  method Save(t: Table, u: FundraiserIndividual, marshalFails: bool, putFails: bool) returns (r: Result<FundraiserIndividual>)
    requires t.Valid()
    modifies t
    ensures t.Valid()
    ensures marshalFails ==> r == Err(CouldNotMarshalItem)
    ensures !marshalFails && putFails ==> r == Err(CouldNotDynamoPutItem)
    ensures !marshalFails && !putFails ==> r == Ok(u)
    ensures t.items == if r.Ok? then old(t.items)[KeyOf(ToItem(u)) := ToItem(u)] else old(t.items)
  {
    if marshalFails {
      return Err(CouldNotMarshalItem);
    }
    var av := ToItem(u);
    var ok := t.PutItem(av, putFails);
    if !ok {
      return Err(CouldNotDynamoPutItem);
    }
    return Ok(u);
  }

  /** CreateFundraiserIndividual: decode, tag both key fields, upsert, return the tagged record. */
  method CreateFundraiserIndividual(t: Table, body: Option<FundraiserIndividual>, marshalFails: bool, putFails: bool)
    returns (r: Result<FundraiserIndividual>)
    requires t.Valid()
    modifies t
    ensures t.Valid()
    ensures body.None? ==> r == Err(InvalidUserData)
    ensures body.Some? && marshalFails ==> r == Err(CouldNotMarshalItem)
    ensures body.Some? && !marshalFails && putFails ==> r == Err(CouldNotDynamoPutItem)
    ensures body.Some? && !marshalFails && !putFails ==> r == Ok(Tag(body.value))
    ensures t.items == if r.Ok? then
        old(t.items)[FundraiserIndividualKey(body.value.individualEmailId, body.value.individualFundraiserId)
                     := ToItem(Tag(body.value))]
      else old(t.items)
  {
    if body.None? {
      return Err(InvalidUserData);
    }
    var u := body.value;
    u := u.(individualEmailId := Tagged(IndividualTag, u.individualEmailId));
    u := u.(individualFundraiserId := Tagged(FundraiserTag, u.individualFundraiserId));
    r := Save(t, u, marshalFails, putFails);
  }

  /** The existence test: a fetched record with an empty fundraiser id. */
  predicate Missing(current: Result<FundraiserIndividual>)
  {
    current.Ok? && |current.value.individualFundraiserId| == 0
  }

  lemma MissingIffAbsent(items: map<Key, Item>, emailId: string, fundraiserId: string, getFails: bool, unmarshalFails: bool)
    requires WellKeyed(items)
    ensures Missing(FetchFundraiserIndividual(items, emailId, fundraiserId, getFails, unmarshalFails))
            <==> !getFails && !unmarshalFails && FundraiserIndividualKey(emailId, fundraiserId) !in items
  {
    var k := FundraiserIndividualKey(emailId, fundraiserId);
    if k in items {
      assert KeyOf(items[k]) == k;
      assert |Attr(items[k], "sk")| >= |FundraiserTag|;
    }
  }

  /** UpdateFundraiserIndividual: decode, check existence (ignoring a failed
      fetch), then tag and write at the key Create uses. */
  method UpdateFundraiserIndividual(t: Table, body: Option<FundraiserIndividual>, getFails: bool, unmarshalFails: bool,
                                    marshalFails: bool, putFails: bool) returns (r: Result<FundraiserIndividual>)
    requires t.Valid()
    modifies t
    ensures t.Valid()
    ensures body.None? ==> r == Err(InvalidUserData)
    ensures body.Some? ==>
      (r == Err(UserDoesNotExist) <==>
        !getFails && !unmarshalFails &&
        FundraiserIndividualKey(body.value.individualEmailId, body.value.individualFundraiserId) !in old(t.items))
    ensures body.Some? && r != Err(UserDoesNotExist) ==>
      && (marshalFails ==> r == Err(CouldNotMarshalItem))
      && (!marshalFails && putFails ==> r == Err(CouldNotDynamoPutItem))
      && (!marshalFails && !putFails ==> r == Ok(Tag(body.value)))
    ensures t.items == if r.Ok? then
        old(t.items)[FundraiserIndividualKey(body.value.individualEmailId, body.value.individualFundraiserId)
                     := ToItem(Tag(body.value))]
      else old(t.items)
  {
    if body.None? {
      return Err(InvalidUserData);
    }
    var u := body.value;
    var current := FetchFundraiserIndividual(t.items, u.individualEmailId, u.individualFundraiserId,
                                             getFails, unmarshalFails);
    MissingIffAbsent(t.items, u.individualEmailId, u.individualFundraiserId, getFails, unmarshalFails);
    if Missing(current) {
      return Err(UserDoesNotExist);
    }
    u := u.(individualEmailId := Tagged(IndividualTag, u.individualEmailId));
    u := u.(individualFundraiserId := Tagged(FundraiserTag, u.individualFundraiserId));
    r := Save(t, u, marshalFails, putFails);
  }

  /** DeleteFundraiserIndividual: removes the tagged key built from the
      `emailId` and `fundraiserId` query parameters, without checking that it exists. */
  method DeleteFundraiserIndividual(t: Table, query: map<string, string>, deleteFails: bool) returns (err: Option<Error>)
    requires t.Valid()
    modifies t
    ensures t.Valid()
    ensures err == if deleteFails then Some(CouldNotDeleteItem) else None
    ensures t.items == if deleteFails then old(t.items)
      else old(t.items) - {FundraiserIndividualKey(Param(query, "emailId"), Param(query, "fundraiserId"))}
  {
    var emailId := Param(query, "emailId");
    var fundraiserId := Param(query, "fundraiserId");
    var ok := t.DeleteItem(FundraiserIndividualKey(emailId, fundraiserId), deleteFails);
    if !ok {
      return Some(CouldNotDeleteItem);
    }
    return None;
  }

  /** Create then Fetch with the raw ids returns the stored, tagged record. */
  lemma CreateThenFetch(items: map<Key, Item>, u: FundraiserIndividual)
    ensures FetchFundraiserIndividual(
              items[FundraiserIndividualKey(u.individualEmailId, u.individualFundraiserId) := ToItem(Tag(u))],
              u.individualEmailId, u.individualFundraiserId, false, false) == Ok(Tag(u))
  {
  }
}
