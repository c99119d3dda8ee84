/** Fundraisers run by an NGO: one partition per NGO, "Ngo" + ngoId, sorted
    by "Fundraiser" + fundraiserId. */
module FundraisersNgo {
  import opened Outcomes
  import opened Storage
  import opened Keys

  /** `ngoId` and `fundraiserId` carry the json tags "pk" and "sk". */
  datatype FundraiserNgo = FundraiserNgo(
    ngoId: string,
    fundraiserId: string,
    fundraiserTitle: string,
    fundraiserCause: string,
    fundraiserLocation: string,
    fundraiserDescription: string,
    fundraiserPhoto: string,
    fundraiserTargetAmount: string)

  const Zero: FundraiserNgo := FundraiserNgo("", "", "", "", "", "", "", "")

  function ToItem(u: FundraiserNgo): (item: Item)
    ensures FromItem(item) == u
    ensures KeyOf(item) == Key(u.ngoId, u.fundraiserId)
  {
    map["pk" := u.ngoId, "sk" := u.fundraiserId, "fundraiserTitle" := u.fundraiserTitle,
        "fundraiserCause" := u.fundraiserCause, "fundraiserLocation" := u.fundraiserLocation,
        "fundraiserDescription" := u.fundraiserDescription, "fundraiserPhoto" := u.fundraiserPhoto,
        "fundraiserTargetAmount" := u.fundraiserTargetAmount]
  }

  function FromItem(item: Item): FundraiserNgo
  {
    FundraiserNgo(Attr(item, "pk"), Attr(item, "sk"), Attr(item, "fundraiserTitle"),
                  Attr(item, "fundraiserCause"), Attr(item, "fundraiserLocation"),
                  Attr(item, "fundraiserDescription"), Attr(item, "fundraiserPhoto"),
                  Attr(item, "fundraiserTargetAmount"))
  }

  /** CreateFundraiserNgo's key rewriting: both key fields tagged, nothing else changed. */
  function Tag(u: FundraiserNgo): (v: FundraiserNgo)
    ensures KeyOf(ToItem(v)) == FundraiserNgoKey(u.ngoId, u.fundraiserId)
    ensures v.(ngoId := u.ngoId, fundraiserId := u.fundraiserId) == u
  {
    u.(ngoId := Tagged(NgoTag, u.ngoId), fundraiserId := Tagged(FundraiserTag, u.fundraiserId))
  }

  /** FetchFundraiserNgo: a point lookup of ("Ngo" + ngoId, "Fundraiser" + fundraiserId). */
  function FetchFundraiserNgo(items: map<Key, Item>, ngoId: string, fundraiserId: string,
                              getFails: bool, unmarshalFails: bool): (r: Result<FundraiserNgo>)
    ensures getFails ==> r == Err(FailedToFetchRecord)
    ensures !getFails && unmarshalFails ==> r == Err(FailedToUnmarshalRecord)
    ensures !getFails && !unmarshalFails && FundraiserNgoKey(ngoId, fundraiserId) in items ==>
      r == Ok(FromItem(items[FundraiserNgoKey(ngoId, fundraiserId)]))
    ensures !getFails && !unmarshalFails && FundraiserNgoKey(ngoId, fundraiserId) !in items ==> r == Ok(Zero)
  {
    match GetItem(items, FundraiserNgoKey(ngoId, fundraiserId), getFails)
    case Err(e) => Err(e)
    case Ok(item) => if unmarshalFails then Err(FailedToUnmarshalRecord) else Ok(FromItem(item))
  }

  /** FetchFundraisersNgo: the records of partition "Ngo" + ngoId whose sort
      key begins with "Fundraiser", keyed by storage key. */
  function FetchFundraisersNgo(items: map<Key, Item>, ngoId: string, queryFails: bool, unmarshalFails: bool)
    : (r: Result<map<Key, FundraiserNgo>>)
    ensures queryFails ==> r == Err(FailedToFetchRecord)
    ensures !queryFails && unmarshalFails ==> r == Err(FailedToUnmarshalRecord)
    ensures !queryFails && !unmarshalFails ==> r.Ok?
    ensures r.Ok? ==> forall k :: k in r.value <==>
      k in items && k.pk == Tagged(NgoTag, ngoId) && FundraiserTag <= k.sk
    ensures r.Ok? ==> forall k :: k in r.value ==> r.value[k] == FromItem(items[k])
  {
    if queryFails then Err(FailedToFetchRecord)
    else
      var found := Query(items, Tagged(NgoTag, ngoId), FundraiserTag);
      if unmarshalFails then Err(FailedToUnmarshalRecord)
      else Ok(map k | k in found :: FromItem(found[k]))
  }

  /** A listing is scoped to its NGO: a fundraiser filed under another NGO
      is never included, and neither is any NGO detail record. */
  lemma ListingScoped(items: map<Key, Item>, ngoId: string, otherNgoId: string, fundraiserId: string, anyNgoId: string)
    requires otherNgoId != ngoId
    ensures var listed := FetchFundraisersNgo(items, ngoId, false, false).value;
      && FundraiserNgoKey(otherNgoId, fundraiserId) !in listed
      && NgoKey(anyNgoId) !in listed
  {
    TaggedInjective(NgoTag, ngoId, otherNgoId);
    PartitionsDisjoint(ngoId, "", "");
  }

  /** The marshal-and-put tail shared by Create and Update. */
  method Save(t: Table, u: FundraiserNgo, marshalFails: bool, putFails: bool) returns (r: Result<FundraiserNgo>)
    requires t.Valid()
    modifies t
    ensures t.Valid()
    ensures marshalFails ==> r == Err(CouldNotMarshalItem)
    ensures !marshalFails && putFails ==> r == Err(CouldNotDynamoPutItem)
    ensures !marshalFails && !putFails ==> r == Ok(u)
    ensures t.items == if r.Ok? then old(t.items)[KeyOf(ToItem(u)) := ToItem(u)] else old(t.items)
  {
    if marshalFails {
      return Err(CouldNotMarshalItem);
    }
    var av := ToItem(u);
    var ok := t.PutItem(av, putFails);
    if !ok {
      return Err(CouldNotDynamoPutItem);
    }
    return Ok(u);
  }

  /** CreateFundraiserNgo: decode, tag both key fields, upsert (overwriting
      any record at that key), return the tagged record. */
  method CreateFundraiserNgo(t: Table, body: Option<FundraiserNgo>, marshalFails: bool, putFails: bool)
    returns (r: Result<FundraiserNgo>)
    requires t.Valid()
    modifies t
    ensures t.Valid()
    ensures body.None? ==> r == Err(InvalidUserData)
    ensures body.Some? && marshalFails ==> r == Err(CouldNotMarshalItem)
    ensures body.Some? && !marshalFails && putFails ==> r == Err(CouldNotDynamoPutItem)
    ensures body.Some? && !marshalFails && !putFails ==> r == Ok(Tag(body.value))
    ensures t.items == if r.Ok? then
        old(t.items)[FundraiserNgoKey(body.value.ngoId, body.value.fundraiserId) := ToItem(Tag(body.value))]
      else old(t.items)
  {
    if body.None? {
      return Err(InvalidUserData);
    }
    var u := body.value;
    u := u.(ngoId := Tagged(NgoTag, u.ngoId));
    u := u.(fundraiserId := Tagged(FundraiserTag, u.fundraiserId));
    r := Save(t, u, marshalFails, putFails);
  }

  /** The existence test: a fetched record with an empty fundraiser id. */
  predicate Missing(current: Result<FundraiserNgo>)
  {
    current.Ok? && |current.value.fundraiserId| == 0
  }

  lemma MissingIffAbsent(items: map<Key, Item>, ngoId: string, fundraiserId: string, getFails: bool, unmarshalFails: bool)
    requires WellKeyed(items)
    ensures Missing(FetchFundraiserNgo(items, ngoId, fundraiserId, getFails, unmarshalFails))
            <==> !getFails && !unmarshalFails && FundraiserNgoKey(ngoId, fundraiserId) !in items
  {
    var k := FundraiserNgoKey(ngoId, fundraiserId);
    if k in items {
      assert KeyOf(items[k]) == k;
      assert |Attr(items[k], "sk")| >= |FundraiserTag|;
    }
  }

  /** UpdateFundraiserNgo: the existence check fetches the TAGGED key, but the
      body is then written with its key fields as the client sent them, so the
      write lands at the raw key (ngoId, fundraiserId). */
  method UpdateFundraiserNgo(t: Table, body: Option<FundraiserNgo>, getFails: bool, unmarshalFails: bool,
                             marshalFails: bool, putFails: bool) returns (r: Result<FundraiserNgo>)
    requires t.Valid()
    modifies t
    ensures t.Valid()
    ensures body.None? ==> r == Err(InvalidUserData)
    ensures body.Some? ==>
      (r == Err(UserDoesNotExist) <==>
        !getFails && !unmarshalFails && FundraiserNgoKey(body.value.ngoId, body.value.fundraiserId) !in old(t.items))
    ensures body.Some? && r != Err(UserDoesNotExist) ==>
      && (marshalFails ==> r == Err(CouldNotMarshalItem))
      && (!marshalFails && putFails ==> r == Err(CouldNotDynamoPutItem))
      && (!marshalFails && !putFails ==> r == Ok(body.value))
    ensures t.items == if r.Ok? then
        old(t.items)[Key(body.value.ngoId, body.value.fundraiserId) := ToItem(body.value)]
      else old(t.items)
  {
    if body.None? {
      return Err(InvalidUserData);
    }
    var u := body.value;
    var current := FetchFundraiserNgo(t.items, u.ngoId, u.fundraiserId, getFails, unmarshalFails);
    MissingIffAbsent(t.items, u.ngoId, u.fundraiserId, getFails, unmarshalFails);
    if Missing(current) {
      return Err(UserDoesNotExist);
    }
    r := Save(t, u, marshalFails, putFails);
  }

  /** The untagged write of UpdateFundraiserNgo never touches the record it
      checked: the tagged record reads back unchanged afterwards. */
  lemma UpdateLeavesTaggedRecord(items: map<Key, Item>, u: FundraiserNgo)
    ensures Key(u.ngoId, u.fundraiserId) != FundraiserNgoKey(u.ngoId, u.fundraiserId)
    ensures FetchFundraiserNgo(items[Key(u.ngoId, u.fundraiserId) := ToItem(u)], u.ngoId, u.fundraiserId, false, false)
            == FetchFundraiserNgo(items, u.ngoId, u.fundraiserId, false, false)
  {
    TaggedNeverRaw(NgoTag, u.ngoId);
  }

  /** DeleteFundraiserNgo: removes the tagged key built from the `ngoId` and
      `fundraiserId` query parameters, without checking that it exists. */
  method DeleteFundraiserNgo(t: Table, query: map<string, string>, deleteFails: bool) returns (err: Option<Error>)
    requires t.Valid()
    modifies t
    ensures t.Valid()
    ensures err == if deleteFails then Some(CouldNotDeleteItem) else None
    ensures t.items == if deleteFails then old(t.items)
      else old(t.items) - {FundraiserNgoKey(Param(query, "ngoId"), Param(query, "fundraiserId"))}
  {
    var ngoId := Param(query, "ngoId");
    var fundraiserId := Param(query, "fundraiserId");
    var ok := t.DeleteItem(FundraiserNgoKey(ngoId, fundraiserId), deleteFails);
    if !ok {
      return Some(CouldNotDeleteItem);
    }
    return None;
  }

  /** Create then Fetch with the raw ids returns the stored, tagged record. */
  lemma CreateThenFetch(items: map<Key, Item>, u: FundraiserNgo)
    ensures FetchFundraiserNgo(items[FundraiserNgoKey(u.ngoId, u.fundraiserId) := ToItem(Tag(u))],
                               u.ngoId, u.fundraiserId, false, false) == Ok(Tag(u))
  {
  }

  /** A created fundraiser is listed under its own NGO, as the tagged record. */
  lemma CreateThenList(items: map<Key, Item>, u: FundraiserNgo)
    ensures var listed := FetchFundraisersNgo(items[FundraiserNgoKey(u.ngoId, u.fundraiserId) := ToItem(Tag(u))],
                                              u.ngoId, false, false).value;
      FundraiserNgoKey(u.ngoId, u.fundraiserId) in listed && listed[FundraiserNgoKey(u.ngoId, u.fundraiserId)] == Tag(u)
  {
  }
}
