/** Updates posted on a fundraiser: one partition per fundraiser,
    "Fundraiser" + fundraiserId, sorted by "Update" + updateId. */
module Updates {
  import opened Outcomes
  import opened Storage
  import opened Keys

  /** `fundraiserId` and `updateId` carry the json tags "pk" and "sk". */
  datatype Update = Update(
    fundraiserId: string,
    updateId: string,
    updateTitle: string,
    updateDescription: string,
    updatePhoto: string)

  const Zero: Update := Update("", "", "", "", "")

  function ToItem(u: Update): (item: Item)
    ensures FromItem(item) == u
    ensures KeyOf(item) == Key(u.fundraiserId, u.updateId)
  {
    map["pk" := u.fundraiserId, "sk" := u.updateId, "updateTitle" := u.updateTitle,
        "updateDescription" := u.updateDescription, "updatePhoto" := u.updatePhoto]
  }

  function FromItem(item: Item): Update
  {
    Update(Attr(item, "pk"), Attr(item, "sk"), Attr(item, "updateTitle"),
           Attr(item, "updateDescription"), Attr(item, "updatePhoto"))
  }

  /** The key rewriting of Create and Update: both key fields tagged, nothing else changed. */
  function Tag(u: Update): (v: Update)
    ensures KeyOf(ToItem(v)) == UpdateKey(u.fundraiserId, u.updateId)
    ensures v.(fundraiserId := u.fundraiserId, updateId := u.updateId) == u
  {
    u.(fundraiserId := Tagged(FundraiserTag, u.fundraiserId), updateId := Tagged(UpdateTag, u.updateId))
  }

  /** FetchUpdate: a point lookup of ("Fundraiser" + fundraiserId, "Update" + updateId). */
  function FetchUpdate(items: map<Key, Item>, fundraiserId: string, updateId: string,
                       getFails: bool, unmarshalFails: bool): (r: Result<Update>)
    ensures getFails ==> r == Err(FailedToFetchRecord)
    ensures !getFails && unmarshalFails ==> r == Err(FailedToUnmarshalRecord)
    ensures !getFails && !unmarshalFails && UpdateKey(fundraiserId, updateId) in items ==>
      r == Ok(FromItem(items[UpdateKey(fundraiserId, updateId)]))
    ensures !getFails && !unmarshalFails && UpdateKey(fundraiserId, updateId) !in items ==> r == Ok(Zero)
  {
    match GetItem(items, UpdateKey(fundraiserId, updateId), getFails)
    case Err(e) => Err(e)
    case Ok(item) => if unmarshalFails then Err(FailedToUnmarshalRecord) else Ok(FromItem(item))
  }

  /** FetchUpdates: the records of partition "Fundraiser" + fundraiserId whose
      sort key begins with "Update", keyed by storage key. */
  function FetchUpdates(items: map<Key, Item>, fundraiserId: string, queryFails: bool, unmarshalFails: bool)
    : (r: Result<map<Key, Update>>)
    ensures queryFails ==> r == Err(FailedToFetchRecord)
    ensures !queryFails && unmarshalFails ==> r == Err(FailedToUnmarshalRecord)
    ensures !queryFails && !unmarshalFails ==> r.Ok?
    ensures r.Ok? ==> forall k :: k in r.value <==>
      k in items && k.pk == Tagged(FundraiserTag, fundraiserId) && UpdateTag <= k.sk
    ensures r.Ok? ==> forall k :: k in r.value ==> r.value[k] == FromItem(items[k])
  {
    if queryFails then Err(FailedToFetchRecord)
    else
      var found := Query(items, Tagged(FundraiserTag, fundraiserId), UpdateTag);
      if unmarshalFails then Err(FailedToUnmarshalRecord)
      else Ok(map k | k in found :: FromItem(found[k]))
  }

  /** A listing holds only the updates of its own fundraiser: never another
      fundraiser's updates, nor any NGO, NGO fundraiser or individual fundraiser. */
  lemma ListingScoped(items: map<Key, Item>, fundraiserId: string, otherFundraiserId: string, updateId: string,
                      ngoId: string, emailId: string, anyFundraiserId: string)
    requires otherFundraiserId != fundraiserId
    ensures var listed := FetchUpdates(items, fundraiserId, false, false).value;
      && UpdateKey(otherFundraiserId, updateId) !in listed
      && NgoKey(ngoId) !in listed
      && FundraiserNgoKey(ngoId, anyFundraiserId) !in listed
      && FundraiserIndividualKey(emailId, anyFundraiserId) !in listed
  {
    TaggedInjective(FundraiserTag, fundraiserId, otherFundraiserId);
    PartitionsDisjoint(ngoId, emailId, fundraiserId);
  }

  /** The marshal-and-put tail shared by Create and Update. */
  method Save(t: Table, u: Update, marshalFails: bool, putFails: bool) returns (r: Result<Update>)
    requires t.Valid()
    modifies t
    ensures t.Valid()
    ensures marshalFails ==> r == Err(CouldNotMarshalItem)
    ensures !marshalFails && putFails ==> r == Err(CouldNotDynamoPutItem)
    ensures !marshalFails && !putFails ==> r == Ok(u)
    ensures t.items == if r.Ok? then old(t.items)[KeyOf(ToItem(u)) := ToItem(u)] else old(t.items)
  {
    if marshalFails {
      return Err(CouldNotMarshalItem);
    }
    var av := ToItem(u);
    var ok := t.PutItem(av, putFails);
    if !ok {
      return Err(CouldNotDynamoPutItem);
    }
    return Ok(u);
  }

  /** CreateUpdate: decode, tag both key fields, upsert, return the tagged record. */
  method CreateUpdate(t: Table, body: Option<Update>, marshalFails: bool, putFails: bool) returns (r: Result<Update>)
    requires t.Valid()
    modifies t
    ensures t.Valid()
    ensures body.None? ==> r == Err(InvalidUserData)
    ensures body.Some? && marshalFails ==> r == Err(CouldNotMarshalItem)
    ensures body.Some? && !marshalFails && putFails ==> r == Err(CouldNotDynamoPutItem)
    ensures body.Some? && !marshalFails && !putFails ==> r == Ok(Tag(body.value))
    ensures t.items == if r.Ok? then
        old(t.items)[UpdateKey(body.value.fundraiserId, body.value.updateId) := ToItem(Tag(body.value))]
      else old(t.items)
  {
    if body.None? {
      return Err(InvalidUserData);
    }
    var u := body.value;
    u := u.(fundraiserId := Tagged(FundraiserTag, u.fundraiserId));
    u := u.(updateId := Tagged(UpdateTag, u.updateId));
    r := Save(t, u, marshalFails, putFails);
  }

  /** The existence test: a fetched record with an empty update id. */
  predicate Missing(current: Result<Update>)
  {
    current.Ok? && |current.value.updateId| == 0
  }

  lemma MissingIffAbsent(items: map<Key, Item>, fundraiserId: string, updateId: string, getFails: bool, unmarshalFails: bool)
    requires WellKeyed(items)
    ensures Missing(FetchUpdate(items, fundraiserId, updateId, getFails, unmarshalFails))
            <==> !getFails && !unmarshalFails && UpdateKey(fundraiserId, updateId) !in items
  {
    var k := UpdateKey(fundraiserId, updateId);
    if k in items {
      assert KeyOf(items[k]) == k;
      assert |Attr(items[k], "sk")| >= |UpdateTag|;
    }
  }

  /** UpdateUpdate: decode, check existence (ignoring a failed fetch), then
      tag and write at the key CreateUpdate uses. */
  method UpdateUpdate(t: Table, body: Option<Update>, getFails: bool, unmarshalFails: bool,
                      marshalFails: bool, putFails: bool) returns (r: Result<Update>)
    requires t.Valid()
    modifies t
    ensures t.Valid()
    ensures body.None? ==> r == Err(InvalidUserData)
    ensures body.Some? ==>
      (r == Err(UserDoesNotExist) <==>
        !getFails && !unmarshalFails && UpdateKey(body.value.fundraiserId, body.value.updateId) !in old(t.items))
    ensures body.Some? && r != Err(UserDoesNotExist) ==>
      && (marshalFails ==> r == Err(CouldNotMarshalItem))
      && (!marshalFails && putFails ==> r == Err(CouldNotDynamoPutItem))
      && (!marshalFails && !putFails ==> r == Ok(Tag(body.value)))
    ensures t.items == if r.Ok? then
        old(t.items)[UpdateKey(body.value.fundraiserId, body.value.updateId) := ToItem(Tag(body.value))]
      else old(t.items)
  {
    if body.None? {
      return Err(InvalidUserData);
    }
    var u := body.value;
    var current := FetchUpdate(t.items, u.fundraiserId, u.updateId, getFails, unmarshalFails);
    MissingIffAbsent(t.items, u.fundraiserId, u.updateId, getFails, unmarshalFails);
    if Missing(current) {
      return Err(UserDoesNotExist);
    }
    u := u.(fundraiserId := Tagged(FundraiserTag, u.fundraiserId));
    u := u.(updateId := Tagged(UpdateTag, u.updateId));
    r := Save(t, u, marshalFails, putFails);
  }

  /** DeleteUpdate: removes the tagged key built from the `fundraiserId` and
      `updateId` query parameters, without checking that it exists. */
  method DeleteUpdate(t: Table, query: map<string, string>, deleteFails: bool) returns (err: Option<Error>)
    requires t.Valid()
    modifies t
    ensures t.Valid()
    ensures err == if deleteFails then Some(CouldNotDeleteItem) else None
    ensures t.items == if deleteFails then old(t.items)
      else old(t.items) - {UpdateKey(Param(query, "fundraiserId"), Param(query, "updateId"))}
  {
    var fundraiserId := Param(query, "fundraiserId");
    var updateId := Param(query, "updateId");
    var ok := t.DeleteItem(UpdateKey(fundraiserId, updateId), deleteFails);
    if !ok {
      return Some(CouldNotDeleteItem);
    }
    return None;
  }

  /** Create then Fetch with the raw ids returns the stored, tagged record. */
  lemma CreateThenFetch(items: map<Key, Item>, u: Update)
    ensures FetchUpdate(items[UpdateKey(u.fundraiserId, u.updateId) := ToItem(Tag(u))],
                        u.fundraiserId, u.updateId, false, false) == Ok(Tag(u))
  {
  }
}
