/** The legacy file fundraiser.go of the fundraiser package: it uses the
    caller's ids verbatim as partition and sort key, with no tags at all. */
module Fundraisers {
  import opened Outcomes
  import opened Storage

  /** `ngoID` and `fundraiserId` carry the json tags "pk" and "sk". */
  datatype Fundraiser = Fundraiser(
    ngoID: string,
    fundraiserId: string,
    fundraiserTitle: string,
    fundraiserCause: string,
    fundraiserLocation: string,
    fundraiserDescription: string,
    fundraiserPhoto: string,
    fundraiserTargetAmount: string)

  const Zero: Fundraiser := Fundraiser("", "", "", "", "", "", "", "")

  /** The fixed sort key FetchFundraisers reads. */
  const ListSortKey: string := "fundraiser"

  function ToItem(u: Fundraiser): (item: Item)
    ensures FromItem(item) == u
    ensures KeyOf(item) == Key(u.ngoID, u.fundraiserId)
  {
    map["pk" := u.ngoID, "sk" := u.fundraiserId, "fundraiserTitle" := u.fundraiserTitle,
        "fundraiserCause" := u.fundraiserCause, "fundraiserLocation" := u.fundraiserLocation,
        "fundraiserDescription" := u.fundraiserDescription, "fundraiserPhoto" := u.fundraiserPhoto,
        "fundraiserTargetAmount" := u.fundraiserTargetAmount]
  }

  function FromItem(item: Item): Fundraiser
  {
    Fundraiser(Attr(item, "pk"), Attr(item, "sk"), Attr(item, "fundraiserTitle"),
               Attr(item, "fundraiserCause"), Attr(item, "fundraiserLocation"),
               Attr(item, "fundraiserDescription"), Attr(item, "fundraiserPhoto"),
               Attr(item, "fundraiserTargetAmount"))
  }

  /** FetchFundraiser: a point lookup of (ngoId, fundraiserId) exactly as given. */
  function FetchFundraiser(items: map<Key, Item>, ngoId: string, fundraiserId: string,
                           getFails: bool, unmarshalFails: bool): (r: Result<Fundraiser>)
    ensures getFails ==> r == Err(FailedToFetchRecord)
    ensures !getFails && unmarshalFails ==> r == Err(FailedToUnmarshalRecord)
    ensures !getFails && !unmarshalFails && Key(ngoId, fundraiserId) in items ==>
      r == Ok(FromItem(items[Key(ngoId, fundraiserId)]))
    ensures !getFails && !unmarshalFails && Key(ngoId, fundraiserId) !in items ==> r == Ok(Zero)
  {
    match GetItem(items, Key(ngoId, fundraiserId), getFails)
    case Err(e) => Err(e)
    case Ok(item) => if unmarshalFails then Err(FailedToUnmarshalRecord) else Ok(FromItem(item))
  }

  /** FetchFundraisers: despite its name, a single point lookup of
      (ngoId, "fundraiser"); the result is the item read there (empty when
      absent), and decoding it is the `unmarshalFails` outcome. */
  function FetchFundraisers(items: map<Key, Item>, ngoId: string, getFails: bool, unmarshalFails: bool)
    : (r: Result<Item>)
    ensures getFails ==> r == Err(FailedToFetchRecord)
    ensures !getFails && unmarshalFails ==> r == Err(FailedToUnmarshalRecord)
    ensures !getFails && !unmarshalFails && Key(ngoId, ListSortKey) in items ==> r == Ok(items[Key(ngoId, ListSortKey)])
    ensures !getFails && !unmarshalFails && Key(ngoId, ListSortKey) !in items ==> r == Ok(map[])
  {
    match GetItem(items, Key(ngoId, ListSortKey), getFails)
    case Err(e) => Err(e)
    case Ok(item) => if unmarshalFails then Err(FailedToUnmarshalRecord) else Ok(item)
  }

  /** FetchFundraisers is not a prefix query: writing any other sort key of
      the partition, such as "fundraiser1", leaves its result unchanged. */
  lemma FetchFundraisersIsPointRead(items: map<Key, Item>, ngoId: string, sk: string, item: Item,
                                    getFails: bool, unmarshalFails: bool)
    requires sk != ListSortKey
    ensures FetchFundraisers(items[Key(ngoId, sk) := item], ngoId, getFails, unmarshalFails)
            == FetchFundraisers(items, ngoId, getFails, unmarshalFails)
  {
    assert Key(ngoId, sk) != Key(ngoId, ListSortKey);
  }

  /** The marshal-and-put tail shared by Create and Update: the body goes to
      the table exactly as decoded. */
  method Save(t: Table, u: Fundraiser, marshalFails: bool, putFails: bool) returns (r: Result<Fundraiser>)
    requires t.Valid()
    modifies t
    ensures t.Valid()
    ensures marshalFails ==> r == Err(CouldNotMarshalItem)
    ensures !marshalFails && putFails ==> r == Err(CouldNotDynamoPutItem)
    ensures !marshalFails && !putFails ==> r == Ok(u)
    ensures t.items == if r.Ok? then old(t.items)[Key(u.ngoID, u.fundraiserId) := ToItem(u)] else old(t.items)
  {
    if marshalFails {
      return Err(CouldNotMarshalItem);
    }
    var av := ToItem(u);
    var ok := t.PutItem(av, putFails);
    if !ok {
      return Err(CouldNotDynamoPutItem);
    }
    return Ok(u);
  }

  /** CreateFundraiser: decode, then upsert the body verbatim at its own raw key. */
  method CreateFundraiser(t: Table, body: Option<Fundraiser>, marshalFails: bool, putFails: bool)
    returns (r: Result<Fundraiser>)
    requires t.Valid()
    modifies t
    ensures t.Valid()
    ensures body.None? ==> r == Err(InvalidUserData)
    ensures body.Some? && marshalFails ==> r == Err(CouldNotMarshalItem)
    ensures body.Some? && !marshalFails && putFails ==> r == Err(CouldNotDynamoPutItem)
    ensures body.Some? && !marshalFails && !putFails ==> r == Ok(body.value)
    ensures t.items == if r.Ok? then
        old(t.items)[Key(body.value.ngoID, body.value.fundraiserId) := ToItem(body.value)]
      else old(t.items)
  {
    if body.None? {
      return Err(InvalidUserData);
    }
    r := Save(t, body.value, marshalFails, putFails);
  }

  /** The existence test: a fetched record with an empty fundraiser id. */
  predicate Missing(current: Result<Fundraiser>)
  {
    current.Ok? && |current.value.fundraiserId| == 0
  }

  /** With raw keys the test also fires for an empty fundraiser id. In the
      abstract table a record may sit under an empty sort key; DynamoDB stores
      no such item and refuses a point read with an empty key value, an
      outcome the model leaves to `getFails`. */
  lemma MissingIffAbsent(items: map<Key, Item>, ngoId: string, fundraiserId: string, getFails: bool, unmarshalFails: bool)
    requires WellKeyed(items)
    ensures Missing(FetchFundraiser(items, ngoId, fundraiserId, getFails, unmarshalFails))
            <==> !getFails && !unmarshalFails && (Key(ngoId, fundraiserId) !in items || fundraiserId == "")
  {
    var k := Key(ngoId, fundraiserId);
    if k in items {
      assert KeyOf(items[k]) == k;
    }
  }

  /** UpdateFundraiser: decode, check existence (ignoring a failed fetch),
      then upsert the body verbatim. */
  method UpdateFundraiser(t: Table, body: Option<Fundraiser>, getFails: bool, unmarshalFails: bool,
                          marshalFails: bool, putFails: bool) returns (r: Result<Fundraiser>)
    requires t.Valid()
    modifies t
    ensures t.Valid()
    ensures body.None? ==> r == Err(InvalidUserData)
    ensures body.Some? ==>
      (r == Err(UserDoesNotExist) <==>
        !getFails && !unmarshalFails &&
        (Key(body.value.ngoID, body.value.fundraiserId) !in old(t.items) || body.value.fundraiserId == ""))
    ensures body.Some? && r != Err(UserDoesNotExist) ==>
      && (marshalFails ==> r == Err(CouldNotMarshalItem))
      && (!marshalFails && putFails ==> r == Err(CouldNotDynamoPutItem))
      && (!marshalFails && !putFails ==> r == Ok(body.value))
    ensures t.items == if r.Ok? then
        old(t.items)[Key(body.value.ngoID, body.value.fundraiserId) := ToItem(body.value)]
      else old(t.items)
  {
    if body.None? {
      return Err(InvalidUserData);
    }
    var u := body.value;
    var current := FetchFundraiser(t.items, u.ngoID, u.fundraiserId, getFails, unmarshalFails);
    MissingIffAbsent(t.items, u.ngoID, u.fundraiserId, getFails, unmarshalFails);
    if Missing(current) {
      return Err(UserDoesNotExist);
    }
    r := Save(t, u, marshalFails, putFails);
  }

  /** DeleteFundraiser: removes the raw key (ngoId, fundraiserId) taken from
      the query parameters, without checking that it exists. */
  method DeleteFundraiser(t: Table, query: map<string, string>, deleteFails: bool) returns (err: Option<Error>)
    requires t.Valid()
    modifies t
    ensures t.Valid()
    ensures err == if deleteFails then Some(CouldNotDeleteItem) else None
    ensures t.items == if deleteFails then old(t.items)
      else old(t.items) - {Key(Param(query, "ngoId"), Param(query, "fundraiserId"))}
  {
    var ngoId := Param(query, "ngoId");
    var fundraiserId := Param(query, "fundraiserId");
    var ok := t.DeleteItem(Key(ngoId, fundraiserId), deleteFails);
    if !ok {
      return Some(CouldNotDeleteItem);
    }
    return None;
  }

  /** Create then Fetch with the same raw ids returns the body as written. */
  lemma CreateThenFetch(items: map<Key, Item>, u: Fundraiser)
    ensures FetchFundraiser(items[Key(u.ngoID, u.fundraiserId) := ToItem(u)], u.ngoID, u.fundraiserId, false, false)
            == Ok(u)
  {
  }
}
