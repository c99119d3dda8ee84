/** The NGO package: NGO records live in the shared partition "DetailsNGO",
    sorted by "Ngo" + ngoId. */
module Ngos {
  import opened Outcomes
  import opened Storage
  import opened Keys

  /** Field names follow the Go struct; `pk` and `ngoId` carry the json tags "pk" and "sk". */
  datatype Ngo = Ngo(
    pk: string,
    ngoId: string,
    ngoName: string,
    ngoAdress: string,
    ngoCountry: string,
    ngoDescription: string,
    ngoPhoto: string,
    ngoCategory: string)

  /** Go's zero value of the struct: what a lookup of a missing key decodes to. */
  const Zero: Ngo := Ngo("", "", "", "", "", "", "", "")

  /** MarshalMap: one string attribute per json tag. */
  function ToItem(u: Ngo): (item: Item)
    ensures FromItem(item) == u
    ensures KeyOf(item) == Key(u.pk, u.ngoId)
  {
    map["pk" := u.pk, "sk" := u.ngoId, "ngoName" := u.ngoName, "ngoAdress" := u.ngoAdress,
        "ngoCountry" := u.ngoCountry, "ngoDescription" := u.ngoDescription,
        "ngoPhoto" := u.ngoPhoto, "ngoCategory" := u.ngoCategory]
  }

  /** UnmarshalMap: missing attributes stay empty, unknown ones are ignored. */
  function FromItem(item: Item): Ngo
  {
    Ngo(Attr(item, "pk"), Attr(item, "sk"), Attr(item, "ngoName"), Attr(item, "ngoAdress"),
        Attr(item, "ngoCountry"), Attr(item, "ngoDescription"), Attr(item, "ngoPhoto"),
        Attr(item, "ngoCategory"))
  }

  /** The key rewriting CreateNgo and UpdateNgo apply to the decoded body:
      the client's pk is replaced and the id is tagged; nothing else changes. */
  function Tag(u: Ngo): (v: Ngo)
    ensures KeyOf(ToItem(v)) == NgoKey(u.ngoId)
    ensures v.(pk := u.pk, ngoId := u.ngoId) == u
  {
    u.(pk := NgoPartition, ngoId := Tagged(NgoTag, u.ngoId))
  }

  /** FetchNgo: a point lookup of exactly (DetailsNGO, "Ngo" + ngoId). */
  function FetchNgo(items: map<Key, Item>, ngoId: string, getFails: bool, unmarshalFails: bool): (r: Result<Ngo>)
    ensures getFails ==> r == Err(FailedToFetchRecord)
    ensures !getFails && unmarshalFails ==> r == Err(FailedToUnmarshalRecord)
    ensures !getFails && !unmarshalFails && NgoKey(ngoId) in items ==> r == Ok(FromItem(items[NgoKey(ngoId)]))
    ensures !getFails && !unmarshalFails && NgoKey(ngoId) !in items ==> r == Ok(Zero)
  {
    match GetItem(items, NgoKey(ngoId), getFails)
    case Err(e) => Err(e)
    case Ok(item) => if unmarshalFails then Err(FailedToUnmarshalRecord) else Ok(FromItem(item))
  }

  /** The filter expression `contains(ngoCountry, countries) AND contains(ngoCategory, categories)`;
      `contains` on an absent attribute is false. */
  predicate MatchesFilter(item: Item, countries: string, categories: string)
  {
    && "ngoCountry" in item && Contains(item["ngoCountry"], countries)
    && "ngoCategory" in item && Contains(item["ngoCategory"], categories)
  }

  /** FetchNgos: the NGOs of partition DetailsNGO whose sort key begins with
      "Ngo" and whose country and category pass the filter, keyed by storage key.
      No match is an empty success. */
  function FetchNgos(items: map<Key, Item>, countries: string, categories: string,
                     queryFails: bool, unmarshalFails: bool): (r: Result<map<Key, Ngo>>)
    ensures queryFails ==> r == Err(FailedToFetchRecord)
    ensures !queryFails && unmarshalFails ==> r == Err(FailedToUnmarshalRecord)
    ensures !queryFails && !unmarshalFails ==> r.Ok?
    ensures r.Ok? ==> forall k :: k in r.value <==>
      k in items && k.pk == NgoPartition && NgoTag <= k.sk && MatchesFilter(items[k], countries, categories)
    ensures r.Ok? ==> forall k :: k in r.value ==> r.value[k] == FromItem(items[k])
  {
    if queryFails then Err(FailedToFetchRecord)
    else
      var found := Query(items, NgoPartition, NgoTag);
      if unmarshalFails then Err(FailedToUnmarshalRecord)
      else Ok(map k | k in found && MatchesFilter(found[k], countries, categories) :: FromItem(found[k]))
  }

  /** Every NGO listed has the requested country and category as substrings. */
  lemma FetchNgosFilterHolds(items: map<Key, Item>, countries: string, categories: string, k: Key)
    requires FetchNgos(items, countries, categories, false, false).Ok?
    requires k in FetchNgos(items, countries, categories, false, false).value
    ensures var n := FetchNgos(items, countries, categories, false, false).value[k];
      && (exists i :: OccursAt(n.ngoCountry, countries, i))
      && (exists i :: OccursAt(n.ngoCategory, categories, i))
  {
    var n := FetchNgos(items, countries, categories, false, false).value[k];
    ContainsIffOccurs(n.ngoCountry, countries);
    ContainsIffOccurs(n.ngoCategory, categories);
  }

  /** The marshal-and-put tail shared by CreateNgo and UpdateNgo. */
  method Save(t: Table, u: Ngo, marshalFails: bool, putFails: bool) returns (r: Result<Ngo>)
    requires t.Valid()
    modifies t
    ensures t.Valid()
    ensures marshalFails ==> r == Err(CouldNotMarshalItem)
    ensures !marshalFails && putFails ==> r == Err(CouldNotDynamoPutItem)
    ensures !marshalFails && !putFails ==> r == Ok(u)
    ensures t.items == if r.Ok? then old(t.items)[KeyOf(ToItem(u)) := ToItem(u)] else old(t.items)
  {
    if marshalFails {
      return Err(CouldNotMarshalItem);
    }
    var av := ToItem(u);
    var ok := t.PutItem(av, putFails);
    if !ok {
      return Err(CouldNotDynamoPutItem);
    }
    return Ok(u);
  }

  /** CreateNgo: decode, tag the key fields, upsert, return the tagged record. */
  method CreateNgo(t: Table, body: Option<Ngo>, marshalFails: bool, putFails: bool) returns (r: Result<Ngo>)
    requires t.Valid()
    modifies t
    ensures t.Valid()
    ensures body.None? ==> r == Err(InvalidUserData)
    ensures body.Some? && marshalFails ==> r == Err(CouldNotMarshalItem)
    ensures body.Some? && !marshalFails && putFails ==> r == Err(CouldNotDynamoPutItem)
    ensures body.Some? && !marshalFails && !putFails ==> r == Ok(Tag(body.value))
    ensures t.items == if r.Ok? then old(t.items)[NgoKey(body.value.ngoId) := ToItem(Tag(body.value))]
                       else old(t.items)
  {
    if body.None? {
      return Err(InvalidUserData);
    }
    var u := body.value;
    u := u.(pk := NgoPartition);
    u := u.(ngoId := Tagged(NgoTag, u.ngoId));
    r := Save(t, u, marshalFails, putFails);
  }

  /** The existence test of UpdateNgo: a fetched record whose id is empty.
      A failed fetch yields no record, so the test does not fire. */
  predicate Missing(current: Result<Ngo>)
  {
    current.Ok? && |current.value.ngoId| == 0
  }

  /** On a well-keyed table the test fires exactly when the fetch succeeded
      and the NGO is absent. */
  lemma MissingIffAbsent(items: map<Key, Item>, ngoId: string, getFails: bool, unmarshalFails: bool)
    requires WellKeyed(items)
    ensures Missing(FetchNgo(items, ngoId, getFails, unmarshalFails))
            <==> !getFails && !unmarshalFails && NgoKey(ngoId) !in items
  {
    var k := NgoKey(ngoId);
    if k in items {
      assert KeyOf(items[k]) == k;
      assert |Attr(items[k], "sk")| >= |NgoTag|;
    }
  }

  /** UpdateNgo: decode, check existence (ignoring a failed fetch), then write
      exactly as CreateNgo does. */
  method UpdateNgo(t: Table, body: Option<Ngo>, getFails: bool, unmarshalFails: bool,
                   marshalFails: bool, putFails: bool) returns (r: Result<Ngo>)
    requires t.Valid()
    modifies t
    ensures t.Valid()
    ensures body.None? ==> r == Err(InvalidUserData)
    ensures body.Some? ==>
      (r == Err(UserDoesNotExist) <==> !getFails && !unmarshalFails && NgoKey(body.value.ngoId) !in old(t.items))
    ensures body.Some? && r != Err(UserDoesNotExist) ==>
      && (marshalFails ==> r == Err(CouldNotMarshalItem))
      && (!marshalFails && putFails ==> r == Err(CouldNotDynamoPutItem))
      && (!marshalFails && !putFails ==> r == Ok(Tag(body.value)))
    ensures t.items == if r.Ok? then old(t.items)[NgoKey(body.value.ngoId) := ToItem(Tag(body.value))]
                       else old(t.items)
  {
    if body.None? {
      return Err(InvalidUserData);
    }
    var u := body.value;
    var current := FetchNgo(t.items, u.ngoId, getFails, unmarshalFails);
    MissingIffAbsent(t.items, u.ngoId, getFails, unmarshalFails);
    if Missing(current) {
      return Err(UserDoesNotExist);
    }
    u := u.(pk := NgoPartition);
    u := u.(ngoId := Tagged(NgoTag, u.ngoId));
    r := Save(t, u, marshalFails, putFails);
  }

  /** DeleteNgo: removes (DetailsNGO, "Ngo" + ngoId) for the `ngoId` query
      parameter, without checking that it exists. */
  method DeleteNgo(t: Table, query: map<string, string>, deleteFails: bool) returns (err: Option<Error>)
    requires t.Valid()
    modifies t
    ensures t.Valid()
    ensures err == if deleteFails then Some(CouldNotDeleteItem) else None
    ensures t.items == if deleteFails then old(t.items) else old(t.items) - {NgoKey(Param(query, "ngoId"))}
  {
    var ngoId := Param(query, "ngoId");
    var ok := t.DeleteItem(NgoKey(ngoId), deleteFails);
    if !ok {
      return Some(CouldNotDeleteItem);
    }
    return None;
  }

  /** Create then Fetch with the same raw id returns the stored, tagged record,
      whose id is "Ngo" + id. */
  lemma CreateThenFetch(items: map<Key, Item>, u: Ngo)
    ensures FetchNgo(items[NgoKey(u.ngoId) := ToItem(Tag(u))], u.ngoId, false, false) == Ok(Tag(u))
    ensures Tag(u).ngoId == NgoTag + u.ngoId
  {
  }

  /** A created NGO shows up in the listing exactly when it passes the filter. */
  lemma CreateThenList(items: map<Key, Item>, u: Ngo, countries: string, categories: string)
    ensures var listed := FetchNgos(items[NgoKey(u.ngoId) := ToItem(Tag(u))], countries, categories, false, false).value;
      && (NgoKey(u.ngoId) in listed <==> Contains(u.ngoCountry, countries) && Contains(u.ngoCategory, categories))
      && (NgoKey(u.ngoId) in listed ==> listed[NgoKey(u.ngoId)] == Tag(u))
  {
    assert NgoTag <= NgoKey(u.ngoId).sk;
  }

  /** After a delete the NGO reads back as the zero record, so a following
      UpdateNgo is rejected as missing. */
  lemma DeleteThenFetch(items: map<Key, Item>, ngoId: string)
    ensures FetchNgo(items - {NgoKey(ngoId)}, ngoId, false, false) == Ok(Zero)
    ensures Missing(FetchNgo(items - {NgoKey(ngoId)}, ngoId, false, false))
  {
  }
}
