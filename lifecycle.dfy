/** How the entity packages interact through the one shared table: deletes
    do not cascade to children filed in other partitions, and a write at a
    body's raw ids (UpdateFundraiserNgo, and the Create and Update of the
    legacy fundraiser.go file) lands wherever those ids point, so any read
    of that key sees it: the raw-key reads of fundraiser.go, an NGO read
    when the ids are ("DetailsNGO", "Ngo" + n), and a tagged fundraiser
    read when the ids are already tagged. */
module Lifecycle {
  import opened Outcomes
  import opened Storage
  import opened Keys
  import Ngos
  import FundraisersNgo
  import Updates
  import Fundraisers

  /** Removing a key outside partition `pk` leaves every query of `pk` as it was. */
  lemma QueryIgnoresOtherPartition(items: map<Key, Item>, k: Key, pk: string, prefix: string)
    requires k.pk != pk
    ensures Query(items - {k}, pk, prefix) == Query(items, pk, prefix)
  {
    var before, after := Query(items, pk, prefix), Query(items - {k}, pk, prefix);
    assert forall key :: key in after <==> key in before;
    assert forall key :: key in after ==> after[key] == before[key];
  }

  /** Deleting an NGO's detail record does not cascade: every NGO's
      fundraiser listing, its own included, and every single fundraiser
      read are as before. */
  lemma DeleteNgoKeepsFundraisers(items: map<Key, Item>, ngoId: string, anyNgoId: string, fundraiserId: string,
                                  queryFails: bool, getFails: bool, unmarshalFails: bool)
    ensures FundraisersNgo.FetchFundraisersNgo(items - {NgoKey(ngoId)}, anyNgoId, queryFails, unmarshalFails)
            == FundraisersNgo.FetchFundraisersNgo(items, anyNgoId, queryFails, unmarshalFails)
    ensures FundraisersNgo.FetchFundraiserNgo(items - {NgoKey(ngoId)}, anyNgoId, fundraiserId, getFails, unmarshalFails)
            == FundraisersNgo.FetchFundraiserNgo(items, anyNgoId, fundraiserId, getFails, unmarshalFails)
  {
    PartitionsDisjoint(anyNgoId, "", "");
    QueryIgnoresOtherPartition(items, NgoKey(ngoId), Tagged(NgoTag, anyNgoId), FundraiserTag);
    KindsNeverCollide(ngoId, "", anyNgoId, fundraiserId);
  }

  /** Deleting a fundraiser run by an NGO leaves the updates posted on it,
      and on every other fundraiser, in place. */
  lemma DeleteFundraiserNgoKeepsUpdates(items: map<Key, Item>, ngoId: string, fundraiserId: string,
                                        anyFundraiserId: string, queryFails: bool, unmarshalFails: bool)
    ensures Updates.FetchUpdates(items - {FundraiserNgoKey(ngoId, fundraiserId)}, anyFundraiserId, queryFails, unmarshalFails)
            == Updates.FetchUpdates(items, anyFundraiserId, queryFails, unmarshalFails)
  {
    PartitionsDisjoint(ngoId, "", anyFundraiserId);
    QueryIgnoresOtherPartition(items, FundraiserNgoKey(ngoId, fundraiserId),
                               Tagged(FundraiserTag, anyFundraiserId), UpdateTag);
  }

  /** The same for a fundraiser run by an individual. */
  lemma DeleteFundraiserIndividualKeepsUpdates(items: map<Key, Item>, emailId: string, fundraiserId: string,
                                               anyFundraiserId: string, queryFails: bool, unmarshalFails: bool)
    ensures Updates.FetchUpdates(items - {FundraiserIndividualKey(emailId, fundraiserId)}, anyFundraiserId,
                                 queryFails, unmarshalFails)
            == Updates.FetchUpdates(items, anyFundraiserId, queryFails, unmarshalFails)
  {
    PartitionsDisjoint("", emailId, anyFundraiserId);
    QueryIgnoresOtherPartition(items, FundraiserIndividualKey(emailId, fundraiserId),
                               Tagged(FundraiserTag, anyFundraiserId), UpdateTag);
  }

  /** Where UpdateFundraiserNgo's untagged write lands, the raw-key
      FetchFundraiser of fundraiser.go reads it back field for field. */
  lemma LegacyReadsUntaggedWrite(items: map<Key, Item>, u: FundraisersNgo.FundraiserNgo)
    ensures Fundraisers.FetchFundraiser(items[Key(u.ngoId, u.fundraiserId) := FundraisersNgo.ToItem(u)],
                                        u.ngoId, u.fundraiserId, false, false)
            == Ok(Fundraisers.Fundraiser(u.ngoId, u.fundraiserId, u.fundraiserTitle, u.fundraiserCause,
                                        u.fundraiserLocation, u.fundraiserDescription, u.fundraiserPhoto,
                                        u.fundraiserTargetAmount))
  {
  }

  /** The exception to the disjointness of the key kinds. Create a
      fundraiser of an NGO whose body carries the ids "DetailsNGO" and
      "Ngo" + ngoId; the same body sent to UpdateFundraiserNgo passes its
      tagged existence check, and its untagged write lands on the key of
      NGO ngoId. That NGO then reads back with its name, address and every
      other detail empty. */
  lemma UntaggedUpdateOverwritesNgo(items: map<Key, Item>, u: FundraisersNgo.FundraiserNgo, ngoId: string)
    requires WellKeyed(items)
    requires u.ngoId == NgoPartition && u.fundraiserId == Tagged(NgoTag, ngoId)
    requires FundraiserNgoKey(u.ngoId, u.fundraiserId) in items
    ensures !FundraisersNgo.Missing(FundraisersNgo.FetchFundraiserNgo(items, u.ngoId, u.fundraiserId, false, false))
    ensures Key(u.ngoId, u.fundraiserId) == NgoKey(ngoId)
    ensures Ngos.FetchNgo(items[Key(u.ngoId, u.fundraiserId) := FundraisersNgo.ToItem(u)], ngoId, false, false)
            == Ok(Ngos.Ngo(NgoPartition, Tagged(NgoTag, ngoId), "", "", "", "", "", ""))
  {
    FundraisersNgo.MissingIffAbsent(items, u.ngoId, u.fundraiserId, false, false);
  }

  /** A body whose ids are already tagged, the shape FetchFundraiserNgo
      returns, sent to UpdateFundraiserNgo: when the existence fetch fails
      the check is skipped, and the untagged write lands on the tagged key,
      where FetchFundraiserNgo reads the body back. */
  lemma UntaggedUpdateReachesTaggedKey(items: map<Key, Item>, u: FundraisersNgo.FundraiserNgo,
                                       ngoId: string, fundraiserId: string, unmarshalFails: bool)
    requires u.ngoId == Tagged(NgoTag, ngoId) && u.fundraiserId == Tagged(FundraiserTag, fundraiserId)
    ensures !FundraisersNgo.Missing(FundraisersNgo.FetchFundraiserNgo(items, u.ngoId, u.fundraiserId, true, unmarshalFails))
    ensures Key(u.ngoId, u.fundraiserId) == FundraiserNgoKey(ngoId, fundraiserId)
    ensures FundraisersNgo.FetchFundraiserNgo(items[Key(u.ngoId, u.fundraiserId) := FundraisersNgo.ToItem(u)],
                                              ngoId, fundraiserId, false, false) == Ok(u)
  {
  }

  /** The legacy CreateFundraiser writes at its body's raw ids: with the ids
      ("DetailsNGO", "Ngo" + ngoId) it replaces NGO ngoId's record, which
      then reads back with every detail empty. UpdateFundraiser does the
      same once that NGO exists, since its existence check then passes. */
  lemma LegacyWriteOverwritesNgo(items: map<Key, Item>, u: Fundraisers.Fundraiser, ngoId: string)
    requires WellKeyed(items)
    requires u.ngoID == NgoPartition && u.fundraiserId == Tagged(NgoTag, ngoId)
    ensures NgoKey(ngoId) in items ==>
      !Fundraisers.Missing(Fundraisers.FetchFundraiser(items, u.ngoID, u.fundraiserId, false, false))
    ensures Key(u.ngoID, u.fundraiserId) == NgoKey(ngoId)
    ensures Ngos.FetchNgo(items[Key(u.ngoID, u.fundraiserId) := Fundraisers.ToItem(u)], ngoId, false, false)
            == Ok(Ngos.Ngo(NgoPartition, Tagged(NgoTag, ngoId), "", "", "", "", "", ""))
  {
    Fundraisers.MissingIffAbsent(items, u.ngoID, u.fundraiserId, false, false);
  }

  /** A worked instance of the key scheme: NGO "123" is filed at
      ("DetailsNGO", "Ngo123"), its fundraiser "7" at ("Ngo123", "Fundraiser7"),
      and an update "1" of that fundraiser at ("Fundraiser7", "Update1"). */
  lemma ExampleKeys()
    ensures NgoKey("123") == Key("DetailsNGO", "Ngo123")
    ensures FundraiserNgoKey("123", "7") == Key("Ngo123", "Fundraiser7")
    ensures UpdateKey("7", "1") == Key("Fundraiser7", "Update1")
    ensures FundraiserIndividualKey("a@b.org", "7") == Key("Individuala@b.org", "Fundraiser7")
  {
  }
}
