/** The single-table key scheme. Each entity kind is filed under a
    (pk, sk) pair in which each half is a fixed tag concatenated with a
    caller-supplied id, with no delimiter and no escaping:

      NGO                          ("DetailsNGO",        "Ngo" + ngoId)
      fundraiser under an NGO      ("Ngo" + ngoId,       "Fundraiser" + fundraiserId)
      fundraiser under a person    ("Individual" + email, "Fundraiser" + fundraiserId)
      update of a fundraiser       ("Fundraiser" + fundraiserId, "Update" + updateId)
*/
module Keys {
  import opened Storage

  const NgoPartition: string := "DetailsNGO"
  const NgoTag: string := "Ngo"
  const FundraiserTag: string := "Fundraiser"
  const IndividualTag: string := "Individual"
  const UpdateTag: string := "Update"

  /** A tag glued in front of an id; the tag is a prefix and the id the rest. */
  function Tagged(tag: string, id: string): (s: string)
    ensures tag <= s && s[|tag|..] == id
  {
    tag + id
  }

  /** An NGO sits in the one NGO partition, its sort key "Ngo" then the id. */
  function NgoKey(ngoId: string): (k: Key)
    ensures k.pk == NgoPartition
    ensures NgoTag <= k.sk && k.sk[|NgoTag|..] == ngoId
  {
    Key(NgoPartition, Tagged(NgoTag, ngoId))
  }

  /** A fundraiser of an NGO sits in that NGO's partition "Ngo" + ngoId. */
  function FundraiserNgoKey(ngoId: string, fundraiserId: string): (k: Key)
    ensures NgoTag <= k.pk && k.pk[|NgoTag|..] == ngoId
    ensures FundraiserTag <= k.sk && k.sk[|FundraiserTag|..] == fundraiserId
  {
    Key(Tagged(NgoTag, ngoId), Tagged(FundraiserTag, fundraiserId))
  }

  /** A fundraiser of a person sits in the partition "Individual" + emailId. */
  function FundraiserIndividualKey(emailId: string, fundraiserId: string): (k: Key)
    ensures IndividualTag <= k.pk && k.pk[|IndividualTag|..] == emailId
    ensures FundraiserTag <= k.sk && k.sk[|FundraiserTag|..] == fundraiserId
  {
    Key(Tagged(IndividualTag, emailId), Tagged(FundraiserTag, fundraiserId))
  }

  /** An update sits in its fundraiser's partition "Fundraiser" + fundraiserId. */
  function UpdateKey(fundraiserId: string, updateId: string): (k: Key)
    ensures FundraiserTag <= k.pk && k.pk[|FundraiserTag|..] == fundraiserId
    ensures UpdateTag <= k.sk && k.sk[|UpdateTag|..] == updateId
  {
    Key(Tagged(FundraiserTag, fundraiserId), Tagged(UpdateTag, updateId))
  }

  /** Tagging is injective in the id: the id can be read back off the key. */
  lemma TaggedInjective(tag: string, a: string, b: string)
    ensures Tagged(tag, a) == Tagged(tag, b) <==> a == b
  {
    if Tagged(tag, a) == Tagged(tag, b) {
      assert a == Tagged(tag, a)[|tag|..];
    }
  }

  /** A tagged id never equals the bare id (it is longer). */
  lemma TaggedNeverRaw(tag: string, id: string)
    requires tag != ""
    ensures Tagged(tag, id) != id
  {
    assert |Tagged(tag, id)| == |tag| + |id|;
  }

  /** Each kind's key determines the ids it was built from. */
  lemma KeysInjective(a1: string, a2: string, b1: string, b2: string)
    ensures NgoKey(a1) == NgoKey(b1) ==> a1 == b1
    ensures FundraiserNgoKey(a1, a2) == FundraiserNgoKey(b1, b2) ==> a1 == b1 && a2 == b2
    ensures FundraiserIndividualKey(a1, a2) == FundraiserIndividualKey(b1, b2) ==> a1 == b1 && a2 == b2
    ensures UpdateKey(a1, a2) == UpdateKey(b1, b2) ==> a1 == b1 && a2 == b2
  {
    TaggedInjective(NgoTag, a1, b1);
    TaggedInjective(IndividualTag, a1, b1);
    TaggedInjective(FundraiserTag, a1, b1);
    TaggedInjective(FundraiserTag, a2, b2);
    TaggedInjective(UpdateTag, a2, b2);
  }

  /** The four kinds of partition never coincide, whatever the ids: their
      first letters are D, N, I and F. */
  lemma PartitionsDisjoint(ngoId: string, emailId: string, fundraiserId: string)
    ensures NgoPartition != Tagged(NgoTag, ngoId)
    ensures NgoPartition != Tagged(IndividualTag, emailId)
    ensures NgoPartition != Tagged(FundraiserTag, fundraiserId)
    ensures Tagged(NgoTag, ngoId) != Tagged(IndividualTag, emailId)
    ensures Tagged(NgoTag, ngoId) != Tagged(FundraiserTag, fundraiserId)
    ensures Tagged(IndividualTag, emailId) != Tagged(FundraiserTag, fundraiserId)
  {
    assert NgoPartition[0] == 'D';
    assert Tagged(NgoTag, ngoId)[0] == 'N';
    assert Tagged(IndividualTag, emailId)[0] == 'I';
    assert Tagged(FundraiserTag, fundraiserId)[0] == 'F';
  }

  /** Keys built for different kinds never collide. So the Create, Update
      and Delete of the four tagged kinds, which write at keys built here,
      never overwrite a record of another kind. The exceptions write at raw
      ids: UpdateFundraiserNgo, and the Create, Update and Delete of the
      legacy fundraiser.go file. */
  lemma KindsNeverCollide(a1: string, a2: string, b1: string, b2: string)
    ensures NgoKey(a1) != FundraiserNgoKey(b1, b2)
    ensures NgoKey(a1) != FundraiserIndividualKey(b1, b2)
    ensures NgoKey(a1) != UpdateKey(b1, b2)
    ensures FundraiserNgoKey(a1, a2) != FundraiserIndividualKey(b1, b2)
    ensures FundraiserNgoKey(a1, a2) != UpdateKey(b1, b2)
    ensures FundraiserIndividualKey(a1, a2) != UpdateKey(b1, b2)
  {
    PartitionsDisjoint(b1, b1, b1);
    PartitionsDisjoint(a1, b1, b1);
    PartitionsDisjoint(a1, a1, b1);
  }
}
