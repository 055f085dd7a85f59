/**
 The three request handlers of the voting service over one store of vote
 records. The store is the `votes` collection, keyed by Aadhar number: its
 unique index on `aadhar` makes it a map from Aadhar number to party, so
 each Aadhar number has at most one record. Records are only ever added.
 A fault of the external database is a boolean parameter of the handler
 that would meet it.
 */
module Server {
  import opened Validation
  import opened Aggregate

  /** An HTTP reply: a status with a JSON `{message}` body, or the `/counts` rows. */
  datatype Response =
    | Message(status: int, message: string)
    | Tallied(status: int, rows: seq<PartyCount>)

  const InvalidAadhar := Message(400, "Invalid Aadhar number")
  const AlreadyUsed := Message(400, "Aadhar number already used for voting")
  const AadharAccepted := Message(200, "Aadhar number is valid")
  const FieldsRequired := Message(400, "Aadhar number and party are required")
  const NotTwelveDigits := Message(400, "Aadhar number must be 12 digits")
  const VoteRecorded := Message(200, "Vote recorded successfully")
  const ServerError := Message(500, "Server error")

  /** Every record of `before` is still in `after`, with the same party. */
  ghost predicate Keeps(before: map<string, string>, after: map<string, string>)
  {
    forall a :: a in before ==> a in after && after[a] == before[a]
  }

  class VoteStore {
    /** The stored records, Aadhar number to party. */
    var votes: map<string, string>

    /** Every record was written by a successful vote: a valid Aadhar number and a non-empty party. */
    ghost predicate Valid()
      reads this
    {
      forall a :: a in votes ==> ValidAadhar(Some(a)) && votes[a] != ""
    }

    /** An empty collection. */
    constructor ()
      ensures Valid()
      ensures votes == map[]
    {
      votes := map[];
    }

    /**
     `POST /check-aadhar`: a malformed number is rejected before the store
     is consulted; a well-formed one is looked up. Nothing is written.
     */
    method CheckAadhar(aadhar: Option<string>, lookupFails: bool) returns (r: Response)
      ensures !ValidAadhar(aadhar) ==> r == InvalidAadhar
      ensures ValidAadhar(aadhar) && lookupFails ==> r == ServerError
      ensures ValidAadhar(aadhar) && !lookupFails ==>
                (r == AlreadyUsed <==> aadhar.value in votes) &&
                (r == AadharAccepted <==> aadhar.value !in votes)
      ensures r.Message? && (r.status == 200 <==> r == AadharAccepted)
    {
      if !Present(aadhar) || |aadhar.value| != AadharLength || !MatchesDigits(aadhar.value) {
        return InvalidAadhar;
      }
      if lookupFails {
        return ServerError;
      }
      if aadhar.value in votes {
        return AlreadyUsed;
      }
      r := AadharAccepted;
    }

    /**
     `POST /vote`: the missing-field check comes first, then the format
     check, then the duplicate lookup; only when all pass is the record
     saved.
     */
    method Vote(aadhar: Option<string>, party: Option<string>, lookupFails: bool, saveFails: bool)
      returns (r: Response)
      requires Valid()
      modifies this
      ensures Valid()
      ensures Keeps(old(votes), votes)
      ensures !Present(aadhar) || !Present(party) ==>
                r == FieldsRequired && votes == old(votes)
      ensures Present(aadhar) && Present(party) && !ValidAadhar(aadhar) ==>
                r == NotTwelveDigits && votes == old(votes)
      ensures ValidAadhar(aadhar) && Present(party) && lookupFails ==>
                r == ServerError && votes == old(votes)
      ensures ValidAadhar(aadhar) && Present(party) && !lookupFails && aadhar.value in old(votes) ==>
                r == AlreadyUsed && votes == old(votes)
      ensures ValidAadhar(aadhar) && Present(party) && !lookupFails && aadhar.value !in old(votes) ==>
                if saveFails then r == ServerError && votes == old(votes)
                else r == VoteRecorded && votes == old(votes)[aadhar.value := party.value]
      ensures votes != old(votes) <==> r == VoteRecorded
      ensures r == VoteRecorded ==> ValidAadhar(aadhar) && Present(party) && aadhar.value !in old(votes)
      ensures |votes| <= |old(votes)| + 1
    {
      if !Present(aadhar) || !Present(party) {
        return FieldsRequired;
      }
      if |aadhar.value| != AadharLength || !MatchesDigits(aadhar.value) {
        return NotTwelveDigits;
      }
      if lookupFails {
        return ServerError;
      }
      if aadhar.value in votes {
        return AlreadyUsed;
      }
      if saveFails {
        return ServerError;
      }
      votes := votes[aadhar.value := party.value];
      r := VoteRecorded;
    }

    /** `GET /counts`: the grouped, count-sorted rows, or a server error. */
    ghost function Counts(aggregateFails: bool): (r: Response)
      reads this
      ensures aggregateFails ==> r == ServerError
      ensures !aggregateFails ==> r.Tallied? && r.status == 200 && IsTallyOf(votes, r.rows)
      ensures !aggregateFails && Valid() ==> forall i :: 0 <= i < |r.rows| ==> r.rows[i].party != ""
    {
      if aggregateFails then ServerError
      else
        PartiesOccur(votes, Tally(votes));
        Tallied(200, Tally(votes))
    }

  }

  /** Two submissions under one Aadhar number never both record, and the first recorded party stays. */
  method VoteTwice(store: VoteStore, aadhar: Option<string>, first: Option<string>, second: Option<string>,
                   faults: (bool, bool, bool, bool))
    returns (r1: Response, r2: Response)
    requires store.Valid()
    modifies store
    ensures store.Valid()
    ensures !(r1 == VoteRecorded && r2 == VoteRecorded)
    ensures |store.votes| <= |old(store.votes)| + 1
    ensures r1 == VoteRecorded ==>
              && Present(aadhar) && Present(first)
              && aadhar.value in store.votes && store.votes[aadhar.value] == first.value
              && r2 == (if !Present(second) then FieldsRequired else if faults.2 then ServerError else AlreadyUsed)
  {
    r1 := store.Vote(aadhar, first, faults.0, faults.1);
    r2 := store.Vote(aadhar, second, faults.2, faults.3);
  }

  /** A first vote is recorded; a second one under the same number, for another party, is refused. */
  method RevoteScenario(aadhar: string) returns (first: Response, second: Response, records: map<string, string>)
    requires ValidAadhar(Some(aadhar))
    ensures first == VoteRecorded && second == AlreadyUsed
    ensures records == map[aadhar := "A"]
  {
    var store := new VoteStore();
    first := store.Vote(Some(aadhar), Some("A"), false, false);
    second := store.Vote(Some(aadhar), Some("B"), false, false);
    records := store.votes;
  }

  /** A five-digit number fails the check; a vote without a party is refused before the format check. */
  method MalformedScenario() returns (short: Response, noParty: Response)
    ensures short == InvalidAadhar
    ensures noParty == FieldsRequired
  {
    var store := new VoteStore();
    short := store.CheckAadhar(Some("12345"), false);
    noParty := store.Vote(Some("111111111111"), None, false, false);
  }

  /** The records of the counting example: two votes for A and one for B. */
  function TwoToOne(a1: string, a2: string, a3: string): map<string, string>
  {
    map[a1 := "A", a2 := "A", a3 := "B"]
  }

  lemma TwoToOneGroups(a1: string, a2: string, a3: string)
    requires a1 != a2 && a1 != a3 && a2 != a3
    ensures TwoToOne(a1, a2, a3).Values == {"A", "B"}
    ensures CountOf(TwoToOne(a1, a2, a3), "A") == 2 && CountOf(TwoToOne(a1, a2, a3), "B") == 1
  {
    var votes := TwoToOne(a1, a2, a3);
    assert votes[a1] == "A" && votes[a3] == "B";
    assert Voters(votes, "A") == {a1, a2};
    assert Voters(votes, "B") == {a3};
  }

  /** With two votes for A and one for B, the only permitted tally is A:2 then B:1. */
  lemma TallyOfTwoToOne(a1: string, a2: string, a3: string, t: seq<PartyCount>)
    requires a1 != a2 && a1 != a3 && a2 != a3
    requires IsTallyOf(TwoToOne(a1, a2, a3), t)
    ensures t == [PartyCount("A", 2), PartyCount("B", 1)]
  {
    TwoToOneGroups(a1, a2, a3);
    RowsPerParty(TwoToOne(a1, a2, a3), t);
    assert |t| == 2;
    assert t[0].party in Parties(t) && t[1].party in Parties(t);
  }

  /** Three votes under distinct numbers, two for A and one for B, then `/counts`. */
  method TallyScenario(a1: string, a2: string, a3: string)
    returns (r1: Response, r2: Response, r3: Response, records: map<string, string>)
    requires ValidAadhar(Some(a1)) && ValidAadhar(Some(a2)) && ValidAadhar(Some(a3))
    requires a1 != a2 && a1 != a3 && a2 != a3
    ensures r1 == VoteRecorded && r2 == VoteRecorded && r3 == VoteRecorded
    ensures records == TwoToOne(a1, a2, a3)
    ensures forall t :: IsTallyOf(records, t) ==> t == [PartyCount("A", 2), PartyCount("B", 1)]
  {
    var store := new VoteStore();
    r1 := store.Vote(Some(a1), Some("A"), false, false);
    r2 := store.Vote(Some(a2), Some("A"), false, false);
    r3 := store.Vote(Some(a3), Some("B"), false, false);
    records := store.votes;
    assert records == TwoToOne(a1, a2, a3);
    forall t | IsTallyOf(records, t) ensures t == [PartyCount("A", 2), PartyCount("B", 1)] {
      TallyOfTwoToOne(a1, a2, a3, t);
    }
  }
}
