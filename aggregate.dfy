/**
 The `/counts` aggregate: group every vote record by party, count the
 records of each group and sort the groups by count, largest first. The
 order of groups with equal counts is not fixed by the aggregation, so the
 result is specified by the predicate IsTallyOf, which every permitted
 order satisfies, and Tally is one such result.
 */
module Aggregate {

  /** One row of the result, `{_id: party, count}`. */
  datatype PartyCount = PartyCount(party: string, count: nat)

  /** The aadhar numbers whose record names `party`. */
  function Voters(votes: map<string, string>, party: string): set<string>
  {
    set a | a in votes && votes[a] == party
  }

  /** Number of records whose party is `party`. */
  function CountOf(votes: map<string, string>, party: string): nat
  {
    |Voters(votes, party)|
  }

  /** The parties named in a result. */
  function Parties(t: seq<PartyCount>): set<string>
  {
    set i | 0 <= i < |t| :: t[i].party
  }

  predicate DistinctParties(t: seq<PartyCount>)
  {
    forall i, j :: 0 <= i < j < |t| ==> t[i].party != t[j].party
  }

  /** `$sort: {count: -1}`: counts never increase along the result. */
  predicate SortedByCountDesc(t: seq<PartyCount>)
  {
    forall i, j :: 0 <= i < j < |t| ==> t[i].count >= t[j].count
  }

  /** `$group: {_id: '$party', count: {$sum: 1}}`: one row per party present, with its record count. */
  predicate IsGrouping(votes: map<string, string>, t: seq<PartyCount>)
  {
    && DistinctParties(t)
    && Parties(t) == votes.Values
    && forall i :: 0 <= i < |t| ==> t[i].count == CountOf(votes, t[i].party)
  }

  /** A permitted result of the whole pipeline. */
  predicate IsTallyOf(votes: map<string, string>, t: seq<PartyCount>)
  {
    IsGrouping(votes, t) && SortedByCountDesc(t)
  }

  function Sum(t: seq<PartyCount>): nat
  {
    if t == [] then 0 else t[0].count + Sum(t[1..])
  }

  /** The group stage as a map from each party present to its record count. */
  function Group(votes: map<string, string>): map<string, nat>
  {
    map p | p in votes.Values :: CountOf(votes, p)
  }

  /** A party with the largest count; which one, among equal counts, is left open. */
  ghost function MaxParty(g: map<string, nat>): (p: string)
    requires g != map[]
    ensures p in g
    ensures forall q :: q in g ==> g[q] <= g[p]
    decreases |g|
  {
    var q :| q in g;
    var rest := g - {q};
    assert rest.Keys == g.Keys - {q};
    assert forall x :: x in g ==> x == q || (x in rest && rest[x] == g[x]);
    if rest.Keys == {} then
      q
    else
      var m := MaxParty(rest);
      if g[m] <= g[q] then q else m
  }

  /** The sort stage: repeatedly take a party with the largest remaining count. */
  ghost function SortByCount(g: map<string, nat>): seq<PartyCount>
    decreases |g|
  {
    if g == map[] then []
    else
      var p := MaxParty(g);
      var rest := g - {p};
      assert rest.Keys == g.Keys - {p};
      [PartyCount(p, g[p])] + SortByCount(rest)
  }

  /** `t` lists every key of the group map `g` once, with its count, ordered by count. */
  predicate SortedRowsOf(g: map<string, nat>, t: seq<PartyCount>)
  {
    && DistinctParties(t)
    && Parties(t) == g.Keys
    && SortedByCountDesc(t)
    && forall i :: 0 <= i < |t| ==> t[i].party in g && t[i].count == g[t[i].party]
  }

  /** One step of the sort: a largest row in front of the sorted rest. */
  lemma SortStep(g: map<string, nat>, p: string, u: seq<PartyCount>)
    requires p in g && forall q :: q in g ==> g[q] <= g[p]
    requires SortedRowsOf(g - {p}, u)
    ensures SortedRowsOf(g, [PartyCount(p, g[p])] + u)
  {
    var rest := g - {p};
    var row := PartyCount(p, g[p]);
    var t := [row] + u;
    assert rest.Keys == g.Keys - {p};
    assert p !in Parties(u);
    assert forall i :: 0 <= i < |u| ==> u[i].count <= row.count;
    PartiesCons(row, u);
    PrependLargest(row, u);
    assert forall i :: 1 <= i < |t| ==> t[i] == u[i - 1] && u[i - 1].party in rest;
  }

  /** The sort stage keeps one row per key of the group map, with its count, and orders them by count. */
  lemma {:induction false} SortByCountSpec(g: map<string, nat>)
    ensures SortedRowsOf(g, SortByCount(g))
    decreases |g|
  {
    if g != map[] {
      var p := MaxParty(g);
      var rest := g - {p};
      assert rest.Keys == g.Keys - {p};
      SortByCountSpec(rest);
      SortStep(g, p, SortByCount(rest));
    }
  }

  /** Putting a row with a new party and the largest count in front keeps a result distinct and sorted. */
  lemma PrependLargest(row: PartyCount, u: seq<PartyCount>)
    requires DistinctParties(u) && SortedByCountDesc(u)
    requires row.party !in Parties(u)
    requires forall i :: 0 <= i < |u| ==> u[i].count <= row.count
    ensures DistinctParties([row] + u) && SortedByCountDesc([row] + u)
  {
  }

  lemma PartiesCons(row: PartyCount, u: seq<PartyCount>)
    ensures Parties([row] + u) == {row.party} + Parties(u)
  {
    var t := [row] + u;
    forall x | x in Parties(t) ensures x in {row.party} + Parties(u) {
      var i :| 0 <= i < |t| && t[i].party == x;
      if i > 0 { assert u[i - 1].party == x; }
    }
    forall x | x in Parties(u) ensures x in Parties(t) {
      var i :| 0 <= i < |u| && u[i].party == x;
      assert t[i + 1].party == x;
    }
    assert t[0].party == row.party;
  }

  /** The `/counts` result computed from the stored records. */
  ghost function Tally(votes: map<string, string>): (t: seq<PartyCount>)
    ensures IsTallyOf(votes, t)
  {
    SortByCountSpec(Group(votes));
    SortByCount(Group(votes))
  }

  /** Every row of a grouping has a count of at least one. */
  lemma CountsPositive(votes: map<string, string>, t: seq<PartyCount>)
    requires IsGrouping(votes, t)
    ensures forall i :: 0 <= i < |t| ==> t[i].count >= 1
  {
    forall i | 0 <= i < |t| ensures t[i].count >= 1 {
      var p := t[i].party;
      assert p in Parties(t);
      var a :| a in votes && votes[a] == p;
      assert a in Voters(votes, p);
    }
  }

  /** The records of every party other than `party`. */
  function Without(votes: map<string, string>, party: string): (rest: map<string, string>)
    ensures rest.Keys == votes.Keys - Voters(votes, party)
    ensures forall a :: a in rest ==> rest[a] == votes[a] && rest[a] != party
  {
    map a | a in votes && votes[a] != party :: votes[a]
  }

  /** The counts of a grouping add up to the number of records. */
  lemma {:induction false} GroupingSum(votes: map<string, string>, t: seq<PartyCount>)
    requires IsGrouping(votes, t)
    ensures Sum(t) == |votes|
    decreases |t|
  {
    if t != [] {
      var p := t[0].party;
      var rest := Without(votes, p);
      var same := Voters(votes, p);
      assert votes.Keys == same + rest.Keys;
      assert |votes| == |votes.Keys|;
      assert |votes.Keys| == |same| + |rest.Keys|;
      var u := t[1..];
      assert forall i :: 0 <= i < |u| ==> u[i] == t[i + 1];
      forall i | 0 <= i < |u| ensures u[i].count == CountOf(rest, u[i].party) {
        var q := u[i].party;
        assert q != p;
        assert Voters(rest, q) == Voters(votes, q);
      }
      assert Parties(u) == rest.Values by {
        forall x | x in Parties(u) ensures x in rest.Values {
          var i :| 0 <= i < |u| && u[i].party == x;
          assert x in Parties(t) && x != p;
          var a :| a in votes && votes[a] == x;
          assert a in rest;
        }
        forall x | x in rest.Values ensures x in Parties(u) {
          var a :| a in rest && rest[a] == x;
          assert x in votes.Values;
          var i :| 0 <= i < |t| && t[i].party == x;
          assert i != 0;
          assert u[i - 1].party == x;
        }
      }
      GroupingSum(rest, u);
    }
  }

  /** Rows with pairwise distinct parties name as many parties as there are rows. */
  lemma {:induction false} DistinctLength(t: seq<PartyCount>)
    requires DistinctParties(t)
    ensures |Parties(t)| == |t|
    decreases |t|
  {
    if t != [] {
      var u := t[1..];
      assert t == [t[0]] + u;
      PartiesCons(t[0], u);
      assert t[0].party !in Parties(u);
      DistinctLength(u);
    }
  }

  /** Every row of a grouping names a party that some record holds. */
  lemma PartiesOccur(votes: map<string, string>, t: seq<PartyCount>)
    requires IsGrouping(votes, t)
    ensures forall i :: 0 <= i < |t| ==> t[i].party in votes.Values
  {
  }

  /** A grouping has exactly one row per distinct party present in the store. */
  lemma RowsPerParty(votes: map<string, string>, t: seq<PartyCount>)
    requires IsGrouping(votes, t)
    ensures |t| == |votes.Values|
  {
    DistinctLength(t);
  }

  /** Recording one new vote adds one to its party's count and leaves every other count alone. */
  lemma CountAfterInsert(votes: map<string, string>, aadhar: string, party: string, q: string)
    requires aadhar !in votes
    ensures CountOf(votes[aadhar := party], q) == CountOf(votes, q) + (if q == party then 1 else 0)
  {
    var before := Voters(votes, q);
    var after := Voters(votes[aadhar := party], q);
    if q == party {
      assert after == before + {aadhar};
    } else {
      assert after == before;
    }
  }
}
