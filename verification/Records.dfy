/** One model's records, and what a domain finds among them in the order of the table. */
module Records {
  import opened Json
  import opened Policies

  datatype Row = Row(id: nat, values: Object)

  /** A domain search in the table's order. */
  function Matching(rows: seq<Row>, domain: Domain): (found: seq<nat>)
    ensures |found| <= |rows|
    ensures forall id :: id in found <==> exists i :: 0 <= i < |rows| && rows[i].id == id && domain(id, rows[i].values)
  {
    if rows == [] then []
    else (if domain(rows[0].id, rows[0].values) then [rows[0].id] else []) + Matching(rows[1..], domain)
  }

  predicate Ascending(places: seq<nat>) {
    forall k, l :: 0 <= k < l < |places| ==> places[k] < places[l]
  }

  /** These places of a table are those of the admitted rows, in order, and found are their ids. */
  ghost predicate Places(rows: seq<Row>, domain: Domain, places: seq<nat>, found: seq<nat>) {
    && Ascending(places) && |places| == |found|
    && (forall k :: 0 <= k < |places| ==> places[k] < |rows| && found[k] == rows[places[k]].id)
    && (forall i :: 0 <= i < |rows| ==> (i in places <==> domain(rows[i].id, rows[i].values)))
  }

  function Shifted(places: seq<nat>): (shifted: seq<nat>)
    ensures |shifted| == |places| && forall k :: 0 <= k < |places| ==> shifted[k] == places[k] + 1
  {
    seq(|places|, k requires 0 <= k < |places| => places[k] + 1)
  }

  lemma ShiftedMember(places: seq<nat>, i: nat)
    requires 0 < i
    ensures i in Shifted(places) <==> i - 1 in places
  {
    if i - 1 in places {
      var k :| 0 <= k < |places| && places[k] == i - 1;
      assert Shifted(places)[k] == i;
    }
  }

  /** One more row in front, found or not. */
  lemma PlacesBehind(row: Row, rows: seq<Row>, domain: Domain, places: seq<nat>, found: seq<nat>)
    requires Places(rows, domain, places, found)
    ensures if domain(row.id, row.values) then Places([row] + rows, domain, [0] + Shifted(places), [row.id] + found)
            else Places([row] + rows, domain, Shifted(places), found)
  {
    var all := [row] + rows;
    forall i | 0 < i < |all|
      ensures i in Shifted(places) <==> domain(all[i].id, all[i].values)
    {
      ShiftedMember(places, i);
      assert all[i] == rows[i - 1];
    }
    assert 0 !in Shifted(places);
  }

  /** What a search finds is exactly the admitted rows, each once and in the table's order. */
  lemma {:induction false} FoundInOrder(rows: seq<Row>, domain: Domain) returns (places: seq<nat>)
    ensures Places(rows, domain, places, Matching(rows, domain))
  {
    if rows == [] {
      places := [];
    } else {
      var behind := FoundInOrder(rows[1..], domain);
      places := if domain(rows[0].id, rows[0].values) then [0] + Shifted(behind) else Shifted(behind);
      hide Places;
      PlacesBehind(rows[0], rows[1..], domain, behind, Matching(rows[1..], domain));
      assert [rows[0]] + rows[1..] == rows;
      assert [] + Matching(rows[1..], domain) == Matching(rows[1..], domain);
    }
  }
}
