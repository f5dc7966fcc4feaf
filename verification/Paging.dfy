/** records.search of service.py, and a client that pages through its answers. */
module Paging {
  import opened Wrappers
  import opened Json
  import opened Policies
  import opened Records

  const MAX_OFFSET: nat := 100000

  /** The client's domain and the policy's forced domain. */
  function Combined(policy: Policy, client: Domain): Domain {
    var forced := ForcedDomain(policy);
    (id: nat, values: Object) => client(id, values) && forced(id, values)
  }

  /** _limit: the requested limit, silently capped. */
  function Limit(profile: Profile, policy: Policy, value: Json): Result<nat, Error> {
    var cap := RecordLimit(profile, policy);
    var requested :- if value.Null? then Ok(cap) else PositiveInt(value);
    Ok(if requested < cap then requested else cap)
  }

  /** _offset.  Python's membership test takes every number equal to zero for False. */
  function Offset(value: Json): Result<nat, Error> {
    if value.Null? || value == Bool(false) || value == Int(0) || value == Real(0.0) then Ok(0)
    else if value.Int? && 0 <= value.n <= MAX_OFFSET then Ok(value.n)
    else Err(Error("invalid_offset", 400))
  }

  datatype Page = Page(records: seq<nat>, offset: nat, limit: nat, hasMore: bool)

  /** The ORM's search with an offset and a limit. */
  function Slice(found: seq<nat>, offset: nat, limit: nat): seq<nat> {
    if offset >= |found| then []
    else if offset + limit >= |found| then found[offset..]
    else found[offset..offset + limit]
  }

  /** A search's order as a comparison of records: the first one comes no later than the second. */
  type Order = (nat, nat) -> bool

  /** Any two records can be compared, but several may tie. */
  ghost predicate Preorder(order: Order) {
    && (forall a, b :: order(a, b) || order(b, a))
    && (forall a, b, c :: order(a, b) && order(b, c) ==> order(a, c))
  }

  predicate Sorted(order: Order, list: seq<nat>) {
    forall i, j :: 0 <= i < j < |list| ==> order(list[i], list[j])
  }

  /** The database may answer a search with the matches in this sequence: each once, and in the
      requested order, with tied records in any order among themselves. */
  predicate Lists(policy: Policy, rows: seq<Row>, client: Domain, order: Order, list: seq<nat>) {
    Sorted(order, list) && multiset(list) == multiset(Matching(rows, Combined(policy, client)))
  }

  /** No two different matches tie. */
  ghost predicate Decisive(order: Order, ids: seq<nat>) {
    forall a, b :: a in ids && b in ids && order(a, b) && order(b, a) ==> a == b
  }

  /** records.search once the model is admitted, given the sequence of matches from which the database
      answers this search: one record more than the limit is fetched to see whether there are more. */
  function SearchPage(profile: Profile, policy: Policy, list: seq<nat>, limit: Json, offset: Json)
      : Result<Page, Error>
  {
    var l :- Limit(profile, policy, limit);
    var o :- Offset(offset);
    var records := Slice(list, o, l + 1);
    Ok(Page(if |records| > l then records[..l] else records, o, l, |records| > l))
  }

  /** A client that asks for the next page, from where the last one ended, until has_more is false; the
      database answers the search at each offset from a sequence of its own. */
  function FetchFrom(profile: Profile, policy: Policy, lists: nat -> seq<nat>, limit: Json, offset: nat)
      : Result<seq<nat>, Error>
    requires 1 <= profile.maxRecordsPerCall
    decreases if offset <= MAX_OFFSET then MAX_OFFSET + 1 - offset else 0
  {
    var page :- SearchPage(profile, policy, lists(offset), limit, Int(offset));
    if !page.hasMore then Ok(page.records)
    else
      LimitPositive(profile, policy, limit);
      var rest :- FetchFrom(profile, policy, lists, limit, offset + |page.records|);
      Ok(page.records + rest)
  }

  lemma LimitPositive(profile: Profile, policy: Policy, value: Json)
    requires 1 <= profile.maxRecordsPerCall
    ensures Limit(profile, policy, value).Ok? ==>
              1 <= Limit(profile, policy, value).value <= RecordLimit(profile, policy)
    ensures Limit(profile, policy, value).Ok? <==> value.Null? || (value.Int? && 0 < value.n)
  {
  }

  /** The limit that applies is the smallest of those given: the request's, the policy's unless it is
      zero, and the profile's; a request may leave it out, but not give anything but a positive integer. */
  lemma LimitExactly(profile: Profile, policy: Policy, value: Json, limit: nat)
    ensures Limit(profile, policy, value) == Ok(limit) <==>
              && (value.Null? || (value.Int? && 0 < value.n))
              && limit <= profile.maxRecordsPerCall && (value.Int? ==> limit <= value.n)
              && (policy.Explicit? && policy.policy.maxRecords != 0 ==> limit <= policy.policy.maxRecords)
              && (|| limit == profile.maxRecordsPerCall || (value.Int? && limit == value.n)
                  || (policy.Explicit? && policy.policy.maxRecords != 0 && limit == policy.policy.maxRecords))
  {
    hide RecordLimit;
  }

  /** The offset is a number up to 100000, or nothing that Python takes for false or none. */
  lemma OffsetExactly(value: Json, offset: nat)
    ensures Offset(value) == Ok(offset) <==>
              || (value == Int(offset) && offset <= 100000)
              || (offset == 0 && value in {Null, Bool(false), Real(0.0)})
  {
  }

  /** The offset of the last page a client must ask for: the last multiple of the limit, counted from
      where it starts, that is below the total. */
  function LastOffset(total: nat, limit: nat, offset: nat): nat
    requires 1 <= limit
  {
    if total <= offset then offset else offset + (total - offset - 1) / limit * limit
  }

  lemma DivideLess(x: nat, d: nat)
    requires 1 <= d <= x
    ensures x / d * d == d + (x - d) / d * d
  {
    var q := (x - d) / d;
    assert x == (q + 1) * d + (x - d) % d;
    QuotientIs(x, d, q + 1, (x - d) % d);
  }

  lemma QuotientIs(x: nat, d: nat, q: nat, r: nat)
    requires 1 <= d && r < d && x == q * d + r
    ensures x / d == q
  {
    var q', r' := x / d, x % d;
    assert x == q' * d + r';
    ProductGrows(q' + 1, q, d);
    ProductGrows(q + 1, q', d);
  }

  lemma ProductGrows(a: nat, b: nat, d: nat)
    ensures a <= b ==> a * d <= b * d
  {
  }

  /** It is where a client ends that asks for page after page. */
  lemma LastOffsetSteps(total: nat, limit: nat, offset: nat)
    requires 1 <= limit
    ensures LastOffset(total, limit, offset)
            == if offset + limit >= total then offset else LastOffset(total, limit, offset + limit)
    ensures offset <= LastOffset(total, limit, offset) && (offset < total ==> LastOffset(total, limit, offset) < total)
  {
    if offset < total {
      var x := total - offset - 1;
      assert x / limit * limit <= x;
      if x >= limit {
        DivideLess(x, limit);
      } else {
        assert x / limit == 0;
      }
    }
  }

  /** What remains of a sequence from an offset, which may lie beyond its end. */
  function From(list: seq<nat>, offset: nat): seq<nat> {
    if offset < |list| then list[offset..] else []
  }

  /** One page is the next limit-many matches of its search's sequence, none beyond the end, and says
      rightly whether any remain. */
  lemma PageIs(profile: Profile, policy: Policy, list: seq<nat>, limit: Json, offset: nat)
    requires 1 <= profile.maxRecordsPerCall && Limit(profile, policy, limit).Ok?
    ensures var l := Limit(profile, policy, limit).value;
            var page := SearchPage(profile, policy, list, limit, Int(offset));
            && 1 <= l <= RecordLimit(profile, policy)
            && (page.Ok? <==> offset <= MAX_OFFSET)
            && (page.Ok? ==>
                  && page.value.offset == offset && page.value.limit == l
                  && page.value.hasMore == (offset + l < |list|)
                  && page.value.records
                     == (if offset + l < |list| then list[offset..offset + l] else From(list, offset)))
  {
    hide Limit;
    hide RecordLimit;
    LimitPositive(profile, policy, limit);
  }

  /** A decisive order leaves the database no choice. */
  lemma {:induction false} OneList(order: Order, a: seq<nat>, b: seq<nat>)
    requires Sorted(order, a) && Sorted(order, b) && multiset(a) == multiset(b) && Decisive(order, a)
    ensures a == b
    decreases |a|
  {
    SameElements(a, b);
    if a != [] {
      FirstIsLeast(order, a, b[0]);
      FirstIsLeast(order, b, a[0]);
      WithoutFirst(a, b);
      OneList(order, a[1..], b[1..]);
    }
  }

  lemma SameElements(a: seq<nat>, b: seq<nat>)
    requires multiset(a) == multiset(b)
    ensures |a| == |b| && forall x :: x in a <==> x in b
  {
    assert |a| == |multiset(a)| == |multiset(b)| == |b|;
    forall x
      ensures x in a <==> x in b
    {
      assert x in a <==> x in multiset(a);
      assert x in b <==> x in multiset(b);
    }
  }

  lemma WithoutFirst(a: seq<nat>, b: seq<nat>)
    requires a != [] && b != [] && a[0] == b[0] && multiset(a) == multiset(b)
    ensures a == [a[0]] + a[1..] && b == [b[0]] + b[1..] && multiset(a[1..]) == multiset(b[1..])
  {
    assert a == [a[0]] + a[1..] && b == [b[0]] + b[1..];
    assert multiset(a[1..]) == multiset(a) - multiset{a[0]};
    assert multiset(b[1..]) == multiset(b) - multiset{b[0]};
  }

  lemma FirstIsLeast(order: Order, list: seq<nat>, id: nat)
    requires Sorted(order, list) && id in list
    ensures list[0] == id || order(list[0], id)
  {
  }

  /** From any offset, searched in a decisive order, the client either collects the rest of the
      matches, each once and in order, or is refused; it is refused exactly when its last page would
      start past the offset limit. */
  lemma {:induction false} FetchCollects(profile: Profile, policy: Policy, rows: seq<Row>, client: Domain, order: Order,
                                         lists: nat -> seq<nat>, limit: Json, offset: nat)
    requires 1 <= profile.maxRecordsPerCall && Limit(profile, policy, limit).Ok?
    requires forall o :: Lists(policy, rows, client, order, lists(o))
    requires Decisive(order, Matching(rows, Combined(policy, client)))
    ensures var found, l := Matching(rows, Combined(policy, client)), Limit(profile, policy, limit).value;
            var r := FetchFrom(profile, policy, lists, limit, offset);
            && 1 <= l
            && (r.Ok? <==> LastOffset(|found|, l, offset) <= MAX_OFFSET)
            && (r.Ok? ==> r.value == From(lists(0), offset))
    decreases if offset <= MAX_OFFSET then MAX_OFFSET + 1 - offset else 0
  {
    hide SearchPage;
    hide Limit;
    hide Matching;
    hide Combined;
    hide LastOffset;
    hide Decisive;
    hide Lists;
    var found, l, list := Matching(rows, Combined(policy, client)), Limit(profile, policy, limit).value, lists(offset);
    TheList(policy, rows, client, order, list, lists(0));
    PageIs(profile, policy, list, limit, offset);
    LastOffsetSteps(|found|, l, offset);
    if offset <= MAX_OFFSET && offset + l < |list| {
      FetchCollects(profile, policy, rows, client, order, lists, limit, offset + l);
      assert list[offset..] == list[offset..offset + l] + list[offset + l..];
    }
  }

  /** In a decisive order all the database's answers come from one sequence. */
  lemma TheList(policy: Policy, rows: seq<Row>, client: Domain, order: Order, list: seq<nat>, list': seq<nat>)
    requires Lists(policy, rows, client, order, list) && Lists(policy, rows, client, order, list')
    requires Decisive(order, Matching(rows, Combined(policy, client)))
    ensures list == list' && |list| == |Matching(rows, Combined(policy, client))|
  {
    hide Matching;
    hide Combined;
    SameElements(list, Matching(rows, Combined(policy, client)));
    OneList(order, list, list');
  }

  /** Paging from the start, in an order in which no two matches tie, yields exactly the records in
      both the client's and the forced domain, each once and in order; it does so if and only if the
      last page starts within the offset limit, so at every requested limit when there are at most
      100001 of them. */
  lemma PagingIsComplete(profile: Profile, policy: Policy, rows: seq<Row>, client: Domain, order: Order,
                         lists: nat -> seq<nat>, limit: Json)
    requires 1 <= profile.maxRecordsPerCall && Limit(profile, policy, limit).Ok?
    requires forall o :: Lists(policy, rows, client, order, lists(o))
    requires Decisive(order, Matching(rows, Combined(policy, client)))
    ensures var found, l := Matching(rows, Combined(policy, client)), Limit(profile, policy, limit).value;
            var r := FetchFrom(profile, policy, lists, limit, 0);
            && 1 <= l
            && (r.Ok? <==> found == [] || (|found| - 1) / l * l <= MAX_OFFSET)
            && (|found| <= MAX_OFFSET + 1 ==> r.Ok?)
            && (r.Ok? ==> Sorted(order, r.value) && multiset(r.value) == multiset(found))
            && (r.Ok? ==> forall id :: id in r.value <==> InBoth(policy, rows, client, id))
  {
    hide FetchFrom;
    hide Limit;
    hide Matching;
    hide Combined;
    hide Decisive;
    var found := Matching(rows, Combined(policy, client));
    FetchCollects(profile, policy, rows, client, order, lists, limit, 0);
    LastOffsetSteps(|found|, Limit(profile, policy, limit).value, 0);
    assert Lists(policy, rows, client, order, lists(0));
    assert From(lists(0), 0) == lists(0);
    hide Lists;
    var r := FetchFrom(profile, policy, lists, limit, 0);
    if r.Ok? {
      MatchesListed(policy, rows, client, order, r.value);
      forall id
        ensures id in r.value <==> InBoth(policy, rows, client, id)
      {
        MatchesInBoth(policy, rows, client, id);
      }
    }
  }

  /** A record in the client's domain and in the forced one, if the policy has one. */
  predicate InBoth(policy: Policy, rows: seq<Row>, client: Domain, id: nat) {
    exists i :: 0 <= i < |rows| && rows[i].id == id && client(id, rows[i].values)
      && (policy.Explicit? ==> policy.policy.forcedDomain(id, rows[i].values))
  }

  lemma MatchesInBoth(policy: Policy, rows: seq<Row>, client: Domain, id: nat)
    ensures id in Matching(rows, Combined(policy, client)) <==> InBoth(policy, rows, client, id)
  {
  }

  /** The offset limit does bite: however large a table is beyond that, a client that reads it one
      record at a time is refused. */
  lemma OffsetLimitCutsOff(profile: Profile, policy: Policy, rows: seq<Row>, client: Domain, order: Order,
                           lists: nat -> seq<nat>)
    requires 1 <= profile.maxRecordsPerCall
    requires forall o :: Lists(policy, rows, client, order, lists(o))
    requires MAX_OFFSET + 1 < |Matching(rows, Combined(policy, client))|
    ensures FetchFrom(profile, policy, lists, Int(1), 0).Err?
  {
    hide FetchFrom;
    hide Matching;
    hide Combined;
    hide Lists;
    SameLength(policy, rows, client, order, lists);
    OneByOne(profile, policy, lists, |Matching(rows, Combined(policy, client))|, 0);
  }

  lemma SameLength(policy: Policy, rows: seq<Row>, client: Domain, order: Order, lists: nat -> seq<nat>)
    requires forall o :: Lists(policy, rows, client, order, lists(o))
    ensures forall o :: |lists(o)| == |Matching(rows, Combined(policy, client))|
  {
    hide Matching;
    hide Combined;
    hide Lists;
    forall o
      ensures |lists(o)| == |Matching(rows, Combined(policy, client))|
    {
      MatchesListed(policy, rows, client, order, lists(o));
    }
  }

  /** One record at a time, a client gets one record from each search's sequence, if it may ask for all. */
  lemma {:induction false} OneByOne(profile: Profile, policy: Policy, lists: nat -> seq<nat>, total: nat, offset: nat)
    requires 1 <= profile.maxRecordsPerCall && (forall o :: |lists(o)| == total) && offset < total
    ensures var r := FetchFrom(profile, policy, lists, Int(1), offset);
            && (r.Ok? <==> total <= MAX_OFFSET + 1)
            && (r.Ok? ==> |r.value| == total - offset
                          && forall i :: 0 <= i < |r.value| ==> r.value[i] == lists(offset + i)[offset + i])
    decreases total - offset
  {
    hide SearchPage;
    hide Limit;
    LimitPositive(profile, policy, Int(1));
    LimitOne(profile, policy);
    PageIs(profile, policy, lists(offset), Int(1), offset);
    if offset + 1 < total {
      OneByOne(profile, policy, lists, total, offset + 1);
    }
  }

  lemma LimitOne(profile: Profile, policy: Policy)
    requires 1 <= profile.maxRecordsPerCall
    ensures Limit(profile, policy, Int(1)) == Ok(1)
  {
    LimitPositive(profile, policy, Int(1));
  }

  /** A tie is not harmless: if two different matches tie, the database may answer the searches of a
      client that reads one record at a time so that it is never refused, gets one match twice and
      another one not at all. */
  lemma TiesLoseRecords(profile: Profile, policy: Policy, rows: seq<Row>, client: Domain, order: Order,
                        list: seq<nat>, a: nat, b: nat) returns (lists: nat -> seq<nat>, missed: nat)
    requires 1 <= profile.maxRecordsPerCall && Preorder(order) && Lists(policy, rows, client, order, list)
    requires Distinct(list) && |list| <= MAX_OFFSET + 1
    requires a in list && b in list && a != b && order(a, b) && order(b, a)
    ensures forall o :: Lists(policy, rows, client, order, lists(o))
    ensures var r := FetchFrom(profile, policy, lists, Int(1), 0);
            r.Ok? && missed in Matching(rows, Combined(policy, client)) && missed !in r.value
  {
    hide Matching;
    hide Combined;
    hide FetchFrom;
    hide Lists;
    MatchesListed(policy, rows, client, order, list);
    var k := AdjacentTie(order, list, a, b);
    var swapped := list[k := list[k + 1]][k + 1 := list[k]];
    SwappedLists(policy, rows, client, order, list, k);
    lists := (o: nat) => if o == k + 1 then swapped else list;
    missed := list[k + 1];
    SameLength(policy, rows, client, order, lists);
    OneByOne(profile, policy, lists, |list|, 0);
    var r := FetchFrom(profile, policy, lists, Int(1), 0).value;
    forall i | 0 <= i < |r|
      ensures r[i] != missed
    {
      assert r[i] == lists(0 + i)[0 + i];
    }
  }

  lemma MatchesListed(policy: Policy, rows: seq<Row>, client: Domain, order: Order, list: seq<nat>)
    requires Lists(policy, rows, client, order, list)
    ensures Sorted(order, list) && |list| == |Matching(rows, Combined(policy, client))|
    ensures forall id :: id in list <==> id in Matching(rows, Combined(policy, client))
  {
    hide Matching;
    hide Combined;
    SameElements(list, Matching(rows, Combined(policy, client)));
  }

  /** Between two tied records of a sorted sequence all tie, so some neighbours do. */
  lemma AdjacentTie(order: Order, list: seq<nat>, a: nat, b: nat) returns (k: nat)
    requires Preorder(order) && Sorted(order, list)
    requires a in list && b in list && a != b && order(a, b) && order(b, a)
    ensures k + 1 < |list| && order(list[k + 1], list[k])
  {
    var i :| 0 <= i < |list| && list[i] == a;
    var j :| 0 <= j < |list| && list[j] == b;
    k := if i < j then i else j;
    var last := if i < j then j else i;
    assert order(list[last], list[k]);
    if k + 1 < last {
      assert order(list[k + 1], list[last]);
    }
  }

  lemma SwappedLists(policy: Policy, rows: seq<Row>, client: Domain, order: Order, list: seq<nat>, k: nat)
    requires Preorder(order) && Lists(policy, rows, client, order, list)
    requires k + 1 < |list| && order(list[k + 1], list[k])
    ensures Lists(policy, rows, client, order, list[k := list[k + 1]][k + 1 := list[k]])
  {
    hide Matching;
    hide Combined;
  }

  /** A client that reads one record at a time gets all the matches, from whatever sequences the
      database answers. */
  ghost predicate AlwaysComplete(profile: Profile, policy: Policy, rows: seq<Row>, client: Domain, order: Order)
    requires 1 <= profile.maxRecordsPerCall
  {
    forall lists: nat -> seq<nat> :: (forall o :: Lists(policy, rows, client, order, lists(o))) ==>
      var r := FetchFrom(profile, policy, lists, Int(1), 0);
      r.Ok? && multiset(r.value) == multiset(Matching(rows, Combined(policy, client)))
  }

  /** So paging one by one is safe exactly in an order in which no two matches tie. */
  lemma CompleteExactlyWhenDecisive(profile: Profile, policy: Policy, rows: seq<Row>, client: Domain, order: Order,
                                    list: seq<nat>)
    requires 1 <= profile.maxRecordsPerCall && Preorder(order) && Lists(policy, rows, client, order, list)
    requires Distinct(list) && |list| <= MAX_OFFSET + 1
    ensures AlwaysComplete(profile, policy, rows, client, order)
            <==> Decisive(order, Matching(rows, Combined(policy, client)))
  {
    hide Matching;
    hide Combined;
    hide FetchFrom;
    hide Lists;
    hide Limit;
    var found := Matching(rows, Combined(policy, client));
    MatchesListed(policy, rows, client, order, list);
    LimitOne(profile, policy);
    if Decisive(order, found) {
      forall lists: nat -> seq<nat> | forall o :: Lists(policy, rows, client, order, lists(o))
        ensures var r := FetchFrom(profile, policy, lists, Int(1), 0); r.Ok? && multiset(r.value) == multiset(found)
      {
        PagingIsComplete(profile, policy, rows, client, order, lists, Int(1));
      }
    } else {
      var a, b :| a in found && b in found && order(a, b) && order(b, a) && a != b;
      var lists, missed := TiesLoseRecords(profile, policy, rows, client, order, list, a, b);
      assert missed in multiset(found);
      assert missed !in multiset(FetchFrom(profile, policy, lists, Int(1), 0).value);
    }
  }
}
