/** Which of the bus messages that reach a watcher it passes on, given the versions it has seen.

    Nothing here depends on how connections come and go: a delivery is the list of updates that
    arrived on all of them. */
module VersionStream {
  import opened Wrappers
  import opened Json
  import opened Uris

  datatype Update = Update(uri: string, version: int)

  type Versions = map<(string, string), int>

  /** What a subject's watcher makes of one element of a notification list. */
  function ParseUpdate(notification: Json): (u: Option<Update>)
    ensures u.Some? ==> OdooUri(u.value.uri)
  {
    var event := if notification.Obj? then Get(notification.fields, "message") else Null;
    if !event.Obj? || Get(event.fields, "type") != Str("connect_mcp_resource_updated") then None
    else
      var payload := Get(event.fields, "payload");
      if !payload.Obj? || Get(payload.fields, "type") != Str("resource.updated") then None
      else
        var uri, version := Get(payload.fields, "uri"), Get(payload.fields, "version");
        if !uri.Str? || !OdooUri(uri.s) then None
        else if !version.Int? then None
        else Some(Update(uri.s, version.n))
  }

  /** A notification is taken for an update exactly when it is a resource update about an odoo:// uri
      with an integer version, and then for that one. */
  lemma ParsedExactly(notification: Json, u: Update)
    ensures ParseUpdate(notification) == Some(u) <==>
              && notification.Obj? && "message" in notification.fields && notification.fields["message"].Obj?
              && var event := notification.fields["message"].fields;
                 && "type" in event && event["type"] == Str("connect_mcp_resource_updated")
                 && "payload" in event && event["payload"].Obj?
                 && var payload := event["payload"].fields;
                    && "type" in payload && payload["type"] == Str("resource.updated")
                    && "uri" in payload && payload["uri"] == Str(u.uri) && "odoo://" <= u.uri
                    && "version" in payload && payload["version"] == Int(u.version)
  {
  }

  /** The message that Odoo puts on the bus for an update. */
  function Encode(u: Update): Json {
    Obj(map[
      "message" := Obj(map[
        "type" := Str("connect_mcp_resource_updated"),
        "payload" := Obj(map["type" := Str("resource.updated"), "uri" := Str(u.uri), "version" := Int(u.version)])])])
  }

  lemma EncodedUpdateParses(u: Update)
    ensures ParseUpdate(Encode(u)) == if OdooUri(u.uri) then Some(u) else None
  {
    hide OdooUri;
  }

  function Seen(versions: Versions, subject: string, uri: string): int {
    if (subject, uri) in versions then versions[(subject, uri)] else 0
  }

  /** The versions after a delivery, and the updates that were published. */
  datatype Delivery = Delivery(versions: Versions, published: seq<Update>)

  function Deliver(versions: Versions, subject: string, updates: seq<Update>): Delivery {
    if updates == [] then Delivery(versions, [])
    else
      var last, before := updates[|updates| - 1], Deliver(versions, subject, updates[..|updates| - 1]);
      if last.version <= Seen(before.versions, subject, last.uri) then before
      else Delivery(before.versions[(subject, last.uri) := last.version], before.published + [last])
  }

  lemma DeliverSnoc(versions: Versions, subject: string, updates: seq<Update>, u: Update)
    ensures var before := Deliver(versions, subject, updates);
            Deliver(versions, subject, updates + [u]) ==
            if u.version <= Seen(before.versions, subject, u.uri) then before
            else Delivery(before.versions[(subject, u.uri) := u.version], before.published + [u])
  {
    assert (updates + [u])[..|updates|] == updates;
  }

  /** The updates in a notification list, in order. */
  function Updates(notifications: seq<Json>): seq<Update> {
    if notifications == [] then []
    else
      var u := ParseUpdate(notifications[|notifications| - 1]);
      Updates(notifications[..|notifications| - 1]) + (if u.Some? then [u.value] else [])
  }

  /** The versions of one resource, in order. */
  function VersionsOf(updates: seq<Update>, uri: string): seq<int> {
    if updates == [] then []
    else
      var last := updates[|updates| - 1];
      VersionsOf(updates[..|updates| - 1], uri) + (if last.uri == uri then [last.version] else [])
  }

  lemma VersionsOfSnoc(updates: seq<Update>, u: Update, uri: string)
    ensures VersionsOf(updates + [u], uri)
            == if u.uri == uri then VersionsOf(updates, uri) + [u.version] else VersionsOf(updates, uri)
  {
    assert (updates + [u])[..|updates|] == updates;
  }

  /** The greatest of some versions and a floor. */
  function Top(versions: seq<int>, floor: int): (top: int)
    ensures floor <= top && (forall v :: v in versions ==> v <= top)
    ensures top == floor || top in versions
  {
    if versions == [] then floor
    else
      var last, before := versions[|versions| - 1], Top(versions[..|versions| - 1], floor);
      assert versions == versions[..|versions| - 1] + [last];
      if before < last then last else before
  }

  /** The versions that exceed the floor and every version before them. */
  function Maxima(versions: seq<int>, floor: int): seq<int> {
    if versions == [] then []
    else
      var last, before := versions[|versions| - 1], versions[..|versions| - 1];
      Maxima(before, floor) + (if last > Top(before, floor) then [last] else [])
  }

  lemma MaximaSnoc(versions: seq<int>, v: int, floor: int)
    ensures Maxima(versions + [v], floor) == Maxima(versions, floor) + (if v > Top(versions, floor) then [v] else [])
    ensures Top(versions + [v], floor) == (if v > Top(versions, floor) then v else Top(versions, floor))
  {
    assert (versions + [v])[..|versions|] == versions;
  }

  /** Whatever is delivered, in whatever order and however often: of each resource, exactly the
      strict running maxima are published, and the greatest version is remembered. */
  lemma {:induction false} PublishedAreMaxima(versions: Versions, subject: string, updates: seq<Update>, uri: string)
    ensures var d, floor := Deliver(versions, subject, updates), Seen(versions, subject, uri);
            && VersionsOf(d.published, uri) == Maxima(VersionsOf(updates, uri), floor)
            && Seen(d.versions, subject, uri) == Top(VersionsOf(updates, uri), floor)
  {
    if updates != [] {
      hide VersionsOf;
      hide Maxima;
      hide Top;
      hide Seen;
      hide Deliver;
      var last, rest := updates[|updates| - 1], updates[..|updates| - 1];
      assert updates == rest + [last];
      PublishedAreMaxima(versions, subject, rest, uri);
      DeliverSnoc(versions, subject, rest, last);
      VersionsOfSnoc(rest, last, uri);
      VersionsOfSnoc(Deliver(versions, subject, rest).published, last, uri);
      MaximaSnoc(VersionsOf(rest, uri), last.version, Seen(versions, subject, uri));
      SeenAfter(Deliver(versions, subject, rest).versions, subject, last, uri);
    } else {
      assert VersionsOf([], uri) == [];
    }
  }

  lemma SeenAfter(versions: Versions, subject: string, u: Update, uri: string)
    ensures Seen(versions[(subject, u.uri) := u.version], subject, uri)
            == if uri == u.uri then u.version else Seen(versions, subject, uri)
  {
  }

  /** Another subject's delivery is never touched. */
  lemma {:induction false} OtherSubjectsKept(versions: Versions, subject: string, updates: seq<Update>,
                                             key: (string, string))
    requires key.0 != subject
    ensures var after := Deliver(versions, subject, updates).versions;
            (key in after <==> key in versions) && (key in after ==> after[key] == versions[key])
  {
    if updates != [] {
      OtherSubjectsKept(versions, subject, updates[..|updates| - 1], key);
    }
  }

  /** A committed stream of one access. */
  predicate Increasing(stream: seq<Update>) {
    && (forall i :: 0 <= i < |stream| ==> 0 < stream[i].version)
    && (forall i, j :: 0 <= i < j < |stream| ==> stream[i].version < stream[j].version)
  }

  /** How much of a stream some deliveries have covered. */
  function Frontier(places: seq<nat>): nat {
    if places == [] then 0
    else
      var last, before := places[|places| - 1], Frontier(places[..|places| - 1]);
      if before <= last then last + 1 else before
  }

  /** Each reconnection may go back in the stream, but none skips ahead. */
  predicate NoGaps(places: seq<nat>) {
    places != [] ==>
      var before := places[..|places| - 1];
      NoGaps(before) && places[|places| - 1] <= Frontier(before)
  }

  predicate Within(places: seq<nat>, n: nat) {
    forall k :: 0 <= k < |places| ==> places[k] < n
  }

  /** The updates that arrive when these places of a stream are delivered. */
  function Pick(stream: seq<Update>, places: seq<nat>): (updates: seq<Update>)
    requires Within(places, |stream|)
    ensures |updates| == |places| && forall i :: 0 <= i < |places| ==> updates[i] == stream[places[i]]
  {
    seq(|places|, i requires 0 <= i < |places| => stream[places[i]])
  }

  /** The latest version of a resource in the covered part of a stream. */
  function Latest(stream: seq<Update>, uri: string): int {
    Top(VersionsOf(stream, uri), 0)
  }

  /** Replays without gaps publish each event of the covered part exactly once and in order. */
  lemma {:induction false} ReplaysPublishOnce(versions: Versions, subject: string, stream: seq<Update>,
                                              places: seq<nat>)
    requires Increasing(stream) && NoGaps(places) && Within(places, |stream|)
    requires forall uri :: Seen(versions, subject, uri) == 0
    ensures Frontier(places) <= |stream|
    ensures var d := Deliver(versions, subject, Pick(stream, places));
            && d.published == stream[..Frontier(places)]
            && (forall uri :: Seen(d.versions, subject, uri) == Latest(stream[..Frontier(places)], uri))
    decreases |places|
  {
    hide Deliver;
    hide Seen;
    hide Latest;
    hide Increasing;
    if places == [] {
      assert Pick(stream, places) == [];
      NothingCovered(versions, subject);
    } else {
      var place, rest := places[|places| - 1], places[..|places| - 1];
      ReplaysPublishOnce(versions, subject, stream, rest);
      assert Pick(stream, places) == Pick(stream, rest) + [stream[place]];
      DeliverSnoc(versions, subject, Pick(stream, rest), stream[place]);
      var d, covered := Deliver(versions, subject, Pick(stream, rest)), Frontier(rest);
      if place < covered {
        OldVersion(stream, covered, place);
      } else {
        NewVersion(stream, covered);
        assert stream[..covered + 1] == stream[..covered] + [stream[covered]];
        var after := d.versions[(subject, stream[covered].uri) := stream[covered].version];
        var longer := stream[..covered + 1];
        forall uri
          ensures Seen(after, subject, uri) == Latest(longer, uri)
        {
          SeenAfter(d.versions, subject, stream[covered], uri);
          LatestSnoc(stream, covered, uri);
        }
      }
    }
  }

  lemma NothingCovered(versions: Versions, subject: string)
    ensures Deliver(versions, subject, []) == Delivery(versions, [])
    ensures forall uri :: Latest([], uri) == 0
  {
  }

  /** What has been covered is remembered. */
  lemma {:induction false} OldVersion(stream: seq<Update>, covered: nat, place: nat)
    requires place < covered <= |stream|
    ensures stream[place].version <= Latest(stream[..covered], stream[place].uri)
  {
    var uri, all := stream[place].uri, stream[..covered];
    MemberVersion(all, place);
  }

  lemma {:induction false} MemberVersion(updates: seq<Update>, i: nat)
    requires i < |updates|
    ensures updates[i].version in VersionsOf(updates, updates[i].uri)
  {
    if i < |updates| - 1 {
      MemberVersion(updates[..|updates| - 1], i);
    }
  }

  lemma {:induction false} VersionMember(updates: seq<Update>, uri: string, v: int)
    requires v in VersionsOf(updates, uri)
    ensures exists i :: 0 <= i < |updates| && updates[i].version == v
  {
    var last, before := updates[|updates| - 1], updates[..|updates| - 1];
    if v in VersionsOf(before, uri) {
      VersionMember(before, uri, v);
      var i :| 0 <= i < |before| && before[i].version == v;
      assert updates[i].version == v;
    } else {
      assert updates[|updates| - 1].version == v;
    }
  }

  /** The next event of the stream is newer than anything remembered. */
  lemma NewVersion(stream: seq<Update>, covered: nat)
    requires Increasing(stream) && covered < |stream|
    ensures Latest(stream[..covered], stream[covered].uri) < stream[covered].version
  {
    hide VersionsOf;
    var uri, all := stream[covered].uri, stream[..covered];
    if Latest(all, uri) in VersionsOf(all, uri) {
      VersionMember(all, uri, Latest(all, uri));
      var i :| 0 <= i < |all| && all[i].version == Latest(all, uri);
      assert stream[i].version == Latest(all, uri);
    }
  }

  lemma LatestSnoc(stream: seq<Update>, covered: nat, uri: string)
    requires Increasing(stream) && covered < |stream|
    ensures Latest(stream[..covered + 1], uri)
            == if uri == stream[covered].uri then stream[covered].version else Latest(stream[..covered], uri)
  {
    hide Increasing;
    hide VersionsOf;
    hide Top;
    var u, all := stream[covered], stream[..covered];
    assert stream[..covered + 1] == all + [u];
    VersionsOfSnoc(all, u, uri);
    NewVersion(stream, covered);
    MaximaSnoc(VersionsOf(all, uri), u.version, 0);
  }
}
