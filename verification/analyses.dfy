/** Saved analyses: the record schema, the owner-scoped save, history and
    delete handlers, and the router that puts the token check in front of
    all three. */
module Analyses {
  import opened Outcomes
  import opened Http
  import opened Gate

  /** The values the schema's `chartType` enum admits. */
  datatype ChartType = Bar | Line | Pie | Scatter | Area | Other

  function ChartTypeName(c: ChartType): string {
    match c
    case Bar => "Bar"
    case Line => "Line"
    case Pie => "Pie"
    case Scatter => "Scatter"
    case Area => "Area"
    case Other => "Other"
  }

  /** The enum check: a name is admitted exactly when it is one of the six,
      spelled as the schema spells it. */
  function ParseChartType(s: string): (c: Option<ChartType>)
    ensures c.Some? ==> ChartTypeName(c.value) == s
  {
    if s == "Bar" then Some(Bar)
    else if s == "Line" then Some(Line)
    else if s == "Pie" then Some(Pie)
    else if s == "Scatter" then Some(Scatter)
    else if s == "Area" then Some(Area)
    else if s == "Other" then Some(Other)
    else None
  }

  /** Every chart type's name is admitted and reads back as itself. */
  lemma ChartTypeRoundTrip(c: ChartType)
    ensures ParseChartType(ChartTypeName(c)) == Some(c)
  {
  }

  /** A stored analysis. `createdAt` is the insertion time in milliseconds;
      the schema has no field for the spreadsheet data the client sends. */
  datatype Record = Record(
    id: nat,
    userId: nat,
    filename: string,
    createdAt: int,
    chartType: ChartType,
    previewUrl: Option<string>)

  /** The collection, and the id the next insertion receives. */
  datatype Store = Store(records: seq<Record>, nextId: nat)

  /** Ids are distinct and below `nextId`. */
  predicate WellFormed(st: Store) {
    && (forall i :: 0 <= i < |st.records| ==> st.records[i].id < st.nextId)
    && (forall i, j :: 0 <= i < j < |st.records| ==> st.records[i].id != st.records[j].id)
  }

  /** The fields `saveAnalysis` reads from the request body; an absent
      field is `None`. */
  datatype SaveBody = SaveBody(filename: Option<string>, chartType: Option<string>, excelData: Option<string>)

  /** What the handlers answer with on success. */
  datatype Payload = Message(text: string) | Listing(history: seq<Record>)

  const Saved := "Analysis saved successfully"
  const NotFound := "Analysis not found or you do not have permission to delete it"
  const Deleted := "Analysis deleted successfully"

  /** The schema's validation of a new document: `filename` is required
      (mongoose rejects a missing or empty string) and `chartType` is
      required and must be one of the enum's names. */
  function Validate(body: SaveBody): (r: Option<(string, ChartType)>)
    ensures r.Some? <==>
              && body.filename.Some? && body.filename.value != ""
              && body.chartType.Some? && ParseChartType(body.chartType.value).Some?
    ensures r.Some? ==> r.value == (body.filename.value, ParseChartType(body.chartType.value).value)
  {
    if body.filename.None? || body.filename.value == "" || body.chartType.None? then None
    else match ParseChartType(body.chartType.value)
      case None => None
      case Some(c) => Some((body.filename.value, c))
  }

  /** `saveAnalysis` for the caller `user` at time `now`. A document the
      schema rejects makes `save()` throw, which the handler answers with
      500. A valid one is always inserted, even if an identical one exists. */
  function Save(st: Store, db: Db, user: Claims, body: SaveBody, now: int): (r: (Store, Response<Payload>))
    ensures db.Failing? || Validate(body).None? ==> r == (st, ServerError())
    ensures db.Healthy? && Validate(body).Some? ==>
              var (name, kind) := Validate(body).value;
              && r.0 == Store(st.records + [Record(st.nextId, user.id, name, now, kind, None)], st.nextId + 1)
              && r.1 == Response(201, Succeeded(Message(Saved)))
  {
    if db.Failing? then (st, ServerError())
    else match Validate(body)
      case None => (st, ServerError())
      case Some((name, kind)) =>
        (Store(st.records + [Record(st.nextId, user.id, name, now, kind, None)], st.nextId + 1),
         Response(201, Succeeded(Message(Saved))))
  }

  /** The records belonging to `userId`, in store order. */
  function OwnedBy(records: seq<Record>, userId: nat): (r: seq<Record>)
    ensures forall x :: x in r <==> x in records && x.userId == userId
    ensures multiset(r) <= multiset(records)
    ensures forall x :: multiset(r)[x] == if x.userId == userId then multiset(records)[x] else 0
  {
    if |records| == 0 then []
    else
      var rest := OwnedBy(records[1..], userId);
      assert records == [records[0]] + records[1..];
      OwnedStep(records[0], records[1..], rest, userId);
      if records[0].userId == userId then [records[0]] + rest else rest
  }

  /** One step of the filter keeps each record's multiplicity exact. */
  lemma OwnedStep(head: Record, tail: seq<Record>, rest: seq<Record>, userId: nat)
    requires forall x :: multiset(rest)[x] == if x.userId == userId then multiset(tail)[x] else 0
    ensures var r := if head.userId == userId then [head] + rest else rest;
            forall x :: multiset(r)[x] == if x.userId == userId then multiset([head] + tail)[x] else 0
  {
    assert multiset([head] + tail) == multiset{head} + multiset(tail);
    assert multiset([head] + rest) == multiset{head} + multiset(rest);
  }

  /** Ordered by `createdAt`, newest first. */
  predicate NewestFirst(xs: seq<Record>) {
    forall i, j :: 0 <= i < j < |xs| ==> xs[i].createdAt >= xs[j].createdAt
  }

  function Insert(x: Record, xs: seq<Record>): (r: seq<Record>)
    requires NewestFirst(xs)
    ensures NewestFirst(r)
    ensures multiset(r) == multiset(xs) + multiset{x}
    ensures |r| == |xs| + 1
  {
    if |xs| == 0 || x.createdAt >= xs[0].createdAt then [x] + xs
    else
      var rest := Insert(x, xs[1..]);
      assert xs == [xs[0]] + xs[1..];
      NoLaterThan(rest, xs[1..], x, xs[0].createdAt);
      [xs[0]] + rest
  }

  /** A rearrangement of `xs` plus `x` is no later than a time that bounds
      them all. */
  lemma NoLaterThan(ys: seq<Record>, xs: seq<Record>, x: Record, t: int)
    requires multiset(ys) == multiset(xs) + multiset{x}
    requires x.createdAt <= t && forall k :: 0 <= k < |xs| ==> xs[k].createdAt <= t
    ensures forall k :: 0 <= k < |ys| ==> ys[k].createdAt <= t
  {
    forall k | 0 <= k < |ys| ensures ys[k].createdAt <= t {
      var y := ys[k];
      assert y in multiset(xs) + multiset{x};
      if y != x {
        assert y in xs;
      }
    }
  }

  /** `.sort({ createdAt: -1 })`. */
  function SortNewestFirst(xs: seq<Record>): (r: seq<Record>)
    ensures NewestFirst(r)
    ensures multiset(r) == multiset(xs)
  {
    if |xs| == 0 then []
    else
      assert xs == [xs[0]] + xs[1..];
      Insert(xs[0], SortNewestFirst(xs[1..]))
  }

  /** `getHistory`: exactly the caller's records, newest first. */
  function History(st: Store, db: Db, user: Claims): (r: Response<Payload>)
    ensures db.Failing? ==> r == ServerError()
    ensures db.Healthy? ==> r.status == 200 && r.body.Succeeded? && r.body.payload.Listing?
    ensures db.Healthy? ==>
              var h := r.body.payload.history;
              && NewestFirst(h)
              && multiset(h) == multiset(OwnedBy(st.records, user.id))
              && (forall x :: x in h <==> x in st.records && x.userId == user.id)
  {
    if db.Failing? then ServerError()
    else
      var h := SortNewestFirst(OwnedBy(st.records, user.id));
      assert forall x :: x in h <==> x in multiset(OwnedBy(st.records, user.id));
      Response(200, Succeeded(Listing(h)))
  }

  /** A save that is later than everything the caller stored before puts
      the new record at the head of the caller's history. */
  lemma SaveThenHistory(st: Store, user: Claims, body: SaveBody, now: int)
    requires WellFormed(st) && Validate(body).Some?
    requires forall x :: x in st.records ==> x.createdAt < now
    ensures var after := Save(st, Healthy, user, body, now).0;
            var h := History(after, Healthy, user).body.payload.history;
            |h| > 0 && h[0] == after.records[|st.records|]
  {
    var after := Save(st, Healthy, user, body, now).0;
    var newest := after.records[|st.records|];
    var h := History(after, Healthy, user).body.payload.history;
    assert newest in h;
    var k :| 0 <= k < |h| && h[k] == newest;
    assert h[0].createdAt >= now;
    assert h[0] in after.records;
    assert after.records == st.records + [newest];
    assert h[0] !in st.records;
    assert h[0] == newest;
  }

  /** How a route parameter casts to an id: a malformed one makes the query
      throw. */
  datatype IdParam = WellFormedId(value: nat) | MalformedId

  /** The position of the record with that id, if any (`_id` is unique in
      a well-formed store). */
  function IndexOfId(records: seq<Record>, id: nat): (r: Option<nat>)
    ensures r.Some? ==> r.value < |records| && records[r.value].id == id
    ensures r.None? <==> forall k :: 0 <= k < |records| ==> records[k].id != id
  {
    if |records| == 0 then None
    else if records[0].id == id then Some(0)
    else match IndexOfId(records[1..], id)
      case None => None
      case Some(k) => Some(k + 1)
  }

  /** The records without the one at position `i`, in order. */
  function RemoveAt(records: seq<Record>, i: nat): (r: seq<Record>)
    requires i < |records|
    ensures |r| == |records| - 1
    ensures forall k :: 0 <= k < i ==> r[k] == records[k]
    ensures forall k :: i <= k < |r| ==> r[k] == records[k + 1]
  {
    records[..i] + records[i + 1..]
  }

  /** The caller owns a record with that id. */
  predicate Owns(records: seq<Record>, userId: nat, id: nat) {
    exists i :: 0 <= i < |records| && records[i].id == id && records[i].userId == userId
  }

  /** `deleteAnalysis`: a record that is absent and a record owned by
      someone else get the same 404 and leave the store alone; an owned
      record is removed and nothing else changes. */
  function Delete(st: Store, db: Db, user: Claims, param: IdParam): (r: (Store, Response<Payload>))
    ensures db.Failing? || param.MalformedId? ==> r == (st, ServerError())
    ensures db.Healthy? && param.WellFormedId? && !Owns(st.records, user.id, param.value) ==>
              r == (st, Response(404, Failed(NotFound)))
    ensures db.Healthy? && param.WellFormedId? && Owns(st.records, user.id, param.value) ==>
              && IndexOfId(st.records, param.value).Some?
              && r.0 == st.(records := RemoveAt(st.records, IndexOfId(st.records, param.value).value))
              && r.1 == Response(200, Succeeded(Message(Deleted)))
  {
    if db.Failing? then (st, ServerError())
    else match param
      case MalformedId => (st, ServerError())
      case WellFormedId(id) =>
        if !Owns(st.records, user.id, id) then (st, Response(404, Failed(NotFound)))
        else
          var i := IndexOfId(st.records, id).value;
          (st.(records := RemoveAt(st.records, i)), Response(200, Succeeded(Message(Deleted))))
  }

  /** In a well-formed store a successful delete removes the caller's
      record with that id, keeps every other record in order, leaves no
      record with that id behind and keeps the store well formed. */
  lemma DeleteRemovesExactlyOne(st: Store, user: Claims, id: nat)
    requires WellFormed(st) && Owns(st.records, user.id, id)
    ensures var after := Delete(st, Healthy, user, WellFormedId(id)).0;
            && WellFormed(after)
            && |after.records| == |st.records| - 1
            && (forall x :: x in after.records <==> x in st.records && x.id != id)
  {
    var i :| 0 <= i < |st.records| && st.records[i].id == id && st.records[i].userId == user.id;
    assert IndexOfId(st.records, id).value == i;
    RemoveAtMembers(st.records, i);
    RemoveAtKeepsIds(st, i);
  }

  /** With distinct ids, removing position `i` removes exactly the records
      that carry its id. */
  lemma RemoveAtMembers(records: seq<Record>, i: nat)
    requires i < |records|
    requires forall a, b :: 0 <= a < b < |records| ==> records[a].id != records[b].id
    ensures forall x :: x in RemoveAt(records, i) <==> x in records && x.id != records[i].id
  {
    var r := RemoveAt(records, i);
    forall x ensures x in r <==> x in records && x.id != records[i].id {
      if x in r {
        var k :| 0 <= k < |r| && r[k] == x;
        var k' := if k < i then k else k + 1;
        assert x == records[k'] && k' != i;
      }
      if x in records && x.id != records[i].id {
        var k :| 0 <= k < |records| && records[k] == x;
        if k < i {
          assert r[k] == x;
        } else {
          assert r[k - 1] == x;
        }
      }
    }
  }

  /** Removing a record keeps a store well formed. */
  lemma RemoveAtKeepsIds(st: Store, i: nat)
    requires WellFormed(st) && i < |st.records|
    ensures WellFormed(st.(records := RemoveAt(st.records, i)))
  {
    var r := RemoveAt(st.records, i);
    forall a | 0 <= a < |r| ensures r[a].id < st.nextId {
      var a' := if a < i then a else a + 1;
      assert r[a] == st.records[a'];
    }
    forall a, b | 0 <= a < b < |r| ensures r[a].id != r[b].id {
      var a' := if a < i then a else a + 1;
      var b' := if b < i then b else b + 1;
      assert r[a] == st.records[a'];
      assert r[b] == st.records[b'];
    }
  }

  /** The schema has no field for the spreadsheet data, so what the client
      sends there never reaches the store; the new record has no preview
      URL and is stamped with the time of the save. */
  lemma SaveDropsExcelData(st: Store, user: Claims, body: SaveBody, data: Option<string>, now: int)
    requires Validate(body).Some?
    ensures Save(st, Healthy, user, body, now) == Save(st, Healthy, user, body.(excelData := data), now)
    ensures var r := Save(st, Healthy, user, body, now).0.records[|st.records|];
            r.previewUrl.None? && r.createdAt == now && r.userId == user.id
  {
  }

  /** Saving keeps the store well formed. */
  lemma SaveKeepsWellFormed(st: Store, db: Db, user: Claims, body: SaveBody, now: int)
    requires WellFormed(st)
    ensures WellFormed(Save(st, db, user, body, now).0)
  {
  }

  /** The routes of the analysis router. */
  datatype Route = SaveRoute(body: SaveBody) | HistoryRoute | DeleteRoute(param: IdParam)

  /** A request to one of the routes, with its `authorization` header. */
  datatype Request = Request(header: Option<string>, route: Route)

  /** The router: every route passes the token check first. */
  function Serve(st: Store, db: Db, verify: string -> Option<Claims>, req: Request, now: int)
    : (r: (Store, Response<Payload>))
    ensures Authenticate(req.header, verify).Deny? ==>
              r.0 == st && r.1.status == 403
              && r.1.body == Failed(Authenticate(req.header, verify).response.body.error)
    ensures Authenticate(req.header, verify).Pass? ==>
              var user := Authenticate(req.header, verify).user;
              r == match req.route
                   case SaveRoute(body) => Save(st, db, user, body, now)
                   case HistoryRoute => (st, History(st, db, user))
                   case DeleteRoute(param) => Delete(st, db, user, param)
  {
    match Authenticate(req.header, verify)
    case Deny(response) => (st, Response(response.status, Failed(response.body.error)))
    case Pass(user) =>
      match req.route
      case SaveRoute(body) => Save(st, db, user, body, now)
      case HistoryRoute => (st, History(st, db, user))
      case DeleteRoute(param) => Delete(st, db, user, param)
  }

  /** A request without a usable token changes nothing, whatever it asks. */
  lemma UnauthenticatedChangesNothing(st: Store, db: Db, verify: string -> Option<Claims>, route: Route, now: int)
    ensures Serve(st, db, verify, Request(None, route), now) == (st, Response(403, Failed(TokenRequired)))
  {
  }
}
