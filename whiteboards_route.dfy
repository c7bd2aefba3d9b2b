/**
 * The collection route `/api/whiteboards` (`src/app/api/whiteboards/route.ts`).
 * The Prisma table is a sequence of records in insertion order; the caller's
 * identity is what the authentication provider reports; a failing store call
 * is the flag `storeUp == false`.
 */
module WhiteboardsRoute {
  import opened Wrappers
  import opened Json
  import opened JsString
  import opened WhiteboardTypes

  /** One row of the list: a whiteboard without `content` and `comments`, with its comment count. */
  datatype WhiteboardWithCount = WhiteboardWithCount(
    id: string,
    name: string,
    status: Status,
    shareId: string,
    createdAt: int,
    updatedAt: int,
    userId: string,
    commentCount: nat)

  datatype Payload =
    | ErrorBody(error: string)
    | BoardList(boards: seq<WhiteboardWithCount>)
    | BoardRecord(board: Whiteboard)

  datatype Response = Response(status: int, payload: Payload)

  const Unauthorized := Response(401, ErrorBody("Unauthorized"))
  const NameRequired := Response(400, ErrorBody("Name is required"))
  const InternalError := Response(500, ErrorBody("Internal server error"))

  /** `!userId` fails for an absent identity and for the empty string. */
  predicate SignedIn(caller: Option<string>) {
    caller.Some? && caller.value != ""
  }

  // ---------------------------------------------------------------- GET

  /** The `select` of the query: every column but `content`, plus `_count.comments`. */
  function WithCount(w: Whiteboard): (r: WhiteboardWithCount)
    ensures r.id == w.id && r.name == w.name && r.status == w.status && r.shareId == w.shareId
    ensures r.createdAt == w.createdAt && r.updatedAt == w.updatedAt && r.userId == w.userId
    ensures r.commentCount == |w.comments|
  {
    WhiteboardWithCount(w.id, w.name, w.status, w.shareId, w.createdAt, w.updatedAt, w.userId, |w.comments|)
  }

  /** The `where` of the query: owned by `uid` and, when a status is given, of that status. */
  predicate Matches(w: Whiteboard, uid: string, status: Option<Status>) {
    w.userId == uid && (status.Some? ==> w.status == status.value)
  }

  /** The matching rows, projected, in store order. */
  function Selected(records: seq<Whiteboard>, uid: string, status: Option<Status>): (r: seq<WhiteboardWithCount>)
    ensures |r| <= |records|
    ensures forall x :: x in r <==> exists w :: w in records && Matches(w, uid, status) && x == WithCount(w)
  {
    if records == [] then []
    else
      var rest := Selected(records[1..], uid, status);
      assert forall w :: w in records <==> w == records[0] || w in records[1..];
      if Matches(records[0], uid, status) then [WithCount(records[0])] + rest else rest
  }

  predicate SortedByUpdatedDesc(s: seq<WhiteboardWithCount>) {
    forall i, j :: 0 <= i < j < |s| ==> s[i].updatedAt >= s[j].updatedAt
  }

  /** Putting a row in front of a sorted list keeps it sorted when the row is no older than any of them. */
  lemma PrependSorted(x: WhiteboardWithCount, s: seq<WhiteboardWithCount>)
    requires SortedByUpdatedDesc(s)
    requires forall k :: 0 <= k < |s| ==> x.updatedAt >= s[k].updatedAt
    ensures SortedByUpdatedDesc([x] + s)
  {
    var r := [x] + s;
    forall i, j | 0 <= i < j < |r| ensures r[i].updatedAt >= r[j].updatedAt {
      assert r[j] == s[j - 1];
      if i > 0 { assert r[i] == s[i - 1]; }
    }
  }

  function InsertByUpdatedDesc(x: WhiteboardWithCount, s: seq<WhiteboardWithCount>): (r: seq<WhiteboardWithCount>)
    requires SortedByUpdatedDesc(s)
    ensures SortedByUpdatedDesc(r)
    ensures multiset(r) == multiset(s) + multiset{x}
  {
    if s == [] || x.updatedAt >= s[0].updatedAt then
      PrependSorted(x, s);
      [x] + s
    else
      var rest := InsertByUpdatedDesc(x, s[1..]);
      assert s == [s[0]] + s[1..];
      forall k | 0 <= k < |rest| ensures s[0].updatedAt >= rest[k].updatedAt {
        assert rest[k] in multiset(rest);
        if rest[k] != x {
          var t := s[1..];
          assert rest[k] in t;
          var n :| 0 <= n < |t| && t[n] == rest[k];
          assert t[n] == s[n + 1];
        }
      }
      PrependSorted(s[0], rest);
      [s[0]] + rest
  }

  /** `orderBy: { updatedAt: 'desc' }`; rows with equal `updatedAt` keep store order. */
  function SortByUpdatedDesc(s: seq<WhiteboardWithCount>): (r: seq<WhiteboardWithCount>)
    ensures SortedByUpdatedDesc(r)
    ensures multiset(r) == multiset(s)
  {
    if s == [] then []
    else
      assert s == [s[0]] + s[1..];
      InsertByUpdatedDesc(s[0], SortByUpdatedDesc(s[1..]))
  }

  /** How the `status` search parameter reaches the query. */
  datatype StatusFilter = NoFilter | ByStatus(status: Status) | InvalidStatus

  /**
   * `...(status && { status })`: an absent or empty parameter adds no
   * condition; any other value is cast to the enum, and the store refuses a
   * value that is not one of its two spellings.
   */
  function ParseStatusFilter(param: Option<string>): (f: StatusFilter)
    ensures f == NoFilter <==> param == None || param == Some("")
    ensures f.ByStatus? ==> param == Some(StatusName(f.status))
    ensures param.Some? && ParseStatus(param.value).Some? ==> f.ByStatus?
    ensures f == InvalidStatus <==> param.Some? && param.value != "" && param.value != "DRAFT" && param.value != "PUBLISHED"
  {
    match param
    case None => NoFilter
    case Some(p) =>
      if p == "" then NoFilter
      else match ParseStatus(p)
        case Some(s) => ByStatus(s)
        case None => InvalidStatus
  }

  function FilterStatus(f: StatusFilter): Option<Status> {
    if f.ByStatus? then Some(f.status) else None
  }

  /** `GET /api/whiteboards[?status=]`. */
  function Get(records: seq<Whiteboard>, caller: Option<string>, statusParam: Option<string>, storeUp: bool): (r: Response)
    ensures !SignedIn(caller) ==> r == Unauthorized
    ensures r.status == 200 <==> SignedIn(caller) && ParseStatusFilter(statusParam) != InvalidStatus && storeUp
    ensures r.status != 200 && SignedIn(caller) ==> r == InternalError
    ensures r.status == 200 ==>
      r.payload.BoardList?
      && SortedByUpdatedDesc(r.payload.boards)
      && multiset(r.payload.boards)
         == multiset(Selected(records, caller.value, FilterStatus(ParseStatusFilter(statusParam))))
  {
    if !SignedIn(caller) then Unauthorized
    else
      var filter := ParseStatusFilter(statusParam);
      if filter == InvalidStatus || !storeUp then InternalError
      else Response(200, BoardList(SortByUpdatedDesc(Selected(records, caller.value, FilterStatus(filter)))))
  }

  /** A successful GET lists only the caller's boards, of the requested status, each a projection of a stored record. */
  lemma GetListsOnlyMatching(records: seq<Whiteboard>, caller: Option<string>, statusParam: Option<string>, storeUp: bool, b: WhiteboardWithCount)
    requires Get(records, caller, statusParam, storeUp).status == 200
    requires b in Get(records, caller, statusParam, storeUp).payload.boards
    ensures b.userId == caller.value
    ensures ParseStatusFilter(statusParam).ByStatus? ==> b.status == ParseStatusFilter(statusParam).status
    ensures exists w :: w in records && b == WithCount(w)
  {
    var boards := Get(records, caller, statusParam, storeUp).payload.boards;
    var sel := Selected(records, caller.value, FilterStatus(ParseStatusFilter(statusParam)));
    assert b in multiset(boards);
    assert b in sel;
  }

  /** A successful GET drops none of the caller's boards of the requested status. */
  lemma GetListsEveryMatching(records: seq<Whiteboard>, caller: Option<string>, statusParam: Option<string>, storeUp: bool, w: Whiteboard)
    requires Get(records, caller, statusParam, storeUp).status == 200
    requires w in records && w.userId == caller.value
    requires ParseStatusFilter(statusParam).ByStatus? ==> w.status == ParseStatusFilter(statusParam).status
    ensures WithCount(w) in Get(records, caller, statusParam, storeUp).payload.boards
  {
    var boards := Get(records, caller, statusParam, storeUp).payload.boards;
    var sel := Selected(records, caller.value, FilterStatus(ParseStatusFilter(statusParam)));
    assert Matches(w, caller.value, FilterStatus(ParseStatusFilter(statusParam)));
    assert WithCount(w) in sel;
    assert WithCount(w) in multiset(boards);
  }

  /** An empty `status` parameter is the same request as none. */
  lemma EmptyStatusIsNoFilter(records: seq<Whiteboard>, caller: Option<string>, storeUp: bool)
    ensures Get(records, caller, Some(""), storeUp) == Get(records, caller, None, storeUp)
  {
  }

  // ---------------------------------------------------------------- POST

  /** The request body: JSON that did not parse, or the parsed value. */
  datatype RequestBody = Malformed | Parsed(value: JsonValue)

  /** `const { name, content, status = 'DRAFT' } = body`; `None` stands for `undefined`. */
  datatype BodyFields = BodyFields(name: Option<JsonValue>, content: Option<JsonValue>, status: Option<JsonValue>)

  /**
   * Destructuring the body: `null` throws, an object yields its own properties,
   * and any other value (a number, a string, an array) has none of the three.
   */
  function Destructure(v: JsonValue): (r: Option<BodyFields>)
    ensures r.None? <==> v == JNull
    ensures v.JObject? ==>
      r == Some(BodyFields(Property(v.fields, "name"), Property(v.fields, "content"), Property(v.fields, "status")))
    ensures v != JNull && !v.JObject? ==> r == Some(BodyFields(None, None, None))
  {
    match v
    case JNull => None
    case JObject(m) => Some(BodyFields(Property(m, "name"), Property(m, "content"), Property(m, "status")))
    case _ => Some(BodyFields(None, None, None))
  }

  /** The outcome of `if (!name || name.trim().length === 0)` and `name.trim()`. */
  datatype NameCheck = Blank | NotAString | Name(trimmed: string)

  function CheckName(name: Option<JsonValue>): (r: NameCheck)
    ensures r.Name? <==> name.Some? && name.value.JString? && !AllWhiteSpace(name.value.s)
    ensures r.Name? ==> r.trimmed == Trim(name.value.s) && r.trimmed != "" && IsTrimmed(r.trimmed)
    ensures r == NotAString <==> name.Some? && Truthy(name.value) && !name.value.JString?
    ensures r == Blank <==> name.None? || !Truthy(name.value) || (name.value.JString? && AllWhiteSpace(name.value.s))
  {
    match name
    case None => Blank
    case Some(v) =>
      if !Truthy(v) then Blank
      else match v
        case JString(s) => if Trim(s) == "" then Blank else Name(Trim(s))
        case _ => NotAString
  }

  /** The status stored: `'DRAFT'` when the key is absent, `None` when the store refuses the value. */
  function StoredStatus(status: Option<JsonValue>): (r: Option<Status>)
    ensures status.None? ==> r == Some(Draft)
    ensures status.Some? ==> (r.Some? <==> status.value.JString? && ParseStatus(status.value.s).Some?)
    ensures status.Some? && status.value.JString? ==> r == ParseStatus(status.value.s)
  {
    match status
    case None => Some(Draft)
    case Some(JString(s)) => ParseStatus(s)
    case Some(_) => None
  }

  function Ids(records: seq<Whiteboard>): set<string> {
    set w | w in records :: w.id
  }

  function ShareIds(records: seq<Whiteboard>): set<string> {
    set w | w in records :: w.shareId
  }

  /** The handler's answer and the store after it. */
  datatype PostResult = PostResult(response: Response, records: seq<Whiteboard>)

  /** A body whose `name` is missing, falsy, or a string of blanks. */
  predicate NameMissingOrBlank(v: JsonValue) {
    match v
    case JObject(m) => "name" !in m || !Truthy(m["name"]) || (m["name"].JString? && AllWhiteSpace(m["name"].s))
    case _ => true
  }

  /** A body the handler can turn into a record: an object with a non-blank string name and an absent or valid status. */
  predicate Creatable(v: JsonValue) {
    v.JObject?
    && "name" in v.fields && v.fields["name"].JString? && !AllWhiteSpace(v.fields["name"].s)
    && ("status" in v.fields ==> v.fields["status"].JString? && ParseStatus(v.fields["status"].s).Some?)
  }

  /**
   * `POST /api/whiteboards`. The new record's `id`, `shareId` and timestamps
   * are generated by the store; they are parameters here. The store refuses a
   * record whose `id` or `shareId` is already taken.
   */
  function Post(records: seq<Whiteboard>, caller: Option<string>, body: RequestBody,
                newId: string, newShareId: string, now: int, storeUp: bool): (out: PostResult)
    ensures !SignedIn(caller) ==> out == PostResult(Unauthorized, records)
    ensures out.response == Unauthorized <==> !SignedIn(caller)
    ensures out.response.status == 201 || out.response == Unauthorized
         || out.response == NameRequired || out.response == InternalError
    ensures out.response.status != 201 ==> out.records == records
    ensures out.response.status == 400 <==>
      SignedIn(caller) && body.Parsed? && body.value != JNull && NameMissingOrBlank(body.value)
    ensures out.response.status == 201 <==>
      SignedIn(caller) && body.Parsed? && Creatable(body.value)
      && storeUp && newId !in Ids(records) && newShareId !in ShareIds(records)
    ensures out.response.status == 201 ==>
      out.response.payload.BoardRecord? && out.records == records + [out.response.payload.board]
  {
    if !SignedIn(caller) then PostResult(Unauthorized, records)
    else if body.Malformed? then PostResult(InternalError, records)
    else match Destructure(body.value)
      case None => PostResult(InternalError, records)
      case Some(fields) =>
        match CheckName(fields.name)
        case Blank => PostResult(NameRequired, records)
        case NotAString => PostResult(InternalError, records)
        case Name(name) =>
          match StoredStatus(fields.status)
          case None => PostResult(InternalError, records)
          case Some(status) =>
            if !storeUp || newId in Ids(records) || newShareId in ShareIds(records) then PostResult(InternalError, records)
            else
              var w := Whiteboard(newId, name, fields.content, status, newShareId, now, now, caller.value, []);
              PostResult(Response(201, BoardRecord(w)), records + [w])
  }

  /** The record a successful POST stores: trimmed name, the caller as owner, the given content, `DRAFT` unless told otherwise. */
  lemma PostCreatedRecord(records: seq<Whiteboard>, caller: Option<string>, body: RequestBody,
                          newId: string, newShareId: string, now: int, storeUp: bool)
    requires Post(records, caller, body, newId, newShareId, now, storeUp).response.status == 201
    ensures var w := Post(records, caller, body, newId, newShareId, now, storeUp).response.payload.board;
      var m := body.value.fields;
      && w.name == Trim(m["name"].s) && w.name != "" && IsTrimmed(w.name)
      && w.userId == caller.value
      && w.content == Property(m, "content")
      && w.status == (if "status" in m then ParseStatus(m["status"].s).value else Draft)
      && w.id == newId && w.shareId == newShareId
      && w.createdAt == now && w.updatedAt == now
      && w.comments == []
  {
    var out := Post(records, caller, body, newId, newShareId, now, storeUp);
    assert SignedIn(caller) && body.Parsed? && Creatable(body.value) && storeUp;
    assert newId !in Ids(records) && newShareId !in ShareIds(records);
    var m := body.value.fields;
    var fields := BodyFields(Property(m, "name"), Property(m, "content"), Property(m, "status"));
    assert Destructure(body.value) == Some(fields);
    assert CheckName(fields.name) == Name(Trim(m["name"].s));
    var status := if "status" in m then ParseStatus(m["status"].s).value else Draft;
    assert StoredStatus(fields.status) == Some(status);
    var w := Whiteboard(newId, Trim(m["name"].s), fields.content, status, newShareId, now, now, caller.value, []);
    assert out == PostResult(Response(201, BoardRecord(w)), records + [w]);
  }

  /** Records stay unique in `id` and in `shareId` across every POST. */
  predicate UniqueKeys(records: seq<Whiteboard>) {
    forall i, j :: 0 <= i < j < |records| ==>
      records[i].id != records[j].id && records[i].shareId != records[j].shareId
  }

  lemma PostKeepsKeysUnique(records: seq<Whiteboard>, caller: Option<string>, body: RequestBody,
                            newId: string, newShareId: string, now: int, storeUp: bool)
    requires UniqueKeys(records)
    ensures UniqueKeys(Post(records, caller, body, newId, newShareId, now, storeUp).records)
  {
    var out := Post(records, caller, body, newId, newShareId, now, storeUp);
    if out.response.status == 201 {
      var s := out.records;
      var w := out.response.payload.board;
      PostCreatedRecord(records, caller, body, newId, newShareId, now, storeUp);
      assert s == records + [w];
      assert w.id == newId && newId !in Ids(records);
      assert w.shareId == newShareId && newShareId !in ShareIds(records);
      forall i, j | 0 <= i < j < |s|
        ensures s[i].id != s[j].id && s[i].shareId != s[j].shareId
      {
        if j == |records| {
          assert s[i] in records;
          assert s[i].id in Ids(records) && s[i].shareId in ShareIds(records);
        }
      }
    }
  }

  /** A signed-in POST of a creatable body to a working store with free keys is answered 201. */
  lemma PostAcceptsCreatable(records: seq<Whiteboard>, uid: string, v: JsonValue,
                             newId: string, newShareId: string, now: int)
    requires uid != "" && Creatable(v)
    requires newId !in Ids(records) && newShareId !in ShareIds(records)
    ensures Post(records, Some(uid), Parsed(v), newId, newShareId, now, true).response.status == 201
  {
    assert SignedIn(Some(uid));
  }

  /**
   * The body the list page sends, `{ name: newWhiteboardName.trim() }`, is
   * accepted whenever that name is not blank and the store accepts the record;
   * the stored name is exactly what the page sent.
   */
  lemma ClientRequestCreatesDraft(records: seq<Whiteboard>, uid: string, typed: string,
                                  newId: string, newShareId: string, now: int)
    requires uid != "" && Trim(typed) != ""
    requires newId !in Ids(records) && newShareId !in ShareIds(records)
    ensures var req := CreateWhiteboardRequest(Trim(typed), None, None);
      var out := Post(records, Some(uid), Parsed(CreateRequestJson(req)), newId, newShareId, now, true);
      && out.response.status == 201
      && out.response.payload.board.name == Trim(typed)
      && out.response.payload.board.status == Draft
      && out.response.payload.board.content == None
      && out.records == records + [out.response.payload.board]
  {
    var req := CreateWhiteboardRequest(Trim(typed), None, None);
    var v := CreateRequestJson(req);
    var name := Trim(typed);
    TrimIdempotent(typed);
    assert !AllWhiteSpace(name);
    assert v.fields == map["name" := JString(name)];
    assert Creatable(v);
    PostAcceptsCreatable(records, uid, v, newId, newShareId, now);
    PostCreatedRecord(records, Some(uid), Parsed(v), newId, newShareId, now, true);
    assert Property(v.fields, "content") == None;
  }
}
