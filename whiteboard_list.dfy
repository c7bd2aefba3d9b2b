/**
 * The whiteboard list page (`src/components/WhiteBoardLists.tsx`): its six
 * pieces of state and the handlers that update them. What the browser
 * supplies (the signed-in user, the answer to `fetch`, the answer to
 * `confirm`, `window.location.origin`) arrives as parameters; a handler's
 * requests to the server are its results.
 */
module WhiteboardListPage {
  import opened Wrappers
  import opened Json
  import opened JsString
  import opened WhiteboardTypes
  import opened Url
  import opened WhiteboardsRoute
  import Middleware

  /** The filter buttons: `"ALL" | "DRAFT" | "PUBLISHED"`. */
  datatype Filter = All | Only(status: Status)

  /** How a request to the server ended: an ok response with its data, a non-ok response, or a thrown error. */
  datatype Outcome<T> = Ok(data: T) | NotOk | Threw

  const ListPath: string := "/api/whiteboards"

  /** The URL the list is fetched from under a filter. */
  function FetchUrl(f: Filter): (url: string)
    ensures f == All ==> url == ListPath
    ensures f.Only? ==> url == ListPath + "?status=" + StatusName(f.status)
  {
    match f
    case All => ListPath
    case Only(s) => ListPath + "?status=" + StatusName(s)
  }

  /** A status name holds none of the characters that delimit parts of a URL. */
  lemma StatusNameIsPlain(s: Status)
    ensures '#' !in StatusName(s) && '&' !in StatusName(s) && '?' !in StatusName(s)
  {
    match s
    case Draft => assert StatusName(s) == ['D', 'R', 'A', 'F', 'T'];
    case Published => assert StatusName(s) == ['P', 'U', 'B', 'L', 'I', 'S', 'H', 'E', 'D'];
  }

  /** Under a status filter, the fetch URL carries that status's name as its `status` parameter. */
  lemma StatusFilterReadsBack(s: Status)
    ensures SearchParam(FetchUrl(Only(s)), "status") == Some(StatusName(s))
  {
    assert ListPath == ['/', 'a', 'p', 'i', '/', 'w', 'h', 'i', 't', 'e', 'b', 'o', 'a', 'r', 'd', 's'];
    var v := StatusName(s);
    assert FetchUrl(Only(s)) == ListPath + "?" + "status" + "=" + v;
    StatusNameIsPlain(s);
    SingleParam(ListPath, "status", v);
  }

  /** The server reads back from the fetch URL exactly the status filter the page selected. */
  lemma FetchUrlCarriesFilter(f: Filter)
    ensures SearchParam(FetchUrl(f), "status") == (if f.Only? then Some(StatusName(f.status)) else None)
    ensures ParseStatusFilter(SearchParam(FetchUrl(f), "status"))
         == (if f.Only? then ByStatus(f.status) else NoFilter)
  {
    match f
    case All =>
      assert ListPath == ['/', 'a', 'p', 'i', '/', 'w', 'h', 'i', 't', 'e', 'b', 'o', 'a', 'r', 'd', 's'];
      NoQueryNoParam(ListPath, "status");
    case Only(s) =>
      StatusFilterReadsBack(s);
      assert ParseStatus(StatusName(s)) == Some(s);
  }

  /** Whatever the selected filter, a signed-in fetch succeeds and lists only the user's boards of that filter. */
  lemma FetchedBoardsMatchFilter(records: seq<Whiteboard>, uid: string, f: Filter, b: WhiteboardWithCount)
    requires uid != ""
    ensures Get(records, Some(uid), SearchParam(FetchUrl(f), "status"), true).status == 200
    ensures b in Get(records, Some(uid), SearchParam(FetchUrl(f), "status"), true).payload.boards ==>
      b.userId == uid && (f.Only? ==> b.status == f.status)
  {
    FetchUrlCarriesFilter(f);
    var param := SearchParam(FetchUrl(f), "status");
    if b in Get(records, Some(uid), param, true).payload.boards {
      GetListsOnlyMatching(records, Some(uid), param, true, b);
    }
  }

  /** `prev.filter((wb) => wb.id !== id)`. */
  function RemoveById(s: seq<WhiteboardWithCount>, id: string): (r: seq<WhiteboardWithCount>)
    ensures |r| <= |s|
    ensures forall x :: x in r <==> x in s && x.id != id
  {
    if s == [] then []
    else
      var rest := RemoveById(s[1..], id);
      assert forall x :: x in s <==> x == s[0] || x in s[1..];
      if s[0].id != id then [s[0]] + rest else rest
  }

  /** Removal works piece by piece, so the boards that stay keep their order. */
  lemma {:induction false} RemoveByIdConcat(a: seq<WhiteboardWithCount>, b: seq<WhiteboardWithCount>, id: string)
    ensures RemoveById(a + b, id) == RemoveById(a, id) + RemoveById(b, id)
    decreases |a|
  {
    if a == [] {
      assert a + b == b;
    } else {
      assert (a + b)[1..] == a[1..] + b;
      RemoveByIdConcat(a[1..], b, id);
    }
  }

  /** Deleting an id no board has leaves the list as it is. */
  lemma {:induction false} RemoveAbsentId(s: seq<WhiteboardWithCount>, id: string)
    requires forall k :: 0 <= k < |s| ==> s[k].id != id
    ensures RemoveById(s, id) == s
    decreases |s|
  {
    if s != [] {
      var t := s[1..];
      assert forall k :: 0 <= k < |t| ==> t[k] == s[k + 1];
      RemoveAbsentId(t, id);
      assert s[0].id != id;
      assert RemoveById(s, id) == [s[0]] + RemoveById(t, id);
      assert s == [s[0]] + t;
    }
  }

  /** The path the delete request goes to. */
  function DeletePath(id: string): string {
    ListPath + "/" + id
  }

  /** `copyShareLink`: only a published board yields a link; the other case is the alert. */
  datatype ShareResult = NotShareable | Copied(link: string)

  const SharePrefix: string := "/share/"

  function CopyShareLink(shareId: string, status: Status, origin: string): (r: ShareResult)
    ensures r.Copied? <==> status == Published
    ensures r.Copied? ==> r.link == origin + SharePrefix + shareId
  {
    if status != Published then NotShareable
    else Copied(origin + SharePrefix + shareId)
  }

  /** The page a share link opens is not behind the sign-in protection. */
  lemma ShareLinkIsPublic(shareId: string)
    ensures Middleware.Decide(SharePrefix + shareId) == Middleware.PassThrough
  {
    var p := SharePrefix + shareId;
    assert p[1] == 's' && Middleware.BoardPrefix[1] == 'w';
    Middleware.OtherPrefixNotProtected(p);
    Middleware.ProtectedRouteIff(p);
  }

  /** The Edit link `/whiteboard/<id>` of a board whose id is a single path segment is protected. */
  lemma EditLinkIsProtected(id: string)
    requires id != [] && '/' !in id
    ensures Middleware.Decide(Middleware.BoardPrefix + id) == Middleware.Protect
  {
    Middleware.BoardPageProtected(id);
    Middleware.ProtectedRouteIff(Middleware.BoardPrefix + id);
  }

  // ------------------------------------------------ rows as JSON, and reading `_count.comments`

  function StatusJson(s: Status): JsonValue {
    JString(StatusName(s))
  }

  /** A row of the GET answer as the page receives it (timestamps stand for the serialised dates). */
  function RowJson(b: WhiteboardWithCount): (v: JsonValue)
    ensures v.JObject? && "_count" in v.fields
    ensures v.fields["_count"] == JObject(map["comments" := JNumber(b.commentCount)])
    ensures "id" in v.fields && v.fields["id"] == JString(b.id)
    ensures "status" in v.fields && v.fields["status"] == JString(StatusName(b.status))
  {
    JObject(map[
      "id" := JString(b.id), "name" := JString(b.name), "status" := StatusJson(b.status),
      "shareId" := JString(b.shareId), "createdAt" := JNumber(b.createdAt),
      "updatedAt" := JNumber(b.updatedAt), "userId" := JString(b.userId),
      "_count" := JObject(map["comments" := JNumber(b.commentCount)])])
  }

  /** The 201 answer of POST: the created record's own columns, and no `_count`. */
  function RecordJson(w: Whiteboard): (v: JsonValue)
    ensures v.JObject? && "_count" !in v.fields
    ensures "id" in v.fields && v.fields["id"] == JString(w.id)
    ensures "status" in v.fields && v.fields["status"] == JString(StatusName(w.status))
  {
    JObject(map[
      "id" := JString(w.id), "name" := JString(w.name),
      "content" := (if w.content.Some? then w.content.value else JNull),
      "status" := StatusJson(w.status), "shareId" := JString(w.shareId),
      "createdAt" := JNumber(w.createdAt), "updatedAt" := JNumber(w.updatedAt),
      "userId" := JString(w.userId)])
  }

  /** The result of a JavaScript property read: a thrown `TypeError`, `undefined`, or a value. */
  datatype Read = ReadThrew | ReadUndefined | ReadValue(value: JsonValue)

  /** `v.key`: reading from `undefined` or `null` throws; other non-objects have none of these keys. */
  function ReadProperty(r: Read, key: string): (out: Read)
    ensures r == ReadThrew || r == ReadUndefined || r == ReadValue(JNull) ==> out == ReadThrew
    ensures r.ReadValue? && r.value.JObject? ==>
      out == (if key in r.value.fields then ReadValue(r.value.fields[key]) else ReadUndefined)
    ensures r.ReadValue? && r.value != JNull && !r.value.JObject? ==> out == ReadUndefined
  {
    match r
    case ReadThrew => ReadThrew
    case ReadUndefined => ReadThrew
    case ReadValue(v) =>
      match v
      case JNull => ReadThrew
      case JObject(m) => if key in m then ReadValue(m[key]) else ReadUndefined
      case _ => ReadUndefined
  }

  /** What a card shows after "Comments:": `whiteboard._count.comments`. */
  function CommentCountCell(row: JsonValue): Read {
    ReadProperty(ReadProperty(ReadValue(row), "_count"), "comments")
  }

  /** Every row of a GET answer renders its comment count. */
  lemma ListedRowRenders(b: WhiteboardWithCount)
    ensures CommentCountCell(RowJson(b)) == ReadValue(JNumber(b.commentCount))
  {
    var m := RowJson(b).fields;
    assert "_count" in m;
  }

  /** `setWhiteboards((prev) => [whiteboard, ...prev])` as written: the POST answer itself goes first. */
  function PrependCreatedAsWritten(rows: seq<JsonValue>, created: Whiteboard): (r: seq<JsonValue>)
    ensures |r| == |rows| + 1 && r[1..] == rows
    ensures r[0] == RecordJson(created)
  {
    [RecordJson(created)] + rows
  }

  /** As written, the card of a just-created board throws while it renders: the POST answer has no `_count`. */
  lemma CreatedRowAsWrittenThrows(rows: seq<JsonValue>, created: Whiteboard)
    ensures CommentCountCell(PrependCreatedAsWritten(rows, created)[0]) == ReadThrew
  {
    var m := RecordJson(created).fields;
    assert "_count" !in m;
  }

  /** The corrected page keeps `WithCount(record)`, the same row GET would list; its card shows the record's comment count, 0 for a new board. */
  lemma CreatedRowRenders(record: Whiteboard)
    ensures CommentCountCell(RowJson(WithCount(record))) == ReadValue(JNumber(|record.comments|))
    ensures record.comments == [] ==> CommentCountCell(RowJson(WithCount(record))) == ReadValue(JNumber(0))
  {
    ListedRowRenders(WithCount(record));
  }

  /** The six state fields at one moment. */
  datatype ListState = ListState(
    whiteboards: seq<WhiteboardWithCount>,
    loading: bool,
    filter: Filter,
    showCreateDialog: bool,
    newWhiteboardName: string,
    creating: bool)

  /** The request `createWhiteboard` sends for the typed name: none for a blank name, else `{ name: name.trim() }`. */
  function CreateRequest(typed: string): (r: Option<CreateWhiteboardRequest>)
    ensures r.None? <==> AllWhiteSpace(typed)
    ensures r.Some? ==> r.value.name == Trim(typed) && IsTrimmed(r.value.name) && r.value.name != ""
    ensures r.Some? ==> r.value.content.None? && r.value.status.None?
  {
    var name := Trim(typed);
    if name == "" then None else Some(CreateWhiteboardRequest(name, None, None))
  }

  class WhiteboardList {
    var whiteboards: seq<WhiteboardWithCount>
    var loading: bool
    var filter: Filter
    var showCreateDialog: bool
    var newWhiteboardName: string
    var creating: bool

    function State(): ListState
      reads this
    {
      ListState(whiteboards, loading, filter, showCreateDialog, newWhiteboardName, creating)
    }

    /** The initial values of the six `useState` calls. */
    constructor ()
      ensures State() == ListState([], true, All, false, "", false)
    {
      whiteboards := [];
      loading := true;
      filter := All;
      showCreateDialog := false;
      newWhiteboardName := "";
      creating := false;
    }

    /**
     * `fetchWhiteboards`: without a user nothing happens, not even the end of
     * loading. Otherwise the list is fetched under the current filter; an ok
     * answer replaces the list, any other leaves it; loading ends either way.
     */
    method FetchWhiteboards(userId: Option<string>, outcome: Outcome<seq<WhiteboardWithCount>>)
      returns (request: Option<string>)
      modifies this
      ensures !SignedIn(userId) ==> request == None && State() == old(State())
      ensures SignedIn(userId) ==>
        request == Some(FetchUrl(old(filter)))
        && State() == old(State()).(whiteboards := if outcome.Ok? then outcome.data else old(whiteboards),
                                    loading := false)
    {
      if !SignedIn(userId) {
        return None;
      }
      request := Some(FetchUrl(filter));
      if outcome.Ok? {
        whiteboards := outcome.data;
      }
      loading := false;
    }

    /** The effect on `[userId, isLoaded, filter]`: fetch when signed in, otherwise only end loading once auth is known. */
    method AuthOrFilterChanged(userId: Option<string>, isLoaded: bool, outcome: Outcome<seq<WhiteboardWithCount>>)
      returns (request: Option<string>)
      modifies this
      ensures !isLoaded ==> request == None && State() == old(State())
      ensures isLoaded && !SignedIn(userId) ==> request == None && State() == old(State()).(loading := false)
      ensures isLoaded && SignedIn(userId) ==>
        request == Some(FetchUrl(old(filter)))
        && State() == old(State()).(whiteboards := if outcome.Ok? then outcome.data else old(whiteboards),
                                    loading := false)
    {
      if isLoaded && SignedIn(userId) {
        request := FetchWhiteboards(userId, outcome);
      } else if isLoaded {
        loading := false;
        request := None;
      } else {
        request := None;
      }
    }

    /**
     * `createWhiteboard`: a blank name sends nothing and changes nothing.
     * Otherwise the trimmed name is posted; an ok answer puts the new board
     * first, clears the name and closes the dialog; `creating` is false
     * once the request has ended.
     */
    method CreateWhiteboard(outcome: Outcome<Whiteboard>) returns (request: Option<CreateWhiteboardRequest>)
      modifies this
      ensures request == CreateRequest(old(newWhiteboardName))
      ensures request.None? ==> State() == old(State())
      ensures request.Some? && outcome.Ok? ==>
        State() == old(State()).(whiteboards := [WithCount(outcome.data)] + old(whiteboards),
                                 newWhiteboardName := "", showCreateDialog := false, creating := false)
      ensures request.Some? && !outcome.Ok? ==> State() == old(State()).(creating := false)
    {
      request := CreateRequest(newWhiteboardName);
      if request.Some? {
        FinishCreate(outcome);
      }
    }

    /** The part of `createWhiteboard` after the name check: the request is in flight, then settles. */
    method FinishCreate(outcome: Outcome<Whiteboard>)
      modifies this
      ensures outcome.Ok? ==>
        State() == old(State()).(whiteboards := [WithCount(outcome.data)] + old(whiteboards),
                                 newWhiteboardName := "", showCreateDialog := false, creating := false)
      ensures !outcome.Ok? ==> State() == old(State()).(creating := false)
    {
      creating := true;
      if outcome.Ok? {
        whiteboards := [WithCount(outcome.data)] + whiteboards;
        newWhiteboardName := "";
        showCreateDialog := false;
      }
      creating := false;
    }

    /** `deleteWhiteboard`: nothing without confirmation; an ok answer removes the boards with that id. */
    method DeleteWhiteboard(id: string, confirmed: bool, outcome: Outcome<()>) returns (request: Option<string>)
      modifies this
      ensures !confirmed ==> request == None && State() == old(State())
      ensures confirmed ==>
        request == Some(DeletePath(id))
        && State() == old(State()).(whiteboards := if outcome.Ok? then RemoveById(old(whiteboards), id) else old(whiteboards))
    {
      if !confirmed {
        return None;
      }
      request := Some(DeletePath(id));
      if outcome.Ok? {
        whiteboards := RemoveById(whiteboards, id);
      }
    }

    /** The Cancel button of the create dialog. */
    method CancelCreate()
      modifies this
      ensures State() == old(State()).(showCreateDialog := false, newWhiteboardName := "")
    {
      showCreateDialog := false;
      newWhiteboardName := "";
    }

    /** The "Create New" button. */
    method OpenCreateDialog()
      modifies this
      ensures State() == old(State()).(showCreateDialog := true)
    {
      showCreateDialog := true;
    }

    /** A filter button; the effect then fetches under the new filter. */
    method SelectFilter(f: Filter)
      modifies this
      ensures State() == old(State()).(filter := f)
    {
      filter := f;
    }

    /** Typing in the name field. */
    method EditName(name: string)
      modifies this
      ensures State() == old(State()).(newWhiteboardName := name)
    {
      newWhiteboardName := name;
    }
  }

  /** Creating a board and then deleting it leaves the list as it was before, apart from boards sharing its id. */
  lemma DeleteUndoesCreate(s: seq<WhiteboardWithCount>, record: Whiteboard)
    ensures RemoveById([WithCount(record)] + s, record.id) == RemoveById(s, record.id)
  {
    RemoveByIdConcat([WithCount(record)], s, record.id);
    assert RemoveById([WithCount(record)], record.id) == [];
  }
}
