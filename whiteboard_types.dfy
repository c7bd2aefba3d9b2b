/** The records of `src/types/whiteboard.ts`. Dates are integer timestamps. */
module WhiteboardTypes {
  import opened Wrappers
  import opened Json

  datatype Status = Draft | Published

  /** The wire spelling of a status (`'DRAFT' | 'PUBLISHED'`). */
  function StatusName(s: Status): (name: string)
    ensures ParseStatus(name) == Some(s)
  {
    match s
    case Draft => "DRAFT"
    case Published => "PUBLISHED"
  }

  /** The inverse of `StatusName`: only the two exact spellings are statuses. */
  function ParseStatus(name: string): (r: Option<Status>)
    ensures r.Some? <==> name == "DRAFT" || name == "PUBLISHED"
  {
    if name == "DRAFT" then Some(Draft)
    else if name == "PUBLISHED" then Some(Published)
    else None
  }

  datatype Comment = Comment(
    id: string,
    content: string,
    x: real,
    y: real,
    createdAt: int,
    updatedAt: int,
    userId: string,
    userName: string,
    userAvatar: Option<string>,
    whiteboardId: string)

  /**
   * A stored whiteboard. `content` is the opaque canvas snapshot (`None` when
   * never set); `comments` is the record's comment relation.
   */
  datatype Whiteboard = Whiteboard(
    id: string,
    name: string,
    content: Option<JsonValue>,
    status: Status,
    shareId: string,
    createdAt: int,
    updatedAt: int,
    userId: string,
    comments: seq<Comment>)

  /** Body of `POST /api/whiteboards`; `None` fields are left out of the JSON. */
  datatype CreateWhiteboardRequest = CreateWhiteboardRequest(
    name: string,
    content: Option<JsonValue>,
    status: Option<Status>)

  datatype UpdateWhiteboardRequest = UpdateWhiteboardRequest(
    name: Option<string>,
    content: Option<JsonValue>,
    status: Option<Status>)

  datatype CreateCommentRequest = CreateCommentRequest(content: string, x: real, y: real)

  /** `JSON.stringify` of a create request, parsed back: absent fields have no key. */
  function CreateRequestJson(req: CreateWhiteboardRequest): (v: JsonValue)
    ensures v.JObject? && "name" in v.fields && v.fields["name"] == JString(req.name)
    ensures ("content" in v.fields) == req.content.Some?
    ensures req.content.Some? ==> v.fields["content"] == req.content.value
    ensures ("status" in v.fields) == req.status.Some?
    ensures req.status.Some? ==> v.fields["status"] == JString(StatusName(req.status.value))
  {
    var withName := map["name" := JString(req.name)];
    var withContent := if req.content.Some? then withName["content" := req.content.value] else withName;
    var all := if req.status.Some? then withContent["status" := JString(StatusName(req.status.value))] else withContent;
    JObject(all)
  }
}
