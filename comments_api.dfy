/** backend/app/api/comments.py: comments on a drift. Every endpoint runs for the user the
    authentication dependency resolved (`caller`). */
module CommentsApi {
  import opened Common
  import opened Models

  const DriftNotFound := HttpError(404, "Drift not found")
  const CommentNotFound := HttpError(404, "Comment not found")
  const EmptyContent := HttpError(400, "Comment content cannot be empty")
  const NotAuthor := HttpError(403, "Not authorized to delete this comment")

  /** `limit` when the query leaves it out. */
  const DefaultLimit := 50

  predicate DriftExists(drifts: seq<Drift>, driftId: int) {
    exists d :: d in drifts && d.id == driftId
  }

  /** `POST /{drift_id}`: 404 for an unknown drift, checked first; then 400 for empty or
      white-space content; otherwise one comment is appended, by the caller, on that drift, with
      the content stripped. A refused comment adds nothing. */
  method AddComment(db: Database, caller: User, driftId: int, content: string) returns (r: Result<Comment>)
    modifies db`comments, db`nextCommentId
    ensures r.Err? && r.error == DriftNotFound <==> !DriftExists(db.drifts, driftId)
    ensures r.Err? && r.error == EmptyContent <==> DriftExists(db.drifts, driftId) && IsPyBlank(content)
    ensures r.Ok? <==> DriftExists(db.drifts, driftId) && !IsPyBlank(content)
    ensures r.Err? ==> db.comments == old(db.comments) && db.nextCommentId == old(db.nextCommentId)
    ensures r.Ok? ==>
      && r.value == Comment(old(db.nextCommentId), driftId, caller.id, Strip(content))
      && r.value.content != [] && !IsPySpace(r.value.content[0])
      && db.comments == old(db.comments) + [r.value]
      && db.nextCommentId == old(db.nextCommentId) + 1
  {
    if FindFirst(db.drifts, DriftHasId(driftId)).None? {
      return Err(DriftNotFound);
    }
    if content == [] || Strip(content) == [] {
      return Err(EmptyContent);
    }
    var c := Comment(db.nextCommentId, driftId, caller.id, Strip(content));
    db.comments := db.comments + [c];
    db.nextCommentId := db.nextCommentId + 1;
    return Ok(c);
  }

  function OnDrift(driftId: int): Comment -> bool {
    (c: Comment) => c.driftId == driftId
  }

  /** The listing body; `limit` and `offset` are echoed back. */
  datatype CommentList = CommentList(comments: seq<Comment>, total: nat, limit: int, offset: int)

  /** `GET /{drift_id}`: 422 unless `1 <= limit <= 100` and `offset >= 0`; then 404 for an unknown
      drift; otherwise that drift's comments oldest first from `offset`, at most `limit` of them,
      with `total` counting every comment on the drift. A query without `limit` or `offset`
      (`None`) pages from 0 by `DefaultLimit`. */
  function ListComments(drifts: seq<Drift>, comments: seq<Comment>, driftId: int, limit: Option<int>, offset: Option<int>)
    : (r: Result<CommentList>)
    ensures var l, o := OrDefault(limit, DefaultLimit), OrDefault(offset, 0);
      r.Err? && r.error == Unprocessable <==> !(1 <= l <= 100 && o >= 0)
    ensures var l, o := OrDefault(limit, DefaultLimit), OrDefault(offset, 0);
      r.Err? && r.error == DriftNotFound <==> 1 <= l <= 100 && o >= 0 && !DriftExists(drifts, driftId)
    ensures r.Ok? ==>
      var l, o := OrDefault(limit, DefaultLimit), OrDefault(offset, 0);
      var onDrift := Filter(comments, OnDrift(driftId));
      && r.value.total == |onDrift|
      && r.value.comments == Page(onDrift, o as nat, l as nat)
      && r.value.limit == l && r.value.offset == o
    ensures r.Ok? ==> forall c :: c in r.value.comments ==> c in comments && c.driftId == driftId
    ensures limit.None? && offset.None? ==>
      && (r.Ok? <==> DriftExists(drifts, driftId))
      && (r.Ok? ==> && r.value.limit == DefaultLimit && r.value.offset == 0
                    && r.value.comments == Filter(comments, OnDrift(driftId))[..Min(DefaultLimit, r.value.total)])
  {
    var l, o := OrDefault(limit, DefaultLimit), OrDefault(offset, 0);
    if !(1 <= l <= 100 && o >= 0) then Err(Unprocessable)
    else if FindFirst(drifts, DriftHasId(driftId)).None? then Err(DriftNotFound)
    else
      var onDrift := Filter(comments, OnDrift(driftId));
      var page := Page(onDrift, o, l);
      Ok(CommentList(page, |onDrift|, l, o))
  }

  /** `GET /comment/{id}`: the comment with that id, or 404 when there is none. */
  function GetComment(comments: seq<Comment>, commentId: int): (r: Result<Comment>)
    ensures r.Err? <==> forall c :: c in comments ==> c.id != commentId
    ensures r.Err? ==> r.error == CommentNotFound
    ensures r.Ok? ==> r.value in comments && r.value.id == commentId
  {
    match FindFirst(comments, CommentHasId(commentId))
    case None => Err(CommentNotFound)
    case Some(i) => Ok(comments[i])
  }

  /** `DELETE /comment/{id}`: 404 when there is no such comment, 403 when the caller did not
      write it, and in both cases nothing changes; otherwise exactly that comment is removed. */
  method DeleteComment(db: Database, caller: User, commentId: int) returns (err: Option<HttpError>)
    modifies db`comments
    ensures err == Some(CommentNotFound) <==> GetComment(old(db.comments), commentId).Err?
    ensures err == Some(NotAuthor) <==>
      GetComment(old(db.comments), commentId).Ok? && GetComment(old(db.comments), commentId).value.authorId != caller.id
    ensures err.None? <==>
      GetComment(old(db.comments), commentId).Ok? && GetComment(old(db.comments), commentId).value.authorId == caller.id
    ensures err.Some? ==> db.comments == old(db.comments)
    ensures err.None? ==>
      var i := FindFirst(old(db.comments), CommentHasId(commentId)).value;
      && old(db.comments)[i].id == commentId && old(db.comments)[i].authorId == caller.id
      && db.comments == RemoveAt(old(db.comments), i)
  {
    var found := FindFirst(db.comments, CommentHasId(commentId));
    if found.None? {
      return Some(CommentNotFound);
    }
    if db.comments[found.value].authorId != caller.id {
      return Some(NotAuthor);
    }
    db.comments := RemoveAt(db.comments, found.value);
    return None;
  }
}
