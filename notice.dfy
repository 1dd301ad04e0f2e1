/** backend/src/controllers/notice.controller.js: the notice board, whose
    list is filtered by the caller's role, and notice creation, update and
    deletion. */
module NoticeController {
  import opened Base
  import opened Schema
  import opened Sql

  // ---------------------------------------------------------------------
  // getAllNotices
  // ---------------------------------------------------------------------

  /** `req.user?.role`. */
  function UserRole(caller: Option<Caller>): (r: Option<string>)
    ensures r.Some? <==> caller.Some?
    ensures r.Some? ==> r.value == caller.value.role
  {
    if caller.Some? then Some(caller.value.role) else None
  }

  function NoticeView(n: Row<Notice>): (v: View)
    ensures Audience in v && v[Audience] == Str(n.data.audience)
    ensures Priority in v && v[Priority] == Str(n.data.priority)
  {
    map[Audience := Str(n.data.audience), Priority := Str(n.data.priority)]
  }

  /** A caller with a role other than admin sees the notices addressed to
      'all' or to a value equal to the role text; the priority filter always
      applies; the audience filter only for an admin. */
  predicate NoticeListed(role: Option<string>, priority: Option<string>, targetAudience: Option<string>,
                         n: Row<Notice>) {
    && (Given(role) && role.value != "admin" ==> n.data.audience == "all" || n.data.audience == role.value)
    && (Given(priority) ==> n.data.priority == priority.value)
    && (Given(targetAudience) && role == Some("admin") ==> n.data.audience == targetAudience.value)
  }

  method NoticeQuery(role: Option<string>, priority: Option<string>, targetAudience: Option<string>)
    returns (q: Query)
    ensures Numbered(q)
    ensures forall n :: Admits(q, NoticeView(n)) <==> NoticeListed(role, priority, targetAudience, n)
  {
    q := Query([], []);
    var paramCount := 1;
    var forRole := EqOr(Audience, "all", paramCount);
    q, paramCount := AndIf(q, paramCount, Given(role) && role.value != "admin", forRole, OptStr(role));
    q, paramCount := AndIf(q, paramCount, Given(priority), Eq(Priority, paramCount), OptStr(priority));
    q, paramCount := AndIf(q, paramCount, Given(targetAudience) && role == Some("admin"), Eq(Audience, paramCount),
               OptStr(targetAudience));
    forall n | Given(role)
      ensures Test(forRole, OptStr(role), NoticeView(n)) <==> n.data.audience == "all" || n.data.audience == role.value
    {
      assert NoticeView(n)[Audience] == Str(n.data.audience);
    }
  }

  /** `getAllNotices`; the `ORDER BY created_at` is not modelled. */
  method GetAllNotices(t: Tables, caller: Option<Caller>, priority: Option<string>, targetAudience: Option<string>)
    returns (rows: seq<Row<Notice>>)
    ensures forall n :: n in rows <==> n in t.notices && NoticeListed(UserRole(caller), priority, targetAudience, n)
    ensures forall n :: multiset(rows)[n] ==
              if NoticeListed(UserRole(caller), priority, targetAudience, n) then multiset(t.notices)[n] else 0
  {
    var q := NoticeQuery(UserRole(caller), priority, targetAudience);
    rows := Select(t.notices, NoticeView, q);
    SelectCounts(t.notices, NoticeView, q);
  }

  /** Role names are singular and audience values plural, so among stored
      notices a doctor, nurse or patient sees only those addressed to 'all',
      and staff those addressed to 'all' or 'staff'. */
  lemma AudienceByRole(role: string, priority: Option<string>, targetAudience: Option<string>, n: Row<Notice>)
    requires n.data.audience in Audiences
    requires NoticeListed(Some(role), priority, targetAudience, n)
    ensures role in {"doctor", "nurse", "patient"} ==> n.data.audience == "all"
    ensures role == "staff" ==> n.data.audience in {"all", "staff"}
  {
  }

  /** Without a caller, and for an admin who names no audience, no notice is
      hidden by audience. */
  lemma AudienceUnfiltered(role: Option<string>, priority: Option<string>, targetAudience: Option<string>,
                           n: Row<Notice>)
    requires role.None? || (role == Some("admin") && !Given(targetAudience))
    ensures NoticeListed(role, priority, targetAudience, n) <==> (Given(priority) ==> n.data.priority == priority.value)
  {
  }

  function GetNoticeById(t: Tables, id: nat): (resp: Response<Row<Notice>>)
    ensures id in Keys(t.notices) <==> resp.Ok?
    ensures resp.Ok? ==> resp.value in t.notices && resp.value.id == id
    ensures !resp.Ok? ==> resp == NotFound("Notice not found")
  {
    match IndexOf(t.notices, id)
    case None => NotFound("Notice not found")
    case Some(i) => Ok(t.notices[i])
  }

  // ---------------------------------------------------------------------
  // createNotice
  // ---------------------------------------------------------------------

  datatype NoticeRequest = NoticeRequest(
    title: Option<string>,
    content: Option<string>,
    priority: Option<string>,
    targetAudience: Option<string>)

  /** `priority || 'normal'`, `target_audience || 'all'`, `created_by` the caller. */
  function NewNotice(r: NoticeRequest, createdBy: nat): (n: Notice)
    requires Given(r.title) && Given(r.content)
    ensures n.priority == (if Given(r.priority) then r.priority.value else "normal")
    ensures n.audience == (if Given(r.targetAudience) then r.targetAudience.value else "all")
    ensures n.createdBy == Some(createdBy) && n.title == r.title.value && n.content == r.content.value
  {
    Notice(r.title.value, r.content.value, if Given(r.priority) then r.priority.value else "normal",
           if Given(r.targetAudience) then r.targetAudience.value else "all", Some(createdBy))
  }

  /** The defaults always pass the CHECK constraints. */
  lemma NoticeDefaultsValid(r: NoticeRequest, createdBy: nat)
    requires Given(r.title) && Given(r.content) && !Given(r.priority) && !Given(r.targetAudience)
    ensures NewNotice(r, createdBy).priority in Priorities && NewNotice(r, createdBy).audience in Audiences
  {
  }

  /** `createNotice`. Reading `req.user.id` without a caller throws inside the
      handler's `try`, before the title check. */
  method CreateNotice(db: Store, caller: Option<Caller>, r: NoticeRequest) returns (resp: Response<Row<Notice>>)
    requires db.Valid()
    modifies db
    ensures db.Valid()
    ensures caller.None? ==>
              resp == ServerError("Failed to create notice") && db.Snapshot() == old(db.Snapshot()) &&
              db.next == old(db.next)
    ensures caller.Some? && !(Given(r.title) && Given(r.content)) ==>
              resp == BadRequest("Title and content are required") && db.Snapshot() == old(db.Snapshot()) &&
              db.next == old(db.next)
    ensures caller.Some? && Given(r.title) && Given(r.content) ==>
              var n, id := NewNotice(r, caller.value.id), old(db.next.notices);
              if NoticeError(n, Keys(old(db.users))).None? then
                resp == Created(Row(id, n)) && db.Snapshot() == old(db.Snapshot()).(notices := old(db.notices) + [Row(id, n)])
              else
                resp == ServerError("Failed to create notice") && db.Snapshot() == old(db.Snapshot())
  {
    if caller.None? {
      return ServerError("Failed to create notice");
    }
    if !(Given(r.title) && Given(r.content)) {
      return BadRequest("Title and content are required");
    }
    var n := NewNotice(r, caller.value.id);
    var id, err := db.InsertNotice(n);
    if err.Some? {
      return ServerError("Failed to create notice");
    }
    resp := Created(Row(id, n));
  }

  // ---------------------------------------------------------------------
  // updateNotice, deleteNotice
  // ---------------------------------------------------------------------

  datatype NoticeUpdate = NoticeUpdate(
    title: Option<string>,
    content: Option<string>,
    priority: Option<string>,
    targetAudience: Option<string>)

  function NoticePatched(n: Notice, r: NoticeUpdate): Notice {
    n.(title := Coalesce(r.title, n.title), content := Coalesce(r.content, n.content),
       priority := Coalesce(r.priority, n.priority), audience := Coalesce(r.targetAudience, n.audience))
  }

  /** An update keeps the author; an empty update keeps the row; applying it
      twice is applying it once. */
  lemma NoticePatchedKeeps(n: Notice, r: NoticeUpdate)
    ensures var n' := NoticePatched(n, r);
            && n'.createdBy == n.createdBy
            && NoticePatched(n, NoticeUpdate(None, None, None, None)) == n
            && NoticePatched(n', r) == n'
  {
  }

  method UpdateNotice(db: Store, id: nat, r: NoticeUpdate) returns (resp: Response<Row<Notice>>)
    requires db.Valid()
    modifies db
    ensures db.Valid() && db.next == old(db.next)
    ensures IndexOf(old(db.notices), id).None? ==>
              resp == NotFound("Notice not found") && db.Snapshot() == old(db.Snapshot())
    ensures IndexOf(old(db.notices), id).Some? ==>
              var i := IndexOf(old(db.notices), id).value;
              var n := NoticePatched(old(db.notices)[i].data, r);
              if (r.priority.None? || r.priority.value in Priorities) &&
                 (r.targetAudience.None? || r.targetAudience.value in Audiences) then
                resp == Ok(Row(id, n)) && db.Snapshot() == old(db.Snapshot()).(notices := Put(old(db.notices), i, n))
              else
                resp == ServerError("Failed to update notice") && db.Snapshot() == old(db.Snapshot())
  {
    var found := IndexOf(db.notices, id);
    if found.None? {
      return NotFound("Notice not found");
    }
    var i := found.value;
    var n := NoticePatched(db.notices[i].data, r);
    assert NoticeRowOk(db.notices[i].data, Keys(db.users));
    var err := db.UpdateNoticeRow(i, n);
    if err.Some? {
      return ServerError("Failed to update notice");
    }
    resp := Ok(Row(id, n));
  }

  method DeleteNotice(db: Store, id: nat) returns (resp: Response<string>)
    requires db.Valid()
    modifies db
    ensures db.Valid() && db.next == old(db.next)
    ensures IndexOf(old(db.notices), id).None? ==>
              resp == NotFound("Notice not found") && db.Snapshot() == old(db.Snapshot())
    ensures IndexOf(old(db.notices), id).Some? ==>
              resp == Ok("Notice deleted successfully") &&
              db.Snapshot() == old(db.Snapshot()).(notices := Remove(old(db.notices), IndexOf(old(db.notices), id).value))
    ensures id !in Keys(db.notices)
  {
    var found := IndexOf(db.notices, id);
    if found.None? {
      return NotFound("Notice not found");
    }
    db.DeleteNoticeRow(found.value);
    resp := Ok("Notice deleted successfully");
  }
}
