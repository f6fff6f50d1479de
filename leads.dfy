/** The lead endpoint (`/api/leads`): `POST` updates the lead of the chat
    session when exactly one exists and inserts a new one otherwise; `GET`
    returns the session's lead or null.

    The `leads` table is a field of `LeadTable`. Whether each database call
    succeeds, and the clock's `toISOString()` text, are inputs of the request.
    Lead ids are handed out by a counter in place of the database's uuids. */
module LeadsRoute {
  import opened Wrappers

  type LeadId = nat

  datatype Lead = Lead(
    id: LeadId,
    name: Option<string>,
    whatsapp: Option<string>,
    teamInterest: Option<string>,
    sessionId: Option<string>,
    status: string,
    updatedAt: Option<string>)

  /** The request body's four fields; None when absent or null. */
  datatype LeadBody = LeadBody(
    name: Option<string>,
    whatsapp: Option<string>,
    teamInterest: Option<string>,
    sessionId: Option<string>)

  /** The outcome of the request's database calls: the lookup by session, and
      the one write (update or insert) that follows it. */
  datatype DbOutcomes = DbOutcomes(lookupOk: bool, writeOk: bool)

  datatype PostResponse =
    | Updated(lead: Lead)   // { success: true, lead, updated: true }
    | Created(lead: Lead)   // { success: true, lead, created: true }
    | SaveFailed            // 500 { success: false, error: 'Erro ao salvar lead' }

  datatype GetResponse =
    | MissingSession             // 400 { error: 'session_id required' }
    | Found(lead: Option<Lead>)  // { lead: lead || null }
    | FetchFailed                // 500 { error: 'Erro ao buscar lead' }

  datatype Table = Table(leads: seq<Lead>, nextId: LeadId)

  datatype PostOutcome = PostOutcome(table: Table, response: PostResponse)

  const ActiveStatus: string := "active"
  const SaveErrorMessage: string := "Erro ao salvar lead"
  const FetchErrorMessage: string := "Erro ao buscar lead"

  function PostStatus(r: PostResponse): (code: int)
    ensures code == 500 <==> r.SaveFailed?
  {
    if r.SaveFailed? then 500 else 200
  }

  function GetStatus(r: GetResponse): (code: int)
    ensures code == 200 <==> r.Found?
    ensures code == 400 <==> r.MissingSession?
    ensures code == 500 <==> r.FetchFailed?
  {
    match r
    case MissingSession => 400
    case Found(_) => 200
    case FetchFailed => 500
  }

  /** Lead ids are unique and below the next id to be handed out. */
  predicate TableValid(t: Table) {
    && (forall k :: 0 <= k < |t.leads| ==> t.leads[k].id < t.nextId)
    && (forall i, j :: 0 <= i < j < |t.leads| ==> t.leads[i].id != t.leads[j].id)
  }

  /** `.eq('session_id', sid)`: the rows of the session, in table order. */
  function WithSession(leads: seq<Lead>, sid: string): (r: seq<Lead>)
    ensures |r| <= |leads|
    ensures forall k :: 0 <= k < |r| ==> r[k] in leads && r[k].sessionId == Some(sid)
    ensures forall k :: 0 <= k < |leads| && leads[k].sessionId == Some(sid) ==> leads[k] in r
  {
    if leads == [] then []
    else (if leads[0].sessionId == Some(sid) then [leads[0]] else []) + WithSession(leads[1..], sid)
  }

  /** `.single()`: the row when exactly one matched; none for zero rows or
      several (the error PGRST116). */
  function Single(rows: seq<Lead>): (r: Option<Lead>)
    ensures r.Some? <==> |rows| == 1
    ensures r.Some? ==> r.value == rows[0]
  {
    if |rows| == 1 then Some(rows[0]) else None
  }

  /** The update object: the truthy fields of the body, and `updated_at`. */
  function Patch(l: Lead, b: LeadBody, now: string): Lead
  {
    l.(name := if Truthy(b.name) then b.name else l.name,
       whatsapp := if Truthy(b.whatsapp) then b.whatsapp else l.whatsapp,
       teamInterest := if Truthy(b.teamInterest) then b.teamInterest else l.teamInterest,
       updatedAt := Some(now))
  }

  /** `.update(patch).eq('id', id)` on the table. */
  function UpdateById(leads: seq<Lead>, id: LeadId, b: LeadBody, now: string): (r: seq<Lead>)
    ensures |r| == |leads|
  {
    seq(|leads|, k requires 0 <= k < |leads| => if leads[k].id == id then Patch(leads[k], b, now) else leads[k])
  }

  /** The inserted row: the body's fields as given, the body's session and the
      status 'active'; `updated_at` is left to the database. */
  function NewLead(id: LeadId, b: LeadBody): Lead
  {
    Lead(id, b.name, b.whatsapp, b.teamInterest, b.sessionId, ActiveStatus, None)
  }

  /** The lead the `POST` looks for: only with a truthy `session_id`, and only
      when the lookup succeeded (its error is not looked at). */
  function Existing(leads: seq<Lead>, b: LeadBody, lookupOk: bool): Option<Lead>
  {
    if Truthy(b.sessionId) && lookupOk then Single(WithSession(leads, b.sessionId.value)) else None
  }

  /** `POST`. `body` is None when the request's JSON cannot be read. */
  function PostLead(t: Table, body: Option<LeadBody>, db: DbOutcomes, now: string): PostOutcome
  {
    match body
    case None => PostOutcome(t, SaveFailed)
    case Some(b) =>
      match Existing(t.leads, b, db.lookupOk)
      case Some(existing) =>
        if !db.writeOk then PostOutcome(t, SaveFailed)
        else PostOutcome(Table(UpdateById(t.leads, existing.id, b, now), t.nextId), Updated(Patch(existing, b, now)))
      case None =>
        if !db.writeOk then PostOutcome(t, SaveFailed)
        else
          var lead := NewLead(t.nextId, b);
          PostOutcome(Table(t.leads + [lead], t.nextId + 1), Created(lead))
  }

  /** `GET` with the `session_id` query parameter (None when absent). */
  function GetLead(leads: seq<Lead>, sessionParam: Option<string>, fetchOk: bool): GetResponse
  {
    if !Truthy(sessionParam) then MissingSession
    else if !fetchOk then FetchFailed
    else Found(Single(WithSession(leads, sessionParam.value)))
  }

  /** Every truthy session has at most one lead. */
  predicate SessionsUnique(leads: seq<Lead>) {
    forall i, j :: 0 <= i < j < |leads| && Truthy(leads[i].sessionId) ==> leads[i].sessionId != leads[j].sessionId
  }

  /** The `leads` table. */
  class LeadTable {
    var leads: seq<Lead>
    var nextId: LeadId

    function State(): Table
      reads this
    {
      Table(leads, nextId)
    }

    ghost predicate Valid()
      reads this
    {
      TableValid(State())
    }

    constructor ()
      ensures Valid() && leads == [] && nextId == 0
    {
      leads := [];
      nextId := 0;
    }

    /** `.select(...).eq('session_id', sid).single()`: one pass over the table
        counting the session's rows. */
    method SelectBySession(sid: string) returns (row: Option<Lead>)
      ensures row == Single(WithSession(leads, sid))
    {
      var count := 0;
      var found := None;
      var k := 0;
      while k < |leads|
        invariant 0 <= k <= |leads|
        invariant count == |WithSession(leads[..k], sid)|
        invariant count == 1 <==> found.Some?
        invariant found.Some? ==> found.value == WithSession(leads[..k], sid)[0]
      {
        WithSessionAppend(leads[..k], [leads[k]], sid);
        assert leads[..k + 1] == leads[..k] + [leads[k]];
        if leads[k].sessionId == Some(sid) {
          count := count + 1;
          found := if count == 1 then Some(leads[k]) else None;
        }
        k := k + 1;
      }
      assert leads[..k] == leads;
      row := found;
    }

    /** `.update(patch).eq('id', id)`: every row with that id is patched. */
    method UpdateRows(id: LeadId, b: LeadBody, now: string)
      modifies this`leads
      ensures leads == UpdateById(old(leads), id, b, now)
    {
      ghost var before := leads;
      var k := 0;
      while k < |leads|
        invariant 0 <= k <= |leads| == |before|
        invariant forall j :: 0 <= j < k ==> leads[j] == UpdateById(before, id, b, now)[j]
        invariant forall j :: k <= j < |leads| ==> leads[j] == before[j]
      {
        if leads[k].id == id {
          leads := leads[k := Patch(leads[k], b, now)];
        }
        k := k + 1;
      }
    }

    /** `POST /api/leads`. */
    method Post(body: Option<LeadBody>, db: DbOutcomes, now: string) returns (resp: PostResponse)
      requires Valid()
      modifies this
      ensures Valid()
      ensures var out := PostLead(old(State()), body, db, now);
              State() == out.table && resp == out.response
    {
      if body.None? {
        return SaveFailed;
      }
      var b := body.value;
      ghost var t := State();
      var existingLead: Option<Lead> := None;
      if Truthy(b.sessionId) {
        if db.lookupOk {
          existingLead := SelectBySession(b.sessionId.value);
        }
        if existingLead.Some? {
          if !db.writeOk {
            return SaveFailed;
          }
          var existing := existingLead.value;
          UpdateRows(existing.id, b, now);
          UpdateKeepsValid(t, existing.id, b, now);
          return Updated(Patch(existing, b, now));
        }
      }
      if !db.writeOk {
        return SaveFailed;
      }
      var lead := NewLead(nextId, b);
      leads := leads + [lead];
      nextId := nextId + 1;
      return Created(lead);
    }

    /** `GET /api/leads`: reads the table and changes nothing. */
    method Get(sessionParam: Option<string>, fetchOk: bool) returns (resp: GetResponse)
      ensures resp == GetLead(leads, sessionParam, fetchOk)
    {
      if sessionParam.None? || sessionParam.value == "" {
        return MissingSession;
      }
      if !fetchOk {
        return FetchFailed;
      }
      var lead := SelectBySession(sessionParam.value);
      return Found(lead);
    }
  }

  // ------------------------------------------------------------ lemmas

  lemma {:induction false} WithSessionAppend(a: seq<Lead>, b: seq<Lead>, sid: string)
    ensures WithSession(a + b, sid) == WithSession(a, sid) + WithSession(b, sid)
  {
    if a == [] {
      assert a + b == b;
    } else {
      assert (a + b)[0] == a[0] && (a + b)[1..] == a[1..] + b;
      WithSessionAppend(a[1..], b, sid);
    }
  }

  /** The rows of a session are exactly the table's rows of that session:
      the one row of a unique session sits at some index of the table. */
  lemma {:induction false} SingleIsRow(leads: seq<Lead>, sid: string) returns (i: nat)
    requires |WithSession(leads, sid)| == 1
    ensures i < |leads| && leads[i] == WithSession(leads, sid)[0]
    ensures forall j :: 0 <= j < |leads| && j != i ==> leads[j].sessionId != Some(sid)
  {
    if leads[0].sessionId == Some(sid) {
      i := 0;
      assert |WithSession(leads[1..], sid)| == 0;
      forall j | 0 < j < |leads|
        ensures leads[j].sessionId != Some(sid)
      {
        assert leads[j] == leads[1..][j - 1];
      }
    } else {
      var i' := SingleIsRow(leads[1..], sid);
      i := i' + 1;
      forall j | 0 <= j < |leads| && j != i
        ensures leads[j].sessionId != Some(sid)
      {
        if j > 0 { assert leads[j] == leads[1..][j - 1]; }
      }
    }
  }

  /** An update keeps ids, and so keeps the table valid. */
  lemma UpdateKeepsValid(t: Table, id: LeadId, b: LeadBody, now: string)
    requires TableValid(t)
    ensures TableValid(Table(UpdateById(t.leads, id, b, now), t.nextId))
  {
    var r := UpdateById(t.leads, id, b, now);
    assert forall k :: 0 <= k < |r| ==> r[k].id == t.leads[k].id;
  }

  /** A patch writes only the truthy fields of the body and the timestamp:
      the id, the session and the status stay, and a field the body leaves
      falsy keeps its value. */
  lemma PatchKeepsIdentity(l: Lead, b: LeadBody, now: string)
    ensures var p := Patch(l, b, now);
            && p.id == l.id && p.sessionId == l.sessionId && p.status == l.status
            && p.updatedAt == Some(now)
            && (!Truthy(b.name) ==> p.name == l.name)
            && (!Truthy(b.whatsapp) ==> p.whatsapp == l.whatsapp)
            && (!Truthy(b.teamInterest) ==> p.teamInterest == l.teamInterest)
            && (Truthy(b.name) ==> p.name == b.name)
            && (Truthy(b.whatsapp) ==> p.whatsapp == b.whatsapp)
            && (Truthy(b.teamInterest) ==> p.teamInterest == b.teamInterest)
  {
  }

  /** Repeating a save changes nothing more. */
  lemma PatchIdempotent(l: Lead, b: LeadBody, now: string)
    ensures Patch(Patch(l, b, now), b, now) == Patch(l, b, now)
  {
  }

  /** A session with exactly one lead: with a successful lookup and write,
      that lead is patched in place, no lead is inserted, every other lead is
      unchanged, and the answer carries the patched lead with `updated`. */
  lemma UpdateNotInsert(t: Table, b: LeadBody, db: DbOutcomes, now: string)
    requires TableValid(t)
    requires Truthy(b.sessionId) && db.lookupOk && db.writeOk
    requires |WithSession(t.leads, b.sessionId.value)| == 1
    ensures var out := PostLead(t, Some(b), db, now);
            && |out.table.leads| == |t.leads| && out.table.nextId == t.nextId
            && (forall k :: 0 <= k < |t.leads| ==>
                  out.table.leads[k] == if t.leads[k].sessionId == b.sessionId then Patch(t.leads[k], b, now) else t.leads[k])
            && out.response.Updated?
  {
    var sid := b.sessionId.value;
    var i := SingleIsRow(t.leads, sid);
    var out := PostLead(t, Some(b), db, now);
    assert out.table.leads == UpdateById(t.leads, t.leads[i].id, b, now);
    forall k | 0 <= k < |t.leads|
      ensures out.table.leads[k] == if t.leads[k].sessionId == b.sessionId then Patch(t.leads[k], b, now) else t.leads[k]
    {
      if k != i {
        assert t.leads[k].id != t.leads[i].id by {
          if k < i { assert t.leads[k].id != t.leads[i].id; } else { assert t.leads[i].id != t.leads[k].id; }
        }
      }
    }
  }

  /** Without a truthy session, or when the session has no lead or several,
      a successful write appends one lead: with the body's fields, the body's
      session, status 'active' and a fresh id; the answer says `created`. */
  lemma InsertOtherwise(t: Table, b: LeadBody, db: DbOutcomes, now: string)
    requires TableValid(t) && db.writeOk
    requires !Truthy(b.sessionId) || !db.lookupOk || |WithSession(t.leads, b.sessionId.value)| != 1
    ensures var out := PostLead(t, Some(b), db, now);
            && out.table.leads == t.leads + [out.response.lead]
            && out.response.Created?
            && out.response.lead.status == "active" && out.response.lead.sessionId == b.sessionId
            && out.response.lead.name == b.name && out.response.lead.whatsapp == b.whatsapp
            && out.response.lead.teamInterest == b.teamInterest
            && forall k :: 0 <= k < |t.leads| ==> t.leads[k].id != out.response.lead.id
  {
  }

  /** Every failure (unreadable body, failed write) answers 500 and leaves
      the table as it was; nothing else fails. */
  lemma FailureLeavesTable(t: Table, body: Option<LeadBody>, db: DbOutcomes, now: string)
    ensures var out := PostLead(t, body, db, now);
            && (PostStatus(out.response) == 500 <==> body.None? || !db.writeOk)
            && (out.response.SaveFailed? ==> out.table == t)
  {
  }

  /** `POST` keeps lead ids unique. */
  lemma PostKeepsValid(t: Table, body: Option<LeadBody>, db: DbOutcomes, now: string)
    requires TableValid(t)
    ensures TableValid(PostLead(t, body, db, now).table)
  {
    if body.Some? && Existing(t.leads, body.value, db.lookupOk).Some? && db.writeOk {
      UpdateKeepsValid(t, Existing(t.leads, body.value, db.lookupOk).value.id, body.value, now);
    }
  }

  /** While lookups succeed, `POST` never gives a truthy session a second
      lead. */
  lemma {:induction false} PostKeepsSessionsUnique(t: Table, body: Option<LeadBody>, db: DbOutcomes, now: string)
    requires TableValid(t) && SessionsUnique(t.leads) && db.lookupOk
    ensures SessionsUnique(PostLead(t, body, db, now).table.leads)
  {
    var out := PostLead(t, body, db, now);
    if body.Some? && db.writeOk {
      var b := body.value;
      if Existing(t.leads, b, db.lookupOk).Some? {
        var r := out.table.leads;
        assert forall k :: 0 <= k < |r| ==> r[k].sessionId == t.leads[k].sessionId;
      } else {
        var lead := out.response.lead;
        var r := out.table.leads;
        if Truthy(b.sessionId) {
          var sid := b.sessionId.value;
          assert |WithSession(t.leads, sid)| == 0 by {
            if |WithSession(t.leads, sid)| >= 2 {
              TwoRowsShareSession(t.leads, sid);
            }
          }
          assert forall k :: 0 <= k < |t.leads| ==> t.leads[k].sessionId != Some(sid);
        }
        forall i, j | 0 <= i < j < |r| && Truthy(r[i].sessionId)
          ensures r[i].sessionId != r[j].sessionId
        {
          if j < |t.leads| {
            assert r[i] == t.leads[i] && r[j] == t.leads[j];
          } else {
            assert r[j] == lead && r[i] == t.leads[i];
          }
        }
      }
    }
  }

  /** A session with two rows in `WithSession` has two leads of the table. */
  lemma {:induction false} TwoRowsShareSession(leads: seq<Lead>, sid: string)
    requires |WithSession(leads, sid)| >= 2
    ensures exists i, j :: 0 <= i < j < |leads| && leads[i].sessionId == Some(sid) && leads[j].sessionId == Some(sid)
  {
    if leads[0].sessionId == Some(sid) {
      assert |WithSession(leads[1..], sid)| >= 1;
      var w := WithSession(leads[1..], sid);
      assert w[0] in leads[1..];
      var j :| 0 <= j < |leads[1..]| && leads[1..][j] == w[0];
      assert leads[j + 1].sessionId == Some(sid);
    } else {
      TwoRowsShareSession(leads[1..], sid);
      var i, j :| 0 <= i < j < |leads[1..]| && leads[1..][i].sessionId == Some(sid) && leads[1..][j].sessionId == Some(sid);
      assert leads[i + 1].sessionId == Some(sid) && leads[j + 1].sessionId == Some(sid);
    }
  }

  /** Because the lookup's error is not looked at, a failed lookup for a
      session that already has its lead inserts a second one; from then on
      the session has two rows and `GET` answers null for it. */
  lemma LookupFailureDuplicatesSession(t: Table, b: LeadBody, now: string, i: nat)
    requires Truthy(b.sessionId) && i < |t.leads| && t.leads[i].sessionId == b.sessionId
    ensures var after := PostLead(t, Some(b), DbOutcomes(false, true), now).table.leads;
            && !SessionsUnique(after)
            && GetLead(after, b.sessionId, true) == Found(None)
  {
    var sid := b.sessionId.value;
    var after := PostLead(t, Some(b), DbOutcomes(false, true), now).table.leads;
    assert after == t.leads + [NewLead(t.nextId, b)];
    assert after[i] == t.leads[i] && after[|t.leads|].sessionId == b.sessionId;
    WithSessionAppend(t.leads, [NewLead(t.nextId, b)], sid);
    assert t.leads[i] in WithSession(t.leads, sid);
  }

  /** `GET`: 400 without a truthy `session_id`; otherwise, when the query
      succeeds, the session's lead when it has exactly one, and null (rather
      than an error) when it has none or several. */
  lemma GetAnswers(leads: seq<Lead>, sessionParam: Option<string>, fetchOk: bool)
    ensures var r := GetLead(leads, sessionParam, fetchOk);
            && (r == MissingSession <==> !Truthy(sessionParam))
            && (r == FetchFailed <==> Truthy(sessionParam) && !fetchOk)
            && (r.Found? && r.lead.None? <==> Truthy(sessionParam) && fetchOk && |WithSession(leads, sessionParam.value)| != 1)
            && (r.Found? && r.lead.Some? ==> r.lead.value.sessionId == sessionParam)
            && (GetStatus(r) == 400 <==> !Truthy(sessionParam))
            && (GetStatus(r) == 500 <==> Truthy(sessionParam) && !fetchOk)
            && (GetStatus(r) == 200 <==> Truthy(sessionParam) && fetchOk)
  {
  }
}
