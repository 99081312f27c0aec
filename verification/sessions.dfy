/** The chat data shared by both generations of the chat screens: sessions,
    messages, news references, and the operations on the session list that
    the screens perform through `setSessions`. */
module Sessions {
  import opened Js

  /** A news reference embedded in an assistant message or a search hit.
      Read-only display data. */
  datatype NewsItem = NewsItem(title: string, summary: string, source: string, link: string)

  /** A conversation thread. `title` is "" while the server has not derived
      one (the screens only test it with `||`). */
  datatype Session = Session(id: string, title: string, updatedAt: string)

  datatype Role = User | Assistant

  /** One transcript entry. `failed` is the `error: true` flag of the
      synthetic message shown when a send fails. */
  datatype Message = Message(role: Role, content: string, news: seq<NewsItem>, failed: bool)

  function UserMessage(content: string): (m: Message)
    ensures m.role == User && m.content == content && m.news == [] && !m.failed
  {
    Message(User, content, [], false)
  }

  /** `activeSession?.id` used as a condition: a selected session whose id is
      empty counts as no selection. */
  function ActiveId(active: Option<Session>): (r: Option<string>)
    ensures r.Some? <==> active.Some? && active.value.id != ""
    ensures r.Some? ==> r.value == active.value.id
  {
    if active.Some? && active.value.id != "" then Some(active.value.id) else None
  }

  /** `activeSession?.id === id`. */
  predicate IsActive(active: Option<Session>, id: string) {
    active.Some? && active.value.id == id
  }

  function Ids(sessions: seq<Session>): (r: seq<string>)
    ensures |r| == |sessions|
    ensures forall i :: 0 <= i < |r| ==> r[i] == sessions[i].id
  {
    if sessions == [] then [] else [sessions[0].id] + Ids(sessions[1..])
  }

  /** `sessions.filter((s) => s.id !== id)`. */
  function RemoveId(sessions: seq<Session>, id: string): (r: seq<Session>)
    ensures |r| <= |sessions|
    ensures forall s :: s in r <==> s in sessions && s.id != id
  {
    if sessions == [] then []
    else if sessions[0].id == id then RemoveId(sessions[1..], id)
    else [sessions[0]] + RemoveId(sessions[1..], id)
  }

  /** Filtering distributes over concatenation, so the sessions kept appear
      in their original relative order. */
  lemma {:induction false} RemoveIdAppend(a: seq<Session>, b: seq<Session>, id: string)
    ensures RemoveId(a + b, id) == RemoveId(a, id) + RemoveId(b, id)
  {
    if a == [] {
      assert a + b == b;
    } else {
      assert (a + b)[1..] == a[1..] + b;
      RemoveIdAppend(a[1..], b, id);
    }
  }

  /** Removing an id nobody has changes nothing. */
  lemma {:induction false} RemoveAbsentId(sessions: seq<Session>, id: string)
    requires id !in Ids(sessions)
    ensures RemoveId(sessions, id) == sessions
  {
    if sessions != [] {
      assert Ids(sessions)[0] == sessions[0].id;
      assert Ids(sessions[1..]) == Ids(sessions)[1..];
      RemoveAbsentId(sessions[1..], id);
    }
  }

  /** The list after `prev.map((s) => s.id === id ? { ...s, updated_at: now } : s)`:
      same length, same ids in the same order, and only sessions with the
      given id change, in their timestamp alone. */
  function Touch(sessions: seq<Session>, id: string, now: string): (r: seq<Session>)
    ensures |r| == |sessions|
    ensures Ids(r) == Ids(sessions)
    ensures forall i :: 0 <= i < |r| && sessions[i].id != id ==> r[i] == sessions[i]
    ensures forall i :: 0 <= i < |r| && sessions[i].id == id ==>
      r[i].title == sessions[i].title && r[i].updatedAt == now
  {
    if sessions == [] then []
    else
      var head := if sessions[0].id == id then sessions[0].(updatedAt := now) else sessions[0];
      [head] + Touch(sessions[1..], id, now)
  }

  /** The selection refers to a session of the list, by id (the selected
      record may carry an older timestamp than the listed one). */
  predicate ActiveListed(sessions: seq<Session>, active: Option<Session>) {
    active.Some? ==> active.value.id in Ids(sessions)
  }

  lemma IdsAppend(a: seq<Session>, b: seq<Session>)
    ensures Ids(a + b) == Ids(a) + Ids(b)
  {
    assert Ids(a + b) == Ids(a) + Ids(b) by {
      var l := Ids(a + b);
      assert forall i :: 0 <= i < |l| ==> l[i] == (Ids(a) + Ids(b))[i];
    }
  }

  /** A session taken from the list is listed by its id. */
  lemma MemberListed(s: Session, sessions: seq<Session>)
    requires s in sessions
    ensures s.id in Ids(sessions)
  {
    var k :| 0 <= k < |sessions| && sessions[k] == s;
    assert Ids(sessions)[k] == s.id;
  }

  /** Prepending a session and selecting it keeps the selection listed. */
  lemma PrependSelectListed(s: Session, sessions: seq<Session>)
    ensures ActiveListed([s] + sessions, Some(s))
  {
    assert Ids([s] + sessions)[0] == s.id;
  }

  /** Deleting by id keeps a selection with another id listed. */
  lemma RemoveKeepsOtherSelection(sessions: seq<Session>, active: Option<Session>, id: string)
    requires ActiveListed(sessions, active)
    requires !IsActive(active, id)
    ensures ActiveListed(RemoveId(sessions, id), active)
  {
    if active.Some? {
      var ids := Ids(sessions);
      var k :| 0 <= k < |ids| && ids[k] == active.value.id;
      assert sessions[k] in RemoveId(sessions, id);
      var r := RemoveId(sessions, id);
      var j :| 0 <= j < |r| && r[j] == sessions[k];
      assert Ids(r)[j] == active.value.id;
    }
  }
}
