/** The session sidebar (src/components/chat/SessionsNavbar.jsx): new chat,
    confirmed delete, and the relative date shown under each title. */
module SessionsNavbar {
  import opened Js
  import opened Http
  import opened Sessions
  import opened Clock
  import Strings
  import Endpoints

  const CREATE_FAILED: string := "Failed to create new session. Please try again."
  const DELETE_QUESTION: string := "Are you sure you want to delete this session?"
  const DELETE_FAILED: string := "Failed to delete session. Please try again."
  const UNTITLED: string := "New Conversation"

  /** The layout's list and selection plus the sidebar's own flags. */
  datatype NavbarState = NavbarState(
    sessions: seq<Session>,
    active: Option<Session>,
    loading: bool,
    deletingId: Option<string>)

  /** `handleNewChat`: on success the new session heads the list, the rest
      follow in order, and it is selected; on failure an alert is all that
      happens. Loading ends either way. */
  function NewChat(st: NavbarState, create: Outcome<Session>): (r: Step<NavbarState>)
    ensures |r.effects| > 0 && r.effects[0] == Call(Post(Endpoints.SESSIONS, EmptyObject))
    ensures create.Ok? ==>
      && r.state.sessions == [create.value] + st.sessions
      && r.state.active == Some(create.value)
      && r.effects == [Call(Post(Endpoints.SESSIONS, EmptyObject))]
    ensures create.Fail? ==>
      && r.state.sessions == st.sessions && r.state.active == st.active
      && r.effects == [Call(Post(Endpoints.SESSIONS, EmptyObject)), Alert(CREATE_FAILED)]
    ensures !r.state.loading && r.state.deletingId == st.deletingId
    ensures ActiveListed(st.sessions, st.active) ==> ActiveListed(r.state.sessions, r.state.active)
  {
    var call := Call(Post(Endpoints.SESSIONS, EmptyObject));
    match create
    case Ok(s) =>
      PrependSelectListed(s, st.sessions);
      Step(st.(sessions := [s] + st.sessions, active := Some(s), loading := false), [call])
    case Fail(_) => Step(st.(loading := false), [call, Alert(CREATE_FAILED)])
  }

  /** `handleDelete`, given the answer to the confirmation and the outcome
      of the DELETE request (consulted only when confirmed). */
  function DeleteSession(st: NavbarState, id: string, confirmed: bool, outcome: Outcome<()>): (r: Step<NavbarState>)
    ensures |r.effects| > 0 && r.effects[0] == Confirm(DELETE_QUESTION)
    ensures !confirmed ==> r == Step(st, [Confirm(DELETE_QUESTION)])
    ensures confirmed ==>
      && |r.effects| >= 2 && r.effects[..2] == [Confirm(DELETE_QUESTION), Call(Delete(Endpoints.SessionDetail(id)))]
      && r.state.deletingId == None && r.state.loading == st.loading
    ensures confirmed && outcome.Ok? ==>
      && r.state.sessions == RemoveId(st.sessions, id)
      && (r.state.active == None <==> st.active == None || IsActive(st.active, id))
      && (!IsActive(st.active, id) ==> r.state.active == st.active)
      && |r.effects| == 2
    ensures confirmed && outcome.Fail? ==>
      && r.state.sessions == st.sessions && r.state.active == st.active
      && r.effects == [Confirm(DELETE_QUESTION), Call(Delete(Endpoints.SessionDetail(id))), Alert(DELETE_FAILED)]
    ensures ActiveListed(st.sessions, st.active) ==> ActiveListed(r.state.sessions, r.state.active)
  {
    var ask := Confirm(DELETE_QUESTION);
    if !confirmed then Step(st, [ask])
    else
      var call := Call(Delete(Endpoints.SessionDetail(id)));
      match outcome
      case Ok(_) =>
        var active := if IsActive(st.active, id) then None else st.active;
        assert ActiveListed(st.sessions, st.active) ==> ActiveListed(RemoveId(st.sessions, id), active) by {
          if ActiveListed(st.sessions, st.active) {
            RemoveKeepsOtherSelection(st.sessions, active, id);
          }
        }
        Step(st.(sessions := RemoveId(st.sessions, id), active := active, deletingId := None), [ask, call])
      case Fail(_) => Step(st.(deletingId := None), [ask, call, Alert(DELETE_FAILED)])
  }

  /** The bucket `formatDate` picks. Unlike `getRelativeTime` there is no
      "yesterday": one to six whole days all read "Nd ago". */
  function DateBucket(ms: int): (r: Elapsed)
    ensures r == JustNow <==> ms < MS_PER_MINUTE
    ensures r.MinutesAgo? <==> MS_PER_MINUTE <= ms < MS_PER_HOUR
    ensures r.MinutesAgo? ==> 1 <= r.n < 60 && r.n * MS_PER_MINUTE <= ms < (r.n + 1) * MS_PER_MINUTE
    ensures r.HoursAgo? <==> MS_PER_HOUR <= ms < MS_PER_DAY
    ensures r.HoursAgo? ==> 1 <= r.n < 24 && r.n * MS_PER_HOUR <= ms < (r.n + 1) * MS_PER_HOUR
    ensures r.DaysAgo? <==> MS_PER_DAY <= ms < 7 * MS_PER_DAY
    ensures r.DaysAgo? ==> 1 <= r.n < 7 && r.n * MS_PER_DAY <= ms < (r.n + 1) * MS_PER_DAY
    ensures r == Older <==> ms >= 7 * MS_PER_DAY
    ensures r != Yesterday
  {
    var mins := FloorDiv(ms, MS_PER_MINUTE);
    var hours := FloorDiv(ms, MS_PER_HOUR);
    var days := FloorDiv(ms, MS_PER_DAY);
    if mins < 1 then JustNow
    else if mins < 60 then MinutesAgo(mins)
    else if hours < 24 then HoursAgo(hours)
    else if days < 7 then DaysAgo(days)
    else Older
  }

  /** `formatDate` for a difference of `ms` milliseconds (now minus the
      session's `updated_at`). */
  function FormatDate(ms: int): (r: Label)
    ensures ms < MS_PER_MINUTE ==> r == Text("Just now")
    ensures MS_PER_MINUTE <= ms < MS_PER_HOUR ==>
      r == Text(Strings.NatToString(DateBucket(ms).n) + "m ago")
    ensures MS_PER_HOUR <= ms < MS_PER_DAY ==>
      r == Text(Strings.NatToString(DateBucket(ms).n) + "h ago")
    ensures MS_PER_DAY <= ms < 7 * MS_PER_DAY ==>
      r == Text(Strings.NatToString(DateBucket(ms).n) + "d ago")
    ensures r.LocaleDate? <==> ms >= 7 * MS_PER_DAY
  {
    match DateBucket(ms)
    case JustNow => Text("Just now")
    case MinutesAgo(n) => Text(Strings.NatToString(n) + "m ago")
    case HoursAgo(n) => Text(Strings.NatToString(n) + "h ago")
    case DaysAgo(n) => Text(Strings.NatToString(n) + "d ago")
    case _ => LocaleDate
  }

  /** A one-day-old session reads "1d ago" here while `getRelativeTime`
      calls the same difference "yesterday". */
  lemma OneDayIsNotYesterdayHere(ms: int)
    requires MS_PER_DAY <= ms < 2 * MS_PER_DAY
    ensures FormatDate(ms) == Text("1d ago")
    ensures Strings.GetRelativeTime(ms) == Text(Strings.YESTERDAY)
  {
    assert DateBucket(ms).n == 1;
  }

  /** `session.title || "New Conversation"`. */
  function DisplayTitle(s: Session): (r: string)
    ensures Truthy(s.title) ==> r == s.title
    ensures !Truthy(s.title) ==> r == UNTITLED
    ensures r != ""
  {
    OrElse(s.title, UNTITLED)
  }
}
