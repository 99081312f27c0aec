/** The REST paths the client calls (src/constants/endpoints.js). */
module Endpoints {

  const SESSIONS: string := "/api/sessions/"
  const SEARCH: string := "/api/search/"
  const AUTH_REGISTER: string := "/auth/register/"
  const AUTH_TOKEN: string := "/auth/token/"
  const AUTH_REFRESH: string := "/auth/token/refresh/"

  /** `/api/sessions/${id}/`: the session's own resource. The id can be read
      back between the collection prefix and the final slash. */
  function SessionDetail(id: string): (p: string)
    ensures |p| == |SESSIONS| + |id| + 1
    ensures p[..|SESSIONS|] == SESSIONS
    ensures p[|SESSIONS|..|p| - 1] == id
    ensures p[|p| - 1] == '/'
  {
    "/api/sessions/" + id + "/"
  }

  /** `/api/sessions/${id}/messages/`: the history of one session. */
  function SessionMessages(id: string): (p: string)
    ensures p == SessionDetail(id) + "messages/"
  {
    "/api/sessions/" + id + "/messages/"
  }

  /** `/api/sessions/${id}/chat/`: sends one message to the assistant. */
  function SessionChat(id: string): (p: string)
    ensures p == SessionDetail(id) + "chat/"
  {
    "/api/sessions/" + id + "/chat/"
  }

  /** `/api/sessions/${id}/clear/`: deletes every message of a session. */
  function SessionClear(id: string): (p: string)
    ensures p == SessionDetail(id) + "clear/"
  {
    "/api/sessions/" + id + "/clear/"
  }

  /** The refresh endpoint sits directly under the token endpoint. */
  lemma RefreshUnderToken()
    ensures AUTH_REFRESH == AUTH_TOKEN + "refresh/"
  {
  }

  /** Distinct ids give distinct paths, for each of the four builders. */
  lemma {:induction false} BuildersInjective(a: string, b: string)
    ensures SessionDetail(a) == SessionDetail(b) ==> a == b
    ensures SessionMessages(a) == SessionMessages(b) ==> a == b
    ensures SessionChat(a) == SessionChat(b) ==> a == b
    ensures SessionClear(a) == SessionClear(b) ==> a == b
  {
    var da, db := SessionDetail(a), SessionDetail(b);
    if SessionMessages(a) == SessionMessages(b) {
      assert da == SessionMessages(a)[..|da|];
      assert db == SessionMessages(b)[..|db|];
    }
    if SessionChat(a) == SessionChat(b) {
      assert da == SessionChat(a)[..|da|];
      assert db == SessionChat(b)[..|db|];
    }
    if SessionClear(a) == SessionClear(b) {
      assert da == SessionClear(a)[..|da|];
      assert db == SessionClear(b)[..|db|];
    }
  }

  /** For one id, the four per-session paths are pairwise different. */
  lemma PerSessionPathsDistinct(id: string)
    ensures SessionDetail(id) != SessionMessages(id)
    ensures SessionDetail(id) != SessionChat(id)
    ensures SessionDetail(id) != SessionClear(id)
    ensures SessionMessages(id) != SessionChat(id)
    ensures SessionMessages(id) != SessionClear(id)
    ensures SessionChat(id) != SessionClear(id)
  {
  }

  /** Across builders the paths are not separated: an id that itself holds
      a slash names another session's sub-resource. */
  lemma DetailOfSlashedIdIsChat(id: string)
    ensures SessionDetail(id + "/chat") == SessionChat(id)
  {
  }
}
