/** The token refresh exchange. Both the session context and the API client
    carry their own copy of this code, identical apart from the base URL and
    the log message; it is defined once here and both classes are proved
    against it. */
module TokenRefresh {
  import opened Common

  /** What one refresh attempt produced: the boolean the caller receives, the
      storage afterwards, and the request sent, if any. */
  datatype Outcome = Outcome(refreshed: bool, storage: Storage, sent: Option<Outbound>)

  /** POST <apiUrl>/auth/refresh with the refresh token as bearer credential. */
  function RefreshRequest(apiUrl: string, refreshToken: string): Outbound {
    Outbound(apiUrl + "/auth/refresh", Options(Some("POST"), Bearer(refreshToken), NoBody))
  }

  /** One call of refreshToken(): with no stored refresh token it answers false
      without a request; otherwise it sends the refresh request, and only an ok
      reply whose body is JSON overwrites `access_token` and answers true. A
      non-ok reply, an unreadable body or a network error answers false. */
  function Refresh(apiUrl: string, s: Storage, reply: Reply<string>): (r: Outcome)
    ensures !Stored(s, REFRESH_TOKEN) ==> r == Outcome(false, s, None)
    ensures Stored(s, REFRESH_TOKEN) ==> r.sent == Some(RefreshRequest(apiUrl, EntryText(s[REFRESH_TOKEN])))
    ensures r.refreshed <==> Stored(s, REFRESH_TOKEN) && reply.Ok?
    ensures r.refreshed ==> r.storage == s[ACCESS_TOKEN := Text(reply.payload)]
    ensures !r.refreshed ==> r.storage == s
  {
    if !Stored(s, REFRESH_TOKEN) then Outcome(false, s, None)
    else
      var request := RefreshRequest(apiUrl, EntryText(s[REFRESH_TOKEN]));
      match reply
      case Ok(accessToken) => Outcome(true, s[ACCESS_TOKEN := Text(accessToken)], Some(request))
      case _ => Outcome(false, s, Some(request))
  }

  /** A refresh touches no key but `access_token`; in particular the refresh
      token stays, so a later refresh can run again. */
  lemma RefreshKeepsOtherKeys(apiUrl: string, s: Storage, reply: Reply<string>, k: string)
    requires k != ACCESS_TOKEN
    ensures GetItem(Refresh(apiUrl, s, reply).storage, k) == GetItem(s, k)
  {
  }
}
