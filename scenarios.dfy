/**
 * Properties of whole sessions, built from the functions of `Session`: the
 * worked scenarios of the token flow, the one place where the code does not
 * do what its own comments announce ("try a refresh", "recreate the headers
 * with the new token"), and the fate of the refresh token over any sequence of
 * gateway calls.
 */
module Scenarios {
  import opened Wrappers
  import opened Js
  import opened Http
  import opened Session

  /** Logging in as `tech1` against an exchange answering `{access: "A1", refresh: "R1"}`. */
  lemma LoginStoresPair(e: Env)
    ensures var s := LoginSpec(e, "tech1", "secret",
                               Delivered(Response(200, Some(Object(map["access" := Str("A1"), "refresh" := Str("R1")])), None)));
      s.env.access == Some("A1") && s.env.refresh == Some("R1") && IsAuthenticated(s.env)
  {
  }

  /**
   * A 2xx answer whose body is `null`: reading `data.access` throws, so a login
   * stores nothing and keeps the previous entries, and a renewal clears both.
   */
  lemma NullBodyStoresNothing(e: Env)
    requires Present(e.refresh)
    ensures var s := LoginSpec(e, "tech1", "secret", Delivered(Response(200, Some(JsonNull), None)));
      && s.result == Failure(NullBodyProperty)
      && s.env.access == e.access && s.env.refresh == e.refresh
    ensures var s := RefreshSpec(e, Delivered(Response(200, Some(JsonNull), None)));
      && s.result == Failure(NullBodyProperty)
      && s.env.access.None? && s.env.refresh.None? && !IsAuthenticated(s.env)
  {
  }

  /**
   * A 401 on `GET /elevadores/` whose response carries its request: the renewal
   * answers `{access: "A2"}`, the single retry goes out with `Bearer A2`, and its
   * response is what the caller receives.
   */
  lemma RetryCarriesRenewedToken(e: Env, list: Response)
    requires e.access == Some("A1") && e.refresh == Some("R1")
    ensures var original := GetRequest(e, "/elevadores/", []);
      var s := HandleSpec(e, Response(401, None, Some(original)),
                          Delivered(Response(200, Some(Object(map["access" := Str("A2")])), None)), Delivered(list));
      && s.result == Success(Raw(list))
      && s.env.access == Some("A2") && s.env.refresh == Some("R1")
      && |s.env.sent| == |e.sent| + 2
      && s.env.sent[|e.sent| + 1].url == original.url
      && s.env.sent[|e.sent| + 1].headers.authorization == Some("Bearer A2")
  {
    assert "Bearer " + "A2" == "Bearer A2";
  }

  /** A 401 whose renewal is answered with 400: the store ends empty and the call fails with `SessionExpired`. */
  lemma RejectedRenewalExpiresSession(e: Env, response: Response, renewal: Response, retry: Transport)
    requires response.status == 401 && Present(e.refresh)
    requires renewal.status == 400
    ensures var s := HandleSpec(e, response, Delivered(renewal), retry);
      && s.result == Failure(SessionExpired)
      && s.env.access.None? && s.env.refresh.None? && s.env.location == Some(LoginPage)
      && s.env.sent == e.sent + [RefreshRequest(e.refresh.value)]
  {
  }

  /**
   * Where the code does not do what its comments announce: a standard fetch
   * response has no `request` property, so after a successful renewal the retry throws inside the `try`,
   * and the user is logged out with `SessionExpired`; the new access token is
   * thrown away and no retry is sent.
   */
  lemma StandardResponseNeverRetried(e: Env, response: Response, refresh: Transport, retry: Transport)
    requires response.status == 401 && response.request.None?
    requires RefreshSpec(e, refresh).result.Success?
    ensures var s := HandleSpec(e, response, refresh, retry);
      && s.result == Failure(SessionExpired)
      && s.env.access.None? && s.env.refresh.None? && s.env.location == Some(LoginPage)
      && s.env.sent == e.sent + [RefreshRequest(e.refresh.value)]
  {
  }

  /** The state after a sequence of gateway calls, each a request and the outcomes of its fetches. */
  function Run(e: Env, calls: seq<(Request, Exchange)>): Env
  {
    if calls == [] then e
    else
      var last := calls[|calls| - 1];
      SendSpec(Run(e, calls[..|calls| - 1]), last.0, last.1).env
  }

  /** One gateway call never writes the refresh token: it keeps it or removes it. */
  lemma SendKeepsOrDropsRefresh(e: Env, request: Request, net: Exchange)
    ensures var s := SendSpec(e, request, net);
      s.env.refresh == e.refresh || s.env.refresh.None?
  {
    var e1 := e.(sent := e.sent + [request]);
    if net.first.Delivered? {
      var s := HandleSpec(e1, net.first.response, net.refresh, net.retry);
      assert s.env.refresh == e1.refresh || s.env.refresh.None?;
    }
  }

  /**
   * Over any sequence of gateway calls the refresh token is the one the last
   * login stored, or absent: requests never mint or replace it, they only
   * discard it when a renewal fails.
   */
  lemma {:induction false} RunKeepsOrDropsRefresh(e: Env, calls: seq<(Request, Exchange)>)
    ensures Run(e, calls).refresh == e.refresh || Run(e, calls).refresh.None?
  {
    if calls != [] {
      var init := calls[..|calls| - 1];
      RunKeepsOrDropsRefresh(e, init);
      SendKeepsOrDropsRefresh(Run(e, init), calls[|calls| - 1].0, calls[|calls| - 1].1);
    }
  }

  /** Once the refresh token is gone, no gateway call can make the session authenticated again. */
  lemma {:induction false} NoRefreshNoRevival(e: Env, calls: seq<(Request, Exchange)>)
    requires e.refresh.None? && !IsAuthenticated(e)
    ensures Run(e, calls).refresh.None? && !IsAuthenticated(Run(e, calls))
  {
    if calls != [] {
      var init := calls[..|calls| - 1];
      NoRefreshNoRevival(e, init);
      var last := calls[|calls| - 1];
      var before := Run(e, init);
      var e1 := before.(sent := before.sent + [last.0]);
      if last.1.first.Delivered? {
        var s := HandleSpec(e1, last.1.first.response, last.1.refresh, last.1.retry);
        assert RefreshSpec(e1, last.1.refresh).result == Failure(MissingRefreshToken);
      }
    }
  }
}
