/**
 * The session store of the frontend (frontend/src/context/AuthContext.tsx): the signed-in
 * user, whether the first identity fetch is still running, and the `login`/`logout`
 * transitions over the stored token.
 */
module AuthContext {
  import opened Common
  import opened Client

  /** The identity `/users/me` answers with. */
  datatype UserInfo = UserInfo(id: int, email: string, name: Option<string>)

  const MeUrl: string := "/users/me"

  class AuthProvider {
    var user: Option<UserInfo>
    var isLoading: bool
    const api: Api

    /** A fresh provider: nobody signed in yet, loading until the first fetch ends. */
    constructor (api: Api)
      ensures this.api == api
      ensures user == None && isLoading
    {
      this.api := api;
      user := None;
      isLoading := true;
    }

    /**
     * `fetchUser`: without a truthy stored token nothing is requested and the user is kept;
     * otherwise `/users/me` is requested once. Success signs the returned user in; any
     * failure removes the token and signs out. Loading is over in every case.
     */
    method FetchUser(reply: Reply<UserInfo>) returns (requested: bool)
      modifies this, api, api.browser
      ensures requested <==> Truthy(old(api.browser.token))
      ensures !isLoading
      ensures !requested ==>
        && user == old(user)
        && api.sent == old(api.sent)
        && api.browser.token == old(api.browser.token) && api.browser.path == old(api.browser.path)
      ensures requested ==>
        api.sent == old(api.sent) + [Request("GET", MeUrl, [], WithBearer(DefaultHeaders, old(api.browser.token)), NoBody)]
      ensures requested && reply.Success? ==>
        && user == Some(reply.data)
        && api.browser.token == old(api.browser.token) && api.browser.path == old(api.browser.path)
      ensures requested && reply.Failure? ==>
        && user == None
        && api.browser.token == None
        && api.browser.path == (if IsUnauthorized(reply.error) then PathAfterUnauthorized(old(api.browser.path))
                                else old(api.browser.path))
    {
      requested := false;
      var token := api.browser.token;
      if token.Some? && token.value != "" {
        requested := true;
        var result := api.Send("GET", MeUrl, [], NoBody, reply);
        match result
        case Success(data) =>
          user := Some(data);
        case Failure(_) =>
          api.browser.token := None;
          user := None;
      }
      isLoading := false;
    }

    /**
     * `login`: the token is stored first and the identity fetched with it; if that fetch
     * fails, neither the token nor a user remains. An empty token is stored but fetches
     * nothing.
     */
    method Login(token: string, reply: Reply<UserInfo>)
      modifies this, api, api.browser
      ensures !isLoading
      ensures token == "" ==>
        && api.browser.token == Some("") && user == old(user) && api.sent == old(api.sent)
        && api.browser.path == old(api.browser.path)
      ensures token != "" ==>
        api.sent == old(api.sent) + [Request("GET", MeUrl, [], WithBearer(DefaultHeaders, Some(token)), NoBody)]
      ensures token != "" && reply.Success? ==>
        && api.browser.token == Some(token) && user == Some(reply.data)
        && api.browser.path == old(api.browser.path)
      ensures token != "" && reply.Failure? ==>
        && api.browser.token == None && user == None
        && api.browser.path == (if IsUnauthorized(reply.error) then PathAfterUnauthorized(old(api.browser.path))
                                else old(api.browser.path))
    {
      api.browser.token := Some(token);
      var _ := FetchUser(reply);
    }

    /** `logout`: no token, no user, and the browser on the login page, whatever the state before. */
    method Logout()
      modifies this, api.browser
      ensures api.browser.token == None && user == None && api.browser.path == "/login"
      ensures isLoading == old(isLoading) && api.sent == old(api.sent)
    {
      api.browser.token := None;
      user := None;
      api.browser.path := "/login";
    }
  }
}
