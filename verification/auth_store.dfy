/**
 * The front end's authentication store (frontend/src/stores/auth.js): the current token, the
 * profile of the signed-in user and the copy of the token kept in the browser's local storage
 * under the key 'token'. Each request the store makes to the back end is an input: its reply,
 * or the error it failed with, is passed to the operation that awaits it.
 */
module AuthStore {
  import opened Wrappers

  /** The `/users/me` response body. */
  datatype Profile = Profile(id: int, username: string, email: string, defaultCurrency: string)

  /** The outcome of one request: the response data, or an error with `response.data.detail` if it had one. */
  datatype Reply<T> = Ok(data: T) | Err(detail: Option<string>)

  /**
   * The object that `login` and `register` resolve to: `success`, the error `message` on a
   * failure, and the response `data` that a successful registration returns.
   */
  datatype Outcome = Outcome(success: bool, message: Option<string>, data: Option<Profile>)

  const LoginFailed: string := "登录失败"
  const RegisterFailed: string := "注册失败"

  /** JavaScript truthiness of a token value: present and not the empty string. */
  predicate Truthy(s: Option<string>) {
    s.Some? && s.value != ""
  }

  /** `error.response?.data?.detail || fallback`. */
  function ErrorMessage(detail: Option<string>, fallback: string): (m: string)
    ensures Truthy(detail) ==> m == detail.value
    ensures !Truthy(detail) ==> m == fallback
  {
    if Truthy(detail) then detail.value else fallback
  }

  /** `register`: the outcome of the registration request, which leaves the store as it is. */
  function Register(reply: Reply<Profile>): (r: Outcome)
    ensures r.success <==> reply.Ok?
    ensures reply.Ok? ==> r.data == Some(reply.data)
    ensures reply.Err? ==> r.message == Some(ErrorMessage(reply.detail, RegisterFailed))
  {
    match reply
    case Ok(created) => Outcome(true, None, Some(created))
    case Err(detail) => Outcome(false, Some(ErrorMessage(detail, RegisterFailed)), None)
  }

  class Auth {
    var token: Option<string>
    var user: Option<Profile>
    /** `localStorage.getItem('token')`. */
    var storedToken: Option<string>

    /** A token the store holds is the one kept in local storage. */
    ghost predicate Valid()
      reads this
    {
      token.Some? ==> storedToken == token
    }

    /** `isAuthenticated`: the token is truthy. */
    function IsAuthenticated(): (b: bool)
      reads this
      ensures b <==> token.Some? && token.value != ""
    {
      Truthy(token)
    }

    /** Neither token nor user, and nothing in local storage. */
    ghost predicate LoggedOut()
      reads this
    {
      token.None? && user.None? && storedToken.None?
    }

    /**
     * Store creation: the token is read back from local storage (an empty string counts as
     * none) and, when there is one, validated with the reply `me` to `/users/me`.
     */
    constructor (stored: Option<string>, me: Reply<Profile>)
      ensures Valid()
      ensures !Truthy(stored) ==> token.None? && user.None? && storedToken == stored
      ensures Truthy(stored) && me.Ok? ==> token == stored && storedToken == stored && user == Some(me.data)
      ensures Truthy(stored) && me.Err? ==> LoggedOut()
    {
      token := if Truthy(stored) then stored else None;
      user := None;
      storedToken := stored;
      new;
      if IsAuthenticated() {
        var _ := ValidateToken(me);
      }
    }

    /** `logout`: forgets the token and the user and removes the stored token. */
    method Logout()
      modifies this
      ensures Valid() && LoggedOut() && !IsAuthenticated()
    {
      token := None;
      user := None;
      storedToken := None;
    }

    /** `fetchUser`: loads the profile; a failed request logs out. */
    method FetchUser(me: Reply<Profile>) returns (ok: bool)
      requires Valid()
      modifies this
      ensures Valid()
      ensures ok <==> me.Ok?
      ensures me.Ok? ==> user == Some(me.data) && token == old(token) && storedToken == old(storedToken)
      ensures me.Err? ==> LoggedOut()
    {
      match me
      case Ok(profile) =>
        user := Some(profile);
        ok := true;
      case Err(_) =>
        Logout();
        ok := false;
    }

    /**
     * `login`: on a token reply, stores the token in memory and in local storage and fetches
     * the profile. The login succeeds even when that fetch fails and logs out again. A
     * refused token request reports the server's detail, or the default message, and changes
     * nothing.
     */
    method Login(username: string, password: string, tokenReply: Reply<string>, me: Reply<Profile>)
      returns (r: Outcome)
      requires Valid()
      modifies this
      ensures Valid()
      ensures r.success <==> tokenReply.Ok?
      ensures r.data.None? && (tokenReply.Ok? ==> r.message.None?)
      ensures tokenReply.Err? ==>
        && r.message == Some(ErrorMessage(tokenReply.detail, LoginFailed))
        && token == old(token) && user == old(user) && storedToken == old(storedToken)
      ensures tokenReply.Ok? && me.Ok? ==>
        token == Some(tokenReply.data) && storedToken == token && user == Some(me.data)
      ensures tokenReply.Ok? && me.Err? ==> LoggedOut()
    {
      match tokenReply
      case Err(detail) =>
        return Outcome(false, Some(ErrorMessage(detail, LoginFailed)), None);
      case Ok(accessToken) =>
        token := Some(accessToken);
        storedToken := token;
        var _ := FetchUser(me);
        return Outcome(true, None, None);
    }

    /**
     * `validateToken`: without a truthy token it answers false at once, sends nothing and
     * changes nothing; otherwise it answers whether `/users/me` accepted the token, loading the
     * profile if so and logging out if not.
     */
    method ValidateToken(me: Reply<Profile>) returns (valid: bool)
      requires Valid()
      modifies this
      ensures Valid()
      ensures valid <==> old(IsAuthenticated()) && me.Ok?
      ensures !old(IsAuthenticated()) ==> token == old(token) && user == old(user) && storedToken == old(storedToken)
      ensures old(IsAuthenticated()) && me.Ok? ==>
        user == Some(me.data) && token == old(token) && storedToken == old(storedToken)
      ensures old(IsAuthenticated()) && me.Err? ==> LoggedOut()
    {
      if !IsAuthenticated() {
        return false;
      }
      match me
      case Ok(profile) =>
        user := Some(profile);
        valid := true;
      case Err(_) =>
        Logout();
        valid := false;
    }
  }
}
