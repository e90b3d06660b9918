/**
 * The rider auth context: one token, overwritten by login and logout, from
 * which the logged-in flag is derived by JavaScript truthiness.
 */
module AuthContext {
  import opened Wrappers

  /** `Boolean(token)`: a missing or empty token is logged out. */
  predicate IsLoggedIn(token: Option<string>) {
    TextTruthy(token)
  }

  class Provider {
    var token: Option<string>

    function LoggedIn(): bool
      reads this
    {
      IsLoggedIn(token)
    }

    constructor()
      ensures token == None && !LoggedIn()
    {
      token := None;
    }

    method Login(nextToken: Option<string>)
      modifies this
      ensures token == nextToken
      ensures LoggedIn() <==> nextToken.Some? && nextToken.value != ""
    {
      token := nextToken;
    }

    method Logout()
      modifies this
      ensures token == None && !LoggedIn()
    {
      token := None;
    }
  }

  /** Logging in with an empty token leaves the rider logged out, and any login
      followed by a logout is logged out. */
  method EmptyTokenAndLogout(t: string) returns (withEmpty: bool, withToken: bool, afterLogout: bool)
    requires t != ""
    ensures !withEmpty && withToken && !afterLogout
  {
    var p := new Provider();
    p.Login(Some(""));
    withEmpty := p.LoggedIn();
    p.Login(Some(t));
    withToken := p.LoggedIn();
    p.Logout();
    afterLogout := p.LoggedIn();
  }
}
