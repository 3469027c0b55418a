/**
 * lib/auth/utils.py: the request-context user, the local test IdP's logout
 * and the error view. The route responses and the user record that
 * lib/auth/__init__.py and this file share are declared here as well.
 */
module AuthUtils {
  import opened Wrappers

  /** The `User` class of lib/auth/__init__.py: an identifier and an email. */
  datatype User = User(id: string, email: string)

  /** What a route hands back to Flask. */
  datatype Response =
    | Redirect(location: string, deletedCookies: seq<string>)
      // `error.html` rendered with `error_message`
    | ErrorPage(message: string)
    | Body(status: nat, contentType: string, text: string)

  /** The session cookies of the local SimpleSAMLphp test IdP. */
  const LocalIdpSessionCookie: string := "PHPSESSIDIDP"
  const LocalIdpAuthTokenCookie: string := "SimpleSAMLAuthTokenIdp"

  /** Flask's per-request `g`, reduced to the user that this library keeps on it. */
  class FlaskG {
    var user: Option<User>

    constructor ()
      ensures user == None
    {
      user := None;
    }
  }

  /** `set_current_user_flask_g`. */
  method SetCurrentUserFlaskG(g: FlaskG, user: User)
    modifies g`user
    ensures g.user == Some(user)
  {
    g.user := Some(user);
  }

  /** A redirect response under construction, whose cookie deletions accumulate. */
  class RedirectResponse {
    const location: string
    var deletedCookies: seq<string>

    /** `make_response(redirect(location))`. */
    constructor (location: string)
      ensures this.location == location && deletedCookies == []
    {
      this.location := location;
      deletedCookies := [];
    }

    /** `response.delete_cookie(name)`. */
    method DeleteCookie(name: string)
      modifies this
      ensures deletedCookies == old(deletedCookies) + [name]
    {
      deletedCookies := deletedCookies + [name];
    }

    function Value(): Response
      reads this
    {
      Redirect(location, deletedCookies)
    }
  }

  /**
   * `logout_local_testing_idp`: a redirect to the default view that deletes
   * the local IdP's two cookies and no other.
   */
  method LogoutLocalTestingIdp(urlFor: string -> string, authDefaultView: string) returns (r: Response)
    ensures r.Redirect? && r.location == urlFor(authDefaultView)
    ensures r.deletedCookies == [LocalIdpSessionCookie, LocalIdpAuthTokenCookie]
  {
    var response := new RedirectResponse(urlFor(authDefaultView));
    response.DeleteCookie(LocalIdpSessionCookie);
    response.DeleteCookie(LocalIdpAuthTokenCookie);
    r := response.Value();
  }

  /** `handle_saml_auth_error`: the error view, showing the message as given. */
  function HandleSamlAuthError(errorMessage: string): (r: Response)
    ensures r.ErrorPage? && r.message == errorMessage
  {
    ErrorPage(errorMessage)
  }
}
