/**
 * lib/auth/__init__.py: the blueprint's routes and the flask-login hooks.
 *
 * The SAML toolkit is not modelled: what its calls return (`login`'s IdP
 * URL, the processed response, the SP metadata and its validation errors)
 * is given to each route as input. `url_for` is a function from endpoint
 * names to URLs. The session, flask-login's record of the logged-in user
 * and Flask's `g` are the mutable state the ACS and logout routes change.
 */
module Auth {
  import opened Wrappers
  import opened AuthUtils
  import opened PythonText
  import opened QueryString

  const LoginEndpoint: string := "touchstone_auth_bp.login"
  const SamlLoginEndpoint: string := "touchstone_auth_bp.saml_login"

  const XmlContentType: string := "text/xml"
  /** The content type `make_response` gives a string body. */
  const DefaultContentType: string := "text/html; charset=utf-8"

  const SamlUserdataKey: string := "samlUserdata"
  const SamlNameIdKey: string := "samlNameId"
  const SamlSessionIndexKey: string := "samlSessionIndex"

  /** `User(email=...)`: the identifier is the email. */
  function NewUser(email: string): (u: User)
    ensures u.id == email && u.email == email
  {
    User(email, email)
  }

  /** `load_user`: rebuilds the user from the identifier in the session cookie and puts it on `g`. */
  method LoadUser(g: FlaskG, userId: string) returns (u: User)
    modifies g`user
    ensures u.id == userId && u.email == userId
    ensures g.user == Some(u)
  {
    u := NewUser(userId);
    SetCurrentUserFlaskG(g, u);
  }

  /** `unauthorized`: back to the login route, remembering the requested URL. */
  function Unauthorized(urlFor: string -> string, requestUrl: string): (r: Response)
    ensures r.Redirect? && r.deletedCookies == []
    ensures r.location == urlFor(LoginEndpoint) + "?next=" + requestUrl
  {
    Redirect(urlFor(LoginEndpoint) + "?next=" + requestUrl, [])
  }

  /** `next_url` is truthy: present and not empty. */
  predicate HasNext(args: map<string, string>)
  {
    "next" in args && args["next"] != ""
  }

  /** `login`: on to the SAML login route, passing `next` along only when it is non-empty. */
  function Login(args: map<string, string>, urlFor: string -> string): (r: Response)
    ensures r.Redirect? && r.deletedCookies == []
    ensures HasNext(args) ==> r.location == urlFor(SamlLoginEndpoint) + "?next=" + args["next"]
    ensures !HasNext(args) ==> r.location == urlFor(SamlLoginEndpoint)
  {
    var samlLoginUrl := urlFor(SamlLoginEndpoint);
    if HasNext(args) then Redirect(samlLoginUrl + "?next=" + args["next"], [])
    else Redirect(samlLoginUrl, [])
  }

  /** The `return_to` of `saml_login`: `next` whenever the key is present, even empty. */
  function SamlLoginReturnTo(args: map<string, string>, urlFor: string -> string,
                             authDefaultView: string): (r: string)
    ensures "next" in args ==> r == args["next"]
    ensures "next" !in args ==> r == urlFor(authDefaultView)
  {
    if "next" in args then args["next"] else urlFor(authDefaultView)
  }

  /** `saml_login`: to the IdP URL the toolkit's `login` builds for the return target. */
  function SamlLogin(args: map<string, string>, urlFor: string -> string, authDefaultView: string,
                     idpLogin: string -> string): (r: Response)
    ensures r.Redirect? && r.deletedCookies == []
    ensures "next" in args ==> r.location == idpLogin(args["next"])
    ensures "next" !in args ==> r.location == idpLogin(urlFor(authDefaultView))
  {
    Redirect(idpLogin(SamlLoginReturnTo(args, urlFor, authDefaultView)), [])
  }

  /** `saml_metadata`: the metadata as XML, or the validation errors with status 500. */
  function SamlMetadata(metadata: string, errors: seq<string>): (r: Response)
    ensures r.Body?
    ensures r.status == 200 <==> errors == []
    ensures errors == [] ==> r.contentType == XmlContentType && r.text == metadata
    ensures errors != [] ==> r.status == 500 && r.contentType == DefaultContentType
    ensures errors != [] ==> r.text == Join(errors, ", ")
  {
    if |errors| == 0 then Body(200, XmlContentType, metadata)
    else Body(500, DefaultContentType, Join(errors, ", "))
  }

  /** A failed validation names every error in the response body. */
  lemma MetadataReportsEveryError(metadata: string, errors: seq<string>, i: nat)
    requires i < |errors|
    ensures SamlMetadata(metadata, errors).status == 500
    ensures Occurs(errors[i], SamlMetadata(metadata, errors).text)
  {
    JoinContainsEachPart(errors, ", ", i);
  }

  const NoAuthenticationPrefix: string := "User returned from IdP with no authentication: "
  const ProcessingErrorsPrefix: string := "Errors occurred processing IdP response: "

  /** The message for a response the toolkit did not authenticate: the prefix, then the error list. */
  function NoAuthenticationMessage(errors: seq<string>): (m: string)
    ensures |m| > |NoAuthenticationPrefix| && m[..|NoAuthenticationPrefix|] == NoAuthenticationPrefix
    ensures m[|NoAuthenticationPrefix|] == '[' && m[|m| - 1] == ']'
    ensures errors == [] <==> m == NoAuthenticationPrefix + "[]"
  {
    NoAuthenticationPrefix + ListRepr(errors)
  }

  /** The message for a response with processing errors: the prefix, then the error list. */
  function ProcessingErrorsMessage(errors: seq<string>): (m: string)
    ensures |m| > |ProcessingErrorsPrefix| && m[..|ProcessingErrorsPrefix|] == ProcessingErrorsPrefix
    ensures m[|ProcessingErrorsPrefix|] == '[' && m[|m| - 1] == ']'
    ensures errors == [] <==> m == ProcessingErrorsPrefix + "[]"
  {
    ProcessingErrorsPrefix + ListRepr(errors)
  }

  /** Both ACS error messages show every toolkit error, in its Python `repr`. */
  lemma AcsMessagesShowEveryError(errors: seq<string>, i: nat)
    requires i < |errors|
    ensures Occurs(StrRepr(errors[i]), NoAuthenticationMessage(errors))
    ensures Occurs(StrRepr(errors[i]), ProcessingErrorsMessage(errors))
  {
    ListReprShowsEachItem(errors, i);
    OccursInConcat(StrRepr(errors[i]), NoAuthenticationPrefix, ListRepr(errors), "");
    assert NoAuthenticationPrefix + ListRepr(errors) + "" == NoAuthenticationMessage(errors);
    OccursInConcat(StrRepr(errors[i]), ProcessingErrorsPrefix, ListRepr(errors), "");
    assert ProcessingErrorsPrefix + ListRepr(errors) + "" == ProcessingErrorsMessage(errors);
  }

  /** A value stored in the session cookie. */
  datatype SessionValue =
    | Attributes(attributes: map<string, seq<string>>)
    | Text(text: string)
    | Null

  /** What the toolkit reports after `process_response`. */
  datatype ToolkitResponse = ToolkitResponse(
    authenticated: bool,
    errors: seq<string>,
    attributes: map<string, seq<string>>,
    sessionIndex: Option<string>)

  /** The exceptions `acs` lets escape. */
  datatype AcsFault =
    | MissingIdentifierAttribute   // KeyError: no attribute named URN_UID
    | EmptyIdentifierAttribute     // IndexError: the attribute has no value
    | MissingRelayState            // the form has no RelayState

  predicate HasIdentifier(t: ToolkitResponse, urnUid: string)
  {
    urnUid in t.attributes && |t.attributes[urnUid]| > 0
  }

  function SessionIndexValue(t: ToolkitResponse): SessionValue
  {
    match t.sessionIndex
    case Some(i) => Text(i)
    case None => Null
  }

  /** The signed session cookie and flask-login's record of who is logged in. */
  class LoginSession {
    var session: map<string, SessionValue>
    /** flask-login's `_user_id`. */
    var userId: Option<string>

    constructor ()
      ensures session == map[] && userId == None
    {
      session := map[];
      userId := None;
    }

    /**
     * `acs`. A response without authentication is reported before one with
     * errors; both leave the session alone. On success the attributes, the
     * name identifier and the session index are stored, and the user named
     * by the first value of the URN_UID attribute is logged in and put on
     * `g` before the redirect to RelayState.
     */
    method Acs(g: FlaskG, urnUid: string, t: ToolkitResponse, form: map<string, string>)
      returns (r: Result<Response, AcsFault>)
      modifies this, g`user
      ensures !t.authenticated ==>
                && r == Success(ErrorPage(NoAuthenticationMessage(t.errors)))
                && session == old(session) && userId == old(userId) && g.user == old(g.user)
      ensures t.authenticated && t.errors != [] ==>
                && r == Success(ErrorPage(ProcessingErrorsMessage(t.errors)))
                && session == old(session) && userId == old(userId) && g.user == old(g.user)
      // the attributes are stored before the identifier lookup can fail
      ensures t.authenticated && t.errors == [] && !HasIdentifier(t, urnUid) ==>
                && r == Failure(if urnUid !in t.attributes then MissingIdentifierAttribute
                                else EmptyIdentifierAttribute)
                && session == old(session)[SamlUserdataKey := Attributes(t.attributes)]
                && userId == old(userId) && g.user == old(g.user)
      // the user is logged in before RelayState is read
      ensures t.authenticated && t.errors == [] && HasIdentifier(t, urnUid) ==>
                var nameId := t.attributes[urnUid][0];
                && session == old(session)[SamlUserdataKey := Attributes(t.attributes)]
                                          [SamlNameIdKey := Text(nameId)]
                                          [SamlSessionIndexKey := SessionIndexValue(t)]
                && userId == Some(nameId)
                && g.user == Some(NewUser(nameId))
                && r == if "RelayState" in form then Success(Redirect(form["RelayState"], []))
                        else Failure(MissingRelayState)
    {
      if !t.authenticated {
        r := Success(HandleSamlAuthError(NoAuthenticationMessage(t.errors)));
        return;
      }
      if t.errors != [] {
        r := Success(HandleSamlAuthError(ProcessingErrorsMessage(t.errors)));
        return;
      }
      session := session[SamlUserdataKey := Attributes(t.attributes)];
      var userdata := t.attributes;
      if urnUid !in userdata {
        r := Failure(MissingIdentifierAttribute);
        return;
      }
      if |userdata[urnUid]| == 0 {
        r := Failure(EmptyIdentifierAttribute);
        return;
      }
      session := session[SamlNameIdKey := Text(userdata[urnUid][0])];
      session := session[SamlSessionIndexKey := SessionIndexValue(t)];
      var user := NewUser(userdata[urnUid][0]);
      userId := Some(user.id);
      SetCurrentUserFlaskG(g, user);
      if "RelayState" !in form {
        r := Failure(MissingRelayState);
        return;
      }
      r := Success(Redirect(form["RelayState"], []));
    }

    /**
     * `logout`: logs the user out, then in debug mode clears the local test
     * IdP's cookies on the way to the default view. The SAML entries of the
     * session are left in place.
     */
    method Logout(urlFor: string -> string, debug: bool, authDefaultView: string) returns (r: Response)
      modifies this
      ensures userId == None && session == old(session)
      ensures r.Redirect? && r.location == urlFor(authDefaultView)
      ensures r.deletedCookies == if debug then [LocalIdpSessionCookie, LocalIdpAuthTokenCookie] else []
    {
      userId := None;
      if debug {
        r := LogoutLocalTestingIdp(urlFor, authDefaultView);
        return;
      }
      r := Redirect(urlFor(authDefaultView), []);
    }
  }

  /**
   * The identifier stored at login rebuilds, on a later request, the same
   * user that was logged in: there is no identifier drift across requests.
   */
  method AcsThenLoadUser(urnUid: string, t: ToolkitResponse, relayState: string)
    returns (atLogin: User, reloaded: User)
    requires t.authenticated && t.errors == [] && HasIdentifier(t, urnUid)
    ensures atLogin.id == t.attributes[urnUid][0]
    ensures reloaded == atLogin
  {
    var state := new LoginSession();
    var g := new FlaskG();
    var r := state.Acs(g, urnUid, t, map["RelayState" := relayState]);
    atLogin := g.user.value;
    var later := new FlaskG();
    reloaded := LoadUser(later, state.userId.value);
  }

  // ---------------------------------------------------------------------
  // The `next` parameter across redirects.
  //
  // `login` and `unauthorized` paste `next` into the query string without
  // percent-encoding it. A value that itself holds `&` (a URL with more than
  // one query argument) is cut at the `&` when the following request parses
  // its query. The functions with "QuotingNext" in their names encode the
  // value, and for them the round trip holds for every value.
  // ---------------------------------------------------------------------

  /** As written, `login` loses everything after the first `&` of `next`. */
  lemma LoginCutsNextAtAmpersand(urlFor: string -> string, authDefaultView: string)
    requires '?' !in urlFor(SamlLoginEndpoint)
    ensures var args := map["next" := "/a?x=1&y=2"];
            SamlLoginReturnTo(RequestArgs(Login(args, urlFor).location), urlFor, authDefaultView)
            == "/a?x=1"
  {
    var base := urlFor(SamlLoginEndpoint);
    assert Login(map["next" := "/a?x=1&y=2"], urlFor).location == base + "?" + "next" + "=" + "/a?x=1" + "&" + "y=2";
    RequestArgsCutAtAmpersand(base, "next", "/a?x=1", "y=2");
  }

  /** As written, `unauthorized` loses every query argument of the requested URL after the first. */
  lemma UnauthorizedCutsNextAtAmpersand(urlFor: string -> string)
    requires '?' !in urlFor(LoginEndpoint)
    ensures var args := RequestArgs(Unauthorized(urlFor, "http://localhost/whoami?a=1&b=2").location);
            "next" in args && args["next"] == "http://localhost/whoami?a=1"
  {
    var base := urlFor(LoginEndpoint);
    var kept: string := "http://localhost/whoami?a=1";
    assert kept + "&" + "b=2" == "http://localhost/whoami?a=1&b=2";
    assert Unauthorized(urlFor, "http://localhost/whoami?a=1&b=2").location
        == base + "?" + "next" + "=" + kept + "&" + "b=2";
    assert forall i :: 0 <= i < |kept| ==> kept[i] !in {'%', '&', '+', '#'};
    RequestArgsCutAtAmpersand(base, "next", kept, "b=2");
  }

  /** `login` with `next` percent-encoded, so that decoding the query gives it back. */
  function LoginQuotingNext(args: map<string, string>, urlFor: string -> string): (r: Response)
    ensures r.Redirect? && r.deletedCookies == []
    ensures !HasNext(args) ==> r.location == urlFor(SamlLoginEndpoint)
  {
    var samlLoginUrl := urlFor(SamlLoginEndpoint);
    if HasNext(args) then Redirect(samlLoginUrl + "?next=" + Quote(args["next"]), [])
    else Redirect(samlLoginUrl, [])
  }

  /** `unauthorized` with the requested URL percent-encoded. */
  function UnauthorizedQuotingNext(urlFor: string -> string, requestUrl: string): (r: Response)
    ensures r.Redirect? && r.deletedCookies == []
  {
    Redirect(urlFor(LoginEndpoint) + "?next=" + Quote(requestUrl), [])
  }

  lemma NextPrefix(base: string, q: string)
    ensures base + "?next=" + q == base + "?" + "next" + "=" + q
  {
  }

  lemma NextArgument(base: string, value: string)
    requires '?' !in base
    ensures RequestArgs(base + "?next=" + Quote(value)) == map["next" := value]
  {
    NextPrefix(base, Quote(value));
    RequestArgsOfQuotedValue(base, "next", value);
  }

  /**
   * With encoding, `saml_login` receives exactly the `next` that `login`
   * was given, and falls back to the default view when there was none.
   */
  lemma LoginQuotingNextRoundTrip(args: map<string, string>, urlFor: string -> string,
                                  authDefaultView: string)
    requires '?' !in urlFor(SamlLoginEndpoint)
    ensures SamlLoginReturnTo(RequestArgs(LoginQuotingNext(args, urlFor).location), urlFor,
                              authDefaultView)
            == if HasNext(args) then args["next"] else urlFor(authDefaultView)
  {
    if HasNext(args) {
      NextArgument(urlFor(SamlLoginEndpoint), args["next"]);
    } else {
      RequestArgsWithoutQuery(urlFor(SamlLoginEndpoint));
    }
  }

  /** With encoding, the login route receives exactly the URL that was refused. */
  lemma UnauthorizedQuotingNextRoundTrip(urlFor: string -> string, requestUrl: string)
    requires '?' !in urlFor(LoginEndpoint)
    ensures RequestArgs(UnauthorizedQuotingNext(urlFor, requestUrl).location)
            == map["next" := requestUrl]
  {
    NextArgument(urlFor(LoginEndpoint), requestUrl);
  }

  /**
   * The whole sign-on chain with encoding: a refused request for a URL
   * comes back from the IdP with that URL as the return target.
   */
  lemma ProtectedUrlSurvivesSignOn(urlFor: string -> string, authDefaultView: string,
                                   requestUrl: string)
    requires '?' !in urlFor(LoginEndpoint) && '?' !in urlFor(SamlLoginEndpoint)
    requires requestUrl != ""
    ensures var loginArgs := RequestArgs(UnauthorizedQuotingNext(urlFor, requestUrl).location);
            var samlLoginArgs := RequestArgs(LoginQuotingNext(loginArgs, urlFor).location);
            SamlLoginReturnTo(samlLoginArgs, urlFor, authDefaultView) == requestUrl
  {
    UnauthorizedQuotingNextRoundTrip(urlFor, requestUrl);
    LoginQuotingNextRoundTrip(map["next" := requestUrl], urlFor, authDefaultView);
  }

  /**
   * As written, `login` and `saml_login` agree whenever `next` holds no
   * character with a meaning in a query string, such as `/dashboard`.
   */
  lemma LoginPassesPlainNext(args: map<string, string>, urlFor: string -> string,
                             authDefaultView: string)
    requires '?' !in urlFor(SamlLoginEndpoint)
    requires HasNext(args) ==> forall c :: c in Reserved ==> c !in args["next"]
    ensures SamlLoginReturnTo(RequestArgs(Login(args, urlFor).location), urlFor, authDefaultView)
            == if HasNext(args) then args["next"] else urlFor(authDefaultView)
  {
    if HasNext(args) {
      QuotePlain(args["next"]);
      NextArgument(urlFor(SamlLoginEndpoint), args["next"]);
    } else {
      RequestArgsWithoutQuery(urlFor(SamlLoginEndpoint));
    }
  }
}
