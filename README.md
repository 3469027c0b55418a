# touchstone-auth-flask, modelled in Dafny

touchstone-auth-flask wires MIT Touchstone (SAML 2.0) single sign-on into a
Flask application. The SAML protocol itself (XML, signatures, assertion
validation) is done by the python3-saml toolkit; this library owns the glue
around it, and that glue is what the model covers:

- **Configuration classes** (`app_config.dfy`, module `AppConfig`): `Config`,
  `DevelopmentConfig` and `TestingConfig` as functions from the process
  environment to a configuration record, and the choice among them by
  `FLASK_ENV` that `initialize_touchstone_auth` makes.
- **SAML settings resolution** (`saml_settings.dfy`, module `SamlSettings`):
  the module-level `DEFAULT_SAML_SETTINGS` dictionary and the app config as
  objects updated in place; the lazy IdP metadata fetch and the lazy
  development key pair, with the fetch and the `openssl` run as parameters
  whose calls are counted in ghost fields; the settings writes; and
  `prepare_flask_request`. The function `Resolve` is the value-level
  specification of `load_saml_settings`, and the class method is proved
  against it.
- **Routes and login state** (`auth.dfy`, module `Auth`): `unauthorized`,
  `login`, `saml_login`, `acs`, `logout`, `saml_metadata`, the `User` record
  and `load_user`. The session, flask-login's logged-in user and Flask's `g`
  are the mutable state. What the toolkit returns is an input.
- **Response helpers** (`auth_utils.dfy`, module `AuthUtils`): the user on
  `g`, the local test IdP's logout with its two cookie deletions, and the
  error view.
- **Support**: `python_text.dfy` models Python's `str.join` and the `repr` of
  a list of strings, which the ACS error messages and the metadata error
  body are made of. `query_string.dfy` models how the query of a redirect
  target comes back as `request.args` of the next request (browser plus
  Werkzeug), which the findings below need. `wrappers.dfy` holds `Option`
  and `Result`.

The SAML binding URNs are those of OASIS SAML 2.0 Bindings: HTTP-POST
(section 3.5) for the assertion consumer service and HTTP-Redirect (section
3.4) for the IdP's single sign-on service.

Behaviour of the code worth knowing, modelled as written:

- The metadata route joins validation errors with `", "`.
- Nothing checks that the SP or IdP entity IDs are set: in production an unset
  `SP_ENTITY_ID` reaches the settings as `None`. No missing value raises by
  itself except the SP key or certificate outside development and testing;
  a missing IdP SSO URL or certificate triggers the metadata fetch, which can
  raise.
- The IdP metadata fetch is not limited to development: it runs in any mode
  whenever the IdP SSO URL or certificate is unset.
- `logout` calls `logout_user`, which forgets flask-login's user; the
  `samlUserdata`, `samlNameId` and `samlSessionIndex` session entries stay.
- In `acs`, `samlUserdata` is written to the session before the `URN_UID`
  lookup, so a missing or empty identifier attribute leaves that entry
  behind. The user is logged in before `RelayState` is read, so a form
  without it fails after the login.

## Model

| member | source | states |
|---|---|---|
| AppConfig.BaseConfig | touchstone_auth_flask/lib/config.py:4-28 | Not testing, not debug; ENV is "production", AUTH_DEFAULT_VIEW "index" and URN_UID the eduPersonPrincipalName URN when unset; the assertions-encrypted flag is boolean True when unset and the raw string when set; VALID_DOMAINS defaults to the fixed list of three library CDN hosts; each IdP/SP entity, URL, certificate and key and SECRET_KEY is absent exactly when its variable is unset; every set variable (FLASK_ENV, SECRET_KEY, AUTH_DEFAULT_VIEW, the IdP and SP values, URN_UID, VALID_DOMAINS) is taken verbatim |
| AppConfig.DevelopmentConfig | touchstone_auth_flask/lib/config.py:31-41 | Equal to the base configuration except DEBUG, ENV "development", the fixed secret key and the SP ACS URL, SP entity ID, assertions-encrypted flag and URN_UID; those take the variable's value when set and fall back to the localhost URLs, boolean False and "email" when unset, so the SP URLs are never absent |
| AppConfig.TestingConfig | touchstone_auth_flask/lib/config.py:44-57 | TESTING set, DEBUG unset, ENV "testing"; the secret key, IdP entity ID, SSO URL and certificate, SP entity ID, ACS URL, certificate and key equal the fixed literals whatever the environment holds; view, flag, URN_UID and domains inherited from the base |
| AppConfig.TestingIgnoresEnvironment | touchstone_auth_flask/lib/config.py:44-57 | Any two environments give testing configurations that differ only in the four attributes still read from the environment |
| AppConfig.ConfigFor | touchstone_auth_flask/lib/auth/__init__.py:53-59 | FLASK_ENV "development" selects DevelopmentConfig, "testing" TestingConfig, anything else (or unset) Config; TESTING and DEBUG are set exactly in those modes; ENV agrees with FLASK_ENV or is "production" |
| SamlSettings.SettingsDict.constructor | touchstone_auth_flask/lib/auth/saml/__init__.py:16-43 | The dictionary starts strict, not debug, with empty SP/IdP values, the HTTP-POST and HTTP-Redirect bindings and the default security flags |
| SamlSettings.FlaskConfig.FromObject | touchstone_auth_flask/lib/auth/__init__.py:53-59 | Loading a configuration class puts its IdP/SP values and its assertions-encrypted flag into the app config |
| SamlSettings.IdpStep | touchstone_auth_flask/lib/auth/saml/__init__.py:80-88 | The metadata is fetched exactly when the SSO URL or the certificate is missing, and nothing changes and nothing is raised when neither is; a fetch with both entries sets both keys to them; a failed fetch raises and writes nothing; a missing SSO URL raises and writes nothing; a missing certificate raises after the SSO URL was written; only those two keys change |
| SamlSettings.SpStep | touchstone_auth_flask/lib/auth/saml/__init__.py:91-105 | A key pair is generated exactly when the key or certificate is missing and FLASK_ENV is development or testing; the RuntimeError is raised exactly when one is missing in any other mode, and writes nothing; nothing changes and nothing is raised when both are present; a generated pair becomes both keys; a failed generation raises and writes nothing; only the two SP keys change |
| SamlSettings.ApplyKeys | touchstone_auth_flask/lib/auth/saml/__init__.py:63-75 | Debug becomes true; SP entity ID, ACS URL, certificate and key and IdP entity ID, SSO URL and certificate mirror the app config; wantAssertionsEncrypted is the config flag or False when the key is absent; strict, both bindings and the other security flags keep their values |
| SamlSettings.Resolve | touchstone_auth_flask/lib/auth/saml/__init__.py:53-77 | Fetch if and only if the IdP URL or certificate is missing; generation exactly when an SP value is missing, in development or testing, after a successful IdP step; a raise in the IdP step is the resolution's error; resolution succeeds exactly when the IdP step succeeds and the SP pair is present or generated; unless a pair was generated, the SP key and certificate are kept, including after a failed generation; a failed generation is the resolution's error, a successful one fills both SP keys with the pair; the IdP step's writes persist even when the SP step raises; outside development/testing a missing SP key or certificate raises; a raise leaves the settings unchanged; success leaves all four lazily filled keys present and the settings mirroring them, with debug on and the fixed fields kept |
| SamlSettings.ResolveFillsMissingPairs | touchstone_auth_flask/lib/auth/saml/__init__.py:82-105 | A fetch yielding both entries overwrites both IdP keys with them; after a successful IdP step, a missing SP value in development or testing leads to generation and a generated pair overwrites both SP keys; when no fetch is needed the IdP keys are unchanged |
| SamlSettings.ResolveIsIdempotent | touchstone_auth_flask/lib/auth/saml/__init__.py:82-97 | With all four keys present there is no fetch, no generation and no change to the keys; resolving again after a success gives the same keys and settings without external calls |
| SamlSettings.TestingResolvesWithoutCalls | touchstone_auth_flask/lib/config.py:44-57 | The testing configuration resolves with no fetch, no generation and no error |
| SamlSettings.SamlResolver.SetIdpSsoUrlAndCert | touchstone_auth_flask/lib/auth/saml/__init__.py:80-88 | Updates the app config as IdpStep says and counts one fetch exactly when it fetched |
| SamlSettings.SamlResolver.SetDevelopmentSpKeyAndCert | touchstone_auth_flask/lib/auth/saml/__init__.py:91-105 | Updates the app config as SpStep says, raises as SpStep says, and counts one generation exactly when it generated |
| SamlSettings.SamlResolver.LoadSamlSettings | touchstone_auth_flask/lib/auth/saml/__init__.py:53-77 | The app config and the module-level dictionary end as Resolve says; on success the result is the module-level dictionary itself, not a copy; fetch and generation counters grow by Resolve's calls |
| SamlSettings.PrepareFlaskRequest | touchstone_auth_flask/lib/auth/saml/__init__.py:147-157 | https is "on" exactly when the scheme is "https" and "off" otherwise; host, port and path are passed through; query and form arguments are copied |
| AuthUtils.SetCurrentUserFlaskG | touchstone_auth_flask/lib/auth/utils.py:20-21 | The user on `g` becomes the given user; nothing else on `g` changes |
| AuthUtils.RedirectResponse.DeleteCookie | touchstone_auth_flask/lib/auth/utils.py:27-28 | Each deletion adds exactly that cookie to the response's deletions |
| AuthUtils.LogoutLocalTestingIdp | touchstone_auth_flask/lib/auth/utils.py:24-29 | A redirect to the URL of AUTH_DEFAULT_VIEW that deletes PHPSESSIDIDP and SimpleSAMLAuthTokenIdp and no other cookie |
| AuthUtils.HandleSamlAuthError | touchstone_auth_flask/lib/auth/utils.py:32-34 | The error view shows the message unchanged |
| Auth.NewUser | touchstone_auth_flask/lib/auth/__init__.py:62-65 | A user's identifier and email are both the given email |
| Auth.LoadUser | touchstone_auth_flask/lib/auth/__init__.py:68-73 | The loaded user's identifier and email are both the session's identifier, and it is put on `g` |
| Auth.Unauthorized | touchstone_auth_flask/lib/auth/__init__.py:82-85 | A redirect to the login URL followed by `?next=` and the requested URL, deleting no cookie |
| Auth.Login | touchstone_auth_flask/lib/auth/__init__.py:93-99 | A redirect to the SAML login URL, with `?next=` and the value appended exactly when `next` is present and non-empty |
| Auth.SamlLoginReturnTo | touchstone_auth_flask/lib/auth/__init__.py:123-126 | The return target is `next` whenever the key is present, even empty, and otherwise the URL of AUTH_DEFAULT_VIEW |
| Auth.SamlLogin | touchstone_auth_flask/lib/auth/__init__.py:121-127 | A redirect to the toolkit's IdP login URL for that return target |
| Auth.LoginSession.Acs | touchstone_auth_flask/lib/auth/__init__.py:130-154 | Not authenticated: the no-authentication error view with the error list, checked before the errors, and no change to session, login or `g`; authenticated with errors: the processing-errors view and no change; otherwise the session holds the attributes, the first value of the URN_UID attribute as samlNameId and the session index, that identifier is logged in and is the id and email of the user on `g`, and the response redirects to RelayState; a missing or empty URN_UID attribute and a missing RelayState are errors, with the partial writes that precede them |
| Auth.NoAuthenticationMessage | touchstone_auth_flask/lib/auth/__init__.py:136 | The no-authentication message is its fixed prefix followed by a Python list display; it ends in "[]" exactly when the toolkit reported no error |
| Auth.ProcessingErrorsMessage | touchstone_auth_flask/lib/auth/__init__.py:140 | The processing-errors message is its fixed prefix followed by a Python list display; it ends in "[]" exactly when the toolkit reported no error |
| Auth.AcsMessagesShowEveryError | touchstone_auth_flask/lib/auth/__init__.py:135-141 | Both ACS error messages contain the Python repr of every error the toolkit reported |
| Auth.AcsThenLoadUser | touchstone_auth_flask/lib/auth/__init__.py:144-151 | The user rebuilt from the identifier stored at login equals the user logged in, whose identifier is the first URN_UID value |
| Auth.LoginSession.Logout | touchstone_auth_flask/lib/auth/__init__.py:102-107 | Always logs the user out and leaves the session entries; redirects to the URL of AUTH_DEFAULT_VIEW, deleting the two local IdP cookies in debug mode and none otherwise |
| Auth.SamlMetadata | touchstone_auth_flask/lib/auth/__init__.py:157-170 | Status 200 exactly when there are no validation errors, then with the metadata and Content-Type text/xml; otherwise status 500 with the errors joined by ", " |
| Auth.MetadataReportsEveryError | touchstone_auth_flask/lib/auth/__init__.py:164-168 | A failed validation answers 500 with a body that contains every error |
| Auth.LoginPassesPlainNext | touchstone_auth_flask/lib/auth/__init__.py:95-99 | As written, a `next` free of query-significant characters (such as /dashboard) reaches saml_login unchanged, and no `next` falls back to the default view |
| Auth.LoginCutsNextAtAmpersand | touchstone_auth_flask/lib/auth/__init__.py:95-99 | As written, next=/a?x=1&y=2 reaches saml_login as /a?x=1 |
| Auth.UnauthorizedCutsNextAtAmpersand | touchstone_auth_flask/lib/auth/__init__.py:85 | As written, a refused request for http://localhost/whoami?a=1&b=2 reaches login with next=http://localhost/whoami?a=1 |
| Auth.LoginQuotingNextRoundTrip | touchstone_auth_flask/lib/auth/__init__.py:95-99 | With `next` percent-encoded, saml_login receives exactly the `next` login was given, or falls back to the default view when there was none |
| Auth.UnauthorizedQuotingNextRoundTrip | touchstone_auth_flask/lib/auth/__init__.py:85 | With the URL percent-encoded, the login route receives exactly the refused URL as `next` |
| Auth.ProtectedUrlSurvivesSignOn | touchstone_auth_flask/lib/auth/__init__.py:82-99 | With encoding, a refused URL passes through login and saml_login and becomes the IdP return target unchanged |
| PythonText.Join | touchstone_auth_flask/lib/auth/__init__.py:168 | `sep.join` of no parts is empty, of one part is that part, and otherwise as long as all parts plus one separator between each neighbouring pair |
| PythonText.StrRepr | touchstone_auth_flask/lib/auth/__init__.py:136 | `repr` of a string is delimited by matching quotes, double exactly when the text holds a single quote and no double quote |
| PythonText.StrReprOfPlainText | touchstone_auth_flask/lib/auth/__init__.py:136 | Text without quotes, backslashes or control characters is shown verbatim between single quotes |
| PythonText.ListRepr | touchstone_auth_flask/lib/auth/__init__.py:136 | `repr` of a list of strings is bracketed, and is "[]" exactly for the empty list |
| PythonText.JoinContainsEachPart | touchstone_auth_flask/lib/auth/__init__.py:168 | Every part of a `sep.join` occurs in the joined text |
| PythonText.ListReprShowsEachItem | touchstone_auth_flask/lib/auth/__init__.py:136 | The repr of every string of a list occurs in the list's repr |

## Findings

| source | as written | input that shows it | evidently intended | confidence | as-written member | corrected member |
|---|---|---|---|---|---|---|
| touchstone_auth_flask/lib/auth/__init__.py:98 | `next` is pasted into the query string without percent-encoding | next=/a?x=1&y=2 reaches saml_login as /a?x=1, so the user returns to the wrong page | encode the value, as `url_for("touchstone_auth_bp.saml_login", next=next_url)` would | not executed; high for values with `&`, `#`, `%` or `+` | Auth.LoginCutsNextAtAmpersand | Auth.LoginQuotingNext |
| touchstone_auth_flask/lib/auth/__init__.py:85 | the requested URL is pasted into the query string without percent-encoding | a refused request for http://localhost/whoami?a=1&b=2 reaches login with next=http://localhost/whoami?a=1 | encode the URL, as `url_for("touchstone_auth_bp.login", next=request.url)` would | not executed; high for URLs with more than one query argument | Auth.UnauthorizedCutsNextAtAmpersand | Auth.UnauthorizedQuotingNext |

The round trips proved for the corrected members are
Auth.LoginQuotingNextRoundTrip, Auth.UnauthorizedQuotingNextRoundTrip and,
for the whole chain, Auth.ProtectedUrlSurvivesSignOn.

## Left out

- The SAML toolkit: `OneLogin_Saml2_Auth` construction, `login`, `process_response`, `is_authenticated`, `get_errors`, `get_attributes`, `get_session_index`, `get_settings`, `get_sp_metadata` and `validate_metadata` are foreign library code; their results are inputs. An exception from `process_response` is not modelled.
- `get_saml_auth_obj` and `before_request`: they only run `load_saml_settings` and `prepare_flask_request` and hand the results to the toolkit on every blueprint request; the model does not compose them.
- `retrieve_and_parse_idp_metadata`: a network fetch and a foreign parser; modelled as a parameter from the IdP entity ID to the parsed SSO URL and certificate (each possibly missing) or a failure. That parameter is unconstrained when the IdP entity ID is unset, so the model admits a successful fetch for `None`, which `parse_remote(None)` cannot produce.
- `generate_development_sp_x509_cert_and_key`: temporary files and an `openssl` subprocess; modelled as a given (key, certificate) pair or a failure.
- `parse_saml_xml_response`: foreign toolkit internals.
- `whoami`, the blueprint and login-manager registration in `initialize_touchstone_auth`, `login_required`, template rendering, session-cookie signing: Flask and flask-login machinery. `url_for` is a function from endpoint names to URLs; a BuildError for an unknown AUTH_DEFAULT_VIEW is not modelled.
- The environment is one snapshot: the configuration classes read it at import time and `initialize_touchstone_auth` and `set_development_sp_key_and_cert` read FLASK_ENV at call time; the model assumes they see the same values.
- Concurrent first requests racing on the shared app config and settings dictionary: the model is sequential.
- Repeated query or form keys: `request.args` and `request.form` are maps holding the first value of each key.
- `prepare_flask_request`'s `server_port` comes from the standard library's `urlparse`; the parsed port is an input.
- PythonText.StrRepr: non-ASCII characters are kept as they are; Python escapes the non-printable ones.
- QueryString.Unquote: a `%XX` escape above 7F decodes to that code point, where Python decodes the bytes as UTF-8.
- SamlSettings.Resolve: wantAssertionsEncrypted holds the raw environment string when the variable is set, as in the source; how the toolkit interprets that string (any non-empty string, "false" included, is truthy in Python) is the toolkit's and is not modelled.
- Logging: `handle_saml_auth_error` logs the message with `logger.warning` before rendering it; log output is not modelled, only the rendered error view.
- Flask's `current_app.debug`, read by `logout`, is the DEBUG configuration value; it is a parameter of Auth.LoginSession.Logout.
- flask-login's session entries are one field (the logged-in user's identifier) beside the session map; `login_user`'s remember-me and freshness flags are not modelled.
