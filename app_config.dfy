/**
 * The configuration classes of lib/config.py. Each Python class binds its
 * attributes from the process environment when it is imported, and the
 * development and testing classes inherit from the base class and override a
 * few attributes. Here each class is a function from one snapshot of the
 * environment to a configuration record, and inheritance is a record update
 * of the base record.
 */
module AppConfig {
  import opened Wrappers

  /** The process environment: variable name to value. */
  type Environment = map<string, string>

  /**
   * The value of SP_SECURITY_ASSERTIONS_ENCRYPTED. `os.getenv` returns the
   * variable's raw string when it is set and the Python boolean default when
   * it is not, so the attribute holds one or the other.
   */
  datatype Flag = Bool(b: bool) | Raw(s: string)

  /** The upper-case attributes that `from_object` copies into the app config. */
  datatype Config = Config(
    testing: bool,
    debug: bool,
    env: string,
    secretKey: Option<string>,
    authDefaultView: string,
    idpEntityId: Option<string>,
    idpSsoUrl: Option<string>,
    idpCert: Option<string>,
    spEntityId: Option<string>,
    spAcsUrl: Option<string>,
    spAssertionsEncrypted: Flag,
    spCert: Option<string>,
    spKey: Option<string>,
    urnUid: string,
    validDomains: string)

  /** eduPersonPrincipalName, OID 1.3.6.1.4.1.5923.1.1.1.6, as a SAML attribute name. */
  const DefaultUrnUid: string := "urn:oid:1.3.6.1.4.1.5923.1.1.1.6"
  const DefaultAuthView: string := "index"
  const DefaultValidDomains: string :=
    "cdn.libraries.mit.edu,cdn.dev1.mitlibrary.net,cdn.stage.mitlibrary.net"

  const DevelopmentSecretKey: string := "iamasecret"
  const DevelopmentAcsUrl: string := "http://localhost:5000/saml/?acs"
  const DevelopmentEntityId: string := "http://localhost:5000/saml"
  const DevelopmentUrnUid: string := "email"

  const TestingSecretKey: string := "testing"
  const TestingIdpEntityId: string := "http://example.com/shibboleth"
  const TestingIdpSsoUrl: string := "http://example.com/idp/profile/SAML2/Redirect/SSO"
  const TestingIdpCert: string := "fakeIdPCert"
  const TestingSpEntityId: string := "http://example.com/saml"
  const TestingSpAcsUrl: string := "http://example.com/saml?acs"
  /** The checked-in self-signed test certificate and its private key (base64 DER). */
  const TestingSpCert: string :=
    "MIIEGTCCAwGgAwIBAgIUCaZuYLMNiHxO9LEq+CgzB271rBswDQYJKoZIhvcNAQELBQAwgZsxCzAJBgNVBAYTAlVT"
    + "MRYwFAYDVQQIDA1NYXNzYWNodXNldHRzMRIwEAYDVQQHDAlDYW1icmlkZ2UxFTATBgNVBAoMDEZha2UgQ29tcGFu"
    + "eTESMBAGA1UECwwJRmFrZSBVbml0MRQwEgYDVQQDDAtleGFtcGxlLmNvbTEfMB0GCSqGSIb3DQEJARYQZmFrZUBl"
    + "eGFtcGxlLmNvbTAeFw0yNDAzMjIxODE1MzlaFw0zNDAzMjAxODE1MzlaMIGbMQswCQYDVQQGEwJVUzEWMBQGA1UE"
    + "CAwNTWFzc2FjaHVzZXR0czESMBAGA1UEBwwJQ2FtYnJpZGdlMRUwEwYDVQQKDAxGYWtlIENvbXBhbnkxEjAQBgNV"
    + "BAsMCUZha2UgVW5pdDEUMBIGA1UEAwwLZXhhbXBsZS5jb20xHzAdBgkqhkiG9w0BCQEWEGZha2VAZXhhbXBsZS5j"
    + "b20wggEiMA0GCSqGSIb3DQEBAQUAA4IBDwAwggEKAoIBAQCkOCiZwvEpRjV0mSSX8jYYgqpfZUzQ+6YuXOBBrkOE"
    + "VqMRO5pnIi/pE+QXeRfujgE9NcytFYrdr6w7aojcovMweroAdw0BCSuykfluxfpEA1p5fUi/p6rC6lgsd36ByKtZ"
    + "D6IX9xOw0qyh6Ch9YQg+U7atT+qFJnjlewX/EexGfGI14DNlTFSWalRxXiaQorf+9Cc6RVEqqk0WTcE903etqMIu"
    + "Rg/fOrV/HhbqPT3tLpdXmLA1wijRX3DIpWlgqOIFxQfMgy8P0Fn5tuSNah45o3rJLhAMWxttCEDUl17EjLcwZYHA"
    + "REHTpCWx7BJ0FUkNypPT/Ub3e08EbOJlJOI3AgMBAAGjUzBRMB0GA1UdDgQWBBRCfiJzC0jNaQAXdp+oS29sDs31"
    + "djAfBgNVHSMEGDAWgBRCfiJzC0jNaQAXdp+oS29sDs31djAPBgNVHRMBAf8EBTADAQH/MA0GCSqGSIb3DQEBCwUA"
    + "A4IBAQBbqOqflhNsWuuIciBeOixu/SeG7mh9wSOV0VhxnAdlWLHQekcXYi5i5eFH9n1U90BktIPWWlOQpqocVQIv"
    + "Aed8TDgMwcr+64ZmN9BGGmF97OB5oD0SZGxs5IyB3O+EnR26HD4WXum6x0tCoLyV3heSRn9ff91bcRQfrs5ZLGuJ"
    + "FobcwDGeTC1YTnGg0mEWSV9Ao8w100qG/FvFpWRz4VQBajsEHvuy4JQXl56+kdvW60M3iXbawNgz+Ht8lebeZ5AI"
    + "3mhK+qk5FUHyogemFcujtFSdeZ3CS/pAmmfAJdF2SGShVwf6twHS+8jipD1O+Y4SdyD1BjvO8tYXE9rB1XgH"
  const TestingSpKey: string :=
    "MIIEvQIBADANBgkqhkiG9w0BAQEFAASCBKcwggSjAgEAAoIBAQCkOCiZwvEpRjV0mSSX8jYYgqpfZUzQ+6YuXOBB"
    + "rkOEVqMRO5pnIi/pE+QXeRfujgE9NcytFYrdr6w7aojcovMweroAdw0BCSuykfluxfpEA1p5fUi/p6rC6lgsd36B"
    + "yKtZD6IX9xOw0qyh6Ch9YQg+U7atT+qFJnjlewX/EexGfGI14DNlTFSWalRxXiaQorf+9Cc6RVEqqk0WTcE903et"
    + "qMIuRg/fOrV/HhbqPT3tLpdXmLA1wijRX3DIpWlgqOIFxQfMgy8P0Fn5tuSNah45o3rJLhAMWxttCEDUl17EjLcw"
    + "ZYHAREHTpCWx7BJ0FUkNypPT/Ub3e08EbOJlJOI3AgMBAAECggEAB4L0irHCqMHvGXdN0LNznQBmZ9xUoDulNUFc"
    + "MqaxAc+ZznLujO+vAFc/op2swoIRysYGfRcwqxOT+GasRS52RZU/huqyQvfP62EqvHyR6bn0bjYUytmuVtqlni/4"
    + "Z690u+Q2q7ZKd3N+LldHsmeVjOPYYjhMa0lOfu2TmkBJA0wSHlEQRnOclfWw9IGYQYYXbtQzQhLNTHRBA4plokcW"
    + "w/KXH8qhQbAIk1eEnsqOVJk5XrdPpBZSwfWZ9VXhHi8EHSeRqbRsGtQ2RisKJfTEKFFTDVyEjuUUHN+Eghx7i/PC"
    + "VE0dlytzKSytNo86AtEO9bS6Zb5WgjhsdpUpBpWaaQKBgQDS+oTrdNx1io3nWODMxlZ9hZd+x6Fc9gPHcqK50htO"
    + "AT6bFrEC4B9z1xqlkGj3qprK8mYtPEGRxINziO53O7ZQsWTRXv+LL+Az2wMfnYHhKkybUpLAA+ENW6EwmgMISWjp"
    + "UNmJht8POLYQiZFmU9yN1p5+6S30uFBG/2Msb5HjaQKBgQDHQz6+1MXdMdbuE9YACAeqt8C/KMokgAw+VJZmYMxA"
    + "W5ozt6iLwKHE8pnLUx15WSMDiz2v8NGHDUi8kxw92Cww1/MF3XMgihTENPlNx1EwGv41HuumlQaXWrrBFkC2+1WY"
    + "g2DcvovtDU+fJ7gGiP1f/Nkh3Lo+jYDCmZPXscMEnwKBgQCZJs5SdfSLRtcX94bIX7ntSIret1/FsbiwkeDab1Du"
    + "4SxnPKOmaLesSZvIT/pCvw+6/xd5AuK+RB8AQYiJ+UixbvS2n/V1Pn3MZtHvo1Di+Oe/YMOyq541KizqsQI+g7uq"
    + "ksw3bzaBQDO58YMg+wOB2ygXDIIVwa5Uu5NscFlA8QKBgFSA5w4ky9iXd0+1585RmXbDwKEQ2lEKYKbaVoIKUPSG"
    + "JGoEXB0QT0pnm+NHVzuMGrY5CasglKsSbiNSu+paT7tTCYQWOum0xUPEN2nNuleNSvsaJtOZZZcwafzSxBUVl2I7"
    + "bQuQX2TjfT3AqWFUHSfk4exjYDSA6/cbDECv6UV/AoGADRkoNPvkeLnFMt/3Z6ZCmUxyFJ4MgtwmvYDDa5TW1gif"
    + "XCRp71g0JXAVCk78oNYk2Q69nAKlG0+ST+jTOqMvxb9UNMt5j01q5CLxyzuxQoGGVpq/b4fwpt33VTMPNtffzeq1"
    + "oY/6rYy0TSKFFIxE3rrjOpo/1b0DeES0Yb77H1E="

  /** `os.getenv(name)`: the value when the variable is set. */
  function Getenv(env: Environment, name: string): Option<string>
  {
    if name in env then Some(env[name]) else None
  }

  /** `os.getenv(name, default=d)` with a string default. */
  function GetenvOr(env: Environment, name: string, d: string): string
  {
    if name in env then env[name] else d
  }

  /** `os.getenv(name, default=b)` with a boolean default. */
  function GetenvFlag(env: Environment, name: string, b: bool): Flag
  {
    if name in env then Raw(env[name]) else Bool(b)
  }

  /** The class `Config`: production defaults, everything else from the environment. */
  function BaseConfig(env: Environment): (c: Config)
    ensures !c.testing && !c.debug
    ensures "FLASK_ENV" !in env ==> c.env == "production"
    ensures "AUTH_DEFAULT_VIEW" !in env ==> c.authDefaultView == DefaultAuthView
    ensures "URN_UID" !in env ==> c.urnUid == DefaultUrnUid
    ensures "SP_SECURITY_ASSERTIONS_ENCRYPTED" !in env ==> c.spAssertionsEncrypted == Bool(true)
    ensures "SP_SECURITY_ASSERTIONS_ENCRYPTED" in env ==>
              c.spAssertionsEncrypted == Raw(env["SP_SECURITY_ASSERTIONS_ENCRYPTED"])
    // the IdP and SP values are absent exactly when their variables are unset
    ensures c.idpEntityId.Some? <==> "IDP_ENTITY_ID" in env
    ensures c.idpSsoUrl.Some? <==> "IDP_SSO_URL" in env
    ensures c.idpCert.Some? <==> "IDP_CERT" in env
    ensures c.spEntityId.Some? <==> "SP_ENTITY_ID" in env
    ensures c.spAcsUrl.Some? <==> "SP_ACS_URL" in env
    ensures c.spCert.Some? <==> "SP_CERT" in env
    ensures c.spKey.Some? <==> "SP_KEY" in env
    ensures c.secretKey.Some? <==> "SECRET_KEY" in env
    ensures "VALID_DOMAINS" !in env ==> c.validDomains == DefaultValidDomains
    // a set variable is taken verbatim
    ensures "FLASK_ENV" in env ==> c.env == env["FLASK_ENV"]
    ensures "SECRET_KEY" in env ==> c.secretKey == Some(env["SECRET_KEY"])
    ensures "AUTH_DEFAULT_VIEW" in env ==> c.authDefaultView == env["AUTH_DEFAULT_VIEW"]
    ensures "IDP_ENTITY_ID" in env ==> c.idpEntityId == Some(env["IDP_ENTITY_ID"])
    ensures "IDP_SSO_URL" in env ==> c.idpSsoUrl == Some(env["IDP_SSO_URL"])
    ensures "IDP_CERT" in env ==> c.idpCert == Some(env["IDP_CERT"])
    ensures "SP_ENTITY_ID" in env ==> c.spEntityId == Some(env["SP_ENTITY_ID"])
    ensures "SP_ACS_URL" in env ==> c.spAcsUrl == Some(env["SP_ACS_URL"])
    ensures "SP_CERT" in env ==> c.spCert == Some(env["SP_CERT"])
    ensures "SP_KEY" in env ==> c.spKey == Some(env["SP_KEY"])
    ensures "URN_UID" in env ==> c.urnUid == env["URN_UID"]
    ensures "VALID_DOMAINS" in env ==> c.validDomains == env["VALID_DOMAINS"]
  {
    Config(
      testing := false,
      debug := false,
      env := GetenvOr(env, "FLASK_ENV", "production"),
      secretKey := Getenv(env, "SECRET_KEY"),
      authDefaultView := GetenvOr(env, "AUTH_DEFAULT_VIEW", DefaultAuthView),
      idpEntityId := Getenv(env, "IDP_ENTITY_ID"),
      idpSsoUrl := Getenv(env, "IDP_SSO_URL"),
      idpCert := Getenv(env, "IDP_CERT"),
      spEntityId := Getenv(env, "SP_ENTITY_ID"),
      spAcsUrl := Getenv(env, "SP_ACS_URL"),
      spAssertionsEncrypted := GetenvFlag(env, "SP_SECURITY_ASSERTIONS_ENCRYPTED", true),
      spCert := Getenv(env, "SP_CERT"),
      spKey := Getenv(env, "SP_KEY"),
      urnUid := GetenvOr(env, "URN_UID", DefaultUrnUid),
      validDomains := GetenvOr(env, "VALID_DOMAINS", DefaultValidDomains))
  }

  /** The class `DevelopmentConfig(Config)`. */
  function DevelopmentConfig(env: Environment): (c: Config)
    // only these seven attributes are overridden; the rest is inherited
    ensures c == BaseConfig(env).(debug := true, env := "development",
                                  secretKey := Some(DevelopmentSecretKey),
                                  spAcsUrl := c.spAcsUrl, spEntityId := c.spEntityId,
                                  spAssertionsEncrypted := c.spAssertionsEncrypted,
                                  urnUid := c.urnUid)
    // the overrides fall back to local defaults, never to absence
    ensures c.spAcsUrl.Some? && c.spEntityId.Some?
    ensures "SP_ACS_URL" !in env ==> c.spAcsUrl == Some(DevelopmentAcsUrl)
    ensures "SP_ENTITY_ID" !in env ==> c.spEntityId == Some(DevelopmentEntityId)
    ensures "SP_ACS_URL" in env ==> c.spAcsUrl == Some(env["SP_ACS_URL"])
    ensures "SP_ENTITY_ID" in env ==> c.spEntityId == Some(env["SP_ENTITY_ID"])
    ensures "SP_SECURITY_ASSERTIONS_ENCRYPTED" !in env ==> c.spAssertionsEncrypted == Bool(false)
    ensures "SP_SECURITY_ASSERTIONS_ENCRYPTED" in env ==>
              c.spAssertionsEncrypted == Raw(env["SP_SECURITY_ASSERTIONS_ENCRYPTED"])
    ensures "URN_UID" !in env ==> c.urnUid == DevelopmentUrnUid
    ensures "URN_UID" in env ==> c.urnUid == env["URN_UID"]
  {
    BaseConfig(env).(
      debug := true,
      env := "development",
      secretKey := Some(DevelopmentSecretKey),
      spAcsUrl := Some(GetenvOr(env, "SP_ACS_URL", DevelopmentAcsUrl)),
      spEntityId := Some(GetenvOr(env, "SP_ENTITY_ID", DevelopmentEntityId)),
      spAssertionsEncrypted := GetenvFlag(env, "SP_SECURITY_ASSERTIONS_ENCRYPTED", false),
      urnUid := GetenvOr(env, "URN_UID", DevelopmentUrnUid))
  }

  /** The class `TestingConfig(Config)`: fixed IdP and SP material, whatever the environment says. */
  function TestingConfig(env: Environment): (c: Config)
    ensures c.testing && !c.debug && c.env == "testing"
    ensures c.idpEntityId.Some? && c.idpSsoUrl.Some? && c.idpCert.Some?
    ensures c.spEntityId.Some? && c.spAcsUrl.Some? && c.spCert.Some? && c.spKey.Some?
    ensures c.secretKey == Some(TestingSecretKey)
    ensures c.idpEntityId == Some(TestingIdpEntityId)
    ensures c.idpSsoUrl == Some(TestingIdpSsoUrl) && c.idpCert == Some(TestingIdpCert)
    ensures c.spEntityId == Some(TestingSpEntityId) && c.spAcsUrl == Some(TestingSpAcsUrl)
    ensures c.spCert == Some(TestingSpCert) && c.spKey == Some(TestingSpKey)
    // the remaining attributes are inherited from the base class
    ensures c.authDefaultView == BaseConfig(env).authDefaultView
    ensures c.spAssertionsEncrypted == BaseConfig(env).spAssertionsEncrypted
    ensures c.urnUid == BaseConfig(env).urnUid
    ensures c.validDomains == BaseConfig(env).validDomains
  {
    BaseConfig(env).(
      testing := true,
      env := "testing",
      secretKey := Some(TestingSecretKey),
      idpEntityId := Some(TestingIdpEntityId),
      idpSsoUrl := Some(TestingIdpSsoUrl),
      idpCert := Some(TestingIdpCert),
      spEntityId := Some(TestingSpEntityId),
      spAcsUrl := Some(TestingSpAcsUrl),
      spCert := Some(TestingSpCert),
      spKey := Some(TestingSpKey))
  }

  /**
   * The `match os.getenv("FLASK_ENV")` of `initialize_touchstone_auth`:
   * the configuration class `from_object` loads into the app.
   */
  function ConfigFor(env: Environment): (c: Config)
    ensures c.testing <==> Getenv(env, "FLASK_ENV") == Some("testing")
    ensures c.debug <==> Getenv(env, "FLASK_ENV") == Some("development")
    ensures Getenv(env, "FLASK_ENV") == Some("development") ==> c == DevelopmentConfig(env)
    ensures Getenv(env, "FLASK_ENV") == Some("testing") ==> c == TestingConfig(env)
    ensures Getenv(env, "FLASK_ENV") !in {Some("development"), Some("testing")} ==> c == BaseConfig(env)
    // the selected class's ENV agrees with FLASK_ENV, or says production when it is unset
    ensures c.env == GetenvOr(env, "FLASK_ENV", "production")
  {
    match Getenv(env, "FLASK_ENV")
    case Some("development") => DevelopmentConfig(env)
    case Some("testing") => TestingConfig(env)
    case _ => BaseConfig(env)
  }

  /**
   * Two environments give testing configurations that differ at most in the
   * four attributes still read from the environment.
   */
  lemma TestingIgnoresEnvironment(e1: Environment, e2: Environment)
    ensures TestingConfig(e1).(authDefaultView := "", spAssertionsEncrypted := Bool(false),
                               urnUid := "", validDomains := "")
         == TestingConfig(e2).(authDefaultView := "", spAssertionsEncrypted := Bool(false),
                               urnUid := "", validDomains := "")
  {
  }
}
