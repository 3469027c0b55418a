/**
 * lib/auth/saml/__init__.py: the SAML settings that every toolkit call is
 * built from, and the translation of a Flask request into the toolkit's
 * request dictionary.
 *
 * The module-level DEFAULT_SAML_SETTINGS dictionary and the app config
 * (`current_app.config`) are both mutable objects that resolution updates
 * in place: they are the classes SettingsDict and FlaskConfig, and
 * SamlResolver holds the one instance of each. The remote IdP metadata fetch
 * and the `openssl` key generation are parameters; the resolver counts their
 * calls in ghost fields. Resolve is the value-level specification of
 * LoadSamlSettings; the properties of resolution are stated about it.
 */
module SamlSettings {
  import opened Wrappers
  import opened AppConfig

  /** OASIS SAML 2.0 Bindings, section 3.5 (HTTP POST binding): how the IdP delivers responses. */
  const HttpPostBinding: string := "urn:oasis:names:tc:SAML:2.0:bindings:HTTP-POST"
  /** OASIS SAML 2.0 Bindings, section 3.4 (HTTP Redirect binding): how requests reach the IdP. */
  const HttpRedirectBinding: string := "urn:oasis:names:tc:SAML:2.0:bindings:HTTP-Redirect"

  // The nested settings dictionary, one datatype per level. A configuration
  // value of None is stored as None, as the dictionary would store it.
  datatype Endpoint = Endpoint(url: Option<string>, binding: string)
  datatype SpSettings = SpSettings(entityId: Option<string>, assertionConsumerService: Endpoint,
                                   x509cert: Option<string>, privateKey: Option<string>)
  datatype IdpSettings = IdpSettings(entityId: Option<string>, singleSignOnService: Endpoint,
                                     x509cert: Option<string>)
  datatype Security = Security(requestedAuthnContext: bool, signMetadata: bool,
                               authnRequestsSigned: bool, wantAssertionsEncrypted: Flag,
                               wantAssertionsSigned: bool)
  datatype Settings = Settings(strict: bool, debug: bool, sp: SpSettings, idp: IdpSettings,
                               security: Security)

  /** The initial value of DEFAULT_SAML_SETTINGS. */
  const DefaultSamlSettings: Settings := Settings(
    strict := true,
    debug := false,
    sp := SpSettings(Some(""), Endpoint(Some(""), HttpPostBinding), Some(""), Some("")),
    idp := IdpSettings(Some(""), Endpoint(Some(""), HttpRedirectBinding), Some("")),
    security := Security(requestedAuthnContext := false, signMetadata := true,
                         authnRequestsSigned := true, wantAssertionsEncrypted := Bool(true),
                         wantAssertionsSigned := true))

  /**
   * The app-config keys that resolution reads or fills. SP_SECURITY_ASSERTIONS_ENCRYPTED
   * is the one key read with `.get` and a default, so its absence is modelled too.
   */
  datatype SamlKeys = SamlKeys(
    idpEntityId: Option<string>, idpSsoUrl: Option<string>, idpCert: Option<string>,
    spEntityId: Option<string>, spAcsUrl: Option<string>,
    spCert: Option<string>, spKey: Option<string>,
    spAssertionsEncrypted: Option<Flag>)

  /** The keys that `from_object` copies from a configuration class. */
  function KeysOf(c: Config): SamlKeys
  {
    SamlKeys(c.idpEntityId, c.idpSsoUrl, c.idpCert, c.spEntityId, c.spAcsUrl,
             c.spCert, c.spKey, Some(c.spAssertionsEncrypted))
  }

  /**
   * What the remote metadata fetch and parse yields: the parsed IdP section,
   * whose SSO URL and certificate entries may be missing, or a failure of
   * the fetch or parse itself.
   */
  datatype Fetch = Fetched(ssoUrl: Option<string>, x509cert: Option<string>) | FetchFailed

  /** What the `openssl` invocation yields: a (key, certificate) pair, or a non-zero exit. */
  datatype Generation = Generated(key: string, cert: string) | GenerationFailed

  /** The exceptions that abort resolution. */
  datatype ResolveError =
    | IdpMetadataUnavailable   // the fetch or the parser raised
    | IdpMetadataIncomplete    // KeyError on the SSO URL or certificate entry
    | SpKeyAndCertMissing      // the RuntimeError outside development and testing
    | KeyGenerationFailed      // `openssl` exited with a non-zero status

  predicate NeedsIdpMetadata(k: SamlKeys) { k.idpSsoUrl.None? || k.idpCert.None? }

  predicate NeedsSpKeyPair(k: SamlKeys) { k.spKey.None? || k.spCert.None? }

  /** All four lazily filled keys hold a value. */
  predicate Complete(k: SamlKeys) { !NeedsIdpMetadata(k) && !NeedsSpKeyPair(k) }

  /** FLASK_ENV as read at call time permits a generated SP key pair. */
  predicate GenerationAllowed(env: Environment)
  {
    Getenv(env, "FLASK_ENV") == Some("development") || Getenv(env, "FLASK_ENV") == Some("testing")
  }

  /** The keys after one step, whether the external call was made, and the exception raised. */
  datatype Step = Step(keys: SamlKeys, called: bool, error: Option<ResolveError>)

  /** `set_idp_sso_url_and_cert`. */
  function IdpStep(k: SamlKeys, fetch: Option<string> -> Fetch): (r: Step)
    ensures r.called <==> NeedsIdpMetadata(k)
    ensures r.error.None? ==> !NeedsIdpMetadata(r.keys)
    ensures r.keys.(idpSsoUrl := k.idpSsoUrl, idpCert := k.idpCert) == k
    // nothing missing: no fetch, no error, no change
    ensures !NeedsIdpMetadata(k) ==> r == Step(k, false, None)
    // a fetch with both entries overwrites both keys with them
    ensures r.called && fetch(k.idpEntityId).Fetched?
            && fetch(k.idpEntityId).ssoUrl.Some? && fetch(k.idpEntityId).x509cert.Some?
            ==> r == Step(k.(idpSsoUrl := fetch(k.idpEntityId).ssoUrl,
                             idpCert := fetch(k.idpEntityId).x509cert), true, None)
    // a failed fetch raises and writes nothing
    ensures r.called && fetch(k.idpEntityId).FetchFailed?
            ==> r == Step(k, true, Some(IdpMetadataUnavailable))
    // a missing entry raises; the URL is written first, so it stays when only the certificate is missing
    ensures r.called && fetch(k.idpEntityId).Fetched? && fetch(k.idpEntityId).ssoUrl.None?
            ==> r == Step(k, true, Some(IdpMetadataIncomplete))
    ensures r.called && fetch(k.idpEntityId).Fetched? && fetch(k.idpEntityId).ssoUrl.Some?
            && fetch(k.idpEntityId).x509cert.None?
            ==> r == Step(k.(idpSsoUrl := fetch(k.idpEntityId).ssoUrl), true, Some(IdpMetadataIncomplete))
  {
    if NeedsIdpMetadata(k) then
      match fetch(k.idpEntityId)
      case FetchFailed => Step(k, true, Some(IdpMetadataUnavailable))
      case Fetched(url, cert) =>
        if url.None? then Step(k, true, Some(IdpMetadataIncomplete))
        else if cert.None? then Step(k.(idpSsoUrl := url), true, Some(IdpMetadataIncomplete))
        else Step(k.(idpSsoUrl := url, idpCert := cert), true, None)
    else
      Step(k, false, None)
  }

  /** `set_development_sp_key_and_cert`. */
  function SpStep(k: SamlKeys, env: Environment, gen: Generation): (r: Step)
    ensures r.called <==> NeedsSpKeyPair(k) && GenerationAllowed(env)
    ensures r.error == Some(SpKeyAndCertMissing) <==> NeedsSpKeyPair(k) && !GenerationAllowed(env)
    ensures r.error.None? ==> !NeedsSpKeyPair(r.keys)
    ensures r.keys.(spKey := k.spKey, spCert := k.spCert) == k
    // nothing missing: no generation, no error, no change
    ensures !NeedsSpKeyPair(k) ==> r == Step(k, false, None)
    // both keys become the generated pair
    ensures r.called && gen.Generated?
            ==> r == Step(k.(spKey := Some(gen.key), spCert := Some(gen.cert)), true, None)
    // a failed generation raises and writes nothing
    ensures r.called && gen.GenerationFailed? ==> r == Step(k, true, Some(KeyGenerationFailed))
    // the RuntimeError writes nothing
    ensures r.error == Some(SpKeyAndCertMissing) ==> r.keys == k
  {
    if NeedsSpKeyPair(k) then
      if !GenerationAllowed(env) then Step(k, false, Some(SpKeyAndCertMissing))
      else match gen
        case Generated(key, cert) => Step(k.(spKey := Some(key), spCert := Some(cert)), true, None)
        case GenerationFailed => Step(k, true, Some(KeyGenerationFailed))
    else
      Step(k, false, None)
  }

  /** The value `config.get("SP_SECURITY_ASSERTIONS_ENCRYPTED", False)`. */
  function AssertionsEncrypted(k: SamlKeys): Flag
  {
    match k.spAssertionsEncrypted
    case Some(f) => f
    case None => Bool(false)
  }

  /** The settings fields that mirror the app config. */
  predicate Mirrors(s: Settings, k: SamlKeys)
  {
    && s.sp.entityId == k.spEntityId
    && s.sp.assertionConsumerService.url == k.spAcsUrl
    && s.sp.x509cert == k.spCert
    && s.sp.privateKey == k.spKey
    && s.idp.entityId == k.idpEntityId
    && s.idp.singleSignOnService.url == k.idpSsoUrl
    && s.idp.x509cert == k.idpCert
    && s.security.wantAssertionsEncrypted == AssertionsEncrypted(k)
  }

  /** The fields resolution never writes: strict mode, both bindings and four security flags. */
  predicate KeepsFixedFields(before: Settings, after: Settings)
  {
    && after.strict == before.strict
    && after.sp.assertionConsumerService.binding == before.sp.assertionConsumerService.binding
    && after.idp.singleSignOnService.binding == before.idp.singleSignOnService.binding
    && after.security.(wantAssertionsEncrypted := Bool(false))
       == before.security.(wantAssertionsEncrypted := Bool(false))
  }

  /** The writes at the end of `load_saml_settings`, from the app config into the settings. */
  function ApplyKeys(s: Settings, k: SamlKeys): (r: Settings)
    ensures r.debug && Mirrors(r, k) && KeepsFixedFields(s, r)
  {
    s.(debug := true,
       sp := s.sp.(entityId := k.spEntityId,
                   assertionConsumerService := s.sp.assertionConsumerService.(url := k.spAcsUrl),
                   x509cert := k.spCert,
                   privateKey := k.spKey),
       idp := s.idp.(entityId := k.idpEntityId,
                     singleSignOnService := s.idp.singleSignOnService.(url := k.idpSsoUrl),
                     x509cert := k.idpCert),
       security := s.security.(wantAssertionsEncrypted := AssertionsEncrypted(k)))
  }

  /** The app-config keys and the settings after one `load_saml_settings`, and what it called. */
  datatype Resolution = Resolution(keys: SamlKeys, settings: Settings, error: Option<ResolveError>,
                                   fetched: bool, generated: bool)

  /** `load_saml_settings` on values: the IdP step, then the SP step, then the settings writes. */
  function Resolve(k: SamlKeys, env: Environment, fetch: Option<string> -> Fetch, gen: Generation,
                   s: Settings): (r: Resolution)
    // the metadata is fetched exactly when the IdP URL or certificate is missing
    ensures r.fetched <==> NeedsIdpMetadata(k)
    // a key pair is generated only when one is missing, only in development or testing,
    // and only once the IdP step has succeeded
    ensures r.generated <==> NeedsSpKeyPair(k) && GenerationAllowed(env) && IdpStep(k, fetch).error.None?
    // a raise in the IdP step is the resolution's error, and no key pair is generated
    ensures IdpStep(k, fetch).error.Some? ==> r.error == IdpStep(k, fetch).error
    // a failed generation is the resolution's error
    ensures r.generated && gen.GenerationFailed? ==> r.error == Some(KeyGenerationFailed)
    // a generated pair replaces both SP keys and the resolution succeeds
    ensures r.generated && gen.Generated?
            ==> r.keys.spKey == Some(gen.key) && r.keys.spCert == Some(gen.cert) && r.error.None?
    // unless a pair was generated the SP key and certificate stay as they were,
    // a failed `openssl` run included
    ensures !(r.generated && gen.Generated?) ==> r.keys.spKey == k.spKey && r.keys.spCert == k.spCert
    // success exactly when the IdP step succeeds and the SP pair is present or generated
    ensures r.error.None? <==> IdpStep(k, fetch).error.None?
                               && (!NeedsSpKeyPair(k) || (GenerationAllowed(env) && gen.Generated?))
    // the IdP step's writes stay in the app config even when a later step raises
    ensures r.keys.(spKey := k.spKey, spCert := k.spCert) == IdpStep(k, fetch).keys
    // outside development and testing a missing SP key or certificate raises, after the IdP step
    ensures IdpStep(k, fetch).error.None? && NeedsSpKeyPair(IdpStep(k, fetch).keys)
            && !GenerationAllowed(env)
            ==> r.error == Some(SpKeyAndCertMissing) && !r.generated
    // a raise leaves the settings untouched; success makes them mirror a complete app config
    ensures r.error.Some? ==> r.settings == s
    ensures r.error.None? ==> Complete(r.keys) && r.settings.debug && Mirrors(r.settings, r.keys)
    ensures KeepsFixedFields(s, r.settings)
  {
    var idp := IdpStep(k, fetch);
    if idp.error.Some? then
      Resolution(idp.keys, s, idp.error, idp.called, false)
    else
      var sp := SpStep(idp.keys, env, gen);
      if sp.error.Some? then
        Resolution(sp.keys, s, sp.error, idp.called, sp.called)
      else
        Resolution(sp.keys, ApplyKeys(s, sp.keys), None, idp.called, sp.called)
  }

  /**
   * A fetch that yields both entries overwrites both IdP keys with them; a
   * key pair from generation overwrites both SP keys.
   */
  lemma ResolveFillsMissingPairs(k: SamlKeys, env: Environment, fetch: Option<string> -> Fetch,
                                 gen: Generation, s: Settings)
    ensures var r := Resolve(k, env, fetch, gen, s);
            NeedsIdpMetadata(k) && fetch(k.idpEntityId).Fetched?
            && fetch(k.idpEntityId).ssoUrl.Some? && fetch(k.idpEntityId).x509cert.Some?
            ==> r.keys.idpSsoUrl == fetch(k.idpEntityId).ssoUrl
                && r.keys.idpCert == fetch(k.idpEntityId).x509cert
    ensures var r := Resolve(k, env, fetch, gen, s);
            IdpStep(k, fetch).error.None? && NeedsSpKeyPair(k) && GenerationAllowed(env) && gen.Generated?
            ==> r.generated && r.keys.spKey == Some(gen.key) && r.keys.spCert == Some(gen.cert)
                && r.error.None?
    ensures var r := Resolve(k, env, fetch, gen, s);
            !NeedsIdpMetadata(k) ==> r.keys.idpSsoUrl == k.idpSsoUrl && r.keys.idpCert == k.idpCert
  {
  }

  /**
   * Idempotence: once the four lazily filled keys are present, resolution
   * makes no external call and changes no key; resolving again after a
   * success reproduces the same settings.
   */
  lemma ResolveIsIdempotent(k: SamlKeys, env: Environment, fetch: Option<string> -> Fetch,
                            gen: Generation, s: Settings,
                            env2: Environment, fetch2: Option<string> -> Fetch, gen2: Generation)
    ensures Complete(k) ==>
              var r := Resolve(k, env, fetch, gen, s);
              !r.fetched && !r.generated && r.error.None? && r.keys == k
    ensures var r := Resolve(k, env, fetch, gen, s);
            r.error.None? ==> Resolve(r.keys, env2, fetch2, gen2, r.settings)
                              == Resolution(r.keys, r.settings, None, false, false)
  {
  }

  /** The testing configuration carries all four keys, so it resolves with no external call. */
  lemma TestingResolvesWithoutCalls(env: Environment, fetch: Option<string> -> Fetch,
                                    gen: Generation, s: Settings)
    ensures var r := Resolve(KeysOf(TestingConfig(env)), env, fetch, gen, s);
            !r.fetched && !r.generated && r.error.None?
  {
  }

  /** current_app.config, reduced to the keys resolution reads and fills. */
  class FlaskConfig {
    var idpEntityId: Option<string>
    var idpSsoUrl: Option<string>
    var idpCert: Option<string>
    var spEntityId: Option<string>
    var spAcsUrl: Option<string>
    var spCert: Option<string>
    var spKey: Option<string>
    var spAssertionsEncrypted: Option<Flag>

    function Keys(): SamlKeys
      reads this
    {
      SamlKeys(idpEntityId, idpSsoUrl, idpCert, spEntityId, spAcsUrl, spCert, spKey,
               spAssertionsEncrypted)
    }

    /** `flask_app.config.from_object(c)`. */
    constructor FromObject(c: Config)
      ensures Keys() == KeysOf(c)
    {
      idpEntityId, idpSsoUrl, idpCert := c.idpEntityId, c.idpSsoUrl, c.idpCert;
      spEntityId, spAcsUrl := c.spEntityId, c.spAcsUrl;
      spCert, spKey := c.spCert, c.spKey;
      spAssertionsEncrypted := Some(c.spAssertionsEncrypted);
    }
  }

  /** The module-level DEFAULT_SAML_SETTINGS dictionary. */
  class SettingsDict {
    var value: Settings

    constructor ()
      ensures value == DefaultSamlSettings
    {
      value := DefaultSamlSettings;
    }
  }

  /** The resolution code of the module, over its module-level dictionary and the app config. */
  class SamlResolver {
    const defaultSamlSettings: SettingsDict
    const appConfig: FlaskConfig
    /** Calls made so far to the metadata fetch and to the key generator. */
    ghost var fetches: nat
    ghost var generations: nat

    constructor (config: FlaskConfig)
      ensures appConfig == config && fresh(defaultSamlSettings)
      ensures defaultSamlSettings.value == DefaultSamlSettings
      ensures fetches == 0 && generations == 0
    {
      appConfig := config;
      defaultSamlSettings := new SettingsDict();
      fetches, generations := 0, 0;
    }

    /** `set_idp_sso_url_and_cert`; the raised exception, if any, is returned. */
    method SetIdpSsoUrlAndCert(fetch: Option<string> -> Fetch) returns (err: Option<ResolveError>)
      modifies this, appConfig
      ensures var step := IdpStep(old(appConfig.Keys()), fetch);
              appConfig.Keys() == step.keys && err == step.error
              && fetches == old(fetches) + (if step.called then 1 else 0)
      ensures generations == old(generations)
    {
      err := None;
      if appConfig.idpSsoUrl == None || appConfig.idpCert == None {
        var metadata := fetch(appConfig.idpEntityId);
        fetches := fetches + 1;
        match metadata
        case FetchFailed =>
          err := Some(IdpMetadataUnavailable);
        case Fetched(url, cert) =>
          if url.None? {
            err := Some(IdpMetadataIncomplete);
            return;
          }
          appConfig.idpSsoUrl := url;
          if cert.None? {
            err := Some(IdpMetadataIncomplete);
            return;
          }
          appConfig.idpCert := cert;
      }
    }

    /** `set_development_sp_key_and_cert`, with FLASK_ENV read from `env`. */
    method SetDevelopmentSpKeyAndCert(env: Environment, gen: Generation) returns (err: Option<ResolveError>)
      modifies this, appConfig
      ensures var step := SpStep(old(appConfig.Keys()), env, gen);
              appConfig.Keys() == step.keys && err == step.error
              && generations == old(generations) + (if step.called then 1 else 0)
      ensures fetches == old(fetches)
    {
      err := None;
      if appConfig.spKey == None || appConfig.spCert == None {
        if Getenv(env, "FLASK_ENV") !in {Some("development"), Some("testing")} {
          err := Some(SpKeyAndCertMissing);
          return;
        }
        generations := generations + 1;
        match gen
        case GenerationFailed =>
          err := Some(KeyGenerationFailed);
        case Generated(key, cert) =>
          appConfig.spKey, appConfig.spCert := Some(key), Some(cert);
      }
    }

    /**
     * `load_saml_settings`: on success the result is the module-level
     * dictionary itself, updated in place, not a copy.
     */
    method LoadSamlSettings(env: Environment, fetch: Option<string> -> Fetch, gen: Generation)
      returns (r: Result<SettingsDict, ResolveError>)
      modifies this, appConfig, defaultSamlSettings
      ensures var res := Resolve(old(appConfig.Keys()), env, fetch, gen, old(defaultSamlSettings.value));
              && appConfig.Keys() == res.keys
              && defaultSamlSettings.value == res.settings
              && (res.error.None? ==> r == Success(defaultSamlSettings))
              && (res.error.Some? ==> r == Failure(res.error.value))
              && fetches == old(fetches) + (if res.fetched then 1 else 0)
              && generations == old(generations) + (if res.generated then 1 else 0)
    {
      var samlSettings := defaultSamlSettings;
      var err := SetIdpSsoUrlAndCert(fetch);
      if err.Some? {
        return Failure(err.value);
      }
      err := SetDevelopmentSpKeyAndCert(env, gen);
      if err.Some? {
        return Failure(err.value);
      }
      samlSettings.value := samlSettings.value.(debug := true);
      samlSettings.value := samlSettings.value.(sp := samlSettings.value.sp.(entityId := appConfig.spEntityId));
      var sp := samlSettings.value.sp;
      samlSettings.value := samlSettings.value.(
        sp := sp.(assertionConsumerService := sp.assertionConsumerService.(url := appConfig.spAcsUrl)));
      samlSettings.value := samlSettings.value.(sp := samlSettings.value.sp.(x509cert := appConfig.spCert));
      samlSettings.value := samlSettings.value.(sp := samlSettings.value.sp.(privateKey := appConfig.spKey));
      samlSettings.value := samlSettings.value.(idp := samlSettings.value.idp.(entityId := appConfig.idpEntityId));
      var idp := samlSettings.value.idp;
      samlSettings.value := samlSettings.value.(
        idp := idp.(singleSignOnService := idp.singleSignOnService.(url := appConfig.idpSsoUrl)));
      samlSettings.value := samlSettings.value.(idp := samlSettings.value.idp.(x509cert := appConfig.idpCert));
      var encrypted := if appConfig.spAssertionsEncrypted.Some? then appConfig.spAssertionsEncrypted.value
                       else Bool(false);
      samlSettings.value := samlSettings.value.(
        security := samlSettings.value.security.(wantAssertionsEncrypted := encrypted));
      return Success(samlSettings);
    }
  }

  /** The parts of a Flask request that `prepare_flask_request` reads. */
  datatype FlaskRequest = FlaskRequest(
    scheme: string,
    host: string,
    urlPort: Option<nat>,   // `urlparse(request.url).port`, parsed by the standard library
    path: string,
    args: map<string, string>,
    form: map<string, string>)

  /** The request dictionary the toolkit is constructed with. */
  datatype ToolkitRequest = ToolkitRequest(
    https: string,
    httpHost: string,
    serverPort: Option<nat>,
    scriptName: string,
    getData: map<string, string>,
    postData: map<string, string>)

  /** `prepare_flask_request`. */
  function PrepareFlaskRequest(req: FlaskRequest): (r: ToolkitRequest)
    ensures r.https in {"on", "off"}
    ensures r.https == "on" <==> req.scheme == "https"
    ensures r.httpHost == req.host && r.scriptName == req.path && r.serverPort == req.urlPort
    ensures r.getData == req.args && r.postData == req.form
  {
    ToolkitRequest(
      https := if req.scheme == "https" then "on" else "off",
      httpHost := req.host,
      serverPort := req.urlPort,
      scriptName := req.path,
      getData := req.args,
      postData := req.form)
  }
}
