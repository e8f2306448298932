/** Reading credentials from Secrets, the index that maps a Secret to the registries it can
    affect, and the registry lookup that a Schema performs. */
module Auth {
  import opened Kube
  import opened Api
  import Admission

  type SecretData = map<string, string>

  type SecretStore = map<Key, SecretData>

  /** `tls.X509KeyPair`: a certificate, or a parse error. */
  type KeyPairParser = (string, string) -> Option<string>

  datatype AuthConfig = AuthConfig(kind: AuthType, username: string, password: string,
                                   bearerToken: string, clientCert: Option<string>, caPem: Option<string>)

  datatype AuthError =
    | ConfigMissing(kind: AuthType)
    | SecretMissing(kind: AuthType, name: string)
    | CertificateInvalid
    | CaSecretMissing(name: string)

  /** The first part of the work: everything up to the read of the CA Secret, if one is named. */
  datatype FirstRead = Failed(error: AuthError) | Loaded(config: AuthConfig) | NeedsCa(config: AuthConfig,
      caName: string)

  /** A missing data key reads as empty. */
  function Datum(d: SecretData, key: string): string {
    if key in d then d[key] else ""
  }

  function Plain(kind: AuthType): AuthConfig {
    AuthConfig(kind, "", "", "", None, None)
  }

  function ReadFirst(parse: KeyPairParser, ns: string, spec: RegistrySpec, secrets: SecretStore): FirstRead {
    if spec.auth.None? then Loaded(Plain(NONE))
    else
      var auth := spec.auth.value;
      match auth.kind
      case BASIC =>
        if auth.basicSecretRef.None? then Failed(ConfigMissing(BASIC))
        else
          var key := Key(ns, auth.basicSecretRef.value);
          if key !in secrets then Failed(SecretMissing(BASIC, key.name))
          else Loaded(Plain(BASIC).(username := Datum(secrets[key], "username"), password :=
            Datum(secrets[key], "password")))
      case BEARER =>
        if auth.bearerSecretRef.None? then Failed(ConfigMissing(BEARER))
        else
          var key := Key(ns, auth.bearerSecretRef.value);
          if key !in secrets then Failed(SecretMissing(BEARER, key.name))
          else Loaded(Plain(BEARER).(bearerToken := Datum(secrets[key], "token")))
      case MTLS =>
        if auth.mtls.None? then Failed(ConfigMissing(MTLS))
        else
          var key := Key(ns, auth.mtls.value.certSecretRef);
          if key !in secrets then Failed(SecretMissing(MTLS, key.name))
          else
            var cert := parse(Datum(secrets[key], "tls.crt"), Datum(secrets[key], "tls.key"));
            if cert.None? then Failed(CertificateInvalid)
            else if auth.mtls.value.caSecretRef == "" then Loaded(Plain(MTLS).(clientCert := cert))
            else NeedsCa(Plain(MTLS).(clientCert := cert), auth.mtls.value.caSecretRef)
      case _ => Loaded(Plain(auth.kind))
  }

  function ReadCa(ns: string, config: AuthConfig, caName: string, secrets: SecretStore): Result<AuthConfig, AuthError> {
    var key := Key(ns, caName);
    if key !in secrets then Err(CaSecretMissing(caName))
    else Ok(config.(caPem := Some(Datum(secrets[key], "ca.crt"))))
  }

  /** The outcome of `loadAuthConfig` on one store. */
  function Load(parse: KeyPairParser, ns: string, spec: RegistrySpec,
      secrets: SecretStore): Result<AuthConfig, AuthError> {
    match ReadFirst(parse, ns, spec, secrets)
    case Failed(e) => Err(e)
    case Loaded(c) => Ok(c)
    case NeedsCa(c, name) => ReadCa(ns, c, name, secrets)
  }

  // ----- what loading has to yield, field by field -----

  /** The Secret is there and has this value under the datum; a missing datum reads as empty. */
  predicate Reads(secrets: SecretStore, key: Key, datum: string, value: string) {
    && key in secrets
    && (datum in secrets[key] ==> value == secrets[key][datum])
    && (datum !in secrets[key] ==> value == "")
  }

  /** The certificate Secret is there, and `result` is what becomes of its certificate and its key. */
  ghost predicate Parses(parse: KeyPairParser, secrets: SecretStore, key: Key, result: Option<string>) {
    && key in secrets
    && forall crt, priv :: Reads(secrets, key, "tls.crt", crt) && Reads(secrets, key, "tls.key", priv) ==>
         parse(crt, priv) == result
  }

  /** The blocks and Secrets that the specification names are there, and the certificate parses. */
  ghost predicate Loadable(parse: KeyPairParser, ns: string, spec: RegistrySpec, secrets: SecretStore) {
    spec.auth.Some? ==>
      var a := spec.auth.value;
      && (a.kind == BASIC ==> a.basicSecretRef.Some? && Key(ns, a.basicSecretRef.value) in secrets)
      && (a.kind == BEARER ==> a.bearerSecretRef.Some? && Key(ns, a.bearerSecretRef.value) in secrets)
      && (a.kind == MTLS ==>
            && a.mtls.Some? && Key(ns, a.mtls.value.certSecretRef) in secrets
            && !Parses(parse, secrets, Key(ns, a.mtls.value.certSecretRef), None)
            && (a.mtls.value.caSecretRef != "" ==> Key(ns, a.mtls.value.caSecretRef) in secrets))
  }

  /** The configuration that the specification and the Secrets ask for. */
  ghost predicate Credentials(parse: KeyPairParser, ns: string, spec: RegistrySpec, secrets: SecretStore,
      c: AuthConfig) {
    match spec.auth
    case None => c == AuthConfig(NONE, "", "", "", None, None)
    case Some(a) =>
      && c.kind == a.kind
      && (if a.kind == BASIC then
            && a.basicSecretRef.Some?
            && Reads(secrets, Key(ns, a.basicSecretRef.value), "username", c.username)
            && Reads(secrets, Key(ns, a.basicSecretRef.value), "password", c.password)
          else c.username == "" && c.password == "")
      && (if a.kind == BEARER then
            a.bearerSecretRef.Some? && Reads(secrets, Key(ns, a.bearerSecretRef.value), "token", c.bearerToken)
          else c.bearerToken == "")
      && (if a.kind == MTLS then
            && a.mtls.Some? && c.clientCert.Some?
            && Parses(parse, secrets, Key(ns, a.mtls.value.certSecretRef), c.clientCert)
          else c.clientCert.None?)
      && (if a.kind == MTLS && a.mtls.Some? && a.mtls.value.caSecretRef != "" then
            c.caPem.Some? && Reads(secrets, Key(ns, a.mtls.value.caSecretRef), "ca.crt", c.caPem.value)
          else c.caPem.None?)
  }

  /** What stands in the way of loading, first things first. */
  ghost predicate Hindrance(parse: KeyPairParser, ns: string, spec: RegistrySpec, secrets: SecretStore, e: AuthError) {
    && spec.auth.Some?
    && var a := spec.auth.value;
    match e
    case ConfigMissing(kind) =>
      kind == a.kind && (
        || (kind == BASIC && a.basicSecretRef.None?)
        || (kind == BEARER && a.bearerSecretRef.None?)
        || (kind == MTLS && a.mtls.None?))
    case SecretMissing(kind, name) =>
      kind == a.kind && Key(ns, name) !in secrets && (
        || (kind == BASIC && a.basicSecretRef == Some(name))
        || (kind == BEARER && a.bearerSecretRef == Some(name))
        || (kind == MTLS && a.mtls.Some? && a.mtls.value.certSecretRef == name))
    case CertificateInvalid =>
      a.kind == MTLS && a.mtls.Some? && Parses(parse, secrets, Key(ns, a.mtls.value.certSecretRef), None)
    case CaSecretMissing(name) =>
      && a.kind == MTLS && a.mtls.Some? && a.mtls.value.caSecretRef == name && name != ""
      && Key(ns, name) !in secrets
      && Key(ns, a.mtls.value.certSecretRef) in secrets
      && !Parses(parse, secrets, Key(ns, a.mtls.value.certSecretRef), None)
  }

  lemma ParsesMeaning(parse: KeyPairParser, secrets: SecretStore, key: Key, result: Option<string>)
    ensures Parses(parse, secrets, key, result) <==>
            key in secrets && parse(Datum(secrets[key], "tls.crt"), Datum(secrets[key], "tls.key")) == result
  {
    if key in secrets {
      assert Reads(secrets, key, "tls.crt", Datum(secrets[key], "tls.crt"));
      assert Reads(secrets, key, "tls.key", Datum(secrets[key], "tls.key"));
    }
  }

  /** What loading means: it succeeds exactly when everything named is there, then yields exactly the
      credentials asked for, and otherwise the one thing that stands in the way. */
  lemma LoadMeaning(parse: KeyPairParser, ns: string, spec: RegistrySpec, secrets: SecretStore)
    ensures var r := Load(parse, ns, spec, secrets);
            && (r.Ok? <==> Loadable(parse, ns, spec, secrets))
            && (r.Ok? ==> Credentials(parse, ns, spec, secrets, r.value))
            && (forall e :: Hindrance(parse, ns, spec, secrets, e) <==> r == Err(e))
  {
    if spec.auth.Some? && spec.auth.value.mtls.Some? {
      var key := Key(ns, spec.auth.value.mtls.value.certSecretRef);
      forall result { ParsesMeaning(parse, secrets, key, result); }
      hide Parses;
    }
  }

  /** `loadAuthConfig`: the configuration is assembled field by field, with early error exits. */
  method LoadAuthConfig(parse: KeyPairParser, ns: string, spec: RegistrySpec, secrets: SecretStore)
      returns (config: AuthConfig, error: Option<AuthError>)
    ensures Load(parse, ns, spec, secrets) == if error.None? then Ok(config) else Err(error.value)
    ensures error.None? <==> Loadable(parse, ns, spec, secrets)
    ensures error.None? ==> Credentials(parse, ns, spec, secrets, config)
    ensures forall e :: Hindrance(parse, ns, spec, secrets, e) <==> error == Some(e)
  {
    LoadMeaning(parse, ns, spec, secrets);
    hide Loadable, Credentials, Hindrance;
    config, error := Plain(NONE), None;
    if spec.auth.None? {
      return;
    }
    var auth := spec.auth.value;
    config := config.(kind := auth.kind);
    match auth.kind {
      case BASIC =>
        if auth.basicSecretRef.None? {
          return config, Some(ConfigMissing(BASIC));
        }
        var key := Key(ns, auth.basicSecretRef.value);
        if key !in secrets {
          return config, Some(SecretMissing(BASIC, key.name));
        }
        config := config.(username := Datum(secrets[key], "username"));
        config := config.(password := Datum(secrets[key], "password"));
      case BEARER =>
        if auth.bearerSecretRef.None? {
          return config, Some(ConfigMissing(BEARER));
        }
        var key := Key(ns, auth.bearerSecretRef.value);
        if key !in secrets {
          return config, Some(SecretMissing(BEARER, key.name));
        }
        config := config.(bearerToken := Datum(secrets[key], "token"));
      case MTLS =>
        if auth.mtls.None? {
          return config, Some(ConfigMissing(MTLS));
        }
        var key := Key(ns, auth.mtls.value.certSecretRef);
        if key !in secrets {
          return config, Some(SecretMissing(MTLS, key.name));
        }
        var cert := parse(Datum(secrets[key], "tls.crt"), Datum(secrets[key], "tls.key"));
        if cert.None? {
          return config, Some(CertificateInvalid);
        }
        config := config.(clientCert := cert);
        if auth.mtls.value.caSecretRef != "" {
          var caKey := Key(ns, auth.mtls.value.caSecretRef);
          if caKey !in secrets {
            return config, Some(CaSecretMissing(caKey.name));
          }
          config := config.(caPem := Some(Datum(secrets[caKey], "ca.crt")));
        }
      case _ =>
    }
  }

  /** `schemaRegistryReferencesSecret`. */
  predicate ReferencesSecret(spec: RegistrySpec, name: string) {
    if spec.auth.None? then false
    else
      match spec.auth.value.kind
      case BASIC => spec.auth.value.basicSecretRef == Some(name)
      case BEARER => spec.auth.value.bearerSecretRef == Some(name)
      case MTLS =>
        spec.auth.value.mtls.Some? &&
        (spec.auth.value.mtls.value.certSecretRef == name || spec.auth.value.mtls.value.caSecretRef == name)
      case _ => false
  }

  ghost predicate SameSecret(a: SecretStore, b: SecretStore, key: Key) {
    (key in a <==> key in b) && (key in a ==> a[key] == b[key])
  }

  ghost predicate AgreeOnReferenced(ns: string, spec: RegistrySpec, a: SecretStore, b: SecretStore) {
    forall name :: ReferencesSecret(spec, name) ==> SameSecret(a, b, Key(ns, name))
  }

  /** The index is sound: stores that agree on every Secret the index reports cannot be told apart
      by loading, nor by either of its two stages. */
  lemma NonInterference(parse: KeyPairParser, ns: string, spec: RegistrySpec, a: SecretStore, b: SecretStore)
    requires AgreeOnReferenced(ns, spec, a, b)
    ensures ReadFirst(parse, ns, spec, a) == ReadFirst(parse, ns, spec, b)
    ensures Load(parse, ns, spec, a) == Load(parse, ns, spec, b)
  {
    if spec.auth.Some? {
      var auth := spec.auth.value;
      match auth.kind
      case BASIC =>
        if auth.basicSecretRef.Some? { assert ReferencesSecret(spec, auth.basicSecretRef.value); }
      case BEARER =>
        if auth.bearerSecretRef.Some? { assert ReferencesSecret(spec, auth.bearerSecretRef.value); }
      case MTLS =>
        if auth.mtls.Some? {
          assert ReferencesSecret(spec, auth.mtls.value.certSecretRef);
          assert ReferencesSecret(spec, auth.mtls.value.caSecretRef);
        }
      case _ =>
    }
  }

  /** The index is tight: removing a Secret whose name is reported and not empty from a store on
      which loading succeeds makes loading fail. */
  lemma IndexIsTight(parse: KeyPairParser, ns: string, spec: RegistrySpec, secrets: SecretStore, name: string)
    requires ReferencesSecret(spec, name) && name != ""
    requires Load(parse, ns, spec, secrets).Ok?
    ensures Load(parse, ns, spec, secrets - {Key(ns, name)}).Err?
  {
  }

  /** The webhook's guarantee: loading can fail for want of a configuration block exactly when the
      webhook would have reported that block. */
  lemma WebhookRulesOutMissingConfig(parse: KeyPairParser, ns: string, spec: RegistrySpec, secrets: SecretStore,
      kind: AuthType)
    ensures Load(parse, ns, spec, secrets) == Err(ConfigMissing(kind)) <==>
            Admission.RegistryViolates(spec, Admission.AuthBlockRequired(kind))
  {
  }

  // ----- the registry a Schema resolves to -----

  /** The registry reference's namespace defaults to the Schema's own. */
  function Resolve(key: Key, ref: RegistryRef): Key {
    Key(if ref.namespace == "" then key.namespace else ref.namespace, ref.name)
  }

  predicate OwnNamespace(key: Key, ref: RegistryRef) {
    Resolve(key, ref).namespace == key.namespace
  }

  datatype ClientConfig = ClientConfig(url: string, auth: AuthConfig, timeout: int, insecureSkipVerify: bool)

  datatype BuildError = RegistryMissing(name: string) | AuthFailed(error: AuthError)

  type RegistryStore = map<Key, RegistrySpec>

  /** `buildClient`. */
  function BuildClient(parse: KeyPairParser, key: Key, ref: RegistryRef, registries: RegistryStore,
      secrets: SecretStore)
    : Result<ClientConfig, BuildError>
  {
    var rk := Resolve(key, ref);
    if rk !in registries then Err(RegistryMissing(ref.name))
    else
      var spec := registries[rk];
      match Load(parse, rk.namespace, spec, secrets)
      case Err(e) => Err(AuthFailed(e))
      case Ok(auth) => Ok(ClientConfig(spec.url, auth, if spec.timeout == 0 then 30
        else spec.timeout, spec.insecureSkipVerify))
  }

  /** What a client has to be made of: the registry under the reference's name, in the reference's namespace
      or else the Schema's own, lends its URL, its flag, its timeout or else 30, and its credentials. */
  ghost predicate ClientFor(parse: KeyPairParser, key: Key, ref: RegistryRef, registries: RegistryStore,
      secrets: SecretStore, r: Result<ClientConfig, BuildError>)
  {
    var ns := if ref.namespace != "" then ref.namespace else key.namespace;
    if Key(ns, ref.name) !in registries then r == Err(RegistryMissing(ref.name))
    else
      var spec := registries[Key(ns, ref.name)];
      if Loadable(parse, ns, spec, secrets) then
        && r.Ok?
        && r.value.url == spec.url
        && r.value.insecureSkipVerify == spec.insecureSkipVerify
        && (spec.timeout != 0 ==> r.value.timeout == spec.timeout)
        && (spec.timeout == 0 ==> r.value.timeout == 30)
        && Credentials(parse, ns, spec, secrets, r.value.auth)
      else r.Err? && r.error.AuthFailed? && Hindrance(parse, ns, spec, secrets, r.error.error)
  }

  lemma BuildClientMeaning(parse: KeyPairParser, key: Key, ref: RegistryRef, registries: RegistryStore,
      secrets: SecretStore)
    ensures ClientFor(parse, key, ref, registries, secrets, BuildClient(parse, key, ref, registries, secrets))
  {
    var rk := Resolve(key, ref);
    if rk in registries {
      LoadMeaning(parse, rk.namespace, registries[rk], secrets);
      if Load(parse, rk.namespace, registries[rk], secrets).Err? {
        assert Hindrance(parse, rk.namespace, registries[rk], secrets,
               Load(parse, rk.namespace, registries[rk], secrets).error);
      }
    }
    hide Load, Loadable, Credentials, Hindrance;
  }

  /** `buildClient`, step by step: the namespace and the timeout have defaults, and the first error ends it. */
  method MakeClient(parse: KeyPairParser, key: Key, ref: RegistryRef, registries: RegistryStore, secrets: SecretStore)
      returns (r: Result<ClientConfig, BuildError>)
    ensures r == BuildClient(parse, key, ref, registries, secrets)
    ensures ClientFor(parse, key, ref, registries, secrets, r)
    ensures r.Ok? ==> r.value.timeout != 0
  {
    BuildClientMeaning(parse, key, ref, registries, secrets);
    hide ClientFor, Loadable, Credentials, Hindrance;
    var namespace := ref.namespace;
    if namespace == "" {
      namespace := key.namespace;
    }
    var registryKey := Key(namespace, ref.name);
    if registryKey !in registries {
      return Err(RegistryMissing(ref.name));
    }
    var spec := registries[registryKey];
    var auth, error := LoadAuthConfig(parse, namespace, spec, secrets);
    if error.Some? {
      return Err(AuthFailed(error.value));
    }
    var timeout := spec.timeout;
    if timeout == 0 {
      timeout := 30;
    }
    return Ok(ClientConfig(spec.url, auth, timeout, spec.insecureSkipVerify));
  }
}
