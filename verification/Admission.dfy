/** The validating webhooks of Schema and SchemaRegistry. `json` stands for the library test
    whether a text is well-formed JSON (section 2 of RFC 8259). */
module Admission {
  import opened Kube
  import opened Api

  datatype SpecError =
    | SubjectRequired
    | SchemaRequired
    | RegistryRefNameRequired
    | SchemaNotJson
    | RefNameRequired(index: nat)
    | RefSubjectRequired(index: nat)
    | RefVersionInvalid(index: nat)

  datatype UpdateError = SubjectImmutable | SchemaTypeImmutable | SpecInvalid(errors: seq<SpecError>)

  datatype RegistryError =
    | UrlRequired
    | TimeoutNegative
    | AuthBlockRequired(kind: AuthType)
    | SecretRefRequired(kind: AuthType)

  predicate ReferenceValid(r: SchemaReference) {
    r.name != "" && r.subject != "" && r.version >= 1
  }

  /** A specification that may be stored. */
  predicate SpecValid(json: string -> bool, s: SchemaSpec) {
    && s.subject != ""
    && s.schema != ""
    && s.registryRef.name != ""
    && (s.schemaType == AVRO || s.schemaType == JSON ==> json(s.schema))
    && forall i :: 0 <= i < |s.references| ==> ReferenceValid(s.references[i])
  }

  /** Which clause an error speaks of. */
  ghost predicate Violates(json: string -> bool, s: SchemaSpec, e: SpecError) {
    match e
    case SubjectRequired => s.subject == ""
    case SchemaRequired => s.schema == ""
    case RegistryRefNameRequired => s.registryRef.name == ""
    case SchemaNotJson => (s.schemaType == AVRO || s.schemaType == JSON) && s.schema != "" && !json(s.schema)
    case RefNameRequired(i) => i < |s.references| && s.references[i].name == ""
    case RefSubjectRequired(i) => i < |s.references| && s.references[i].subject == ""
    case RefVersionInvalid(i) => i < |s.references| && s.references[i].version < 1
  }

  ghost predicate AboutReference(e: SpecError, below: nat) {
    match e
    case RefNameRequired(i) => i < below
    case RefSubjectRequired(i) => i < below
    case RefVersionInvalid(i) => i < below
    case _ => true
  }

  ghost predicate Distinct<E>(errs: seq<E>) {
    forall i, j :: 0 <= i < j < |errs| ==> errs[i] != errs[j]
  }

  /** Appends `e` when its clause is violated. */
  method Report<E(!new)>(errs: seq<E>, violated: bool, e: E) returns (r: seq<E>)
    requires Distinct(errs) && e !in errs
    ensures Distinct(r)
    ensures forall x :: x in r <==> x in errs || (violated && x == e)
  {
    r := if violated then errs + [e] else errs;
  }

  /** Accepts exactly the valid specifications, and otherwise reports every violated clause once. */
  method ValidateSchemaSpec(json: string -> bool, s: SchemaSpec) returns (errs: seq<SpecError>)
    ensures Distinct(errs) && forall e :: e in errs <==> Violates(json, s, e)
    ensures errs == [] <==> SpecValid(json, s)
  {
    errs := [];
    errs := Report(errs, s.subject == "", SubjectRequired);
    errs := Report(errs, s.schema == "", SchemaRequired);
    errs := Report(errs, s.registryRef.name == "", RegistryRefNameRequired);
    if (s.schemaType == AVRO || s.schemaType == JSON) && s.schema != "" {
      errs := Report(errs, !json(s.schema), SchemaNotJson);
    }
    for i := 0 to |s.references|
      invariant Distinct(errs) && forall e :: e in errs <==> Violates(json, s, e) && AboutReference(e, i)
    {
      var ref := s.references[i];
      errs := Report(errs, ref.name == "", RefNameRequired(i));
      errs := Report(errs, ref.subject == "", RefSubjectRequired(i));
      errs := Report(errs, ref.version < 1, RefVersionInvalid(i));
    }
    NoErrorMeansValid(json, s, errs);
  }

  lemma NoErrorMeansValid(json: string -> bool, s: SchemaSpec, errs: seq<SpecError>)
    requires forall e :: e in errs <==> Violates(json, s, e)
    ensures errs == [] <==> SpecValid(json, s)
  {
    if errs == [] {
      forall e ensures !Violates(json, s, e) {
        assert e !in errs;
      }
      assert !Violates(json, s, SubjectRequired) && !Violates(json, s, SchemaRequired);
      assert !Violates(json, s, RegistryRefNameRequired) && !Violates(json, s, SchemaNotJson);
      forall i | 0 <= i < |s.references| ensures ReferenceValid(s.references[i]) {
        assert !Violates(json, s, RefNameRequired(i)) && !Violates(json, s, RefSubjectRequired(i));
        assert !Violates(json, s, RefVersionInvalid(i));
      }
    } else {
      assert errs[0] in errs;
      assert Violates(json, s, errs[0]);
    }
  }

  /** The update webhook's verdict. */
  predicate AdmitsUpdate(json: string -> bool, before: SchemaSpec, after: SchemaSpec) {
    && SpecValid(json, after)
    && before.subject == after.subject
    && before.schemaType == after.schemaType
  }

  /** Subject and type changes are reported on their own, everything else the specification violates
      in one error that wraps the list. */
  method ValidateUpdate(json: string -> bool, before: SchemaSpec, after: SchemaSpec) returns (errs: seq<UpdateError>)
    ensures errs == [] <==> AdmitsUpdate(json, before, after)
    ensures Distinct(errs)
    ensures SubjectImmutable in errs <==> before.subject != after.subject
    ensures SchemaTypeImmutable in errs <==> before.schemaType != after.schemaType
    ensures SpecValid(json, after) <==> forall e :: e in errs ==> !e.SpecInvalid?
    ensures forall inner :: SpecInvalid(inner) in errs ==>
              Distinct(inner) && forall e :: e in inner <==> Violates(json, after, e)
  {
    errs := [];
    if before.subject != after.subject { errs := errs + [SubjectImmutable]; }
    if before.schemaType != after.schemaType { errs := errs + [SchemaTypeImmutable]; }
    var inner := ValidateSchemaSpec(json, after);
    if inner != [] {
      errs := errs + [SpecInvalid(inner)];
      assert errs[|errs| - 1] == SpecInvalid(inner);
    }
  }

  /** A history of stored specifications of one object: the first was accepted by the create
      webhook and each later one by the update webhook against its predecessor. */
  ghost predicate AdmittedHistory(json: string -> bool, h: seq<SchemaSpec>) {
    && |h| > 0
    && SpecValid(json, h[0])
    && forall i :: 0 < i < |h| ==> AdmitsUpdate(json, h[i - 1], h[i])
  }

  /** Subject and type are those of creation for ever, and every stored specification is valid. */
  lemma {:induction false} AdmissionInvariant(json: string -> bool, h: seq<SchemaSpec>, i: nat)
    requires AdmittedHistory(json, h) && i < |h|
    ensures SpecValid(json, h[i]) && h[i].subject == h[0].subject && h[i].schemaType == h[0].schemaType
  {
    if i > 0 {
      AdmissionInvariant(json, h, i - 1);
    }
  }

  ghost predicate RegistryViolates(s: RegistrySpec, e: RegistryError) {
    match e
    case UrlRequired => s.url == ""
    case TimeoutNegative => s.timeout < 0
    case AuthBlockRequired(kind) =>
      s.auth.Some? && s.auth.value.kind == kind && (
        || (kind == BASIC && s.auth.value.basicSecretRef.None?)
        || (kind == BEARER && s.auth.value.bearerSecretRef.None?)
        || (kind == MTLS && s.auth.value.mtls.None?))
    case SecretRefRequired(kind) =>
      s.auth.Some? && s.auth.value.kind == kind && (
        || (kind == BASIC && s.auth.value.basicSecretRef == Some(""))
        || (kind == BEARER && s.auth.value.bearerSecretRef == Some(""))
        || (kind == MTLS && s.auth.value.mtls.Some? && s.auth.value.mtls.value.certSecretRef == ""))
  }

  /** A registry specification that may be stored. */
  predicate RegistrySpecValid(s: RegistrySpec) {
    && s.url != ""
    && s.timeout >= 0
    && (s.auth.Some? ==>
          var a := s.auth.value;
          && (a.kind == BASIC ==> a.basicSecretRef.Some? && a.basicSecretRef.value != "")
          && (a.kind == BEARER ==> a.bearerSecretRef.Some? && a.bearerSecretRef.value != "")
          && (a.kind == MTLS ==> a.mtls.Some? && a.mtls.value.certSecretRef != ""))
  }

  lemma NoRegistryErrorMeansValid(s: RegistrySpec, errs: seq<RegistryError>)
    requires forall e :: e in errs <==> RegistryViolates(s, e)
    ensures errs == [] <==> RegistrySpecValid(s)
  {
    if errs == [] {
      forall e ensures !RegistryViolates(s, e) {
        assert e !in errs;
      }
      assert !RegistryViolates(s, UrlRequired) && !RegistryViolates(s, TimeoutNegative);
      if s.auth.Some? {
        var kind := s.auth.value.kind;
        assert !RegistryViolates(s, AuthBlockRequired(kind)) && !RegistryViolates(s, SecretRefRequired(kind));
      }
    } else {
      assert errs[0] in errs;
      assert RegistryViolates(s, errs[0]);
    }
  }

  method ValidateRegistrySpec(s: RegistrySpec) returns (errs: seq<RegistryError>)
    ensures Distinct(errs) && forall e :: e in errs <==> RegistryViolates(s, e)
    ensures errs == [] <==> RegistrySpecValid(s)
  {
    errs := [];
    errs := Report(errs, s.url == "", UrlRequired);
    errs := Report(errs, s.timeout < 0, TimeoutNegative);
    if s.auth.Some? {
      var auth := s.auth.value;
      match auth.kind {
        case BASIC =>
          if auth.basicSecretRef.None? {
            errs := Report(errs, true, AuthBlockRequired(BASIC));
          } else {
            errs := Report(errs, auth.basicSecretRef.value == "", SecretRefRequired(BASIC));
          }
        case BEARER =>
          if auth.bearerSecretRef.None? {
            errs := Report(errs, true, AuthBlockRequired(BEARER));
          } else {
            errs := Report(errs, auth.bearerSecretRef.value == "", SecretRefRequired(BEARER));
          }
        case MTLS =>
          if auth.mtls.None? {
            errs := Report(errs, true, AuthBlockRequired(MTLS));
          } else {
            errs := Report(errs, auth.mtls.value.certSecretRef == "", SecretRefRequired(MTLS));
          }
        case _ =>
      }
    }
    NoRegistryErrorMeansValid(s, errs);
  }
}
