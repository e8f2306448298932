/** The custom resources' specifications and the request that is sent to a schema registry. */
module Api {
  import opened Kube

  datatype SchemaType = AVRO | JSON | PROTOBUF | OtherType(name: string)

  datatype SchemaReference = SchemaReference(name: string, subject: string, version: int)

  datatype RegistryRef = RegistryRef(name: string, namespace: string)

  datatype SchemaSpec = SchemaSpec(subject: string, schemaType: SchemaType, schema: string,
                                   references: seq<SchemaReference>, registryRef: RegistryRef,
                                   compatibilityLevel: string)

  datatype AuthType = NONE | BASIC | BEARER | MTLS | OtherAuth(name: string)

  datatype MtlsRefs = MtlsRefs(certSecretRef: string, caSecretRef: string)

  datatype AuthSpec = AuthSpec(kind: AuthType, basicSecretRef: Option<string>,
                               bearerSecretRef: Option<string>, mtls: Option<MtlsRefs>)

  datatype RegistrySpec = RegistrySpec(url: string, auth: Option<AuthSpec>,
                                       insecureSkipVerify: bool, timeout: int)

  /** The references as the HTTP client's own type. */
  datatype ClientReference = ClientReference(name: string, subject: string, version: int)

  datatype Request = Request(schema: string, schemaType: SchemaType, references: seq<ClientReference>)

  function ConvertedReferences(refs: seq<SchemaReference>): seq<ClientReference> {
    seq(|refs|, i requires 0 <= i < |refs| => ClientReference(refs[i].name, refs[i].subject, refs[i].version))
  }

  /** The registration request for a specification. */
  function RequestOf(spec: SchemaSpec): Request {
    Request(spec.schema, spec.schemaType, ConvertedReferences(spec.references))
  }

  /** The slice that `make` allocates is filled element by element. */
  method ConvertReferences(refs: seq<SchemaReference>) returns (result: array<ClientReference>)
    ensures fresh(result)
    ensures result[..] == ConvertedReferences(refs)
    ensures result.Length == |refs|
    ensures forall i :: 0 <= i < |refs| ==>
              result[i].name == refs[i].name && result[i].subject == refs[i].subject &&
                result[i].version == refs[i].version
  {
    result := new ClientReference[|refs|](_ => ClientReference("", "", 0));
    for i := 0 to |refs|
      invariant result[..i] == ConvertedReferences(refs[..i])
    {
      result[i] := ClientReference(refs[i].name, refs[i].subject, refs[i].version);
      assert result[..i + 1] == result[..i] + [result[i]];
    }
    assert refs[..|refs|] == refs;
    assert result[..|refs|] == result[..];
  }

  /** The request carries the specification's text, its type, and its references one by one. */
  ghost predicate Asks(r: Request, spec: SchemaSpec) {
    && r.schema == spec.schema
    && r.schemaType == spec.schemaType
    && |r.references| == |spec.references|
    && forall i :: 0 <= i < |r.references| ==>
         && r.references[i].name == spec.references[i].name
         && r.references[i].subject == spec.references[i].subject
         && r.references[i].version == spec.references[i].version
  }

  /** The registration request is the one, and the only one, that carries the specification. */
  lemma RequestAsks(spec: SchemaSpec, r: Request)
    ensures Asks(r, spec) <==> r == RequestOf(spec)
  {
    var q := RequestOf(spec);
    if Asks(r, spec) {
      assert |q.references| == |r.references|;
      forall i | 0 <= i < |r.references| ensures r.references[i] == q.references[i] {
      }
      assert r.references == q.references;
    }
  }

  /** Two specifications ask for the same registration exactly when they agree on the text, the
      type and every reference: nothing else of a specification reaches the registry. */
  lemma RequestIdentifies(a: SchemaSpec, b: SchemaSpec)
    ensures RequestOf(a) == RequestOf(b) <==>
            a.schema == b.schema && a.schemaType == b.schemaType && a.references == b.references
  {
    if RequestOf(a) == RequestOf(b) {
      var x, y := RequestOf(a).references, RequestOf(b).references;
      assert |a.references| == |x| == |y| == |b.references|;
      forall i | 0 <= i < |a.references| ensures a.references[i] == b.references[i] {
        assert x[i] == y[i];
      }
    }
  }
}
