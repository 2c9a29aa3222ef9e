/** Stored values carry a stable name and a schema version outside their payload. */
module Versioned {
  import opened Prelude

  type Payload(==, !new)

  datatype Encoded = Encoded(manifest: string, schemaVersion: nat, payload: Payload)

  datatype DecodeError =
    | UndecodablePayload
    | ManifestMismatch(stored: string, expected: string)
    | UnsupportedSchemaVersion(manifest: string, schemaVersion: nat)

  /**
   * How one type is stored. `encode` is the codec's half and may fail. `decode` is the type's own
   * `Versioned::decode`, which an upcasting type overrides.
   */
  datatype Schema<!T> = Schema(
    manifest: string,
    version: nat,
    encode: T -> Option<Payload>,
    decode: (nat, Payload) -> Result<T, DecodeError>)

  /** What the codec writes at the current version, the type reads back. */
  ghost predicate RoundTrips<T(!new)>(schema: Schema<T>) {
    forall t: T ::
      schema.encode(t).Some? ==> schema.decode(schema.version, schema.encode(t).value) == Ok(t)
  }

  function Encode<T>(schema: Schema<T>, t: T): Option<Encoded> {
    match schema.encode(t)
    case None => None
    case Some(payload) => Some(Encoded(schema.manifest, schema.version, payload))
  }

  function DecodeVersioned<T>(schema: Schema<T>, stored: Encoded): Result<T, DecodeError> {
    if stored.manifest != schema.manifest then
      Err(ManifestMismatch(stored.manifest, schema.manifest))
    else
      schema.decode(stored.schemaVersion, stored.payload)
  }

  /** The decode a type has unless it overrides it: its current version only. */
  function DefaultDecode<T>(manifest: string, version: nat, codec: Payload -> Option<T>)
    : (nat, Payload) -> Result<T, DecodeError>
  {
    (schemaVersion: nat, payload: Payload) =>
      if schemaVersion == version then
        match codec(payload)
        case None => Err(UndecodablePayload)
        case Some(t) => Ok(t)
      else
        Err(UnsupportedSchemaVersion(manifest, schemaVersion))
  }

  /** A type with the default decode round trips exactly when its codec does. */
  lemma DefaultDecodeRoundTrips<T(!new)>(
      manifest: string, version: nat, encode: T -> Option<Payload>, codec: Payload -> Option<T>)
    ensures RoundTrips(Schema(manifest, version, encode, DefaultDecode(manifest, version, codec)))
      <==> forall t: T :: encode(t).Some? ==> codec(encode(t).value) == Some(t)
  {
    var schema := Schema(manifest, version, encode, DefaultDecode(manifest, version, codec));
    forall t: T | encode(t).Some?
      ensures schema.decode(version, encode(t).value) == Ok(t) <==> codec(encode(t).value) == Some(t)
    {
    }
    if RoundTrips(schema) {
      forall t: T | encode(t).Some? ensures codec(encode(t).value) == Some(t) {
        assert schema.encode(t).Some?;
      }
    }
  }

  /**
   * With the default decode a stored value decodes exactly when its manifest and version are the
   * current ones and the codec accepts the payload; every other outcome names its first reason.
   */
  lemma DefaultDecodeOutcome<T>(
      manifest: string, version: nat, encode: T -> Option<Payload>, codec: Payload -> Option<T>, stored: Encoded)
    ensures DecodeVersioned(Schema(manifest, version, encode, DefaultDecode(manifest, version, codec)), stored) ==
      if stored.manifest != manifest then Err(ManifestMismatch(stored.manifest, manifest))
      else if stored.schemaVersion != version then Err(UnsupportedSchemaVersion(manifest, stored.schemaVersion))
      else if codec(stored.payload).None? then Err(UndecodablePayload)
      else Ok(codec(stored.payload).value)
  {
  }

  /** A value of another type is never decoded, whatever the type's own decode accepts. */
  lemma ForeignManifest<T>(schema: Schema<T>, stored: Encoded)
    ensures DecodeVersioned(schema, stored) ==
      if stored.manifest == schema.manifest then schema.decode(stored.schemaVersion, stored.payload)
      else Err(ManifestMismatch(stored.manifest, schema.manifest))
  {
  }

  /** Decoding what this code encoded gives the value back. */
  lemma EncodeDecode<T(!new)>(schema: Schema<T>, t: T)
    requires RoundTrips(schema)
    requires Encode(schema, t).Some?
    ensures DecodeVersioned(schema, Encode(schema, t).value) == Ok(t)
  {
    assert schema.encode(t).Some?;
  }
}
