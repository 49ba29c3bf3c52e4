/** Canonical JSON values, rows and digests of the event chain (hashing.py, integrity.py).

    A SHA-256 digest of canonical JSON is a free term over the value it hashes, so two
    digests are equal exactly when the hashed values are. */
module Canonical {
  /** Immutable event columns that the receipt repeats. A receipt field is named after the
      column it mirrors (`run_id` is EventId, `actor` AssertedActor, `requested_transition`
      RequestedState, `timestamp_utc` OccurredAt). */
  datatype MirroredColumn =
    | EventId | Command | AssertedActor | PriorState | RequestedState | ResultingState
    | Outcome | Reason | OccurredAt | ApplicationVersion
    | AuthenticationStatus | AuthenticatedPrincipal | AuthenticationScheme
    | AuthenticationKey | VerifierFingerprint | AuthenticationOperation
    | EnvelopeHash | ProofHash | AuthenticatedAt

  /** Immutable event columns that the receipt does not repeat. */
  datatype TargetColumn = TargetType | TargetId | CandidateId | PacketId | GovernedHash

  datatype AuthorizationColumn =
    | Status | Principal | RequiredCapability | Prior | Requested | ScopeVersion
    | Brand | Channel | Destination | MatchingGrant | ReasonCode

  datatype ChainColumn = Version | Origin | Sequence | PreviousHash | Hash

  /** Column names and JSON object keys. */
  datatype Key =
    | Mirrored(mirrored: MirroredColumn)
    | Target(target: TargetColumn)
    | Authorization(authorization: AuthorizationColumn)
    | Chain(chain: ChainColumn)
    | InputIdentifiersJson | FileHashesJson | ReceiptJson | ReceiptProjectedAt
    | InputIdentifiers | FileHashes | SchemaVersion
    | Domain | EventMaterial | ReceiptMaterial | HashAlgorithm | EventDomain
    | ActivationDomain | LegacyOrdering | LegacyEventCount | LegacyEvents
    | Named(name: string)

  /** A column or JSON value. `Json(v, layout)` is text that parses to `v`; layout 0 is its
      canonical text. `Rows` is a JSON list of rows in a fixed order, indexed by event id. */
  datatype Value =
    | Null
    | Number(n: int)
    | Text(text: string)
    | Digest(of: Value)
    | Object(fields: map<Key, Value>)
    | Json(parsed: Value, layout: nat)
    | Rows(rows: map<string, Value>)

  type Payload = map<Key, Value>

  /** Python's `row.get(key)`. */
  function Get(row: Payload, key: Key): Value {
    if key in row then row[key] else Null
  }

  /** `_json_object`: the parsed value of a JSON column holding an object. */
  predicate IsJsonObject(v: Value) {
    v.Json? && v.parsed.Object?
  }

  function ParsedObject(v: Value): Payload
    requires IsJsonObject(v)
  {
    v.parsed.fields
  }
}
