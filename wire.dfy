/** The wire record of a Nostr event (NIP-01) as the event entity exchanges it,
    and the content hash that gives the record its id. */
module Wire {

  datatype Option<T> = None | Some(value: T) {
    function GetOr(default: T): T {
      match this
      case Some(v) => v
      case None => default
    }
  }

  /** JavaScript truthiness of an optional string: the key is present and the text is not empty. */
  predicate IsSetString(s: Option<string>) {
    s.Some? && s.value != ""
  }

  /** JavaScript truthiness of an optional number: the key is present and the number is not 0. */
  predicate IsSetNumber(n: Option<int>) {
    n.Some? && n.value != 0
  }

  /** `s || ''` on an optional string. */
  function OrEmpty(s: Option<string>): (r: string)
    ensures r != "" <==> IsSetString(s)
    ensures r != "" ==> s == Some(r)
  {
    if IsSetString(s) then s.value else ""
  }

  /** A tag is a list of strings whose first element names it. */
  type Tag = seq<string>

  /** A Nostr event record. Every key may be absent: a seed handed to the entity is a
      loosely typed object, and on the wire an absent key is not the same as an empty one. */
  datatype NostrEvent = NostrEvent(
    created_at: Option<int>,
    content: Option<string>,
    subject: Option<string>,
    tags: Option<seq<Tag>>,
    kind: Option<int>,
    pubkey: Option<string>,
    id: Option<string>,
    sig: Option<string>)

  /** The fields NIP-01 serialises as `[0, pubkey, created_at, kind, tags, content]`
      before hashing; `id`, `sig` and `subject` are not among them. */
  datatype Commitment = Commitment(
    pubkey: string,
    created_at: int,
    kind: int,
    tags: seq<Tag>,
    content: string)

  /** The hashing routine proper (validation of the field formats, then SHA-256 of the
      serialisation), left opaque: `None` stands for a throw. */
  type Digest = Commitment -> Option<string>

  /** The serialised fields of a record, or `None` when one of them is missing. */
  function CommitmentOf(e: NostrEvent): Option<Commitment> {
    if e.pubkey.Some? && e.created_at.Some? && e.kind.Some? && e.tags.Some? && e.content.Some?
    then Some(Commitment(e.pubkey.value, e.created_at.value, e.kind.value, e.tags.value, e.content.value))
    else None
  }

  /** `getEventHash`: the digest of the serialised fields, failing when a field is missing
      or when the digest itself rejects them. */
  function GetEventHash(e: NostrEvent, digest: Digest): Option<string> {
    match CommitmentOf(e)
    case None => None
    case Some(c) => digest(c)
  }

  /** The hash does not look at `id`, `sig` or `subject`, so filling those in leaves it as it was. */
  lemma HashIgnoresIdSigSubject(e: NostrEvent, id: Option<string>, sig: Option<string>, subject: Option<string>, digest: Digest)
    ensures GetEventHash(e.(id := id, sig := sig, subject := subject), digest) == GetEventHash(e, digest)
  {
  }
}
