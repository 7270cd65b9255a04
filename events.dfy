/** The `Event` entity of src/events/index.ts: its mutable fields, the tag policy it
    applies before finalising, the draft record it builds, and the sign / publish / zap
    control flow around its collaborators. */
module Events {
  import opened Wire

  /** The failures the entity raises itself. `NoNdkInstance` is the `Error` thrown by
      `zap`; `NoSigner` is the one `NDK.assertSigner` throws. */
  datatype EventError = NoNdkInstance | NoSigner

  datatype Result<T> = Ok(value: T) | Err(error: EventError)

  datatype Outcome = Pass | Fail(error: EventError)

  /** A signer, reduced to the hex public key of its user (empty when it has none). */
  datatype Signer = Signer(userPubkey: string)

  /** An NDK instance, reduced to the signer it may hold. */
  datatype Ndk = Ndk(signer: Option<Signer>)

  /** `generateContentTags(content, tags)`: deterministic, its definition is not part of this model. */
  type Extractor = (string, seq<Tag>) -> (string, seq<Tag>)

  /** `signer.sign(event)`: the signature the attached signer produces for a record. */
  type SignFn = NostrEvent -> string

  /** A zap session already scoped to this event: `createZapRequest(amount, comment)`. */
  type ZapRequest = (int, Option<string>) -> Option<string>

  const Base36Digits := "0123456789abcdefghijklmnopqrstuvwxyz"

  /** What the 16 draws of `Math.random().toString(36)[2]` give: 16 base-36 digits. */
  predicate IsRandomDValue(s: string) {
    |s| == 16 && forall i :: 0 <= i < |s| ==> s[i] in Base36Digits
  }

  /** The fields of an entity, as one value. `frozen` is the source's `_event`.
      `tagsShared` says that `tags` is still the seed's own array (assigned at construction):
      JavaScript knows this by object identity, the model by this flag, and while it holds
      a push onto `tags` is a push onto `frozen`'s tags too. */
  datatype EntityState = EntityState(
    ndk: Option<Ndk>,
    created_at: Option<int>,
    content: string,
    subject: Option<string>,
    tags: seq<Tag>,
    kind: Option<int>,
    id: string,
    sig: Option<string>,
    pubkey: string,
    frozen: Option<NostrEvent>,
    tagsShared: bool)

  /** While the tags are shared, the seed holds them, and they are the entity's tags. */
  predicate SharingConsistent(s: EntityState) {
    s.tagsShared ==> s.frozen.Some? && s.frozen.value.tags == Some(s.tags)
  }

  /** The fields the constructor gives an entity, each defaulted on its own from the seed. */
  function Seeded(ndk: Option<Ndk>, seed: Option<NostrEvent>): (s: EntityState)
    ensures s.ndk == ndk && s.frozen == seed
    ensures s.tagsShared <==> seed.Some? && seed.value.tags.Some?
    ensures SharingConsistent(s)
    ensures s.content != "" <==> seed.Some? && IsSetString(seed.value.content)
    ensures s.content != "" ==> seed.value.content == Some(s.content)
    ensures s.id != "" <==> seed.Some? && IsSetString(seed.value.id)
    ensures s.id != "" ==> seed.value.id == Some(s.id)
    ensures s.pubkey != "" <==> seed.Some? && IsSetString(seed.value.pubkey)
    ensures s.pubkey != "" ==> seed.value.pubkey == Some(s.pubkey)
    ensures seed.Some? && seed.value.tags.Some? ==> s.tags == seed.value.tags.value
    ensures seed.None? || seed.value.tags.None? ==> s.tags == []
    ensures s.kind.Some? <==> seed.Some? && IsSetNumber(seed.value.kind)
    ensures s.kind.Some? ==> s.kind == seed.value.kind
    ensures seed.None? ==> s.created_at.None? && s.subject.None? && s.sig.None?
    ensures seed.Some? ==> s.created_at == seed.value.created_at && s.subject == seed.value.subject && s.sig == seed.value.sig
  {
    match seed
    case None => EntityState(ndk, None, "", None, [], None, "", None, "", None, false)
    case Some(e) =>
      EntityState(ndk, e.created_at, OrEmpty(e.content), e.subject, e.tags.GetOr([]),
                  if IsSetNumber(e.kind) then e.kind else None,
                  OrEmpty(e.id), e.sig, OrEmpty(e.pubkey), seed, e.tags.Some?)
  }

  /** `tag[0] === name`: an empty tag has no name and matches nothing. */
  predicate IsNamed(tag: Tag, name: string) {
    |tag| > 0 && tag[0] == name
  }

  /** `tags.filter((tag) => tag[0] === name)`. */
  function MatchingTags(tags: seq<Tag>, name: string): (r: seq<Tag>)
    ensures |r| <= |tags|
    ensures forall t :: t in r <==> t in tags && IsNamed(t, name)
  {
    if tags == [] then []
    else if IsNamed(tags[0], name) then [tags[0]] + MatchingTags(tags[1..], name)
    else MatchingTags(tags[1..], name)
  }

  /** Filtering distributes over concatenation, so the matching tags keep their relative order. */
  lemma {:induction false} MatchingTagsConcat(a: seq<Tag>, b: seq<Tag>, name: string)
    ensures MatchingTags(a + b, name) == MatchingTags(a, name) + MatchingTags(b, name)
  {
    if a == [] {
      assert a + b == b;
    } else {
      assert (a + b)[1..] == a[1..] + b;
      MatchingTagsConcat(a[1..], b, name);
    }
  }

  predicate HasDTag(tags: seq<Tag>) {
    MatchingTags(tags, "d") != []
  }

  /** The parameterized-replaceable range as the code writes it: a truthy kind with
      `kind >= 30000 && kind <= 40000`, so 40000 is inside. */
  predicate InReplaceableRange(kind: Option<int>) {
    IsSetNumber(kind) && 30000 <= kind.value <= 40000
  }

  /** The first half of `generateTags`: a replaceable event without a `d` tag gets one,
      pushed onto the tags array, which may be the seed's. */
  function WithDTag(s: EntityState, dValue: string): (r: EntityState)
    ensures s.tags <= r.tags && |r.tags| <= |s.tags| + 1
    ensures HasDTag(r.tags) <==> HasDTag(s.tags) || InReplaceableRange(s.kind)
    ensures r.(tags := s.tags, frozen := s.frozen) == s
    ensures !s.tagsShared ==> r.frozen == s.frozen
    ensures SharingConsistent(s) ==> SharingConsistent(r)
    ensures !InReplaceableRange(s.kind) || HasDTag(s.tags) ==> r == s
    ensures InReplaceableRange(s.kind) && !HasDTag(s.tags) ==> r.tags == s.tags + [["d", dValue]]
    ensures s.frozen.Some? ==> r.frozen.Some? && r.frozen.value.(tags := s.frozen.value.tags) == s.frozen.value
  {
    if InReplaceableRange(s.kind) && !HasDTag(s.tags) then
      var tags := s.tags + [["d", dValue]];
      MatchingTagsConcat(s.tags, [["d", dValue]], "d");
      s.(tags := tags,
         frozen := match s.frozen
                   case Some(e) => if s.tagsShared then Some(e.(tags := Some(tags))) else s.frozen
                   case None => None)
    else s
  }

  /** The second half of `generateTags`: content tags are extracted only when there are no tags. */
  function WithContentTags(s: EntityState, extract: Extractor): EntityState {
    if |s.tags| > 0 then s
    else
      var (content, tags) := extract(s.content, s.tags);
      s.(content := content, tags := tags, tagsShared := false)
  }

  /** `generateTags` as a whole. */
  function TagPolicy(s: EntityState, dValue: string, extract: Extractor): (r: EntityState)
    ensures WithDTag(s, dValue).tags != [] ==> r == WithDTag(s, dValue)
    ensures WithDTag(s, dValue).tags == [] ==> r == s.(content := extract(s.content, []).0, tags := extract(s.content, []).1, tagsShared := false)
    ensures r.(content := s.content, tags := s.tags, frozen := s.frozen, tagsShared := s.tagsShared) == s
    ensures !s.tagsShared ==> r.frozen == s.frozen
    ensures r.tagsShared ==> s.tagsShared
    ensures SharingConsistent(s) ==> SharingConsistent(r)
  {
    WithContentTags(WithDTag(s, dValue), extract)
  }

  /** `ndk?.signer?.user()` followed by `user?.hexpubkey()`. */
  function SignerUser(ndk: Option<Ndk>): Option<string> {
    if ndk.Some? && ndk.value.signer.Some? then Some(ndk.value.signer.value.userPubkey) else None
  }

  /** The pubkey of the draft: the explicit argument, else the signer's user, else the entity's own. */
  function ResolvePubkey(explicit: Option<string>, ndk: Option<Ndk>, own: string): (r: string)
    ensures IsSetString(explicit) ==> r == explicit.value
    ensures !IsSetString(explicit) && IsSetString(SignerUser(ndk)) ==> r == SignerUser(ndk).value
    ensures !IsSetString(explicit) && !IsSetString(SignerUser(ndk)) ==> r == own
  {
    var looked := if IsSetString(explicit) then explicit else SignerUser(ndk);
    if IsSetString(looked) then looked.value else own
  }

  /** The record literal of `toNostrEvent`, before `subject`, the hash and `sig` are filled in. */
  function BaseDraft(s: EntityState, pubkey: Option<string>, nowMillis: int): NostrEvent {
    NostrEvent(
      Some(if IsSetNumber(s.created_at) then s.created_at.value else nowMillis / 1000),
      Some(s.content),
      None,
      Some(s.tags),
      Some(if IsSetNumber(s.kind) then s.kind.value else 0),
      Some(ResolvePubkey(pubkey, s.ndk, s.pubkey)),
      Some(s.id),
      None)
  }

  /** `toNostrEvent(pubkey)`: the returned record and the entity's fields afterwards.
      The draft shares its `tags` array with the entity, so it sees the `d` tag pushed by
      `generateTags` but not the arrays that content extraction assigns afterwards, and it
      keeps the content it copied before the extraction. */
  function ToNostrEventSpec(s: EntityState, pubkey: Option<string>, nowMillis: int,
                            dValue: string, extract: Extractor, digest: Digest): (r: (NostrEvent, EntityState))
    ensures s.frozen.Some? ==> r == (s.frozen.value, s)
    ensures s.frozen.None? ==> r.1 == TagPolicy(s, dValue, extract)
    ensures s.frozen.None? ==> r.0.created_at == Some(if IsSetNumber(s.created_at) then s.created_at.value else nowMillis / 1000)
    ensures s.frozen.None? ==> r.0.kind == Some(if IsSetNumber(s.kind) then s.kind.value else 0)
    ensures s.frozen.None? ==> r.0.pubkey == Some(ResolvePubkey(pubkey, s.ndk, s.pubkey))
    ensures s.frozen.None? ==> r.0.content == Some(s.content) && r.0.tags == Some(WithDTag(s, dValue).tags)
    ensures s.frozen.None? ==> (r.0.subject.Some? <==> IsSetString(s.subject)) && (r.0.subject.Some? ==> r.0.subject == s.subject)
    ensures s.frozen.None? ==> (r.0.sig.Some? <==> IsSetString(s.sig)) && (r.0.sig.Some? ==> r.0.sig == s.sig)
    ensures s.frozen.None? && GetEventHash(r.0, digest).Some? ==> r.0.id == GetEventHash(r.0, digest)
    ensures s.frozen.None? && GetEventHash(r.0, digest).None? ==> r.0.id == Some(s.id)
  {
    if s.frozen.Some? then (s.frozen.value, s)
    else
      var tagged := WithDTag(s, dValue);
      var after := WithContentTags(tagged, extract);
      var draft := BaseDraft(tagged, pubkey, nowMillis).(subject := if IsSetString(after.subject) then after.subject else None);
      var hashed := match GetEventHash(draft, digest)
                    case Some(h) => draft.(id := Some(h))
                    case None => draft;
      HashIgnoresIdSigSubject(draft, hashed.id, if IsSetString(after.sig) then after.sig else None, draft.subject, digest);
      (hashed.(sig := if IsSetString(after.sig) then after.sig else None), after)
  }

  /** `sign()`: the record handed to the signer and the entity's fields afterwards, or the
      failure of `assertSigner` (which only runs when an NDK instance is attached). */
  function SignSpec(s: EntityState, nowMillis: int, dValue: string, extract: Extractor,
                    digest: Digest, signature: SignFn): (r: Result<(NostrEvent, EntityState)>)
    ensures r.Err? <==> s.ndk.Some? && s.ndk.value.signer.None?
    ensures r.Err? ==> r.error == NoSigner
    ensures r.Ok? && s.ndk.Some? ==> r.value.1.sig == Some(signature(r.value.0))
    ensures r.Ok? && s.ndk.None? ==> r.value.1.sig.None?
    ensures r.Ok? ==> r.value.1.(content := s.content, tags := s.tags, sig := s.sig, frozen := s.frozen, tagsShared := s.tagsShared) == s
    ensures r.Ok? && s.frozen.None? ==> r.value.0.pubkey == Some(ResolvePubkey(None, s.ndk, s.pubkey))
    ensures r.Ok? && s.frozen.Some? ==> r.value.1.frozen == Some(r.value.0)
    ensures r.Ok? && !s.tagsShared ==> r.value.1.frozen == s.frozen
    ensures r.Ok? ==> r.value.0 == ToNostrEventSpec(TagPolicy(s, dValue, extract), None, nowMillis, dValue, extract, digest).0
    ensures r.Ok? && s.frozen.None? ==> r.value.1.(sig := s.sig) == TagPolicy(TagPolicy(s, dValue, extract), dValue, extract)
    ensures r.Ok? && s.frozen.Some? ==> r.value.1.(sig := s.sig) == TagPolicy(s, dValue, extract)
  {
    if s.ndk.Some? && s.ndk.value.signer.None? then Err(NoSigner)
    else
      var generated := TagPolicy(s, dValue, extract);
      var (draft, after) := ToNostrEventSpec(generated, None, nowMillis, dValue, extract, digest);
      Ok((draft, after.(sig := if s.ndk.Some? then Some(signature(draft)) else None)))
  }

  class Event {
    var ndk: Option<Ndk>
    var created_at: Option<int>
    var content: string
    var subject: Option<string>
    var tags: seq<Tag>
    var kind: Option<int>
    var id: string
    var sig: Option<string>
    var pubkey: string
    var frozen: Option<NostrEvent>
    var tagsShared: bool

    ghost function State(): EntityState
      reads this
    {
      EntityState(ndk, created_at, content, subject, tags, kind, id, sig, pubkey, frozen, tagsShared)
    }

    ghost predicate Valid()
      reads this
    {
      SharingConsistent(State())
    }

    constructor (ndk: Option<Ndk>, event: Option<NostrEvent>)
      ensures Valid() && State() == Seeded(ndk, event)
    {
      this.ndk := ndk;
      this.created_at := if event.Some? then event.value.created_at else None;
      this.content := if event.Some? then OrEmpty(event.value.content) else "";
      this.subject := if event.Some? then event.value.subject else None;
      this.tags := if event.Some? && event.value.tags.Some? then event.value.tags.value else [];
      this.id := if event.Some? then OrEmpty(event.value.id) else "";
      this.sig := if event.Some? then event.value.sig else None;
      this.pubkey := if event.Some? then OrEmpty(event.value.pubkey) else "";
      this.kind := None;
      if event.Some? && IsSetNumber(event.value.kind) {
        this.kind := event.value.kind;
      }
      this.frozen := event;
      this.tagsShared := event.Some? && event.value.tags.Some?;
    }

    /** `getMatchingTags(name)`: reads the tags and changes nothing. */
    function GetMatchingTags(tagName: string): (r: seq<Tag>)
      reads this
      ensures forall t :: t in r <==> t in tags && IsNamed(t, tagName)
      ensures r == MatchingTags(tags, tagName)
    {
      MatchingTags(tags, tagName)
    }

    method AddMissingDTag(dValue: string)
      requires Valid()
      modifies this
      ensures Valid() && State() == WithDTag(old(State()), dValue)
    {
      if IsSetNumber(kind) && kind.value >= 30000 && kind.value <= 40000 {
        var dTags := GetMatchingTags("d");
        if dTags == [] {
          tags := tags + [["d", dValue]];
          // the seed's array, when `tags` still is that array, receives the same push
          if tagsShared {
            frozen := Some(frozen.value.(tags := Some(tags)));
          }
        }
      }
    }

    method AddContentTags(extract: Extractor)
      requires Valid()
      modifies this
      ensures Valid() && State() == WithContentTags(old(State()), extract)
    {
      if |tags| > 0 {
        return;
      }
      var (newContent, newTags) := extract(content, tags);
      content := newContent;
      tags := newTags;
      tagsShared := false;
    }

    /** `generateTags()`; `dValue` stands for the random draws it makes when it adds a `d` tag. */
    method GenerateTags(dValue: string, extract: Extractor)
      requires IsRandomDValue(dValue)
      requires Valid()
      modifies this
      ensures Valid()
      ensures State() == TagPolicy(old(State()), dValue, extract)
    {
      AddMissingDTag(dValue);
      AddContentTags(extract);
    }

    /** `toNostrEvent(pubkey)`; `nowMillis` stands for `Date.now()`. */
    method ToNostrEvent(pubkey: Option<string>, nowMillis: int, dValue: string, extract: Extractor, digest: Digest)
      returns (r: NostrEvent)
      requires IsRandomDValue(dValue)
      requires Valid()
      modifies this
      ensures Valid()
      ensures (r, State()) == ToNostrEventSpec(old(State()), pubkey, nowMillis, dValue, extract, digest)
    {
      if frozen.Some? {
        return frozen.value;
      }
      ghost var s0 := State();
      var resolved := pubkey;
      if !IsSetString(resolved) {
        resolved := SignerUser(ndk);
      }
      var draft := NostrEvent(
        Some(if IsSetNumber(created_at) then created_at.value else nowMillis / 1000),
        Some(content),
        None,
        Some(tags),
        Some(if IsSetNumber(kind) then kind.value else 0),
        Some(if IsSetString(resolved) then resolved.value else this.pubkey),
        Some(id),
        None);
      // generateTags: the `d` tag is pushed onto the array the draft shares ...
      AddMissingDTag(dValue);
      draft := draft.(tags := Some(tags));
      ghost var tagged := State();
      assert draft == BaseDraft(tagged, pubkey, nowMillis);
      // ... while the content and tags the extraction assigns replace the entity's fields only.
      AddContentTags(extract);
      assert State() == WithContentTags(tagged, extract) == TagPolicy(s0, dValue, extract);
      if IsSetString(subject) {
        draft := draft.(subject := subject);
      }
      var hash := GetEventHash(draft, digest);
      if hash.Some? {
        draft := draft.(id := hash);
      }
      if IsSetString(sig) {
        draft := draft.(sig := sig);
      }
      r := draft;
    }

    /** `sign()`; `signature` stands for the attached signer's `sign`. */
    method Sign(nowMillis: int, dValue: string, extract: Extractor, digest: Digest, signature: SignFn)
      returns (r: Outcome)
      requires IsRandomDValue(dValue)
      requires Valid()
      modifies this
      ensures Valid()
      ensures var spec := SignSpec(old(State()), nowMillis, dValue, extract, digest, signature);
              && (spec.Err? ==> r == Fail(spec.error) && State() == old(State()))
              && (spec.Ok? ==> r == Pass && State() == spec.value.1)
    {
      if ndk.Some? && ndk.value.signer.None? {
        return Fail(NoSigner);
      }
      GenerateTags(dValue, extract);
      var draft := ToNostrEvent(None, nowMillis, dValue, extract, digest);
      sig := if ndk.Some? then Some(signature(draft)) else None;
      r := Pass;
    }

    /** `publish()`: signs first only when `sig` is unset; `Ok(true)` when the event was
        handed to `ndk.publish`, `Ok(false)` when no NDK instance is attached. */
    method Publish(nowMillis: int, dValue: string, extract: Extractor, digest: Digest, signature: SignFn)
      returns (r: Result<bool>)
      requires IsRandomDValue(dValue)
      requires Valid()
      modifies this
      ensures Valid()
      ensures IsSetString(old(sig)) ==> r == Ok(ndk.Some?) && State() == old(State())
      ensures !IsSetString(old(sig)) ==>
                var spec := SignSpec(old(State()), nowMillis, dValue, extract, digest, signature);
                && (spec.Err? ==> r == Err(spec.error) && State() == old(State()))
                && (spec.Ok? ==> r == Ok(ndk.Some?) && State() == spec.value.1)
    {
      if !IsSetString(sig) {
        var signed := Sign(nowMillis, dValue, extract, digest, signature);
        if signed.Fail? {
          return Err(signed.error);
        }
      }
      r := Ok(ndk.Some?);
    }

    /** `zap(amount, comment)`: the guards before the zap session is asked for a request. */
    method Zap(amount: int, comment: Option<string>, createZapRequest: ZapRequest)
      returns (r: Result<Option<string>>)
      ensures ndk.None? ==> r == Err(NoNdkInstance)
      ensures ndk.Some? && ndk.value.signer.None? ==> r == Err(NoSigner)
      ensures ndk.Some? && ndk.value.signer.Some? ==> r == Ok(createZapRequest(amount, comment))
    {
      if ndk.None? {
        return Err(NoNdkInstance);
      }
      if ndk.value.signer.None? {
        return Err(NoSigner);
      }
      r := Ok(createZapRequest(amount, comment));
    }
  }
}
