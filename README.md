# Nostr `Event` entity, modelled in Dafny

This project models the `Event` class of NDK's `src/events/index.ts`. The class holds the
mutable fields of a Nostr event and turns them into the NIP-01 wire record. The model covers:

- how the constructor defaults each field from an optional seed record;
- `getMatchingTags`;
- the tag policy of `generateTags`: a `d` tag for parameterized replaceable kinds (NIP-33), and
  content tag extraction only while there are no tags;
- the draft record built by `toNostrEvent`;
- the control flow of `sign`, `publish` and the guards of `zap`.

Files:

- `wire.dfy` (module `Wire`) holds the wire record `NostrEvent` and the hash. Every key of the
  record is an `Option`, because presence of a key is part of the wire contract and a seed
  is a loosely typed object. The hash serialises the NIP-01 fields
  `[0, pubkey, created_at, kind, tags, content]` and hands them to an opaque digest that may
  fail.
- `events.dfy` (module `Events`) holds the entity. `EntityState` is the value of its fields.
  The pure functions `Seeded`, `WithDTag`, `WithContentTags`, `TagPolicy`, `ToNostrEventSpec`
  and `SignSpec` say what each operation does to that value. The class `Event` has the
  source's fields, and each of its state-changing methods ensures `State()` equals the
  matching function applied to `old(State())` (`Publish` through `SignSpec`).
- `properties.dfy` (module `EventProperties`) holds lemmas that relate several calls:
  idempotence, `d`-tag counts, the frozen round trip, determinism, and what `sign` signs.

Collaborators are parameters:

- `Date.now()` is `nowMillis`; it is floored to seconds with Dafny's `/`, which floors for a
  positive divisor, like `Math.floor`.
- The 16 draws of `Math.random().toString(36)[2]` are `dValue`: 16 base-36 digits.
- `generateContentTags` is an `Extractor` function.
- The digest inside `getEventHash` is a `Digest` that returns `None` where the library throws.
- `signer.sign` is a `SignFn`.
- The zap session is a `ZapRequest`.
- An NDK instance is reduced to its optional signer, and a signer to its user's hex key.

Where the code and the protocol description differ, the model follows the code:

- The replaceable range is `kind >= 30000 && kind <= 40000` (src/events/index.ts:107). So
  kind 40000 gets a `d` tag, although NIP-33 names the half-open range [30000, 40000).
- The pubkey is the explicit argument, then the signer's user, then the entity's own field
  (src/events/index.ts:51-61). The order "explicit, then own field, then signer" is not what
  the code does.
- `sign` calls `assertSigner` only when an NDK instance is attached. Without one it goes on
  and stores `sig = undefined`, and the model does the same.
- Running `generateTags` twice is not always the same as running it once. Lemma
  `TagPolicyIdempotent` gives the exact condition.
- `toNostrEvent` builds its draft before it calls `generateTags` (src/events/index.ts:56-65),
  but the draft's `tags` is the entity's own array (:59). The draft therefore sees the `d`
  tag that `generateTags` pushes onto that array (:112). It does not see the new `content`
  and `tags` that content extraction assigns to the entity (:121-122). The model states this
  ordering explicitly rather than modelling the array object: the returned record has the
  `d` tag and the content from before the extraction.
- The constructor stores the seed's own tags array in `tags` (:40) and keeps the seed as
  `_event` (:45), so the two share one array until content extraction replaces `tags`.
  The model tracks this with the `tagsShared` field. While it is set, a `d` tag pushed at
  :112 also lands in the seed's tags. `sign` on a seeded replaceable event without a `d` tag
  therefore signs the seed with the new `d` tag but its old id (lemma `SignFrozenSignsSeed`),
  although the seed is otherwise returned as it was.

## Model

| member | source | states |
|---|---|---|
| `Wire.OrEmpty` | src/events/index.ts:38 | defaulting an optional string to `''` gives a non-empty value exactly when the key is present and non-empty, and then it is that value |
| `Wire.HashIgnoresIdSigSubject` | src/events/index.ts:67-72 | `GetEventHash` reads only the NIP-01 fields, so the hash is unchanged by setting `id`, `sig` or `subject`, so filling in `subject` before hashing does not move the id |
| `Events.Seeded` | src/events/index.ts:34-46 | content, id and pubkey are the seed's value when it is a non-empty string, else `''`; tags are the seed's or `[]`; kind is set only when the seed's kind is non-zero; created_at, subject and sig are copied; `_event` is the seed; the tags are shared with the seed exactly when the seed has tags |
| `Events.Event.constructor` | src/events/index.ts:34-46 | the new entity's fields are `Seeded(ndk, event)`, and a shared tags array is the seed's |
| `Events.MatchingTags` | src/events/index.ts:82-84 | a tag is in the result exactly when it is in `tags` and its first element equals the name; the result is no longer than `tags` |
| `Events.MatchingTagsConcat` | src/events/index.ts:83 | filtering distributes over concatenation, so matching tags keep their original order |
| `EventProperties.MatchingTagsIdempotent` | src/events/index.ts:83 | filtering the result again by the same name returns it unchanged |
| `Events.Event.GetMatchingTags` | src/events/index.ts:82-84 | reads `tags` only, returns exactly the tags named `tagName` |
| `Events.WithDTag` | src/events/index.ts:107-114 | when the kind is outside [30000, 40000] or a `d` tag already exists, nothing changes (nothing is added or replaced); otherwise `['d', dValue]` is appended to the tags. Afterwards there is a `d` tag exactly when there was one or the kind is in range. Only `tags` changes, and the seed's tags too while they are shared; the seed's other keys stay as they were |
| `Events.Event.AddMissingDTag` | src/events/index.ts:107-114 | the new fields are `WithDTag` of the old ones, including the push into the seed's shared tags |
| `Events.Event.AddContentTags` | src/events/index.ts:116-122 | the new fields are `WithContentTags` of the old ones: nothing changes when there are tags, otherwise content and tags are the extractor's output and the tags are no longer shared with the seed |
| `Events.TagPolicy` | src/events/index.ts:105-123 | if the tags are non-empty after the `d`-tag step, the result is that step's result with content untouched; otherwise (`WithContentTags`) content and tags are the extractor's output on `(content, [])` and no longer shared; besides these only the seed's shared tags can change, and only while shared |
| `Events.Event.GenerateTags` | src/events/index.ts:105-123 | the new fields are `TagPolicy` of the old ones, the seed's shared tags included |
| `EventProperties.DTagAppended` | src/events/index.ts:107-114 | a kind in [30000, 40000] with no `d` tag gets exactly one `['d', v]` appended at the end, and v has 16 characters |
| `EventProperties.DTagCount` | src/events/index.ts:107-114 | the old tags stay as a prefix; in range the number of `d` tags becomes max(1, old count); out of range nothing changes |
| `EventProperties.DTagStepIdempotent` | src/events/index.ts:107-114 | a second `d`-tag step with fresh random draws adds and replaces nothing |
| `EventProperties.ReplaceableSkipsExtraction` | src/events/index.ts:107-117 | for a replaceable kind, content extraction never runs, content is unchanged and a `d` tag exists |
| `EventProperties.TagPolicyIdempotent` | src/events/index.ts:105-123 | `generateTags` twice equals once if and only if the first run left tags, or the extractor maps the left content with no tags to itself |
| `Events.ResolvePubkey` | src/events/index.ts:51-61 | with `SignerUser` standing for `ndk?.signer?.user()?.hexpubkey()`, the pubkey is the non-empty explicit argument, else the signer user's non-empty key, else the entity's own pubkey |
| `Events.ToNostrEventSpec` | src/events/index.ts:48-77 | a seeded entity returns its seed as it now stands and nothing changes. Otherwise the fields become `TagPolicy` of the old ones, and the record (`BaseDraft` then completed) has: created_at, or now in seconds when unset or 0; kind, or 0; the resolved pubkey; the content from before extraction; the tags after the `d`-tag step; `subject` and `sig` keys only when they are non-empty; the hash as id when hashing succeeds, the old id when it fails |
| `Events.Event.ToNostrEvent` | src/events/index.ts:48-77 | the returned record and the new fields are those of `ToNostrEventSpec` |
| `EventProperties.FrozenRoundTrip` | src/events/index.ts:45-49 | an entity constructed from a record returns that record and keeps every field |
| `EventProperties.DraftAlwaysCommits` | src/events/index.ts:56-72 | the draft always has every field `GetEventHash` serialises, so hashing fails only in the digest; it hashes the resolved pubkey, the content from before extraction and the tags after the `d`-tag step |
| `EventProperties.DraftDeterminism` | src/events/index.ts:56-72 | entities differing only in id and sig give records differing at most in created_at, id and sig. With the same created_at they get the same fresh id, or each keeps its own when hashing fails |
| `Events.SignSpec` | src/events/index.ts:90-97 | fails with `NoSigner` exactly when an NDK instance without a signer is attached. Otherwise sig becomes the signer's signature of the record it was handed, or unset when no NDK instance is attached. Besides sig, the new fields are those of `generateTags` run twice for an unseeded entity (once by `sign`, once inside `toNostrEvent`) and once for a seeded one, so only content, tags and the seed's shared tags change (`id` keeps its old value; the fresh hash goes to the record only). The signed record is exactly what `toNostrEvent()` returns after `sign`'s own `generateTags` (`ToNostrEventSpec`, which states every key of it, including the hash as id): for an unseeded entity it carries the signer user's pubkey or its own; for a seeded one it is the seed as `generateTags` left it |
| `Events.Event.Sign` | src/events/index.ts:90-97 | on failure nothing changes; otherwise the new fields, the seed's shared tags included, are those of `SignSpec` |
| `EventProperties.SignedDraftMatchesEntity` | src/events/index.ts:90-97 | the signed record carries the content and tags of `sign`'s own `generateTags` run; when that run left tags, they equal the entity's final content and tags; when it left none, the extractor runs again and the entity ends with its output while the record keeps the earlier content |
| `EventProperties.SignFrozenSignsSeed` | src/events/index.ts:90-96 | signing a seeded entity signs the seed as `generateTags` left it: unchanged when the tags are not shared; with the pushed `d` tag appended and the old id when they are shared and a replaceable kind had no `d` tag |
| `EventProperties.SignPlainNote` | src/events/index.ts:90-97 | a kind-1 note with no tags and no references is signed with its content and empty tags unchanged, and sig is set |
| `Events.Event.Publish` | src/events/index.ts:99-103 | with a non-empty sig nothing changes and the event is handed to `ndk.publish` if one is attached. Otherwise it signs first (seed's shared tags included, as `SignSpec`) and passes on sign's failure |
| `Events.Event.Zap` | src/events/index.ts:128-142 | rejects with `NoNdkInstance` when no NDK instance is attached, with `NoSigner` when it has no signer, and otherwise returns the zap session's payment request |

## Left out

- The internals of `getEventHash` are not modelled: field-format validation, SHA-256 and hex encoding. A digest parameter that may fail stands for them.
- `generateContentTags` (`./content-tagger.js`) is not part of this model. It is taken as a deterministic function of `(content, tags)` that does not push onto the array it is given.
- The signer and transport are left out: `signer.user()`, `signer.sign`, `ndk.publish` and `ndk.assertSigner` are reduced to the presence of a signer, its user's key and a signature function. Their own failures are not modelled.
- Arrays shared between a returned record and the entity are not modelled beyond the calls themselves. For an unseeded entity the record's tags array is the entity's, until content extraction gives the entity a new one. For a seeded entity the record is the seed itself, whose tags array the entity holds while `tagsShared` is set. Changes a caller makes to the record or the entity afterwards are not reflected in the other; the model returns a value.
- Events.Event.Zap: the `Zap` class and `createZapRequest` are a parameter, so the contract covers only the guards and the pass-through of the returned request.
- Events.Event.Publish: it returns whether the event was handed to `ndk.publish`, not what that call returns.
- `Math.random()` returning exactly 0 is not modelled. Then `toString(36)[2]` is `undefined` and the `d` value is shorter than 16 characters; the model always takes 16 base-36 digits.
- `Date.now()` is a parameter; the clock is not modelled.
- `EventEmitter` inheritance and `toString` are left out; they have no behaviour of their own here.
- Promise scheduling is left out. Every operation runs to completion in sequence, and `generateTags` has no internal `await`.
- JavaScript truthiness is modelled only for strings and integers. `NaN` kinds or timestamps, and fields of the wrong runtime type, are not represented.
