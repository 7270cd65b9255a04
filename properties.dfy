/** Properties of the event entity that relate several of its operations or several calls. */
module EventProperties {
  import opened Wire
  import opened Events

  /** Filtering twice by the same name gives what filtering once gave. */
  lemma {:induction false} MatchingTagsIdempotent(tags: seq<Tag>, name: string)
    ensures MatchingTags(MatchingTags(tags, name), name) == MatchingTags(tags, name)
  {
    if tags != [] {
      MatchingTagsIdempotent(tags[1..], name);
    }
  }

  /** A replaceable event without a `d` tag gets exactly one, appended at the end, whose
      value is the 16 random base-36 digits. */
  lemma DTagAppended(s: EntityState, dValue: string)
    requires InReplaceableRange(s.kind) && !HasDTag(s.tags)
    requires IsRandomDValue(dValue)
    ensures WithDTag(s, dValue).tags == s.tags + [["d", dValue]]
    ensures MatchingTags(WithDTag(s, dValue).tags, "d") == [["d", dValue]]
    ensures |MatchingTags(WithDTag(s, dValue).tags, "d")[0][1]| == 16
  {
    MatchingTagsConcat(s.tags, [["d", dValue]], "d");
  }

  /** For a replaceable kind the number of `d` tags becomes max(1, what it was), and the
      existing tags are kept, in order, as a prefix; outside the range nothing changes. */
  lemma DTagCount(s: EntityState, dValue: string)
    ensures var after := WithDTag(s, dValue).tags;
            var before := |MatchingTags(s.tags, "d")|;
            && s.tags <= after
            && (InReplaceableRange(s.kind) ==> |MatchingTags(after, "d")| == if before == 0 then 1 else before)
            && (!InReplaceableRange(s.kind) ==> WithDTag(s, dValue) == s)
  {
    if InReplaceableRange(s.kind) && !HasDTag(s.tags) {
      MatchingTagsConcat(s.tags, [["d", dValue]], "d");
    }
  }

  /** A second `d`-tag step, with fresh random draws, changes nothing. */
  lemma DTagStepIdempotent(s: EntityState, v1: string, v2: string)
    ensures WithDTag(WithDTag(s, v1), v2) == WithDTag(s, v1)
  {
  }

  /** For a replaceable kind the content is never rewritten: after the `d`-tag step the
      tags are not empty, so the extraction is skipped. */
  lemma ReplaceableSkipsExtraction(s: EntityState, dValue: string, extract: Extractor)
    requires InReplaceableRange(s.kind)
    ensures TagPolicy(s, dValue, extract) == WithDTag(s, dValue)
    ensures TagPolicy(s, dValue, extract).content == s.content
    ensures HasDTag(TagPolicy(s, dValue, extract).tags)
  {
  }

  /** Running `generateTags` twice gives what running it once gave exactly when the first
      run left some tags or the extractor has nothing to add to what the first run left. */
  lemma TagPolicyIdempotent(s: EntityState, v1: string, v2: string, extract: Extractor)
    ensures var once := TagPolicy(s, v1, extract);
            TagPolicy(once, v2, extract) == once
            <==> once.tags != [] || extract(once.content, []) == (once.content, [])
  {
  }

  /** An entity built from an existing record hands that record back and keeps its fields. */
  lemma FrozenRoundTrip(ndk: Option<Ndk>, e: NostrEvent, pubkey: Option<string>, nowMillis: int,
                        dValue: string, extract: Extractor, digest: Digest)
    ensures ToNostrEventSpec(Seeded(ndk, Some(e)), pubkey, nowMillis, dValue, extract, digest) == (e, Seeded(ndk, Some(e)))
  {
  }

  /** Two entities that differ only in `id` and `sig` give records that differ at most in
      `created_at`, `id` and `sig`; with the same `created_at` they get the same fresh id, or
      each keeps its own when hashing fails. */
  lemma DraftDeterminism(s: EntityState, t: EntityState, pubkey: Option<string>, now1: int, now2: int,
                         dValue: string, extract: Extractor, digest: Digest)
    requires s.frozen.None? && t == s.(id := t.id, sig := t.sig)
    ensures var (d1, s1) := ToNostrEventSpec(s, pubkey, now1, dValue, extract, digest);
            var (d2, s2) := ToNostrEventSpec(t, pubkey, now2, dValue, extract, digest);
            && s2 == s1.(id := t.id, sig := t.sig)
            && d2.(created_at := d1.created_at, id := d1.id, sig := d1.sig) == d1
            && (IsSetNumber(s.created_at) || now1 / 1000 == now2 / 1000 ==> d1.created_at == d2.created_at)
            && (d1.created_at == d2.created_at ==>
                  GetEventHash(d1, digest) == GetEventHash(d2, digest)
                  && (GetEventHash(d1, digest).Some? ==> d1.id == d2.id)
                  && (GetEventHash(d1, digest).None? ==> d1.id == Some(s.id) && d2.id == Some(t.id)))
  {
  }

  /** The record `toNostrEvent` builds always has every serialised field, so a hashing
      failure there comes from the digest alone, never from a missing field; and what is
      hashed is the resolved pubkey, the content from before extraction and the tags after
      the `d`-tag step. */
  lemma DraftAlwaysCommits(s: EntityState, pubkey: Option<string>, nowMillis: int,
                           dValue: string, extract: Extractor, digest: Digest)
    requires s.frozen.None?
    ensures var d := ToNostrEventSpec(s, pubkey, nowMillis, dValue, extract, digest).0;
            && CommitmentOf(d).Some?
            && GetEventHash(d, digest) == digest(CommitmentOf(d).value)
            && CommitmentOf(d).value.pubkey == ResolvePubkey(pubkey, s.ndk, s.pubkey)
            && CommitmentOf(d).value.content == s.content
            && CommitmentOf(d).value.tags == WithDTag(s, dValue).tags
  {
  }

  /** `sign` runs `generateTags` and then `toNostrEvent`, which runs it again: the signed
      record carries the content and tags of the first run. When that run left tags, the entity
      ends with that same content and those tags; when it left none, the extractor runs a
      second time on the entity and the record keeps the content from before that run. */
  lemma SignedDraftMatchesEntity(s: EntityState, nowMillis: int, dValue: string, extract: Extractor,
                                 digest: Digest, signature: SignFn)
    requires s.frozen.None?
    requires SignSpec(s, nowMillis, dValue, extract, digest, signature).Ok?
    ensures var (draft, after) := SignSpec(s, nowMillis, dValue, extract, digest, signature).value;
            var once := TagPolicy(s, dValue, extract);
            && draft.tags == Some(once.tags) && draft.content == Some(once.content)
            && (once.tags != [] ==> after.tags == once.tags && after.content == once.content)
            && (once.tags == [] ==> after.content == extract(once.content, []).0 && after.tags == extract(once.content, []).1
                                    && draft.content == Some(once.content))
  {
  }

  /** Signing an entity built from an existing record signs that record as it stands after
      `sign`'s own `generateTags`: when the entity's tags are still the seed's array and a
      `d` tag is pushed, the signed record is the seed with that tag appended and its old id. */
  lemma SignFrozenSignsSeed(s: EntityState, nowMillis: int, dValue: string, extract: Extractor,
                            digest: Digest, signature: SignFn)
    requires s.frozen.Some? && SharingConsistent(s)
    requires SignSpec(s, nowMillis, dValue, extract, digest, signature).Ok?
    ensures var (draft, after) := SignSpec(s, nowMillis, dValue, extract, digest, signature).value;
            && draft == TagPolicy(s, dValue, extract).frozen.value
            && after.tags == TagPolicy(s, dValue, extract).tags
            && after.content == TagPolicy(s, dValue, extract).content
            && (!s.tagsShared ==> draft == s.frozen.value)
            && (s.tagsShared && InReplaceableRange(s.kind) && !HasDTag(s.tags) ==>
                  draft == s.frozen.value.(tags := Some(s.tags + [["d", dValue]])) && HasDTag(after.tags))
  {
  }

  /** A plain note (kind 1) with no tags, whose content the extractor finds nothing in, is
      signed with its content and its empty tag list as they were. */
  lemma SignPlainNote(s: EntityState, nowMillis: int, dValue: string, extract: Extractor,
                      digest: Digest, signature: SignFn)
    requires s.frozen.None? && s.kind == Some(1) && s.tags == []
    requires extract(s.content, []) == (s.content, [])
    requires s.ndk.Some? && s.ndk.value.signer.Some?
    ensures SignSpec(s, nowMillis, dValue, extract, digest, signature).Ok?
    ensures var (draft, after) := SignSpec(s, nowMillis, dValue, extract, digest, signature).value;
            && after.content == s.content && after.tags == []
            && draft.content == Some(s.content) && draft.tags == Some([]) && draft.kind == Some(1)
            && after.sig == Some(signature(draft))
  {
  }
}
