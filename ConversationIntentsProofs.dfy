/**
  Properties that relate several operations: a chain of setter calls followed by a build,
  the build-then-decode round trip, the decoder's asymmetries, and example call chains on the builder class.
*/
module ConversationIntentsProofs {
  import opened Wrappers
  import opened AndroidIntent
  import opened ConversationIntents

  /** A chain of setter calls made left to right on a builder in state `c`. */
  function ApplyAll(c: Config, calls: seq<Setter>): Config
    decreases |calls|
  {
    if calls == [] then c else Apply(ApplyAll(c, calls[..|calls| - 1]), calls[|calls| - 1])
  }

  /** The last call in `calls` that writes field `f`, or `initial` when none does. */
  function LastWrite(calls: seq<Setter>, f: Field, initial: Setter): (s: Setter)
    requires FieldOf(initial) == f
    ensures FieldOf(s) == f
    ensures s == initial || s in calls
    decreases |calls|
  {
    if calls == [] then initial
    else if FieldOf(calls[|calls| - 1]) == f then calls[|calls| - 1]
    else LastWrite(calls[..|calls| - 1], f, initial)
  }

  /** After any chain of setter calls, each field holds the value of the last call that wrote it. */
  lemma {:induction false} ApplyAllField(c: Config, calls: seq<Setter>, f: Field)
    ensures Project(ApplyAll(c, calls), f) == LastWrite(calls, f, Project(c, f))
    decreases |calls|
  {
    if calls != [] {
      ApplyAllField(c, calls[..|calls| - 1], f);
    }
  }

  /** No setter changes the target, the recipient or the thread. */
  lemma {:induction false} ApplyAllKeepsRequired(c: Config, calls: seq<Setter>)
    ensures ApplyAll(c, calls).target == c.target
    ensures ApplyAll(c, calls).recipientId == c.recipientId
    ensures ApplyAll(c, calls).threadId == c.threadId
    decreases |calls|
  {
    if calls != [] {
      ApplyAllKeepsRequired(c, calls[..|calls| - 1]);
    }
  }

  /** Two states that agree on the fixed fields and on every configurable field are equal. */
  lemma SameFieldsSameConfig(a: Config, b: Config)
    requires a.target == b.target && a.recipientId == b.recipientId && a.threadId == b.threadId
    requires forall f :: Project(a, f) == Project(b, f)
    ensures a == b
  {
    assert Project(a, DraftTextField) == Project(b, DraftTextField);
    assert Project(a, MediaField) == Project(b, MediaField);
    assert Project(a, StickerField) == Project(b, StickerField);
    assert Project(a, BorderlessField) == Project(b, BorderlessField);
    assert Project(a, DistributionTypeField) == Project(b, DistributionTypeField);
    assert Project(a, StartingPositionField) == Project(b, StartingPositionField);
    assert Project(a, DataUriField) == Project(b, DataUriField);
    assert Project(a, DataTypeField) == Project(b, DataTypeField);
  }

  /**
    The build fails exactly when the last media call and the last sticker call (or the initial
    values, if there were none) both left a non-null value, whatever else was called and in what order.
  */
  lemma BuildFailsIffLastWritesConflict(c: Config, calls: seq<Setter>)
    ensures Encode(ApplyAll(c, calls)).Failure? <==>
              LastWrite(calls, MediaField, Project(c, MediaField)).items.Some? &&
              LastWrite(calls, StickerField, Project(c, StickerField)).locator.Some?
  {
    ApplyAllField(c, calls, MediaField);
    ApplyAllField(c, calls, StickerField);
  }

  /** Two chains of setter calls whose last writes agree on every field build the same result. */
  lemma OrderOfSettersIrrelevant(c: Config, calls1: seq<Setter>, calls2: seq<Setter>)
    requires forall f :: LastWrite(calls1, f, Project(c, f)) == LastWrite(calls2, f, Project(c, f))
    ensures ApplyAll(c, calls1) == ApplyAll(c, calls2)
    ensures Encode(ApplyAll(c, calls1)) == Encode(ApplyAll(c, calls2))
  {
    forall f ensures Project(ApplyAll(c, calls1), f) == Project(ApplyAll(c, calls2), f) {
      ApplyAllField(c, calls1, f);
      ApplyAllField(c, calls2, f);
    }
    ApplyAllKeepsRequired(c, calls1);
    ApplyAllKeepsRequired(c, calls2);
    SameFieldsSameConfig(ApplyAll(c, calls1), ApplyAll(c, calls2));
  }

  /**
    Setting media and a sticker conflicts in either order, an empty media list included,
    and clearing either one afterwards resolves the conflict.
  */
  lemma ConflictInEitherOrder(c: Config, items: seq<Media>, locator: StickerLocator)
    ensures Encode(ApplyAll(c, [SetMedia(Some(items)), SetStickerLocator(Some(locator))])).Failure?
    ensures Encode(ApplyAll(c, [SetStickerLocator(Some(locator)), SetMedia(Some(items))])).Failure?
    ensures Encode(ApplyAll(c, [SetMedia(Some(items)), SetStickerLocator(Some(locator)), SetMedia(None)])).Success?
    ensures Encode(ApplyAll(c, [SetMedia(Some(items)), SetStickerLocator(Some(locator)), SetStickerLocator(None)])).Success?
  {
  }

  /** The parameters a successful build from state `c` carries. */
  function ArgsOf(c: Config): Args {
    Args(c.recipientId, c.threadId, c.draftText, c.media, c.stickerLocator,
         c.isBorderless, c.distributionType, c.startingPosition)
  }

  /** Decoding what a successful build wrote gives back every field of the builder. */
  lemma RoundTrip(c: Config)
    ensures Encode(c).Success? ==> ArgsFrom(Encode(c).value) == Success(ArgsOf(c))
  {
  }

  /**
    A fresh builder's envelope decodes exactly like an envelope holding only the recipient and
    the thread: the builder's initial values are the decoder's defaults.
  */
  lemma FreshBuilderMatchesDecoderDefaults(target: Target, recipientId: RecipientId, threadId: Int64)
    ensures Encode(Fresh(target, recipientId, threadId)).Success?
    ensures ArgsFrom(Encode(Fresh(target, recipientId, threadId)).value)
         == ArgsFrom(Intent(target, map[EXTRA_RECIPIENT := Str(recipientId.Serialize()),
                                        EXTRA_THREAD_ID := Long(threadId)], None, None))
         == Success(Args(recipientId, threadId, None, None, None, false, DEFAULT_DISTRIBUTION_TYPE, -1))
  {
  }

  /** An envelope with no extras at all is invalid, and decoding it anyway fails. */
  lemma EmptyEnvelopeRejected(target: Target)
    ensures IsInvalid(NewIntent(target))
    ensures ArgsFrom(NewIntent(target)) == Failure(MissingRecipient)
  {
  }

  /**
    The decoder performs no cross-field validation: an envelope from another producer that
    carries both media and a sticker decodes with both.
  */
  lemma DecodeAcceptsBothAttachments(target: Target, recipient: string, items: seq<Media>, locator: StickerLocator)
    ensures ArgsFrom(Intent(target, map[EXTRA_RECIPIENT := Str(recipient),
                                        EXTRA_MEDIA := MediaList(items),
                                        EXTRA_STICKER := Sticker(locator)], None, None))
         == Success(Args(RecipientId.From(recipient), -1, None, Some(items), Some(locator),
                         false, DEFAULT_DISTRIBUTION_TYPE, -1))
  {
  }

  /**
    The pre-check only looks for the key: an envelope whose recipient key holds something other
    than a string passes it, yet decoding fails.
  */
  lemma PreCheckIsPresenceOnly(target: Target, wrong: Int64)
    ensures !IsInvalid(Intent(target, map[EXTRA_RECIPIENT := Long(wrong)], None, None))
    ensures ArgsFrom(Intent(target, map[EXTRA_RECIPIENT := Long(wrong)], None, None)) == Failure(MissingRecipient)
  {
  }

  /** `createBuilder(r, 42).withDraftText("hi").build()`, decoded. */
  method DraftTextScenario(recipientId: RecipientId) returns (args: Result<Args, DecodeError>)
    ensures args == Success(Args(recipientId, 42, Some("hi"), None, None, false, DEFAULT_DISTRIBUTION_TYPE, -1))
  {
    var b := CreateBuilder(recipientId, 42);
    b := b.WithDraftText(Some("hi"));
    var built := b.Build();
    RoundTrip(b.State());
    args := ArgsFrom(built.value);
  }

  /** `createBuilder(r, -1).withMedia([m1, m2]).withStickerLocator(s).build()` throws. */
  method ConflictScenario(recipientId: RecipientId, m1: Media, m2: Media, s: StickerLocator)
    returns (built: Result<Intent, BuildError>)
    ensures built == Failure(ConflictingAttachments)
  {
    var items := new Media[] [m1, m2];
    var b := CreateBuilder(recipientId, -1);
    b := b.WithMedia(items);
    b := b.WithStickerLocator(Some(s));
    built := b.Build();
  }

  /** `createBuilder(r, 1).withDataUri(u).build()`: the data slot carries only the URI. */
  method DataUriOnlyScenario(recipientId: RecipientId, u: Uri) returns (built: Result<Intent, BuildError>)
    ensures built.Success? && built.value.data == Some(u) && built.value.mimeType == None
  {
    var b := CreateBuilder(recipientId, 1);
    b := b.WithDataUri(Some(u));
    built := b.Build();
  }

  /** Changing the caller's collection after `withMedia` does not change what is built. */
  method MediaIsCopiedScenario(recipientId: RecipientId, m1: Media, m2: Media, other: Media)
    returns (built: Result<Intent, BuildError>)
    ensures built.Success? && EXTRA_MEDIA in built.value.extras && built.value.extras[EXTRA_MEDIA] == MediaList([m1, m2])
  {
    var items := new Media[] [m1, m2];
    assert items[..] == [m1, m2];
    var b := CreateBuilder(recipientId, 7);
    b := b.WithMedia(items);
    items[0] := other;
    built := b.Build();
  }
}
