# Conversation launch parameters: builder and decoder

This project models how Signal's conversation screen gets its launch parameters,
`org.thoughtcrime.securesms.conversation.ConversationIntents`. A caller fills a fluent
`Builder` with a recipient, a thread and optional fields: draft text, a media list or a
sticker, the borderless flag, the distribution type, the starting position, and a data URI
and MIME type. `build()` checks that media and a sticker are not both set. It then writes the
fields into a flat envelope (an Android `Intent`): named extras, plus the intent's primary
data slot. On the other side, `isInvalid` checks that the recipient key is present, and
`Args.from` reads every key back, using a default for each key that is absent.

Modules:

- `Wrappers`: `Option` (Java's `null`) and `Result` (the exceptions the core throws).
- `AndroidIntent`: the envelope as a value: the target screen, a `map<string, Value>` of
  extras and the data slot. It also holds the Intent operations the core calls (`putExtra`,
  `setData`, `setType`, `setDataAndType`, the typed getters with defaults) and the opaque
  records `Media`, `StickerLocator`, `Uri` and `RecipientId`.
- `ConversationIntents`: the key schema and `IsInvalid`. `ArgsFrom` models `Args.from`; the
  accessors of the `Args` datatype stand for its getters. `Builder` is a class with the
  source's fields. Each setter method is specified by the pure `Apply`, and `Build` assembles
  the envelope one extra at a time and is proved equal to the declarative `Encode`.
- `ConversationIntentsProofs`: `ApplyAll` folds a chain of setter calls over a builder state.
  This module proves that the outcome depends only on the last write to each field, proves
  the build-then-decode round trip and the decoder's asymmetries, and works through
  example call chains on the class.

## Model

| member | source | states |
|---|---|---|
| `ConversationIntents.IsInvalid` | app/src/main/java/org/thoughtcrime/securesms/conversation/ConversationIntents.java:42-44 | The test is the absence of `recipient_id`; the contract states that an invalid envelope has no recipient string to decode. Its other promises are proved elsewhere: every envelope `Encode` builds is valid, `ArgsFrom` fails on every invalid envelope, and `EmptyEnvelopeRejected` covers the empty envelope |
| `ConversationIntents.ArgsFrom` | app/src/main/java/org/thoughtcrime/securesms/conversation/ConversationIntents.java:56-64 | Decoding fails, with the missing-recipient error, exactly when `recipient_id` does not hold a string; in particular every envelope `IsInvalid` rejects fails. Otherwise the recipient is `RecipientId.From` of the stored string. Each key that holds a value of the expected kind is read back as that value: thread (long), draft text (string), media list, sticker, borderless (boolean), distribution type and starting position (int). Each absent key decodes to its default: thread −1, no draft text, no media, no sticker, not borderless, the default distribution type, starting position −1 |
| `ConversationIntents.Apply` | app/src/main/java/org/thoughtcrime/securesms/conversation/ConversationIntents.java:152-190 | A setter call sets its own field to its argument and leaves every other field, and the target, recipient and thread, unchanged |
| `ConversationIntents.Encode` | app/src/main/java/org/thoughtcrime/securesms/conversation/ConversationIntents.java:192-224 | The build fails, with the conflicting-attachment error, exactly when a sticker and a media list (even an empty one) are both set. On success it writes recipient, thread, distribution type, starting position and borderless with the builder's values; it writes draft text, media and sticker, with their values, exactly when set, and no other key; the data slot holds exactly the URI and MIME type that are set; the envelope passes `IsInvalid` and keeps the target |
| `ConversationIntents.Builder.constructor` | app/src/main/java/org/thoughtcrime/securesms/conversation/ConversationIntents.java:125-150 | A new builder keeps its target, recipient and thread, has no draft text, media, sticker, URI or MIME type, is not borderless, and has the default distribution type and starting position −1 |
| `ConversationIntents.Builder.WithDraftText` | app/src/main/java/org/thoughtcrime/securesms/conversation/ConversationIntents.java:152-155 | Returns the same builder with only the draft text replaced (null allowed) |
| `ConversationIntents.Builder.WithMedia` | app/src/main/java/org/thoughtcrime/securesms/conversation/ConversationIntents.java:157-160 | Returns the same builder with only the media replaced by a copy of the caller's collection, or by null when given null |
| `ConversationIntents.Builder.WithStickerLocator` | app/src/main/java/org/thoughtcrime/securesms/conversation/ConversationIntents.java:162-165 | Returns the same builder with only the sticker replaced |
| `ConversationIntents.Builder.AsBorderless` | app/src/main/java/org/thoughtcrime/securesms/conversation/ConversationIntents.java:167-170 | Returns the same builder with only the borderless flag replaced |
| `ConversationIntents.Builder.WithDistributionType` | app/src/main/java/org/thoughtcrime/securesms/conversation/ConversationIntents.java:172-175 | Returns the same builder with only the distribution type replaced |
| `ConversationIntents.Builder.WithStartingPosition` | app/src/main/java/org/thoughtcrime/securesms/conversation/ConversationIntents.java:177-180 | Returns the same builder with only the starting position replaced |
| `ConversationIntents.Builder.WithDataUri` | app/src/main/java/org/thoughtcrime/securesms/conversation/ConversationIntents.java:182-185 | Returns the same builder with only the data URI replaced |
| `ConversationIntents.Builder.WithDataType` | app/src/main/java/org/thoughtcrime/securesms/conversation/ConversationIntents.java:187-190 | Returns the same builder with only the MIME type replaced |
| `ConversationIntents.Builder.Build` | app/src/main/java/org/thoughtcrime/securesms/conversation/ConversationIntents.java:192-227 | The step-by-step construction (conflict check, the five unconditional extras, the three conditional ones, and the four-way choice of `setDataAndType`/`setData`/`setType`/nothing) produces exactly `Encode` of the builder's current state |
| `ConversationIntents.CreateBuilder` | app/src/main/java/org/thoughtcrime/securesms/conversation/ConversationIntents.java:34-36 | Returns a new builder addressed to the conversation screen, in the fresh state for the given recipient and thread |
| `ConversationIntents.CreatePopUpBuilder` | app/src/main/java/org/thoughtcrime/securesms/conversation/ConversationIntents.java:38-40 | The same, addressed to the pop-up conversation screen; this routing tag is the only difference |
| `ConversationIntentsProofs.ApplyAllField` | app/src/main/java/org/thoughtcrime/securesms/conversation/ConversationIntents.java:152-190 | After any chain of setter calls, each configurable field holds the argument of the last call that wrote it, or its earlier value if no call did |
| `ConversationIntentsProofs.ApplyAllKeepsRequired` | app/src/main/java/org/thoughtcrime/securesms/conversation/ConversationIntents.java:120-123 | No chain of setter calls changes the target, the recipient or the thread |
| `ConversationIntentsProofs.BuildFailsIffLastWritesConflict` | app/src/main/java/org/thoughtcrime/securesms/conversation/ConversationIntents.java:193-195 | After any chain of setter calls, the build fails exactly when the last media write and the last sticker write both left a non-null value; the failure is decided at build time, not when a setter is called |
| `ConversationIntentsProofs.OrderOfSettersIrrelevant` | app/src/main/java/org/thoughtcrime/securesms/conversation/ConversationIntents.java:152-195 | Two chains of setter calls whose last writes agree on every field leave the same builder state and build the same result, whatever order the calls came in |
| `ConversationIntentsProofs.ConflictInEitherOrder` | app/src/main/java/org/thoughtcrime/securesms/conversation/ConversationIntents.java:193 | Media followed by a sticker and a sticker followed by media both fail, even with an empty media list; clearing either one afterwards makes the build succeed |
| `ConversationIntentsProofs.RoundTrip` | app/src/main/java/org/thoughtcrime/securesms/conversation/ConversationIntents.java:200-216 | Decoding a successfully built envelope returns exactly the builder's recipient, thread, draft text, media, sticker, borderless flag, distribution type and starting position |
| `ConversationIntentsProofs.FreshBuilderMatchesDecoderDefaults` | app/src/main/java/org/thoughtcrime/securesms/conversation/ConversationIntents.java:128-130 | A fresh builder always builds, and its envelope decodes exactly like one holding only the recipient and thread: the builder's defaults equal the decoder's |
| `ConversationIntentsProofs.EmptyEnvelopeRejected` | app/src/main/java/org/thoughtcrime/securesms/conversation/ConversationIntents.java:42-44 | An envelope with no extras is invalid, and decoding it anyway fails with the missing-recipient error |
| `ConversationIntentsProofs.PreCheckIsPresenceOnly` | app/src/main/java/org/thoughtcrime/securesms/conversation/ConversationIntents.java:42-44 | The pre-check tests only for the key: a recipient key holding a non-string value passes it, yet decoding fails |
| `ConversationIntentsProofs.DecodeAcceptsBothAttachments` | app/src/main/java/org/thoughtcrime/securesms/conversation/ConversationIntents.java:59-61 | Decoding does not check fields against each other: an envelope carrying both media and a sticker decodes with both, and with defaults for the absent keys |
| `ConversationIntentsProofs.DraftTextScenario` | app/src/main/java/org/thoughtcrime/securesms/conversation/ConversationIntents.java:206-208 | `createBuilder(r, 42).withDraftText("hi").build()` decodes to recipient r, thread 42, draft "hi", and defaults everywhere else |
| `ConversationIntentsProofs.ConflictScenario` | app/src/main/java/org/thoughtcrime/securesms/conversation/ConversationIntents.java:194 | `createBuilder(r, -1).withMedia([m1, m2]).withStickerLocator(s).build()` fails with the conflicting-attachment error |
| `ConversationIntentsProofs.DataUriOnlyScenario` | app/src/main/java/org/thoughtcrime/securesms/conversation/ConversationIntents.java:220-221 | With a URI set and no MIME type, the built envelope's data slot carries only the URI |
| `ConversationIntentsProofs.MediaIsCopiedScenario` | app/src/main/java/org/thoughtcrime/securesms/conversation/ConversationIntents.java:157-158 | Overwriting an element of the caller's media array after `withMedia` does not change the media list that is built |

The conflict check is `stickerLocator != null && media != null`. So a non-null but empty
media list still conflicts with a sticker: the code tests `!= null`, not non-emptiness
(see `ConflictInEitherOrder` with `items == []`).

## Left out

- `Context`, the activity class and `ConversationPopupActivity`: Android routing. They are
  modelled as the two-valued `Target`, which `Build` passes through unchanged.
- `intent.setAction(Intent.ACTION_DEFAULT)`: a framework constant with no logic behind it.
- The internals of `RecipientId.serialize`/`RecipientId.from`: that code is not part of this
  model. `RecipientId` is represented by its serialized string, so the two are inverse by
  construction. The real `from` may reject a malformed string; the model does not capture that.
- The Parcelable serialization of `Media` and `StickerLocator`: both are opaque types passed
  through unchanged.
- The value space of `ThreadDatabase.DistributionTypes`: only `DEFAULT` is kept, as a
  constant whose value is left open, so every property holds whatever that value is.
- Other extras, flags and Intent state that other code may add to an envelope: the model's
  envelope holds only the target, the extras and the data slot.
- The typed getters model Android's behaviour for a wrongly typed extra: it reads as the
  default (or as null). The model does not capture the warning Android logs.
- Sharing of the media list: `build` stores the builder's own `ArrayList` in the envelope
  (line 211), and `Args.getMedia` hands out the list the envelope holds, so in Java one list
  object can be reachable from several places. The model's `seq<Media>` values do not capture
  this sharing. No code in the core updates the list in place, so nothing observable depends on it.
- `Args` getters: they are the accessors of the `Args` datatype, with no separate members.
- `withMedia` takes the caller's collection as a Dafny array (a mutable collection the caller
  keeps) and stores its contents as a sequence. Java's other `Collection` kinds are not
  distinguished.
