/**
  The parameters a conversation screen is launched with, and their marshaling into and out of
  the flat launch envelope: `Builder` accumulates the typed fields and `Build` writes them as
  named extras plus the data slot; `IsInvalid` and `ArgsFrom` read an envelope back.
*/
module ConversationIntents {
  import opened Wrappers
  import opened AndroidIntent

  // The envelope's key schema.
  const EXTRA_RECIPIENT: string         := "recipient_id"
  const EXTRA_THREAD_ID: string         := "thread_id"
  const EXTRA_TEXT: string              := "draft_text"
  const EXTRA_MEDIA: string             := "media_list"
  const EXTRA_STICKER: string           := "sticker_extra"
  const EXTRA_BORDERLESS: string        := "borderless_extra"
  const EXTRA_DISTRIBUTION_TYPE: string := "distribution_type"
  const EXTRA_STARTING_POSITION: string := "starting_position"

  /** The keys every successful build writes. */
  const ALWAYS_WRITTEN: set<string> :=
    {EXTRA_RECIPIENT, EXTRA_THREAD_ID, EXTRA_DISTRIBUTION_TYPE, EXTRA_STARTING_POSITION, EXTRA_BORDERLESS}

  /** The keys a build writes only when the builder's field is set. */
  const WRITTEN_WHEN_SET: set<string> := {EXTRA_TEXT, EXTRA_MEDIA, EXTRA_STICKER}

  /** The thread database's default distribution type; its value is owned by the thread database. */
  const DEFAULT_DISTRIBUTION_TYPE: Int32

  /** The pre-check callers run before decoding: only the presence of the recipient is examined. */
  predicate IsInvalid(intent: Intent)
    ensures IsInvalid(intent) ==> GetStringExtra(intent, EXTRA_RECIPIENT) == None
  {
    !HasExtra(intent, EXTRA_RECIPIENT)
  }

  /** The decoded parameters; the accessors stand for the getters of the source's `Args`. */
  datatype Args = Args(
    recipientId: RecipientId,
    threadId: Int64,
    draftText: Option<string>,
    media: Option<seq<Media>>,
    stickerLocator: Option<StickerLocator>,
    isBorderless: bool,
    distributionType: Int32,
    startingPosition: Int32)

  /** `Objects.requireNonNull` failing on the recipient. */
  datatype DecodeError = MissingRecipient

  /** The `IllegalStateException` thrown when both a sticker and a media list are set. */
  datatype BuildError = ConflictingAttachments

  /** `Args.from`: reads every key back, substituting a default for an absent key. */
  function ArgsFrom(intent: Intent): (r: Result<Args, DecodeError>)
    // the recipient is the only required key; every other key may be missing
    ensures r.Failure? <==> !(EXTRA_RECIPIENT in intent.extras && intent.extras[EXTRA_RECIPIENT].Str?)
    ensures IsInvalid(intent) ==> r.Failure?
    ensures r.Success? ==> RecipientId.From(intent.extras[EXTRA_RECIPIENT].s) == r.value.recipientId
    // absent keys decode to their defaults
    ensures r.Success? && EXTRA_THREAD_ID !in intent.extras ==> r.value.threadId == -1
    ensures r.Success? && EXTRA_TEXT !in intent.extras ==> r.value.draftText == None
    ensures r.Success? && EXTRA_MEDIA !in intent.extras ==> r.value.media == None
    ensures r.Success? && EXTRA_STICKER !in intent.extras ==> r.value.stickerLocator == None
    ensures r.Success? && EXTRA_BORDERLESS !in intent.extras ==> !r.value.isBorderless
    ensures r.Success? && EXTRA_DISTRIBUTION_TYPE !in intent.extras ==>
              r.value.distributionType == DEFAULT_DISTRIBUTION_TYPE
    ensures r.Success? && EXTRA_STARTING_POSITION !in intent.extras ==> r.value.startingPosition == -1
    // present keys holding a value of the expected kind are read back
    ensures r.Success? && EXTRA_THREAD_ID in intent.extras && intent.extras[EXTRA_THREAD_ID].Long? ==>
              r.value.threadId == intent.extras[EXTRA_THREAD_ID].l
    ensures r.Success? && EXTRA_TEXT in intent.extras && intent.extras[EXTRA_TEXT].Str? ==>
              r.value.draftText == Some(intent.extras[EXTRA_TEXT].s)
    ensures r.Success? && EXTRA_MEDIA in intent.extras && intent.extras[EXTRA_MEDIA].MediaList? ==>
              r.value.media == Some(intent.extras[EXTRA_MEDIA].items)
    ensures r.Success? && EXTRA_STICKER in intent.extras && intent.extras[EXTRA_STICKER].Sticker? ==>
              r.value.stickerLocator == Some(intent.extras[EXTRA_STICKER].locator)
    ensures r.Success? && EXTRA_BORDERLESS in intent.extras && intent.extras[EXTRA_BORDERLESS].Bool? ==>
              r.value.isBorderless == intent.extras[EXTRA_BORDERLESS].b
    ensures r.Success? && EXTRA_DISTRIBUTION_TYPE in intent.extras && intent.extras[EXTRA_DISTRIBUTION_TYPE].Int? ==>
              r.value.distributionType == intent.extras[EXTRA_DISTRIBUTION_TYPE].i
    ensures r.Success? && EXTRA_STARTING_POSITION in intent.extras && intent.extras[EXTRA_STARTING_POSITION].Int? ==>
              r.value.startingPosition == intent.extras[EXTRA_STARTING_POSITION].i
  {
    match GetStringExtra(intent, EXTRA_RECIPIENT)
    case None => Failure(MissingRecipient)
    case Some(serialized) =>
      Success(Args(RecipientId.From(serialized),
                   GetLongExtra(intent, EXTRA_THREAD_ID, -1),
                   GetStringExtra(intent, EXTRA_TEXT),
                   GetParcelableArrayListExtra(intent, EXTRA_MEDIA),
                   GetParcelableExtra(intent, EXTRA_STICKER),
                   GetBooleanExtra(intent, EXTRA_BORDERLESS, false),
                   GetIntExtra(intent, EXTRA_DISTRIBUTION_TYPE, DEFAULT_DISTRIBUTION_TYPE),
                   GetIntExtra(intent, EXTRA_STARTING_POSITION, -1)))
  }

  /** The state of a builder: its fixed target, recipient and thread, and its configurable fields. */
  datatype Config = Config(
    target: Target,
    recipientId: RecipientId,
    threadId: Int64,
    draftText: Option<string>,
    media: Option<seq<Media>>,
    stickerLocator: Option<StickerLocator>,
    isBorderless: bool,
    distributionType: Int32,
    startingPosition: Int32,
    dataUri: Option<Uri>,
    dataType: Option<string>)

  /** The state of a builder straight after construction. */
  function Fresh(target: Target, recipientId: RecipientId, threadId: Int64): Config {
    Config(target, recipientId, threadId, None, None, None, false, DEFAULT_DISTRIBUTION_TYPE, -1, None, None)
  }

  /** A call of one of the builder's setters, with its argument. */
  datatype Setter =
    | SetDraftText(text: Option<string>)
    | SetMedia(items: Option<seq<Media>>)
    | SetStickerLocator(locator: Option<StickerLocator>)
    | SetBorderless(flag: bool)
    | SetDistributionType(kind: Int32)
    | SetStartingPosition(position: Int32)
    | SetDataUri(uri: Option<Uri>)
    | SetDataType(mime: Option<string>)

  /** The configurable fields of a builder. */
  datatype Field =
    DraftTextField | MediaField | StickerField | BorderlessField
    | DistributionTypeField | StartingPositionField | DataUriField | DataTypeField

  /** The field a setter writes. */
  function FieldOf(s: Setter): Field {
    match s
    case SetDraftText(_) => DraftTextField
    case SetMedia(_) => MediaField
    case SetStickerLocator(_) => StickerField
    case SetBorderless(_) => BorderlessField
    case SetDistributionType(_) => DistributionTypeField
    case SetStartingPosition(_) => StartingPositionField
    case SetDataUri(_) => DataUriField
    case SetDataType(_) => DataTypeField
  }

  /** The current value of one field of `c`, given as the setter call that would write it. */
  function Project(c: Config, f: Field): (s: Setter)
    ensures FieldOf(s) == f
  {
    match f
    case DraftTextField => SetDraftText(c.draftText)
    case MediaField => SetMedia(c.media)
    case StickerField => SetStickerLocator(c.stickerLocator)
    case BorderlessField => SetBorderless(c.isBorderless)
    case DistributionTypeField => SetDistributionType(c.distributionType)
    case StartingPositionField => SetStartingPosition(c.startingPosition)
    case DataUriField => SetDataUri(c.dataUri)
    case DataTypeField => SetDataType(c.dataType)
  }

  /** The effect of one setter call: it overwrites its own field and nothing else. */
  function Apply(c: Config, s: Setter): (r: Config)
    ensures r.target == c.target && r.recipientId == c.recipientId && r.threadId == c.threadId
    ensures Project(r, FieldOf(s)) == s
    ensures forall f :: f != FieldOf(s) ==> Project(r, f) == Project(c, f)
  {
    match s
    case SetDraftText(text) => c.(draftText := text)
    case SetMedia(items) => c.(media := items)
    case SetStickerLocator(locator) => c.(stickerLocator := locator)
    case SetBorderless(flag) => c.(isBorderless := flag)
    case SetDistributionType(kind) => c.(distributionType := kind)
    case SetStartingPosition(position) => c.(startingPosition := position)
    case SetDataUri(uri) => c.(dataUri := uri)
    case SetDataType(mime) => c.(dataType := mime)
  }

  /** The extras written unconditionally. */
  function RequiredExtras(c: Config): map<string, Value> {
    map[EXTRA_RECIPIENT := Str(c.recipientId.Serialize()),
        EXTRA_THREAD_ID := Long(c.threadId),
        EXTRA_DISTRIBUTION_TYPE := Int(c.distributionType),
        EXTRA_STARTING_POSITION := Int(c.startingPosition),
        EXTRA_BORDERLESS := Bool(c.isBorderless)]
  }

  /** The extras written only for the fields that are set. */
  function OptionalExtras(c: Config): map<string, Value> {
    (if c.draftText.Some? then map[EXTRA_TEXT := Str(c.draftText.value)] else map[]) +
    (if c.media.Some? then map[EXTRA_MEDIA := MediaList(c.media.value)] else map[]) +
    (if c.stickerLocator.Some? then map[EXTRA_STICKER := Sticker(c.stickerLocator.value)] else map[])
  }

  /** What building from state `c` produces: the envelope, or the conflicting-attachment error. */
  function Encode(c: Config): (r: Result<Intent, BuildError>)
    // the conflict is exactly a set sticker together with a set (possibly empty) media list
    ensures r.Failure? <==> c.stickerLocator.Some? && c.media.Some?
    ensures r.Success? ==> r.value.target == c.target && !IsInvalid(r.value)
    // the defaulted fields are always written, with the builder's values
    ensures r.Success? ==> ALWAYS_WRITTEN <= r.value.extras.Keys
    ensures r.Success? ==> r.value.extras[EXTRA_RECIPIENT] == Str(c.recipientId.Serialize())
    ensures r.Success? ==> r.value.extras[EXTRA_THREAD_ID] == Long(c.threadId)
    ensures r.Success? ==> r.value.extras[EXTRA_DISTRIBUTION_TYPE] == Int(c.distributionType)
    ensures r.Success? ==> r.value.extras[EXTRA_STARTING_POSITION] == Int(c.startingPosition)
    ensures r.Success? ==> r.value.extras[EXTRA_BORDERLESS] == Bool(c.isBorderless)
    // the nullable fields are written exactly when they are set; absence means "not set"
    ensures r.Success? ==> (EXTRA_TEXT in r.value.extras <==> c.draftText.Some?)
    ensures r.Success? && c.draftText.Some? ==> r.value.extras[EXTRA_TEXT] == Str(c.draftText.value)
    ensures r.Success? ==> (EXTRA_MEDIA in r.value.extras <==> c.media.Some?)
    ensures r.Success? && c.media.Some? ==> r.value.extras[EXTRA_MEDIA] == MediaList(c.media.value)
    ensures r.Success? ==> (EXTRA_STICKER in r.value.extras <==> c.stickerLocator.Some?)
    ensures r.Success? && c.stickerLocator.Some? ==>
              r.value.extras[EXTRA_STICKER] == Sticker(c.stickerLocator.value)
    // no other key is written
    ensures r.Success? ==> r.value.extras.Keys <= ALWAYS_WRITTEN + WRITTEN_WHEN_SET
    // the data slot carries whichever of the URI and the MIME type are set
    ensures r.Success? ==> r.value.data == c.dataUri && r.value.mimeType == c.dataType
  {
    if c.stickerLocator.Some? && c.media.Some? then
      Failure(ConflictingAttachments)
    else
      Success(Intent(c.target, RequiredExtras(c) + OptionalExtras(c), c.dataUri, c.dataType))
  }

  /** The fluent builder. */
  class Builder {
    const target: Target
    const recipientId: RecipientId
    const threadId: Int64

    var draftText: Option<string>
    var media: Option<seq<Media>>
    var stickerLocator: Option<StickerLocator>
    var isBorderless: bool
    var distributionType: Int32
    var startingPosition: Int32
    var dataUri: Option<Uri>
    var dataType: Option<string>

    function State(): Config
      reads this
    {
      Config(target, recipientId, threadId, draftText, media, stickerLocator,
             isBorderless, distributionType, startingPosition, dataUri, dataType)
    }

    constructor (target: Target, recipientId: RecipientId, threadId: Int64)
      ensures State() == Fresh(target, recipientId, threadId)
    {
      this.target := target;
      this.recipientId := recipientId;
      this.threadId := threadId;
      draftText := None;
      media := None;
      stickerLocator := None;
      isBorderless := false;
      distributionType := DEFAULT_DISTRIBUTION_TYPE;
      startingPosition := -1;
      dataUri := None;
      dataType := None;
    }

    method WithDraftText(text: Option<string>) returns (b: Builder)
      modifies this
      ensures b == this && State() == Apply(old(State()), SetDraftText(text))
    {
      draftText := text;
      b := this;
    }

    /** Stores a copy of the caller's collection, so later changes to it do not reach the builder. */
    method WithMedia(items: array?<Media>) returns (b: Builder)
      modifies this
      ensures b == this
      ensures State() == Apply(old(State()), SetMedia(if items == null then None else Some(items[..])))
    {
      media := if items != null then Some(items[..]) else None;
      b := this;
    }

    method WithStickerLocator(locator: Option<StickerLocator>) returns (b: Builder)
      modifies this
      ensures b == this && State() == Apply(old(State()), SetStickerLocator(locator))
    {
      stickerLocator := locator;
      b := this;
    }

    method AsBorderless(flag: bool) returns (b: Builder)
      modifies this
      ensures b == this && State() == Apply(old(State()), SetBorderless(flag))
    {
      isBorderless := flag;
      b := this;
    }

    method WithDistributionType(kind: Int32) returns (b: Builder)
      modifies this
      ensures b == this && State() == Apply(old(State()), SetDistributionType(kind))
    {
      distributionType := kind;
      b := this;
    }

    method WithStartingPosition(position: Int32) returns (b: Builder)
      modifies this
      ensures b == this && State() == Apply(old(State()), SetStartingPosition(position))
    {
      startingPosition := position;
      b := this;
    }

    method WithDataUri(uri: Option<Uri>) returns (b: Builder)
      modifies this
      ensures b == this && State() == Apply(old(State()), SetDataUri(uri))
    {
      dataUri := uri;
      b := this;
    }

    method WithDataType(mime: Option<string>) returns (b: Builder)
      modifies this
      ensures b == this && State() == Apply(old(State()), SetDataType(mime))
    {
      dataType := mime;
      b := this;
    }

    /** Validates the attachments, then writes the envelope one extra at a time. */
    method Build() returns (r: Result<Intent, BuildError>)
      ensures r == Encode(State())
    {
      if stickerLocator.Some? && media.Some? {
        return Failure(ConflictingAttachments);
      }

      var intent := NewIntent(target);
      intent := PutExtra(intent, EXTRA_RECIPIENT, Str(recipientId.Serialize()));
      intent := PutExtra(intent, EXTRA_THREAD_ID, Long(threadId));
      intent := PutExtra(intent, EXTRA_DISTRIBUTION_TYPE, Int(distributionType));
      intent := PutExtra(intent, EXTRA_STARTING_POSITION, Int(startingPosition));
      intent := PutExtra(intent, EXTRA_BORDERLESS, Bool(isBorderless));
      assert intent.extras == RequiredExtras(State());

      if draftText.Some? {
        intent := PutExtra(intent, EXTRA_TEXT, Str(draftText.value));
      }
      if media.Some? {
        intent := PutExtra(intent, EXTRA_MEDIA, MediaList(media.value));
      }
      if stickerLocator.Some? {
        intent := PutExtra(intent, EXTRA_STICKER, Sticker(stickerLocator.value));
      }
      assert intent.extras == RequiredExtras(State()) + OptionalExtras(State());

      if dataUri.Some? && dataType.Some? {
        intent := SetDataAndType(intent, dataUri.value, dataType.value);
      } else if dataUri.Some? {
        intent := SetData(intent, dataUri.value);
      } else if dataType.Some? {
        intent := SetType(intent, dataType.value);
      }
      return Success(intent);
    }
  }

  /** `createBuilder`: a builder addressed to the conversation screen. */
  method CreateBuilder(recipientId: RecipientId, threadId: Int64) returns (b: Builder)
    ensures fresh(b) && b.State() == Fresh(ConversationActivity, recipientId, threadId)
  {
    b := new Builder(ConversationActivity, recipientId, threadId);
  }

  /** `createPopUpBuilder`: the same builder, addressed to the pop-up conversation screen. */
  method CreatePopUpBuilder(recipientId: RecipientId, threadId: Int64) returns (b: Builder)
    ensures fresh(b) && b.State() == Fresh(ConversationPopupActivity, recipientId, threadId)
  {
    b := new Builder(ConversationPopupActivity, recipientId, threadId);
  }
}
