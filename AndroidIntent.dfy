/**
  The flat, loosely typed envelope the conversation screen is launched with (an Android `Intent`),
  reduced to what the conversation core uses: a map of named extras, the primary data slot
  (a URI and a MIME type) and the screen the envelope is addressed to.
*/
module AndroidIntent {
  import opened Wrappers

  /** Java's `long` and `int`. */
  newtype Int64 = x: int | -0x8000_0000_0000_0000 <= x < 0x8000_0000_0000_0000
  newtype Int32 = x: int | -0x8000_0000 <= x < 0x8000_0000

  /** Opaque records passed through without being interpreted. */
  type Media(==)
  type StickerLocator(==)
  type Uri(==)

  /**
    A recipient identifier, represented by its serialized form, so that
    `From(Serialize())` gives back the same identifier.
  */
  datatype RecipientId = RecipientId(serialized: string) {
    function Serialize(): string { serialized }
    static function From(s: string): RecipientId { RecipientId(s) }
  }

  /** The screen an envelope is addressed to (the activity class the builder was given). */
  datatype Target = ConversationActivity | ConversationPopupActivity

  /** The kinds of value the core stores as extras. */
  datatype Value =
    | Str(s: string)
    | Long(l: Int64)
    | Int(i: Int32)
    | Bool(b: bool)
    | MediaList(items: seq<Media>)
    | Sticker(locator: StickerLocator)

  datatype Intent = Intent(target: Target, extras: map<string, Value>, data: Option<Uri>, mimeType: Option<string>)

  /** `new Intent(context, target)`: no extras and an empty data slot. */
  function NewIntent(target: Target): Intent {
    Intent(target, map[], None, None)
  }

  /** `putExtra` / `putParcelableArrayListExtra`: adds or replaces one extra. */
  function PutExtra(intent: Intent, key: string, v: Value): Intent {
    intent.(extras := intent.extras[key := v])
  }

  /** `setDataAndType`: fills both halves of the data slot. */
  function SetDataAndType(intent: Intent, uri: Uri, mime: string): Intent {
    intent.(data := Some(uri), mimeType := Some(mime))
  }

  /** `setData`: sets the URI and clears the MIME type. */
  function SetData(intent: Intent, uri: Uri): Intent {
    intent.(data := Some(uri), mimeType := None)
  }

  /** `setType`: sets the MIME type and clears the URI. */
  function SetType(intent: Intent, mime: string): Intent {
    intent.(data := None, mimeType := Some(mime))
  }

  predicate HasExtra(intent: Intent, key: string) {
    key in intent.extras
  }

  // The typed getters. As with Android's extras, a key that is absent or that holds a value
  // of another kind reads as the default (or as null for the reference-typed getters).

  function GetStringExtra(intent: Intent, key: string): Option<string> {
    if key in intent.extras && intent.extras[key].Str? then Some(intent.extras[key].s) else None
  }

  function GetLongExtra(intent: Intent, key: string, default: Int64): Int64 {
    if key in intent.extras && intent.extras[key].Long? then intent.extras[key].l else default
  }

  function GetIntExtra(intent: Intent, key: string, default: Int32): Int32 {
    if key in intent.extras && intent.extras[key].Int? then intent.extras[key].i else default
  }

  function GetBooleanExtra(intent: Intent, key: string, default: bool): bool {
    if key in intent.extras && intent.extras[key].Bool? then intent.extras[key].b else default
  }

  function GetParcelableArrayListExtra(intent: Intent, key: string): Option<seq<Media>> {
    if key in intent.extras && intent.extras[key].MediaList? then Some(intent.extras[key].items) else None
  }

  function GetParcelableExtra(intent: Intent, key: string): Option<StickerLocator> {
    if key in intent.extras && intent.extras[key].Sticker? then Some(intent.extras[key].locator) else None
  }
}
