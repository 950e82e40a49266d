/** The policy a profile carries and what profiles add up to. A profile names some of the leaves of
    some forty options, laid out in sections; what is in force has a value for each. Laying a profile
    over what is in force, filling one profile from another and listing what a profile leaves open
    each go through the leaves one by one, and have to go through all of them. */
module Policy {
  import opened Json

  // ---- sections ----

  /** One of an enumeration's values, by its name. */
  type Choice = string

  /** The content view results are shown in, if any. */
  datatype View = NoView | ViewId(id: string)

  datatype LimitsOverlay = LimitsOverlay(maxSourceBytes: Option<nat>, maxDuration: Option<Option<nat>>,
    maxHeight: Option<nat>, maxCapture: Option<nat>)

  datatype PlaylistsOverlay = PlaylistsOverlay(enabled: Option<bool>, maxEntries: Option<nat>)

  datatype IntakeOverlay = IntakeOverlay(allowUsers: Option<seq<string>>, allowRoles: Option<seq<string>>,
    botMessages: Option<Choice>, playlists: PlaylistsOverlay, live: Option<bool>)

  datatype OutputOverlay = OutputOverlay(container: Option<Choice>, videoCodec: Option<Choice>,
    audioCodec: Option<Choice>, maxHeight: Option<nat>, maxFps: Option<nat>, audioOverStill: Option<bool>,
    audioContainers: Option<seq<Choice>>, imageContainers: Option<seq<Choice>>, files: Option<Choice>)

  datatype UploadOverlay = UploadOverlay(maxBytes: Option<Choice>)

  datatype FloorOverlay = FloorOverlay(minHeight: Option<nat>, minBitrate: Option<nat>)

  datatype DeliveryOverlay = DeliveryOverlay(mode: Option<Choice>, view: Option<View>, floor: FloorOverlay,
    underFloor: Option<Choice>, overLimit: Option<Choice>, linkMaxBytes: Option<nat>)

  datatype PartsOverlay = PartsOverlay(sourceLink: Option<bool>, title: Option<bool>, platform: Option<bool>,
    uploader: Option<bool>, requester: Option<Choice>, duration: Option<bool>, brand: Option<bool>,
    earlierPost: Option<bool>)

  datatype MessageOverlay = MessageOverlay(destination: Option<Option<string>>, placement: Option<Choice>,
    replaceAs: Option<Choice>, originalText: Option<Choice>, originalEmbeds: Option<Choice>,
    permissions: Option<Choice>, parts: PartsOverlay)

  datatype ErrorsOverlay = ErrorsOverlay(debug: Option<bool>)

  datatype DedupeOverlay = DedupeOverlay(enabled: Option<bool>, matching: Option<Choice>)

  /** The options a profile names; every leaf may be left to wider scopes. */
  datatype Sections = Sections(limits: LimitsOverlay, intake: IntakeOverlay, output: OutputOverlay,
    upload: UploadOverlay, delivery: DeliveryOverlay, message: MessageOverlay, errors: ErrorsOverlay,
    dedupe: DedupeOverlay)

  datatype LimitsInForce = LimitsInForce(maxSourceBytes: nat, maxDuration: Option<nat>, maxHeight: nat,
    maxCapture: nat)

  datatype PlaylistsInForce = PlaylistsInForce(enabled: bool, maxEntries: nat)

  datatype IntakeInForce = IntakeInForce(allowUsers: seq<string>, allowRoles: seq<string>, botMessages: Choice,
    playlists: PlaylistsInForce, live: bool)

  datatype OutputInForce = OutputInForce(container: Choice, videoCodec: Choice, audioCodec: Choice,
    maxHeight: Option<nat>, maxFps: Option<nat>, audioOverStill: bool, audioContainers: seq<Choice>,
    imageContainers: seq<Choice>, files: Choice)

  datatype UploadInForce = UploadInForce(maxBytes: Choice)

  datatype FloorInForce = FloorInForce(minHeight: nat, minBitrate: nat)

  datatype DeliveryInForce = DeliveryInForce(mode: Choice, view: View, floor: FloorInForce, underFloor: Choice,
    overLimit: Choice, linkMaxBytes: nat)

  datatype PartsInForce = PartsInForce(sourceLink: bool, title: bool, platform: bool, uploader: bool,
    requester: Choice, duration: bool, brand: bool, earlierPost: bool)

  datatype MessageInForce = MessageInForce(destination: Option<string>, placement: Choice, replaceAs: Choice,
    originalText: Choice, originalEmbeds: Choice, permissions: Choice, parts: PartsInForce)

  datatype ErrorsInForce = ErrorsInForce(debug: bool)

  datatype DedupeInForce = DedupeInForce(enabled: bool, matching: Choice)

  /** The options in force, every leaf settled; two output bounds may be settled as open. */
  datatype Options = Options(limits: LimitsInForce, intake: IntakeInForce, output: OutputInForce,
    upload: UploadInForce, delivery: DeliveryInForce, message: MessageInForce, errors: ErrorsInForce,
    dedupe: DedupeInForce)

  /** A profile's sections with no leaf named. */
  const UNNAMED := Sections(
    LimitsOverlay(None, None, None, None),
    IntakeOverlay(None, None, None, PlaylistsOverlay(None, None), None),
    OutputOverlay(None, None, None, None, None, None, None, None, None),
    UploadOverlay(None),
    DeliveryOverlay(None, None, FloorOverlay(None, None), None, None, None),
    MessageOverlay(None, None, None, None, None, None, PartsOverlay(None, None, None, None, None, None, None, None)),
    ErrorsOverlay(None),
    DedupeOverlay(None, None))

  // ---- laying, filling, listing what is open ----

  /** What a leaf comes to: what is named, else what was in force. */
  function Over<T>(named: Option<T>, under: T): T {
    if named.Some? then named.value else under
  }

  function Or<T>(a: Option<T>, b: Option<T>): Option<T> {
    if a.Some? then a else b
  }

  function ApplyLimits(s: LimitsOverlay, u: LimitsInForce): LimitsInForce {
    LimitsInForce(Over(s.maxSourceBytes, u.maxSourceBytes), Over(s.maxDuration, u.maxDuration),
      Over(s.maxHeight, u.maxHeight), Over(s.maxCapture, u.maxCapture))
  }

  function ApplyPlaylists(s: PlaylistsOverlay, u: PlaylistsInForce): PlaylistsInForce {
    PlaylistsInForce(Over(s.enabled, u.enabled), Over(s.maxEntries, u.maxEntries))
  }

  function ApplyIntake(s: IntakeOverlay, u: IntakeInForce): IntakeInForce {
    IntakeInForce(Over(s.allowUsers, u.allowUsers), Over(s.allowRoles, u.allowRoles),
      Over(s.botMessages, u.botMessages), ApplyPlaylists(s.playlists, u.playlists), Over(s.live, u.live))
  }

  function ApplyOutput(s: OutputOverlay, u: OutputInForce): OutputInForce {
    OutputInForce(Over(s.container, u.container), Over(s.videoCodec, u.videoCodec),
      Over(s.audioCodec, u.audioCodec), Or(s.maxHeight, u.maxHeight), Or(s.maxFps, u.maxFps),
      Over(s.audioOverStill, u.audioOverStill), Over(s.audioContainers, u.audioContainers),
      Over(s.imageContainers, u.imageContainers), Over(s.files, u.files))
  }

  function ApplyUpload(s: UploadOverlay, u: UploadInForce): UploadInForce {
    UploadInForce(Over(s.maxBytes, u.maxBytes))
  }

  function ApplyFloor(s: FloorOverlay, u: FloorInForce): FloorInForce {
    FloorInForce(Over(s.minHeight, u.minHeight), Over(s.minBitrate, u.minBitrate))
  }

  function ApplyDelivery(s: DeliveryOverlay, u: DeliveryInForce): DeliveryInForce {
    DeliveryInForce(Over(s.mode, u.mode), Over(s.view, u.view), ApplyFloor(s.floor, u.floor),
      Over(s.underFloor, u.underFloor), Over(s.overLimit, u.overLimit), Over(s.linkMaxBytes, u.linkMaxBytes))
  }

  function ApplyParts(s: PartsOverlay, u: PartsInForce): PartsInForce {
    PartsInForce(Over(s.sourceLink, u.sourceLink), Over(s.title, u.title), Over(s.platform, u.platform),
      Over(s.uploader, u.uploader), Over(s.requester, u.requester), Over(s.duration, u.duration),
      Over(s.brand, u.brand), Over(s.earlierPost, u.earlierPost))
  }

  function ApplyMessage(s: MessageOverlay, u: MessageInForce): MessageInForce {
    MessageInForce(Over(s.destination, u.destination), Over(s.placement, u.placement),
      Over(s.replaceAs, u.replaceAs), Over(s.originalText, u.originalText),
      Over(s.originalEmbeds, u.originalEmbeds), Over(s.permissions, u.permissions),
      ApplyParts(s.parts, u.parts))
  }

  function ApplyErrors(s: ErrorsOverlay, u: ErrorsInForce): ErrorsInForce {
    ErrorsInForce(Over(s.debug, u.debug))
  }

  function ApplyDedupe(s: DedupeOverlay, u: DedupeInForce): DedupeInForce {
    DedupeInForce(Over(s.enabled, u.enabled), Over(s.matching, u.matching))
  }

  /** Everything a profile names laid over what is in force. */
  function ApplyTo(s: Sections, u: Options): Options {
    Options(
      ApplyLimits(s.limits, u.limits),
      ApplyIntake(s.intake, u.intake),
      ApplyOutput(s.output, u.output),
      ApplyUpload(s.upload, u.upload),
      ApplyDelivery(s.delivery, u.delivery),
      ApplyMessage(s.message, u.message),
      ApplyErrors(s.errors, u.errors),
      ApplyDedupe(s.dedupe, u.dedupe))
  }

  function FillLimits(s: LimitsOverlay, b: LimitsOverlay): LimitsOverlay {
    LimitsOverlay(Or(s.maxSourceBytes, b.maxSourceBytes), Or(s.maxDuration, b.maxDuration),
      Or(s.maxHeight, b.maxHeight), Or(s.maxCapture, b.maxCapture))
  }

  function FillPlaylists(s: PlaylistsOverlay, b: PlaylistsOverlay): PlaylistsOverlay {
    PlaylistsOverlay(Or(s.enabled, b.enabled), Or(s.maxEntries, b.maxEntries))
  }

  function FillIntake(s: IntakeOverlay, b: IntakeOverlay): IntakeOverlay {
    IntakeOverlay(Or(s.allowUsers, b.allowUsers), Or(s.allowRoles, b.allowRoles),
      Or(s.botMessages, b.botMessages), FillPlaylists(s.playlists, b.playlists), Or(s.live, b.live))
  }

  function FillOutput(s: OutputOverlay, b: OutputOverlay): OutputOverlay {
    OutputOverlay(Or(s.container, b.container), Or(s.videoCodec, b.videoCodec), Or(s.audioCodec, b.audioCodec),
      Or(s.maxHeight, b.maxHeight), Or(s.maxFps, b.maxFps), Or(s.audioOverStill, b.audioOverStill),
      Or(s.audioContainers, b.audioContainers), Or(s.imageContainers, b.imageContainers), Or(s.files, b.files))
  }

  function FillUpload(s: UploadOverlay, b: UploadOverlay): UploadOverlay {
    UploadOverlay(Or(s.maxBytes, b.maxBytes))
  }

  function FillFloor(s: FloorOverlay, b: FloorOverlay): FloorOverlay {
    FloorOverlay(Or(s.minHeight, b.minHeight), Or(s.minBitrate, b.minBitrate))
  }

  function FillDelivery(s: DeliveryOverlay, b: DeliveryOverlay): DeliveryOverlay {
    DeliveryOverlay(Or(s.mode, b.mode), Or(s.view, b.view), FillFloor(s.floor, b.floor),
      Or(s.underFloor, b.underFloor), Or(s.overLimit, b.overLimit), Or(s.linkMaxBytes, b.linkMaxBytes))
  }

  function FillParts(s: PartsOverlay, b: PartsOverlay): PartsOverlay {
    PartsOverlay(Or(s.sourceLink, b.sourceLink), Or(s.title, b.title), Or(s.platform, b.platform),
      Or(s.uploader, b.uploader), Or(s.requester, b.requester), Or(s.duration, b.duration),
      Or(s.brand, b.brand), Or(s.earlierPost, b.earlierPost))
  }

  function FillMessage(s: MessageOverlay, b: MessageOverlay): MessageOverlay {
    MessageOverlay(Or(s.destination, b.destination), Or(s.placement, b.placement), Or(s.replaceAs, b.replaceAs),
      Or(s.originalText, b.originalText), Or(s.originalEmbeds, b.originalEmbeds),
      Or(s.permissions, b.permissions), FillParts(s.parts, b.parts))
  }

  function FillErrors(s: ErrorsOverlay, b: ErrorsOverlay): ErrorsOverlay {
    ErrorsOverlay(Or(s.debug, b.debug))
  }

  function FillDedupe(s: DedupeOverlay, b: DedupeOverlay): DedupeOverlay {
    DedupeOverlay(Or(s.enabled, b.enabled), Or(s.matching, b.matching))
  }

  /** `s`, and `b` where `s` names nothing. */
  function FilledFrom(s: Sections, b: Sections): Sections {
    Sections(
      FillLimits(s.limits, b.limits),
      FillIntake(s.intake, b.intake),
      FillOutput(s.output, b.output),
      FillUpload(s.upload, b.upload),
      FillDelivery(s.delivery, b.delivery),
      FillMessage(s.message, b.message),
      FillErrors(s.errors, b.errors),
      FillDedupe(s.dedupe, b.dedupe))
  }

  function Need(named: bool, path: string): seq<string> {
    if named then [] else [path]
  }

  function MissingLimits(s: LimitsOverlay): seq<string> {
    Need(s.maxSourceBytes.Some?, "limits.max_source_bytes")
    + Need(s.maxDuration.Some?, "limits.max_duration_secs")
    + Need(s.maxHeight.Some?, "limits.max_height")
    + Need(s.maxCapture.Some?, "limits.max_capture_secs")
  }

  function MissingIntake(s: IntakeOverlay): seq<string> {
    Need(s.allowUsers.Some?, "intake.allow_users")
    + Need(s.allowRoles.Some?, "intake.allow_roles")
    + Need(s.botMessages.Some?, "intake.bot_messages")
    + Need(s.playlists.enabled.Some?, "intake.playlists.enabled")
    + Need(s.playlists.maxEntries.Some?, "intake.playlists.max_entries")
    + Need(s.live.Some?, "intake.live")
  }

  function MissingOutput(s: OutputOverlay): seq<string> {
    Need(s.container.Some?, "output.container")
    + Need(s.videoCodec.Some?, "output.video_codec")
    + Need(s.audioCodec.Some?, "output.audio_codec")
    + Need(s.audioOverStill.Some?, "output.audio_over_still")
    + Need(s.audioContainers.Some?, "output.audio_containers")
    + Need(s.imageContainers.Some?, "output.image_containers")
    + Need(s.files.Some?, "output.files")
  }

  function MissingUpload(s: UploadOverlay): seq<string> {
    Need(s.maxBytes.Some?, "upload.max_bytes")
  }

  function MissingDelivery(s: DeliveryOverlay): seq<string> {
    Need(s.mode.Some?, "delivery.mode")
    + Need(s.view.Some?, "delivery.view")
    + Need(s.floor.minHeight.Some?, "delivery.floor.min_height")
    + Need(s.floor.minBitrate.Some?, "delivery.floor.min_bitrate")
    + Need(s.underFloor.Some?, "delivery.under_floor")
    + Need(s.overLimit.Some?, "delivery.over_limit")
    + Need(s.linkMaxBytes.Some?, "delivery.link_max_bytes")
  }

  function MissingMessage(s: MessageOverlay): seq<string> {
    Need(s.destination.Some?, "message.destination")
    + Need(s.placement.Some?, "message.placement")
    + Need(s.replaceAs.Some?, "message.replace_as")
    + Need(s.originalText.Some?, "message.original_text")
    + Need(s.originalEmbeds.Some?, "message.original_embeds")
    + Need(s.permissions.Some?, "message.permissions")
    + Need(s.parts.sourceLink.Some?, "message.include.source_link")
    + Need(s.parts.title.Some?, "message.include.title")
    + Need(s.parts.platform.Some?, "message.include.platform")
    + Need(s.parts.uploader.Some?, "message.include.uploader")
    + Need(s.parts.requester.Some?, "message.include.requester")
    + Need(s.parts.duration.Some?, "message.include.duration")
    + Need(s.parts.brand.Some?, "message.include.brand")
    + Need(s.parts.earlierPost.Some?, "message.include.earlier_post")
  }

  function MissingErrors(s: ErrorsOverlay): seq<string> {
    Need(s.debug.Some?, "errors.debug")
  }

  function MissingDedupe(s: DedupeOverlay): seq<string> {
    Need(s.enabled.Some?, "dedupe.enabled")
    + Need(s.matching.Some?, "dedupe.match")
  }

  /** The leaves a profile would have to name to be complete, as the app calls them. */
  function Missing(s: Sections): seq<string> {
    MissingLimits(s.limits)
    + MissingIntake(s.intake)
    + MissingOutput(s.output)
    + MissingUpload(s.upload)
    + MissingDelivery(s.delivery)
    + MissingMessage(s.message)
    + MissingErrors(s.errors)
    + MissingDedupe(s.dedupe)
  }

  // ---- leaf by leaf ----

  datatype Section = Limits | Intake | Output | Upload | Delivery | Message | Errors | Dedupe

  /** Every leaf of every section. */
  datatype Leaf =
    | MaxSourceBytes | MaxDuration | MaxHeight | MaxCapture
    | AllowUsers | AllowRoles | BotMessages | PlaylistsEnabled | PlaylistsMax | Live
    | Container | VideoCodec | AudioCodec | OutputHeight | OutputFps | AudioOverStill | AudioContainers
    | ImageContainers | OutputFiles
    | UploadMax
    | DeliveryMode | DeliveryView | FloorHeight | FloorBitrate | UnderFloor | OverLimit | LinkMax
    | Destination | Placement | ReplaceAs | OriginalText | OriginalEmbeds | Permissions | SourceLink
    | Title | Platform | Uploader | Requester | Duration | Brand | EarlierPost
    | Debug
    | DedupeEnabled | DedupeMatch

  /** What a leaf may be set to. */
  datatype Setting =
    | Flag(on: bool)
    | Amount(n: nat)
    | Bound(bound: Option<nat>)
    | Word(word: Choice)
    | Words(words: seq<string>)
    | Target(channel: Option<string>)
    | Shown(view: View)

  function SectionOf(l: Leaf): Section {
    match l
    case MaxSourceBytes | MaxDuration | MaxHeight | MaxCapture => Limits
    case AllowUsers | AllowRoles | BotMessages | PlaylistsEnabled | PlaylistsMax | Live => Intake
    case Container | VideoCodec | AudioCodec | OutputHeight | OutputFps | AudioOverStill
       | AudioContainers | ImageContainers | OutputFiles => Output
    case UploadMax => Upload
    case DeliveryMode | DeliveryView | FloorHeight | FloorBitrate | UnderFloor | OverLimit | LinkMax => Delivery
    case Destination | Placement | ReplaceAs | OriginalText | OriginalEmbeds | Permissions | SourceLink
       | Title | Platform | Uploader | Requester | Duration | Brand | EarlierPost => Message
    case Debug => Errors
    case DedupeEnabled | DedupeMatch => Dedupe
  }

  function Amounts(n: Option<nat>): Option<Setting> {
    if n.Some? then Some(Amount(n.value)) else None
  }

  function Flags(on: Option<bool>): Option<Setting> {
    if on.Some? then Some(Flag(on.value)) else None
  }

  function Choices(word: Option<Choice>): Option<Setting> {
    if word.Some? then Some(Word(word.value)) else None
  }

  function Lists(words: Option<seq<string>>): Option<Setting> {
    if words.Some? then Some(Words(words.value)) else None
  }

  function LimitsLeaf(s: LimitsOverlay, l: Leaf): Option<Setting>
    requires SectionOf(l) == Limits
  {
    match l
    case MaxSourceBytes => Amounts(s.maxSourceBytes)
    case MaxDuration => if s.maxDuration.Some? then Some(Bound(s.maxDuration.value)) else None
    case MaxHeight => Amounts(s.maxHeight)
    case MaxCapture => Amounts(s.maxCapture)
  }

  function IntakeLeaf(s: IntakeOverlay, l: Leaf): Option<Setting>
    requires SectionOf(l) == Intake
  {
    match l
    case AllowUsers => Lists(s.allowUsers)
    case AllowRoles => Lists(s.allowRoles)
    case BotMessages => Choices(s.botMessages)
    case PlaylistsEnabled => Flags(s.playlists.enabled)
    case PlaylistsMax => Amounts(s.playlists.maxEntries)
    case Live => Flags(s.live)
  }

  function OutputLeaf(s: OutputOverlay, l: Leaf): Option<Setting>
    requires SectionOf(l) == Output
  {
    match l
    case Container => Choices(s.container)
    case VideoCodec => Choices(s.videoCodec)
    case AudioCodec => Choices(s.audioCodec)
    case OutputHeight => Amounts(s.maxHeight)
    case OutputFps => Amounts(s.maxFps)
    case AudioOverStill => Flags(s.audioOverStill)
    case AudioContainers => Lists(s.audioContainers)
    case ImageContainers => Lists(s.imageContainers)
    case OutputFiles => Choices(s.files)
  }

  function UploadLeaf(s: UploadOverlay, l: Leaf): Option<Setting>
    requires SectionOf(l) == Upload
  {
    match l
    case UploadMax => Choices(s.maxBytes)
  }

  function DeliveryLeaf(s: DeliveryOverlay, l: Leaf): Option<Setting>
    requires SectionOf(l) == Delivery
  {
    match l
    case DeliveryMode => Choices(s.mode)
    case DeliveryView => if s.view.Some? then Some(Shown(s.view.value)) else None
    case FloorHeight => Amounts(s.floor.minHeight)
    case FloorBitrate => Amounts(s.floor.minBitrate)
    case UnderFloor => Choices(s.underFloor)
    case OverLimit => Choices(s.overLimit)
    case LinkMax => Amounts(s.linkMaxBytes)
  }

  function MessageLeaf(s: MessageOverlay, l: Leaf): Option<Setting>
    requires SectionOf(l) == Message
  {
    match l
    case Destination => if s.destination.Some? then Some(Target(s.destination.value)) else None
    case Placement => Choices(s.placement)
    case ReplaceAs => Choices(s.replaceAs)
    case OriginalText => Choices(s.originalText)
    case OriginalEmbeds => Choices(s.originalEmbeds)
    case Permissions => Choices(s.permissions)
    case SourceLink => Flags(s.parts.sourceLink)
    case Title => Flags(s.parts.title)
    case Platform => Flags(s.parts.platform)
    case Uploader => Flags(s.parts.uploader)
    case Requester => Choices(s.parts.requester)
    case Duration => Flags(s.parts.duration)
    case Brand => Flags(s.parts.brand)
    case EarlierPost => Flags(s.parts.earlierPost)
  }

  function ErrorsLeaf(s: ErrorsOverlay, l: Leaf): Option<Setting>
    requires SectionOf(l) == Errors
  {
    match l
    case Debug => Flags(s.debug)
  }

  function DedupeLeaf(s: DedupeOverlay, l: Leaf): Option<Setting>
    requires SectionOf(l) == Dedupe
  {
    match l
    case DedupeEnabled => Flags(s.enabled)
    case DedupeMatch => Choices(s.matching)
  }

  /** What a profile says about a leaf, if it names it. */
  function LeafOf(s: Sections, l: Leaf): Option<Setting> {
    match SectionOf(l)
    case Limits => LimitsLeaf(s.limits, l)
    case Intake => IntakeLeaf(s.intake, l)
    case Output => OutputLeaf(s.output, l)
    case Upload => UploadLeaf(s.upload, l)
    case Delivery => DeliveryLeaf(s.delivery, l)
    case Message => MessageLeaf(s.message, l)
    case Errors => ErrorsLeaf(s.errors, l)
    case Dedupe => DedupeLeaf(s.dedupe, l)
  }

  function LimitsNow(u: LimitsInForce, l: Leaf): Setting
    requires SectionOf(l) == Limits
  {
    match l
    case MaxSourceBytes => Amount(u.maxSourceBytes)
    case MaxDuration => Bound(u.maxDuration)
    case MaxHeight => Amount(u.maxHeight)
    case MaxCapture => Amount(u.maxCapture)
  }

  function IntakeNow(u: IntakeInForce, l: Leaf): Setting
    requires SectionOf(l) == Intake
  {
    match l
    case AllowUsers => Words(u.allowUsers)
    case AllowRoles => Words(u.allowRoles)
    case BotMessages => Word(u.botMessages)
    case PlaylistsEnabled => Flag(u.playlists.enabled)
    case PlaylistsMax => Amount(u.playlists.maxEntries)
    case Live => Flag(u.live)
  }

  function OutputNow(u: OutputInForce, l: Leaf): Setting
    requires SectionOf(l) == Output
  {
    match l
    case Container => Word(u.container)
    case VideoCodec => Word(u.videoCodec)
    case AudioCodec => Word(u.audioCodec)
    case OutputHeight => Bound(u.maxHeight)
    case OutputFps => Bound(u.maxFps)
    case AudioOverStill => Flag(u.audioOverStill)
    case AudioContainers => Words(u.audioContainers)
    case ImageContainers => Words(u.imageContainers)
    case OutputFiles => Word(u.files)
  }

  function UploadNow(u: UploadInForce, l: Leaf): Setting
    requires SectionOf(l) == Upload
  {
    match l
    case UploadMax => Word(u.maxBytes)
  }

  function DeliveryNow(u: DeliveryInForce, l: Leaf): Setting
    requires SectionOf(l) == Delivery
  {
    match l
    case DeliveryMode => Word(u.mode)
    case DeliveryView => Shown(u.view)
    case FloorHeight => Amount(u.floor.minHeight)
    case FloorBitrate => Amount(u.floor.minBitrate)
    case UnderFloor => Word(u.underFloor)
    case OverLimit => Word(u.overLimit)
    case LinkMax => Amount(u.linkMaxBytes)
  }

  function MessageNow(u: MessageInForce, l: Leaf): Setting
    requires SectionOf(l) == Message
  {
    match l
    case Destination => Target(u.destination)
    case Placement => Word(u.placement)
    case ReplaceAs => Word(u.replaceAs)
    case OriginalText => Word(u.originalText)
    case OriginalEmbeds => Word(u.originalEmbeds)
    case Permissions => Word(u.permissions)
    case SourceLink => Flag(u.parts.sourceLink)
    case Title => Flag(u.parts.title)
    case Platform => Flag(u.parts.platform)
    case Uploader => Flag(u.parts.uploader)
    case Requester => Word(u.parts.requester)
    case Duration => Flag(u.parts.duration)
    case Brand => Flag(u.parts.brand)
    case EarlierPost => Flag(u.parts.earlierPost)
  }

  function ErrorsNow(u: ErrorsInForce, l: Leaf): Setting
    requires SectionOf(l) == Errors
  {
    match l
    case Debug => Flag(u.debug)
  }

  function DedupeNow(u: DedupeInForce, l: Leaf): Setting
    requires SectionOf(l) == Dedupe
  {
    match l
    case DedupeEnabled => Flag(u.enabled)
    case DedupeMatch => Word(u.matching)
  }

  /** What is in force for a leaf. */
  function LeafInForce(u: Options, l: Leaf): Setting {
    match SectionOf(l)
    case Limits => LimitsNow(u.limits, l)
    case Intake => IntakeNow(u.intake, l)
    case Output => OutputNow(u.output, l)
    case Upload => UploadNow(u.upload, l)
    case Delivery => DeliveryNow(u.delivery, l)
    case Message => MessageNow(u.message, l)
    case Errors => ErrorsNow(u.errors, l)
    case Dedupe => DedupeNow(u.dedupe, l)
  }

  /** What a leaf in force becomes once a profile names it: an output bound that is named is set. */
  function Settled(l: Leaf, named: Setting): Setting {
    if (l.OutputHeight? || l.OutputFps?) && named.Amount? then Bound(Some(named.n)) else named
  }

  lemma LimitsApplied(s: Sections, u: Options, l: Leaf)
    requires SectionOf(l) == Limits
    ensures LeafInForce(ApplyTo(s, u), l) ==
            if LeafOf(s, l).Some? then Settled(l, LeafOf(s, l).value) else LeafInForce(u, l)
  {
  }

  lemma LimitsFilled(s: Sections, b: Sections, l: Leaf)
    requires SectionOf(l) == Limits
    ensures LeafOf(FilledFrom(s, b), l) == Or(LeafOf(s, l), LeafOf(b, l))
  {
  }

  lemma IntakeApplied(s: Sections, u: Options, l: Leaf)
    requires SectionOf(l) == Intake
    ensures LeafInForce(ApplyTo(s, u), l) ==
            if LeafOf(s, l).Some? then Settled(l, LeafOf(s, l).value) else LeafInForce(u, l)
  {
  }

  lemma IntakeFilled(s: Sections, b: Sections, l: Leaf)
    requires SectionOf(l) == Intake
    ensures LeafOf(FilledFrom(s, b), l) == Or(LeafOf(s, l), LeafOf(b, l))
  {
  }

  lemma OutputApplied(s: Sections, u: Options, l: Leaf)
    requires SectionOf(l) == Output
    ensures LeafInForce(ApplyTo(s, u), l) ==
            if LeafOf(s, l).Some? then Settled(l, LeafOf(s, l).value) else LeafInForce(u, l)
  {
  }

  lemma OutputFilled(s: Sections, b: Sections, l: Leaf)
    requires SectionOf(l) == Output
    ensures LeafOf(FilledFrom(s, b), l) == Or(LeafOf(s, l), LeafOf(b, l))
  {
  }

  lemma UploadApplied(s: Sections, u: Options, l: Leaf)
    requires SectionOf(l) == Upload
    ensures LeafInForce(ApplyTo(s, u), l) ==
            if LeafOf(s, l).Some? then Settled(l, LeafOf(s, l).value) else LeafInForce(u, l)
  {
  }

  lemma UploadFilled(s: Sections, b: Sections, l: Leaf)
    requires SectionOf(l) == Upload
    ensures LeafOf(FilledFrom(s, b), l) == Or(LeafOf(s, l), LeafOf(b, l))
  {
  }

  lemma DeliveryApplied(s: Sections, u: Options, l: Leaf)
    requires SectionOf(l) == Delivery
    ensures LeafInForce(ApplyTo(s, u), l) ==
            if LeafOf(s, l).Some? then Settled(l, LeafOf(s, l).value) else LeafInForce(u, l)
  {
  }

  lemma DeliveryFilled(s: Sections, b: Sections, l: Leaf)
    requires SectionOf(l) == Delivery
    ensures LeafOf(FilledFrom(s, b), l) == Or(LeafOf(s, l), LeafOf(b, l))
  {
  }

  lemma MessageApplied(s: Sections, u: Options, l: Leaf)
    requires SectionOf(l) == Message
    ensures LeafInForce(ApplyTo(s, u), l) ==
            if LeafOf(s, l).Some? then Settled(l, LeafOf(s, l).value) else LeafInForce(u, l)
  {
  }

  lemma MessageFilled(s: Sections, b: Sections, l: Leaf)
    requires SectionOf(l) == Message
    ensures LeafOf(FilledFrom(s, b), l) == Or(LeafOf(s, l), LeafOf(b, l))
  {
  }

  lemma ErrorsApplied(s: Sections, u: Options, l: Leaf)
    requires SectionOf(l) == Errors
    ensures LeafInForce(ApplyTo(s, u), l) ==
            if LeafOf(s, l).Some? then Settled(l, LeafOf(s, l).value) else LeafInForce(u, l)
  {
  }

  lemma ErrorsFilled(s: Sections, b: Sections, l: Leaf)
    requires SectionOf(l) == Errors
    ensures LeafOf(FilledFrom(s, b), l) == Or(LeafOf(s, l), LeafOf(b, l))
  {
  }

  lemma DedupeApplied(s: Sections, u: Options, l: Leaf)
    requires SectionOf(l) == Dedupe
    ensures LeafInForce(ApplyTo(s, u), l) ==
            if LeafOf(s, l).Some? then Settled(l, LeafOf(s, l).value) else LeafInForce(u, l)
  {
  }

  lemma DedupeFilled(s: Sections, b: Sections, l: Leaf)
    requires SectionOf(l) == Dedupe
    ensures LeafOf(FilledFrom(s, b), l) == Or(LeafOf(s, l), LeafOf(b, l))
  {
  }

  /** Laying a profile over what is in force settles exactly the leaves it names. */
  lemma ApplyToLeaf(s: Sections, u: Options, l: Leaf)
    ensures LeafInForce(ApplyTo(s, u), l) ==
            if LeafOf(s, l).Some? then Settled(l, LeafOf(s, l).value) else LeafInForce(u, l)
  {
    match SectionOf(l)
    case Limits => LimitsApplied(s, u, l);
    case Intake => IntakeApplied(s, u, l);
    case Output => OutputApplied(s, u, l);
    case Upload => UploadApplied(s, u, l);
    case Delivery => DeliveryApplied(s, u, l);
    case Message => MessageApplied(s, u, l);
    case Errors => ErrorsApplied(s, u, l);
    case Dedupe => DedupeApplied(s, u, l);
  }

  /** Filling a profile names exactly what either names, its own first. */
  lemma FilledFromLeaf(s: Sections, b: Sections, l: Leaf)
    ensures LeafOf(FilledFrom(s, b), l) == Or(LeafOf(s, l), LeafOf(b, l))
  {
    match SectionOf(l)
    case Limits => LimitsFilled(s, b, l);
    case Intake => IntakeFilled(s, b, l);
    case Output => OutputFilled(s, b, l);
    case Upload => UploadFilled(s, b, l);
    case Delivery => DeliveryFilled(s, b, l);
    case Message => MessageFilled(s, b, l);
    case Errors => ErrorsFilled(s, b, l);
    case Dedupe => DedupeFilled(s, b, l);
  }

  // ---- the laws ----

  lemma LayingLimits(s: LimitsOverlay, b: LimitsOverlay, u: LimitsInForce)
    ensures ApplyLimits(s, ApplyLimits(b, u)) == ApplyLimits(FillLimits(s, b), u)
  {
  }

  lemma LayingIntake(s: IntakeOverlay, b: IntakeOverlay, u: IntakeInForce)
    ensures ApplyIntake(s, ApplyIntake(b, u)) == ApplyIntake(FillIntake(s, b), u)
  {
  }

  lemma LayingOutput(s: OutputOverlay, b: OutputOverlay, u: OutputInForce)
    ensures ApplyOutput(s, ApplyOutput(b, u)) == ApplyOutput(FillOutput(s, b), u)
  {
  }

  lemma LayingUpload(s: UploadOverlay, b: UploadOverlay, u: UploadInForce)
    ensures ApplyUpload(s, ApplyUpload(b, u)) == ApplyUpload(FillUpload(s, b), u)
  {
  }

  lemma LayingDelivery(s: DeliveryOverlay, b: DeliveryOverlay, u: DeliveryInForce)
    ensures ApplyDelivery(s, ApplyDelivery(b, u)) == ApplyDelivery(FillDelivery(s, b), u)
  {
  }

  lemma LayingParts(s: PartsOverlay, b: PartsOverlay, u: PartsInForce)
    ensures ApplyParts(s, ApplyParts(b, u)) == ApplyParts(FillParts(s, b), u)
  {
  }

  lemma LayingMessage(s: MessageOverlay, b: MessageOverlay, u: MessageInForce)
    ensures ApplyMessage(s, ApplyMessage(b, u)) == ApplyMessage(FillMessage(s, b), u)
  {
    LayingParts(s.parts, b.parts, u.parts);
  }

  lemma LayingErrors(s: ErrorsOverlay, b: ErrorsOverlay, u: ErrorsInForce)
    ensures ApplyErrors(s, ApplyErrors(b, u)) == ApplyErrors(FillErrors(s, b), u)
  {
  }

  lemma LayingDedupe(s: DedupeOverlay, b: DedupeOverlay, u: DedupeInForce)
    ensures ApplyDedupe(s, ApplyDedupe(b, u)) == ApplyDedupe(FillDedupe(s, b), u)
  {
  }

  /** Laying `s` over `b` laid over anything is laying `s` filled from `b`. */
  lemma LayingIsFilling(u: Options, b: Sections, s: Sections)
    ensures ApplyTo(s, ApplyTo(b, u)) == ApplyTo(FilledFrom(s, b), u)
  {
    LayingLimits(s.limits, b.limits, u.limits);
    LayingIntake(s.intake, b.intake, u.intake);
    LayingOutput(s.output, b.output, u.output);
    LayingUpload(s.upload, b.upload, u.upload);
    LayingDelivery(s.delivery, b.delivery, u.delivery);
    LayingMessage(s.message, b.message, u.message);
    LayingErrors(s.errors, b.errors, u.errors);
    LayingDedupe(s.dedupe, b.dedupe, u.dedupe);
  }

  /** Filling can be done in any grouping. */
  lemma FillingAssociates(r: Sections, s: Sections, b: Sections)
    ensures FilledFrom(FilledFrom(r, s), b) == FilledFrom(r, FilledFrom(s, b))
  {
  }

  /** The same but for the two output bounds a complete profile may leave open. */
  predicate Alike(u: Options, v: Options) {
    u.(output := u.output.(maxHeight := None, maxFps := None)) == v.(output := v.output.(maxHeight := None, maxFps := None))
  }

  /** Whether nothing from underneath a profile shows, those bounds aside. */
  ghost predicate Hides(s: Sections) {
    forall u, v :: Alike(ApplyTo(s, u), ApplyTo(s, v))
  }

  /** Options that differ from each other in every leaf. */
  const LOW := Options(
    LimitsInForce(0, None, 0, 0),
    IntakeInForce([], [], "", PlaylistsInForce(false, 0), false),
    OutputInForce("", "", "", None, None, false, [], [], ""),
    UploadInForce(""),
    DeliveryInForce("", NoView, FloorInForce(0, 0), "", "", 0),
    MessageInForce(None, "", "", "", "", "", PartsInForce(false, false, false, false, "", false, false, false)),
    ErrorsInForce(false),
    DedupeInForce(false, ""))

  const HIGH := Options(
    LimitsInForce(1, Some(0), 1, 1),
    IntakeInForce([""], [""], "a", PlaylistsInForce(true, 1), true),
    OutputInForce("a", "a", "a", Some(0), Some(0), true, [""], [""], "a"),
    UploadInForce("a"),
    DeliveryInForce("a", ViewId(""), FloorInForce(1, 1), "a", "a", 1),
    MessageInForce(Some(""), "a", "a", "a", "a", "a", PartsInForce(true, true, true, true, "a", true, true, true)),
    ErrorsInForce(true),
    DedupeInForce(true, "a"))

  lemma LimitsComplete(s: LimitsOverlay, u: LimitsInForce, v: LimitsInForce)
    ensures MissingLimits(s) == [] ==> ApplyLimits(s, u) == ApplyLimits(s, v)
    ensures ApplyLimits(s, LOW.limits) == ApplyLimits(s, HIGH.limits) ==> MissingLimits(s) == []
  {
  }

  lemma IntakeComplete(s: IntakeOverlay, u: IntakeInForce, v: IntakeInForce)
    ensures MissingIntake(s) == [] ==> ApplyIntake(s, u) == ApplyIntake(s, v)
    ensures ApplyIntake(s, LOW.intake) == ApplyIntake(s, HIGH.intake) ==> MissingIntake(s) == []
  {
  }

  lemma OutputComplete(s: OutputOverlay, u: OutputInForce, v: OutputInForce)
    ensures MissingOutput(s) == [] ==> ApplyOutput(s, u).(maxHeight := None, maxFps := None) == ApplyOutput(s, v).(maxHeight := None, maxFps := None)
    ensures ApplyOutput(s, LOW.output).(maxHeight := None, maxFps := None) == ApplyOutput(s, HIGH.output).(maxHeight := None, maxFps := None) ==> MissingOutput(s) == []
  {
  }

  lemma UploadComplete(s: UploadOverlay, u: UploadInForce, v: UploadInForce)
    ensures MissingUpload(s) == [] ==> ApplyUpload(s, u) == ApplyUpload(s, v)
    ensures ApplyUpload(s, LOW.upload) == ApplyUpload(s, HIGH.upload) ==> MissingUpload(s) == []
  {
  }

  lemma DeliveryComplete(s: DeliveryOverlay, u: DeliveryInForce, v: DeliveryInForce)
    ensures MissingDelivery(s) == [] ==> ApplyDelivery(s, u) == ApplyDelivery(s, v)
    ensures ApplyDelivery(s, LOW.delivery) == ApplyDelivery(s, HIGH.delivery) ==> MissingDelivery(s) == []
  {
  }

  lemma MessageComplete(s: MessageOverlay, u: MessageInForce, v: MessageInForce)
    ensures MissingMessage(s) == [] ==> ApplyMessage(s, u) == ApplyMessage(s, v)
    ensures ApplyMessage(s, LOW.message) == ApplyMessage(s, HIGH.message) ==> MissingMessage(s) == []
  {
  }

  lemma ErrorsComplete(s: ErrorsOverlay, u: ErrorsInForce, v: ErrorsInForce)
    ensures MissingErrors(s) == [] ==> ApplyErrors(s, u) == ApplyErrors(s, v)
    ensures ApplyErrors(s, LOW.errors) == ApplyErrors(s, HIGH.errors) ==> MissingErrors(s) == []
  {
  }

  lemma DedupeComplete(s: DedupeOverlay, u: DedupeInForce, v: DedupeInForce)
    ensures MissingDedupe(s) == [] ==> ApplyDedupe(s, u) == ApplyDedupe(s, v)
    ensures ApplyDedupe(s, LOW.dedupe) == ApplyDedupe(s, HIGH.dedupe) ==> MissingDedupe(s) == []
  {
  }

  /** The list of what is missing is empty exactly for a profile that hides everything underneath. */
  lemma CompleteHides(s: Sections)
    ensures Missing(s) == [] <==> Hides(s)
  {
    if Missing(s) == [] {
      forall u, v ensures Alike(ApplyTo(s, u), ApplyTo(s, v)) {
        LimitsComplete(s.limits, u.limits, v.limits);
        IntakeComplete(s.intake, u.intake, v.intake);
        OutputComplete(s.output, u.output, v.output);
        UploadComplete(s.upload, u.upload, v.upload);
        DeliveryComplete(s.delivery, u.delivery, v.delivery);
        MessageComplete(s.message, u.message, v.message);
        ErrorsComplete(s.errors, u.errors, v.errors);
        DedupeComplete(s.dedupe, u.dedupe, v.dedupe);
      }
    }
    if Hides(s) {
      assert Alike(ApplyTo(s, LOW), ApplyTo(s, HIGH));
      LimitsComplete(s.limits, LOW.limits, HIGH.limits);
      IntakeComplete(s.intake, LOW.intake, HIGH.intake);
      OutputComplete(s.output, LOW.output, HIGH.output);
      UploadComplete(s.upload, LOW.upload, HIGH.upload);
      DeliveryComplete(s.delivery, LOW.delivery, HIGH.delivery);
      MessageComplete(s.message, LOW.message, HIGH.message);
      ErrorsComplete(s.errors, LOW.errors, HIGH.errors);
      DedupeComplete(s.dedupe, LOW.dedupe, HIGH.dedupe);
    }
  }

  // ---- sections replaced at a scope ----

  lemma LimitsUnnamed(l: Leaf)
    requires SectionOf(l) == Limits
    ensures LimitsLeaf(UNNAMED.limits, l) == None
  {
  }

  lemma IntakeUnnamed(l: Leaf)
    requires SectionOf(l) == Intake
    ensures IntakeLeaf(UNNAMED.intake, l) == None
  {
  }

  lemma OutputUnnamed(l: Leaf)
    requires SectionOf(l) == Output
    ensures OutputLeaf(UNNAMED.output, l) == None
  {
  }

  lemma UploadUnnamed(l: Leaf)
    requires SectionOf(l) == Upload
    ensures UploadLeaf(UNNAMED.upload, l) == None
  {
  }

  lemma DeliveryUnnamed(l: Leaf)
    requires SectionOf(l) == Delivery
    ensures DeliveryLeaf(UNNAMED.delivery, l) == None
  {
  }

  lemma MessageUnnamed(l: Leaf)
    requires SectionOf(l) == Message
    ensures MessageLeaf(UNNAMED.message, l) == None
  {
  }

  lemma ErrorsUnnamed(l: Leaf)
    requires SectionOf(l) == Errors
    ensures ErrorsLeaf(UNNAMED.errors, l) == None
  {
  }

  lemma DedupeUnnamed(l: Leaf)
    requires SectionOf(l) == Dedupe
    ensures DedupeLeaf(UNNAMED.dedupe, l) == None
  {
  }

  lemma NothingUnnamed(l: Leaf)
    ensures LeafOf(UNNAMED, l) == None
  {
    match SectionOf(l)
    case Limits => LimitsUnnamed(l);
    case Intake => IntakeUnnamed(l);
    case Output => OutputUnnamed(l);
    case Upload => UploadUnnamed(l);
    case Delivery => DeliveryUnnamed(l);
    case Message => MessageUnnamed(l);
    case Errors => ErrorsUnnamed(l);
    case Dedupe => DedupeUnnamed(l);
  }

  /** Four of the sections, each to be swapped for another or left. */
  datatype SectionsPatch = SectionsPatch(intake: Option<IntakeOverlay>, message: Option<MessageOverlay>,
    output: Option<OutputOverlay>, upload: Option<UploadOverlay>)

  const NO_PATCH := SectionsPatch(None, None, None, None)

  function Patched(s: Sections, patch: SectionsPatch): Sections {
    s.(intake := Over(patch.intake, s.intake),
       message := Over(patch.message, s.message),
       output := Over(patch.output, s.output),
       upload := Over(patch.upload, s.upload))
  }

  predicate Replaces(patch: SectionsPatch, part: Section) {
    match part
    case Intake => patch.intake.Some?
    case Message => patch.message.Some?
    case Output => patch.output.Some?
    case Upload => patch.upload.Some?
    case _ => false
  }

  /** What a patch says about a leaf of a section it replaces. */
  function PatchLeaf(patch: SectionsPatch, l: Leaf): Option<Setting>
    requires Replaces(patch, SectionOf(l))
  {
    match SectionOf(l)
    case Intake => IntakeLeaf(patch.intake.value, l)
    case Message => MessageLeaf(patch.message.value, l)
    case Output => OutputLeaf(patch.output.value, l)
    case Upload => UploadLeaf(patch.upload.value, l)
  }

  /** A patch settles every leaf of the sections it replaces, those it does not name included, and
      no other leaf. */
  lemma PatchedSections(s: Sections, patch: SectionsPatch, l: Leaf)
    ensures LeafOf(Patched(s, patch), l) ==
            if Replaces(patch, SectionOf(l)) then PatchLeaf(patch, l) else LeafOf(s, l)
  {
  }

  // ---- platforms ----

  datatype PlatformDefault = Inherit | Enabled | Disabled

  datatype PlatformToggles = PlatformToggles(def: PlatformDefault, presets: seq<string>, overrides: map<string, bool>)

  const NO_TOGGLES := PlatformToggles(Inherit, [], map[])

  /** The platforms the engine has: whether each is on before any profile applies, the presets
      they make, and the hosts their links come from. */
  datatype Platforms = Platforms(
    baseline: map<string, bool>,
    presets: map<string, set<string>>,
    hosts: map<string, set<string>>)

  function InPresets(chosen: seq<string>, presets: map<string, set<string>>): set<string> {
    set id, p | id in chosen && id in presets && p in presets[id] :: p
  }

  /** Whether a profile's toggles leave platform `p` on, when it was `before`. */
  function Toggled(t: PlatformToggles, known: Platforms, p: string, before: bool): bool {
    if p in t.overrides then t.overrides[p]
    else if t.presets != [] then p in InPresets(t.presets, known.presets)
    else match t.def
      case Inherit => before
      case Enabled => before || (p in known.baseline && known.baseline[p])
      case Disabled => false
  }

  function Applied(t: PlatformToggles, known: Platforms, platforms: map<string, bool>): map<string, bool> {
    map p | p in platforms :: Toggled(t, known, p, platforms[p])
  }

  /** The profile's toggles applied on top of `platforms`: the whitelist or the default first,
      then the overrides. */
  method ApplyToggles(t: PlatformToggles, known: Platforms, platforms: map<string, bool>) returns (out: map<string, bool>)
    ensures out == Applied(t, known, platforms)
  {
    out := platforms;
    if t.presets == [] {
      match t.def
      case Inherit =>
      case Enabled =>
        var pending := known.baseline.Keys;
        while pending != {}
          invariant pending <= known.baseline.Keys && out.Keys == platforms.Keys
          invariant forall p :: p in out ==>
                      out[p] == (platforms[p] || (p in known.baseline && p !in pending && known.baseline[p]))
        {
          var p :| p in pending;
          if known.baseline[p] && p in out {
            out := out[p := true];
          }
          pending := pending - {p};
        }
      case Disabled =>
        out := map p | p in out :: false;
    } else {
      var allowed := InPresets(t.presets, known.presets);
      out := map p | p in out :: p in allowed;
    }
    ghost var laid := out;
    var pending := t.overrides.Keys;
    while pending != {}
      invariant pending <= t.overrides.Keys && out.Keys == platforms.Keys
      invariant forall p :: p in out ==>
                  out[p] == if p in t.overrides && p !in pending then t.overrides[p] else laid[p]
    {
      var p :| p in pending;
      if p in out {
        out := out[p := t.overrides[p]];
      }
      pending := pending - {p};
    }
    assert out == Applied(t, known, platforms);
  }

  // ---- what layers add up to ----

  /** What the profiles at a place add up to. */
  datatype Effective = Effective(platforms: map<string, bool>, options: Options, language: Option<string>)

  datatype Layer = Layer(toggles: PlatformToggles, language: Option<string>, sections: Sections)

  function Lay(eff: Effective, layer: Layer, known: Platforms): Effective {
    Effective(
      Applied(layer.toggles, known, eff.platforms),
      ApplyTo(layer.sections, eff.options),
      if layer.language.Some? then layer.language else eff.language)
  }

  function LayAll(eff: Effective, layers: seq<Layer>, known: Platforms): Effective
    decreases |layers|
  {
    if layers == [] then eff else Lay(LayAll(eff, layers[..|layers| - 1], known), layers[|layers| - 1], known)
  }
}
