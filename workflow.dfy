/**
 * The state of the `Wow` page component and what each of its handlers does
 * to it (src/Components/wow.tsx:39-72, 94-164, 175-211, 378-401), as values:
 * one function per handler from the state before to the state after. The
 * class in component.dfy performs the same updates field by field and is
 * proved to agree with these functions.
 *
 * The async handlers are split at their `await`: `wowifyImage` becomes
 * Wowify (everything before the PUT) and SubmitSucceeded / SubmitFailed (the
 * two ways the PUT can settle); each firing of the poll interval is one
 * PollResult with the outcome of its GET.
 */
module Workflow {
  import opened Wrappers
  import opened AssetCheck
  import opened LoadingColor
  import opened Intervals

  /** An uploaded file: its size in bytes and its name (the bytes are opaque). */
  datatype File = File(size: nat, name: string)

  /** The two base64 images the service returns for a finished job. */
  datatype WowifiedImage = WowifiedImage(original: string, small: string)

  /** The settings modal and the background picked in it ("" = random). */
  datatype Settings = Settings(isModalOpen: bool, selectedBackground: string, thumbnails: map<string, string>)

  /** What the PUT to the service carries: the file, and the background as a query parameter. */
  datatype Submission = Submission(file: File, backgroundId: string)

  /** How one poll GET settles: 200 with the result, 404, or anything else (another status or a thrown error). */
  datatype PollOutcome =
    | Ready(wowifiedOriginal: string, wowifiedSmall: string)
    | NotReady
    | PollError

  const DefaultEmojiName := "wow-emoji"
  const TooLargeMessage := "🙊 Oh no, your file is larger than 5MB!"
  const SubmitErrorMessage := "🙈 Uh oh, something went wrong -- sorry! Try again soon"
  const NoImage := WowifiedImage("", "")

  /**
   * The component's state (`useState` and `useRef`), plus the two pieces of
   * the browser it talks to: the interval registry and the number of PUT
   * requests whose outcome has not arrived yet.
   */
  datatype Page = Page(
    emojiName: string,
    errorMessage: string,
    hasError: bool,
    hasUploadedImage: bool,
    hasWowifiedImage: bool,
    isUploading: bool,
    loadingColor: Rgb,
    loadingQuote: string,
    originalImage: string,
    originalImageFile: Option<File>,
    rgbTimer: Handle,
    quoteTimer: Handle,
    pollTimer: Handle,
    wowifiedImage: WowifiedImage,
    settings: Settings,
    intervals: Registry,
    pendingSubmissions: nat)
  {
    ghost predicate Valid()
    {
      intervals.Valid()
    }
  }

  /** The state on first render: the refs hold 0, which is never a live handle. */
  const Initial: Page := Page(
    DefaultEmojiName, "", false, false, false, false, Start, "", "", None,
    0, 0, 0, NoImage, Settings(false, "", map[]), NoIntervals, 0)

  /**
   * `handleImageUpload`. A null file list does nothing; an empty one throws
   * when it reads `files[0].size`, before any setter runs, so it does nothing
   * either. `preview` is the object URL the browser creates for the file.
   */
  function Upload(p: Page, files: Option<seq<File>>, preview: string): Page
  {
    if files.None? || |files.value| == 0 then p
    else
      var file := files.value[0];
      if TooLarge(file.size) then
        p.(errorMessage := TooLargeMessage, hasError := true)
      else
        p.(emojiName := EmojiNameFor(file.name), hasUploadedImage := true,
           originalImageFile := Some(file), originalImage := preview)
  }

  /** `handleEmojiNameChange`. */
  function EditName(p: Page, name: string): Page
  {
    p.(emojiName := name)
  }

  /** `handleErrorClose`. */
  function CloseError(p: Page): Page
  {
    p.(hasError := false)
  }

  /** The request `wowifyImage` sends, if it sends one. */
  function SubmissionFor(p: Page): Option<Submission>
  {
    if p.originalImageFile.None? then None
    else Some(Submission(p.originalImageFile.value, p.settings.selectedBackground))
  }

  /**
   * The loading screen `wowifyImage` puts up: the colour and quote
   * intervals start, the quote is cleared and `isUploading` is set.
   */
  function StartLoading(p: Page): (q: Page)
    requires p.Valid()
    ensures q.Valid()
  {
    var (afterRgb, rgb) := p.intervals.Set(ColorCycle);
    var (afterQuote, quote) := afterRgb.Set(QuoteRotation);
    p.(intervals := afterQuote, rgbTimer := rgb, quoteTimer := quote,
       loadingQuote := "", isUploading := true)
  }

  /**
   * `wowifyImage` up to its `await`: without a stored file it returns at
   * once; otherwise it puts up the loading screen and sends the PUT.
   */
  function Wowify(p: Page): (q: Page)
    requires p.Valid()
    ensures q.Valid()
  {
    if p.originalImageFile.None? then p
    else
      var loading := StartLoading(p);
      loading.(pendingSubmissions := loading.pendingSubmissions + 1)
  }

  /** The PUT answered with a token: start polling for it. */
  function SubmitSucceeded(p: Page, token: string): (q: Page)
    requires p.Valid() && p.pendingSubmissions > 0
    ensures q.Valid()
  {
    var (afterPoll, poll) := p.intervals.Set(PollJob(token));
    p.(intervals := afterPoll, pollTimer := poll,
       pendingSubmissions := p.pendingSubmissions - 1)
  }

  /** `clearInterval` on the handles the three refs hold now. */
  function ClearJobTimers(p: Page): Registry
  {
    p.intervals.Clear(p.rgbTimer).Clear(p.quoteTimer).Clear(p.pollTimer)
  }

  /**
   * What every end of a job does: record whether a result is shown, leave
   * the loading screen and stop the timers the refs point at.
   */
  function EndJob(p: Page, succeeded: bool): (q: Page)
    requires p.Valid()
    ensures q.Valid()
  {
    p.(hasWowifiedImage := succeeded, isUploading := false, intervals := ClearJobTimers(p))
  }

  /** The PUT failed: report it and end the job. */
  function SubmitFailed(p: Page): (q: Page)
    requires p.Valid() && p.pendingSubmissions > 0
    ensures q.Valid()
  {
    EndJob(p, false).(errorMessage := SubmitErrorMessage, hasError := true,
                      pendingSubmissions := p.pendingSubmissions - 1)
  }

  /** The colour interval fired. */
  function ColorTick(p: Page): Page
  {
    p.(loadingColor := Next(p.loadingColor))
  }

  /** The quote interval fired and `generateFunnyQuote` drew `quote`. */
  function QuoteTick(p: Page, quote: string): Page
  {
    p.(loadingQuote := quote)
  }

  /**
   * A poll interval fired and its GET settled. 404 changes nothing; 200
   * stores the result and stops the timers; anything else stops the timers
   * and raises the error flag, without touching `errorMessage`.
   */
  function PollResult(p: Page, outcome: PollOutcome): (q: Page)
    requires p.Valid()
    ensures q.Valid()
  {
    match outcome
    case NotReady => p
    case Ready(original, small) =>
      EndJob(p, true).(wowifiedImage := WowifiedImage(original, small))
    case PollError =>
      EndJob(p, false).(hasError := true)
  }

  /** The upload half of `restart`: the form is empty again. */
  function ClearUpload(p: Page): Page
  {
    p.(emojiName := DefaultEmojiName, hasError := false, hasUploadedImage := false,
       originalImage := "", originalImageFile := None)
  }

  /** The result half of `restart`: no result and no loading screen. */
  function ClearResult(p: Page): Page
  {
    p.(hasWowifiedImage := false, isUploading := false, loadingQuote := "",
       wowifiedImage := NoImage)
  }

  /** `restart`: back to the upload form. It stops no interval. */
  function Restart(p: Page): Page
  {
    ClearResult(ClearUpload(p))
  }

  function OpenSettings(p: Page): Page
  {
    p.(settings := p.settings.(isModalOpen := true))
  }

  function CloseSettings(p: Page): Page
  {
    p.(settings := p.settings.(isModalOpen := false))
  }

  function SelectBackground(p: Page, key: string): Page
  {
    p.(settings := p.settings.(selectedBackground := key))
  }

  // What the page shows, as the markup decides it.

  /** The upload button (line 426). */
  predicate ShowsUploadButton(p: Page)
  {
    !p.hasUploadedImage
  }

  /** The "Wowify Image" and settings buttons (line 633). */
  predicate ShowsWowifyButton(p: Page)
  {
    p.hasUploadedImage && !p.hasWowifiedImage
  }

  /** The name field, Download and Restart (line 657). */
  predicate ShowsResult(p: Page)
  {
    p.hasWowifiedImage
  }

  /** "Rewowify Image" (lines 657 and 699): only with the random background. */
  predicate OffersRewowify(p: Page)
  {
    ShowsResult(p) && p.settings.selectedBackground == ""
  }

  // Events, in the order the caller delivers them.

  datatype Event =
    | UploadFiles(files: Option<seq<File>>, preview: string)
    | NameEdited(name: string)
    | ErrorClosed
    | WowifyClicked
    | PutSucceeded(token: string)
    | PutFailed
    | ColorFired(handle: Handle)
    | QuoteFired(handle: Handle, quote: string)
    | PollFired(handle: Handle, outcome: PollOutcome)
    | RestartClicked
    | SettingsOpened
    | SettingsClosed
    | BackgroundSelected(key: string)

  /**
   * Whether the browser can deliver e now: an interval callback only while
   * that interval is live, a PUT outcome only while a PUT is outstanding.
   */
  predicate Enabled(p: Page, e: Event)
  {
    match e
    case PutSucceeded(_) => p.pendingSubmissions > 0
    case PutFailed => p.pendingSubmissions > 0
    case ColorFired(h) => h in p.intervals.tasks && p.intervals.tasks[h] == ColorCycle
    case QuoteFired(h, _) => h in p.intervals.tasks && p.intervals.tasks[h] == QuoteRotation
    case PollFired(h, _) => h in p.intervals.tasks && p.intervals.tasks[h].PollJob?
    case _ => true
  }

  function Step(p: Page, e: Event): (q: Page)
    requires p.Valid() && Enabled(p, e)
    ensures q.Valid()
  {
    match e
    case UploadFiles(files, preview) => Upload(p, files, preview)
    case NameEdited(name) => EditName(p, name)
    case ErrorClosed => CloseError(p)
    case WowifyClicked => Wowify(p)
    case PutSucceeded(token) => SubmitSucceeded(p, token)
    case PutFailed => SubmitFailed(p)
    case ColorFired(_) => ColorTick(p)
    case QuoteFired(_, quote) => QuoteTick(p, quote)
    case PollFired(_, outcome) => PollResult(p, outcome)
    case RestartClicked => Restart(p)
    case SettingsOpened => OpenSettings(p)
    case SettingsClosed => CloseSettings(p)
    case BackgroundSelected(key) => SelectBackground(p, key)
  }

  /** The state after a sequence of events; one that cannot happen yet is dropped. */
  function Run(p: Page, events: seq<Event>): (q: Page)
    requires p.Valid()
    ensures q.Valid()
    decreases |events|
  {
    if events == [] then p
    else if Enabled(p, events[0]) then Run(Step(p, events[0]), events[1..])
    else Run(p, events[1..])
  }
}
