/**
 * The `Wow` page component as an object: one field per `useState` value and
 * `useRef` timer (src/Components/wow.tsx:39-72), one method per handler,
 * each updating the fields its handler's setters update (React applies a
 * handler's setters together, so their order does not matter). Every
 * method is proved to leave the object in the state that the matching
 * function of module Workflow gives, so everything proved there holds of the
 * object too.
 */
module Component {
  import opened Wrappers
  import opened AssetCheck
  import opened LoadingColor
  import opened Intervals
  import opened Workflow

  class Wow {
    var emojiName: string
    var errorMessage: string
    var hasError: bool
    var hasUploadedImage: bool
    var hasWowifiedImage: bool
    var isUploading: bool
    var loadingColor: Rgb
    var loadingQuote: string
    var originalImage: string
    var originalImageFile: Option<File>
    var rgbTimer: Handle
    var quoteTimer: Handle
    var pollTimer: Handle
    var wowifiedImage: WowifiedImage
    var wowifySettings: Settings
    // The browser's side: its live intervals and the PUTs still awaited.
    var intervals: Registry
    var pendingSubmissions: nat

    /** The object's state as a value of the specification. */
    function State(): Page
      reads this
    {
      Page(emojiName, errorMessage, hasError, hasUploadedImage, hasWowifiedImage,
           isUploading, loadingColor, loadingQuote, originalImage, originalImageFile,
           rgbTimer, quoteTimer, pollTimer, wowifiedImage, wowifySettings,
           intervals, pendingSubmissions)
    }

    ghost predicate Valid()
      reads this
    {
      State().Valid()
    }

    /** First render: the initial values of every `useState` and `useRef`. */
    constructor ()
      ensures Valid() && State() == Initial
    {
      emojiName := DefaultEmojiName;
      errorMessage := "";
      hasError := false;
      hasUploadedImage := false;
      hasWowifiedImage := false;
      isUploading := false;
      loadingColor := Start;
      loadingQuote := "";
      originalImage := "";
      originalImageFile := None;
      rgbTimer, quoteTimer, pollTimer := 0, 0, 0;
      wowifiedImage := NoImage;
      wowifySettings := Settings(false, "", map[]);
      intervals := NoIntervals;
      pendingSubmissions := 0;
    }

    /** `setInterval(task)`. */
    method SetInterval(task: Task) returns (h: Handle)
      requires intervals.Valid()
      modifies this`intervals
      ensures intervals.Valid()
      ensures (intervals, h) == old(intervals).Set(task)
    {
      var started := intervals.Set(task);
      intervals := started.0;
      h := started.1;
    }

    /** `clearInterval(h)`. */
    method ClearInterval(h: Handle)
      modifies this`intervals
      ensures intervals == old(intervals).Clear(h)
    {
      intervals := intervals.Clear(h);
    }

    /** `handleImageUpload`; `preview` is what `URL.createObjectURL` returns. */
    method HandleImageUpload(files: Option<seq<File>>, preview: string)
      requires Valid()
      modifies this
      ensures Valid() && State() == Upload(old(State()), files, preview)
    {
      if files.None? {
        return;
      }
      if |files.value| == 0 {
        // `files[0].size` throws before any setter runs.
        return;
      }
      var file := files.value[0];
      if TooLarge(file.size) {
        errorMessage := TooLargeMessage;
        hasError := true;
        return;
      }
      emojiName := EmojiNameFor(file.name);
      hasUploadedImage := true;
      originalImageFile := Some(file);
      originalImage := preview;
    }

    /** `handleEmojiNameChange`. */
    method HandleEmojiNameChange(name: string)
      modifies this
      ensures State() == EditName(old(State()), name)
    {
      emojiName := name;
    }

    /** `handleErrorClose`. */
    method HandleErrorClose()
      modifies this
      ensures State() == CloseError(old(State()))
    {
      hasError := false;
    }

    /** The two `setInterval` calls of `wowifyImage`, stored in their refs. */
    method StartTimers()
      requires Valid()
      modifies this
      ensures Valid()
      ensures var (afterRgb, rgb) := old(intervals).Set(ColorCycle);
        var (afterQuote, quote) := afterRgb.Set(QuoteRotation);
        State() == old(State()).(intervals := afterQuote, rgbTimer := rgb, quoteTimer := quote)
    {
      rgbTimer := SetInterval(ColorCycle);
      quoteTimer := SetInterval(QuoteRotation);
    }

    /** The loading screen of `wowifyImage`. */
    method StartLoading()
      requires Valid()
      modifies this
      ensures Valid() && State() == Workflow.StartLoading(old(State()))
    {
      StartTimers();
      loadingQuote := "";
      isUploading := true;
    }

    /**
     * `wowifyImage` up to its `await`; returns the PUT it sends, if any,
     * carrying the file and the background selected at this moment.
     */
    method WowifyImage() returns (sent: Option<Submission>)
      requires Valid()
      modifies this
      ensures Valid() && State() == Wowify(old(State()))
      ensures sent == SubmissionFor(old(State()))
    {
      if originalImageFile.None? {
        return None;
      }
      StartLoading();
      sent := Some(Submission(originalImageFile.value, wowifySettings.selectedBackground));
      pendingSubmissions := pendingSubmissions + 1;
    }

    /** The PUT answered with `token`: poll for it every 5 seconds. */
    method SubmissionSucceeded(token: string)
      requires Valid() && pendingSubmissions > 0
      modifies this
      ensures Valid() && State() == SubmitSucceeded(old(State()), token)
    {
      pendingSubmissions := pendingSubmissions - 1;
      pollTimer := SetInterval(PollJob(token));
    }

    /**
     * The common end of a job: whether a result is shown, the uploading
     * flag, and `clearInterval` on the three refs.
     */
    method EndJob(succeeded: bool)
      requires Valid()
      modifies this
      ensures Valid() && State() == Workflow.EndJob(old(State()), succeeded)
    {
      hasWowifiedImage := succeeded;
      isUploading := false;
      ClearInterval(rgbTimer);
      ClearInterval(quoteTimer);
      ClearInterval(pollTimer);
    }

    /** The PUT failed: the `catch` of `wowifyImage`. */
    method SubmissionFailed()
      requires Valid() && pendingSubmissions > 0
      modifies this
      ensures Valid() && State() == SubmitFailed(old(State()))
    {
      pendingSubmissions := pendingSubmissions - 1;
      errorMessage := SubmitErrorMessage;
      hasError := true;
      EndJob(false);
    }

    /** The colour interval fired: `generateRGBColor`. */
    method GenerateRgbColor()
      modifies this
      ensures State() == ColorTick(old(State()))
    {
      loadingColor := Next(loadingColor);
    }

    /** The quote interval fired and `generateFunnyQuote` drew `quote`. */
    method GenerateFunnyQuote(quote: string)
      modifies this
      ensures State() == QuoteTick(old(State()), quote)
    {
      loadingQuote := quote;
    }

    /** A poll interval fired and its GET settled with `outcome`: `pollWowifiedAPI`. */
    method PollWowifiedApi(outcome: PollOutcome)
      requires Valid()
      modifies this
      ensures Valid() && State() == PollResult(old(State()), outcome)
    {
      match outcome
      case NotReady =>
      case Ready(original, small) =>
        wowifiedImage := WowifiedImage(original, small);
        EndJob(true);
      case PollError =>
        hasError := true;
        EndJob(false);
    }

    /** The upload half of `restart`. */
    method ClearUpload()
      modifies this
      ensures State() == Workflow.ClearUpload(old(State()))
    {
      emojiName := DefaultEmojiName;
      hasError := false;
      hasUploadedImage := false;
      originalImage := "";
      originalImageFile := None;
    }

    /** The result half of `restart`. */
    method ClearResult()
      modifies this
      ensures State() == Workflow.ClearResult(old(State()))
    {
      hasWowifiedImage := false;
      isUploading := false;
      loadingQuote := "";
      wowifiedImage := NoImage;
    }

    /** `restart`. */
    method Restart()
      modifies this
      ensures State() == Workflow.Restart(old(State()))
    {
      ClearUpload();
      ClearResult();
    }

    /** `handleSettingsModalOpen`. */
    method HandleSettingsModalOpen()
      modifies this
      ensures State() == OpenSettings(old(State()))
    {
      wowifySettings := wowifySettings.(isModalOpen := true);
    }

    /** `handleSettingsModalClose`. */
    method HandleSettingsModalClose()
      modifies this
      ensures State() == CloseSettings(old(State()))
    {
      wowifySettings := wowifySettings.(isModalOpen := false);
    }

    /** `handleSettingsModalSetBackground`. */
    method HandleSettingsModalSetBackground(key: string)
      modifies this
      ensures State() == SelectBackground(old(State()), key)
    {
      wowifySettings := wowifySettings.(selectedBackground := key);
    }
  }

  /**
   * A client of the object: upload a file, wowify, and get a 200 on the
   * first poll. What the specification proves carries over: the page shows
   * the result and no interval is left running.
   */
  method CompletedJob(file: File, preview: string, token: string, original: string, small: string)
    returns (page: Wow)
    requires file.size <= MaxBytes
    ensures page.hasWowifiedImage && !page.isUploading
    ensures page.wowifiedImage == WowifiedImage(original, small)
    ensures page.intervals.Live() == {}
  {
    page := new Wow();
    page.HandleImageUpload(Some([file]), preview);
    var sent := page.WowifyImage();
    assert sent == Some(Submission(file, ""));
    page.SubmissionSucceeded(token);
    assert page.intervals.tasks.Keys == {1, 2, 3};
    page.PollWowifiedApi(Ready(original, small));
  }
}
