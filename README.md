# wow-emoji: the `Wow` page, modelled in Dafny

The `Wow` page (`src/Components/wow.tsx`) takes an uploaded image, sends it to
the wowify service and polls for the result. While it waits, it shows a
loading spinner whose colour cycles around the hue wheel and a rotating quote.
This project models the page's state and handlers and proves what they
promise.

- `AssetCheck` holds the two checks applied to an uploaded file. The first is
  the 5 MB limit. The second derives the proposed emoji name, `"wow-"` plus
  `name.split(".")[0]`, using a model of JavaScript's `split` with its
  inverse `join`.
- `LoadingColor` holds `generateRGBColor`: its six sequential `if`s, the
  invariant that every colour stays on the rim of the hue wheel, and its
  period of exactly 301 ticks.
- `Intervals` is the browser's interval registry as the page sees it.
  `setInterval` hands out a fresh handle; `clearInterval` removes one. A
  handle that is not live is ignored, so the refs' initial value 0 is never
  live.
- `Workflow` is the specification. It defines the page state as a value
  (`Page`), one function per handler, the visibility conditions of the
  markup, and `Run`, which applies a sequence of events.
  - The async handlers are split at their `await`. `wowifyImage` becomes
    `Wowify`, followed by either `SubmitSucceeded(token)` or `SubmitFailed`.
  - Each firing of a poll interval is one `PollResult` carrying the outcome
    of its GET.
  - The caller chooses the order in which events arrive. `Run` drops an event
    the browser could not deliver: a PUT outcome with no PUT outstanding, or
    an interval callback whose interval is not live.
- `WorkflowProperties` holds the lemmas about `Workflow`:
  - one lemma per handler;
  - lemmas about runs of events: every interval a job starts is stopped when
    the job ends;
  - scenarios.
- `Component` is the page as an object. Class `Wow` has one field per
  `useState` value and per `useRef` timer, and one method per handler. Each
  method updates the fields its handler's setters update (React applies them
  together, so their order does not matter), and is proved to leave the object in the state the matching `Workflow` function gives.

Three behaviours of the code that a reader may not expect, which the model
keeps:

- The emoji name keeps only the text before the first `.`, so `a.b.png`
  gives `wow-a`.
- `restart` stops no interval and leaves the spinner colour as it was.
- A failed poll sets the error flag but not the error message. The toast
  then shows whatever message was set before.

## Model

| member | source | states |
|---|---|---|
| AssetCheck.TooLarge | src/Components/wow.tsx:101-102 | a size is rejected exactly when size / 1000 > 5000 in real arithmetic, i.e. above 5,000,000 bytes |
| AssetCheck.SplitPiecesAvoidSeparator | src/Components/wow.tsx:108 | no piece returned by `split(sep)` contains `sep` |
| AssetCheck.JoinSplit | src/Components/wow.tsx:108 | joining the pieces of `split(sep)` with `sep` gives the original string back |
| AssetCheck.SplitJoin | src/Components/wow.tsx:108 | splitting a join of separator-free pieces gives the pieces back, so split is determined by the two round trips |
| AssetCheck.FirstPieceIsPrefix | src/Components/wow.tsx:108 | `split(sep)[0]` is a prefix of the string without `sep` that ends at the first `sep` or at the end |
| AssetCheck.EmojiNameFor | src/Components/wow.tsx:108 | the name is "wow-" followed by the file name up to (excluding) its first '.', or the whole file name when it has none |
| AssetCheck.EmojiNameOfCatJpg | src/Components/wow.tsx:108 | "cat.jpg" is offered as "wow-cat" |
| AssetCheck.EmojiNameOfABPng | src/Components/wow.tsx:108 | "a.b.png" is offered as "wow-a": only the text before the first dot is kept |
| LoadingColor.NextOnWheel | src/Components/wow.tsx:214-248 | one tick keeps a colour with channels that are multiples of 5 in [0, 255], one at 255 and one at 0, and always changes it |
| LoadingColor.IterateOnWheel | src/Components/wow.tsx:214-248 | any number of ticks from a colour on the wheel stays on the wheel |
| LoadingColor.ReachableOnWheel | src/Components/wow.tsx:45-50 | every colour reached from the initial red has channels in [0, 255] that are multiples of 5, one at 255 and one at 0 |
| LoadingColor.RedToYellow | src/Components/wow.tsx:218-220 | from red, each tick raises green by 5 until 250 |
| LoadingColor.YellowToGreen | src/Components/wow.tsx:222-224 | with green full, each tick lowers red by 5 down to 5 |
| LoadingColor.GreenToCyan | src/Components/wow.tsx:226-228 | with green full and red off, each tick raises blue by 5 up to 250 |
| LoadingColor.CyanToBlue | src/Components/wow.tsx:230-232 | with blue full, each tick lowers green by 5 down to 5 |
| LoadingColor.BlueToMagenta | src/Components/wow.tsx:234-236 | with blue full and green off, each tick raises red by 5 up to 250 |
| LoadingColor.MagentaToRed | src/Components/wow.tsx:238-240 | with red full, each tick lowers blue by 5 down to 5 |
| LoadingColor.Corners | src/Components/wow.tsx:214-248 | the colours after 51, 101, 151, 201 and 251 ticks: a corner tick moves two channels at once |
| LoadingColor.FullCycle | src/Components/wow.tsx:214-248 | after 301 ticks the spinner is red again |
| LoadingColor.NotRedBefore301 | src/Components/wow.tsx:214-248 | at no tick between 1 and 300 is the spinner red, so 301 is the least period |
| Intervals.Registry.Set | src/Components/wow.tsx:127-133 | `setInterval` returns a nonzero handle that was not live, makes it live with its task, keeps every other task, and hands handles out in increasing order |
| Intervals.Registry.Clear | src/Components/wow.tsx:160-162 | `clearInterval(h)` makes h not live and keeps every other task; a handle that is not live changes nothing |
| Intervals.ClearTwice | src/Components/wow.tsx:198-200 | clearing the same handle twice is clearing it once |
| WorkflowProperties.MissingFilesChangeNothing | src/Components/wow.tsx:97-101 | a null file list, or an empty one (which throws on `files[0]`), changes nothing |
| WorkflowProperties.OversizedUploadRejected | src/Components/wow.tsx:101-106 | a first file over 5 MB sets the "larger than 5MB" message and the error flag and changes nothing else |
| WorkflowProperties.AcceptedUploadStored | src/Components/wow.tsx:108-111 | an accepted file is stored with its preview, the upload flag is set, the name is "wow-" plus the prefix before the first '.', and error, intervals and settings are untouched |
| WorkflowProperties.UploadCatJpg | src/Components/wow.tsx:108-111 | uploading "cat.jpg" on the start page names it "wow-cat" and shows the Wowify button |
| WorkflowProperties.WowifyWithoutFileIsNoop | src/Components/wow.tsx:122-125 | without a stored file, `wowifyImage` changes nothing and sends nothing |
| WorkflowProperties.WowifyStartsEffects | src/Components/wow.tsx:122-143 | with a file, exactly two new intervals (colour and quote) start and are kept in their refs, the quote is emptied, the page is busy, and the PUT carries the file and the selected background |
| WorkflowProperties.SubmitSucceededStartsPolling | src/Components/wow.tsx:144-151 | a token starts exactly one new interval, which polls for that token and is stored in the poll ref; apart from that and one fewer outstanding PUT, nothing changes |
| WorkflowProperties.SubmitFailedTearsDown | src/Components/wow.tsx:151-163 | a failed PUT sets the apology message and the error flag, leaves the busy state and stops the intervals the three refs hold |
| WorkflowProperties.PollNotReadyChangesNothing | src/Components/wow.tsx:180-190 | a 404 changes no field and no interval |
| WorkflowProperties.PollReadyCompletes | src/Components/wow.tsx:190-201 | a 200 stores both images, shows the result, leaves the busy state and stops the three intervals |
| WorkflowProperties.PollErrorFails | src/Components/wow.tsx:202-210 | any other outcome sets the error flag, leaves the busy state, stops the three intervals and keeps the previous error message |
| WorkflowProperties.RestartIdempotent | src/Components/wow.tsx:378-388 | restarting twice gives the same state as restarting once |
| WorkflowProperties.RestartResets | src/Components/wow.tsx:378-388 | restart resets the nine fields it sets and keeps settings, colour, error message, refs and every live interval |
| WorkflowProperties.SettingsChangeOnlySettings | src/Components/wow.tsx:391-401 | each settings handler changes only the modal flag or the selected background |
| WorkflowProperties.RewowifyOnlyWithRandomBackground | src/Components/wow.tsx:657-699 | "Rewowify Image" is offered exactly when a result is shown and the background is random ("") |
| WorkflowProperties.QuietRunKeepsJob | src/Components/wow.tsx:115-248 | name edits, error closes, colour and quote ticks, 404 polls and settings changes leave the intervals, refs, outstanding PUTs and job flags as they were |
| WorkflowProperties.FailedSubmissionLeavesNoInterval | src/Components/wow.tsx:122-163 | a job that starts with no live interval and whose PUT fails leaves no interval live |
| WorkflowProperties.FinishedJobLeavesNoInterval | src/Components/wow.tsx:122-210 | a job that starts with no live interval, gets a token and then a 200 or a poll error leaves no interval live, whatever quiet events and 404s come between |
| WorkflowProperties.NoCallbacksWhenIdle | src/Components/wow.tsx:127-150 | with no live interval, no colour, quote or poll callback can run |
| WorkflowProperties.StartedPolling | src/Components/wow.tsx:122-151 | a click on Wowify answered with a token leaves exactly the colour, quote and poll intervals live, the last one polling for that token |
| WorkflowProperties.RestartWhilePollingKeepsIntervals | src/Components/wow.tsx:378-388 | a restart during polling leaves all three intervals live, with the page back at the upload form |
| WorkflowProperties.ResultAfterRestart | src/Components/wow.tsx:190-196 | a poll that survived a restart still shows its result, on a page with no uploaded image |
| WorkflowProperties.ScenarioCompletedJob | src/Components/wow.tsx:94-211 | upload "cat.jpg", wowify, token, 404, then 200: the result is shown, named "wow-cat", and no interval is left |
| WorkflowProperties.OneNotReadyThenReady | src/Components/wow.tsx:180-201 | from any page with a file, no live interval and no outstanding PUT, wowify, any token, one 404 and then a 200 complete the job: the result shows the two returned images, no interval is left and the name is kept |
| WorkflowProperties.QuietRunKeepsName | src/Components/wow.tsx:108-119 | only an upload, an edit or a restart changes the emoji name |
| WorkflowProperties.ScenarioChosenBackground | src/Components/wow.tsx:138-143 | after choosing "forest", the PUT carries "forest", and the finished page shows the result without offering Rewowify |
| Component.Wow.constructor | src/Components/wow.tsx:39-72 | the first render holds every initial `useState` value, refs at 0 and no interval |
| Component.Wow.SetInterval | src/Components/wow.tsx:127-133 | the registry and handle are those of `Registry.Set` |
| Component.Wow.ClearInterval | src/Components/wow.tsx:160-162 | the registry is that of `Registry.Clear` |
| Component.Wow.HandleImageUpload | src/Components/wow.tsx:94-112 | the new state is `Workflow.Upload` of the old one |
| Component.Wow.HandleEmojiNameChange | src/Components/wow.tsx:115-119 | only the name changes, to the field's value |
| Component.Wow.HandleErrorClose | src/Components/wow.tsx:175-177 | only the error flag changes, to false |
| Component.Wow.StartTimers | src/Components/wow.tsx:127-133 | the colour and quote intervals start in that order and their handles are stored in the refs |
| Component.Wow.StartLoading | src/Components/wow.tsx:127-136 | the new state is `Workflow.StartLoading` of the old one |
| Component.Wow.WowifyImage | src/Components/wow.tsx:122-143 | the new state is `Workflow.Wowify` of the old one, and the request sent is `SubmissionFor` the old state |
| Component.Wow.SubmissionSucceeded | src/Components/wow.tsx:144-151 | the new state is `Workflow.SubmitSucceeded` of the old one |
| Component.Wow.EndJob | src/Components/wow.tsx:156-162 | the new state is `Workflow.EndJob` of the old one |
| Component.Wow.SubmissionFailed | src/Components/wow.tsx:151-163 | the new state is `Workflow.SubmitFailed` of the old one |
| Component.Wow.GenerateRgbColor | src/Components/wow.tsx:214-248 | only the colour changes, by one tick |
| Component.Wow.GenerateFunnyQuote | src/Components/wow.tsx:374 | only the quote changes, to the one drawn |
| Component.Wow.PollWowifiedApi | src/Components/wow.tsx:180-211 | the new state is `Workflow.PollResult` of the old one and the outcome |
| Component.Wow.ClearUpload | src/Components/wow.tsx:379-386 | the new state is `Workflow.ClearUpload` of the old one |
| Component.Wow.ClearResult | src/Components/wow.tsx:382-387 | the new state is `Workflow.ClearResult` of the old one |
| Component.Wow.Restart | src/Components/wow.tsx:378-388 | the new state is `Workflow.Restart` of the old one |
| Component.Wow.HandleSettingsModalOpen | src/Components/wow.tsx:391-393 | the new state is `Workflow.OpenSettings` of the old one |
| Component.Wow.HandleSettingsModalClose | src/Components/wow.tsx:395-397 | the new state is `Workflow.CloseSettings` of the old one |
| Component.Wow.HandleSettingsModalSetBackground | src/Components/wow.tsx:399-401 | the new state is `Workflow.SelectBackground` of the old one and the key |
| Component.CompletedJob | src/Components/wow.tsx:94-211 | a client uploading a file under 5 MB, wowifying and receiving a 200 at the first poll ends with the result shown, not busy, and no interval live |

## Left out

- Rendering. Only the conditions that decide which buttons appear are kept:
  `ShowsUploadButton`, `ShowsWowifyButton`, `ShowsResult` and
  `OffersRewowify`. The loading backdrop, which covers the page while a job
  is busy, is not modelled. `Run` therefore accepts clicks at any time, a
  superset of what a user can do. The no-leak lemmas allow only events that
  do not start or restart a job between its start and its end.
- The network. The PUT and the GET are replaced by their outcomes: a token
  or a failure, and 200, 404 or anything else. The service itself is not
  part of this model. Overlapping GETs from successive poll firings are not
  modelled; each firing settles before the next event.
- Timer periods (25, 6000 and 5000 ms) and real time. Only which intervals
  are live, and which task each one runs, is kept.
- `URL.createObjectURL`. The preview URL is a parameter of the upload.
- `generateFunnyQuote`'s pool of quotes and `Math.random`. The quote drawn is
  a parameter.
- The CSS string `rgb(r, g, b)` that the colour update also returns. Only the
  three channels are kept.
- The thumbnail fetch in `useEffect` (lines 74-91) and `saveImages`
  (lines 167-172). `saveImages` only downloads a file. The fetch does change
  state: when its GET resolves, it writes the first render's settings back
  with the new thumbnails (lines 84-87). That closes an open settings modal
  and resets the selected background to random (""). This overwrite is not
  modelled; the thumbnails stay whatever the page holds.
- File contents. A file is its size and its name.
- `src/Components/brb.tsx` and `src/app.tsx` are not part of this model.
- The size check is proved equal to the real-number comparison. Floating-point
  rounding of `size / 1000` is not modelled. For whole byte counts the two
  agree, because the quotient is at least 0.001 away from 5000 whenever it
  is not equal to it.
