/**
 * What the handlers of the `Wow` page promise, proved about the functions
 * of module Workflow: one lemma per handler, then properties of whole runs
 * of events (every interval a job starts is stopped when the job ends), and
 * the places where the page keeps state alive that a reader might expect to
 * be reset.
 */
module WorkflowProperties {
  import opened Wrappers
  import opened AssetCheck
  import opened LoadingColor
  import opened Intervals
  import opened Workflow

  // ---- Upload ---------------------------------------------------------

  /** No file list, or an empty one, leaves the page as it was. */
  lemma MissingFilesChangeNothing(p: Page, preview: string)
    ensures Upload(p, None, preview) == p
    ensures Upload(p, Some([]), preview) == p
  {
  }

  /**
   * A first file over 5,000,000 bytes raises the "larger than 5MB" error and
   * changes nothing else: no upload is recorded and the name is kept.
   */
  lemma OversizedUploadRejected(p: Page, file: File, others: seq<File>, preview: string)
    requires file.size > 5_000_000
    ensures var q := Upload(p, Some([file] + others), preview);
      && q.hasError && q.errorMessage == TooLargeMessage
      && q.hasUploadedImage == p.hasUploadedImage
      && q.emojiName == p.emojiName
      && q.originalImageFile == p.originalImageFile
      && q == p.(hasError := true, errorMessage := TooLargeMessage)
  {
  }

  /**
   * A first file of at most 5,000,000 bytes is stored, and the emoji name
   * becomes "wow-" plus the file name up to its first '.'.
   */
  lemma AcceptedUploadStored(p: Page, file: File, others: seq<File>, preview: string)
    requires file.size <= 5_000_000
    ensures var q := Upload(p, Some([file] + others), preview);
      && q.hasUploadedImage
      && q.originalImageFile == Some(file)
      && q.originalImage == preview
      && (exists stem :: && q.emojiName == "wow-" + stem
                         && |stem| <= |file.name| && file.name[..|stem|] == stem
                         && '.' !in stem && (|stem| == |file.name| || file.name[|stem|] == '.'))
      && q.hasError == p.hasError && q.errorMessage == p.errorMessage
      && q.intervals == p.intervals && q.settings == p.settings
  {
    var q := Upload(p, Some([file] + others), preview);
    var stem := q.emojiName[4..];
    assert q.emojiName == "wow-" + stem;
  }

  /** Scenario: a 2 MB "cat.jpg" is uploaded from the start page. */
  lemma UploadCatJpg(preview: string)
    ensures var q := Upload(Initial, Some([File(2_000_000, "cat.jpg")]), preview);
      q.hasUploadedImage && q.emojiName == "wow-cat" && ShowsWowifyButton(q)
  {
    EmojiNameOfCatJpg();
  }

  // ---- Wowify and the PUT ---------------------------------------------

  /** Without a stored file, Wowify does nothing and sends nothing. */
  lemma WowifyWithoutFileIsNoop(p: Page)
    requires p.Valid() && p.originalImageFile.None?
    ensures Wowify(p) == p && SubmissionFor(p) == None
  {
  }

  /**
   * With a stored file, Wowify starts exactly two new intervals, the colour
   * and the quote interval, keeps them in the refs, empties the quote, sets
   * `isUploading` and sends the file with the selected background, before
   * any answer from the service.
   */
  lemma WowifyStartsEffects(p: Page)
    requires p.Valid() && p.originalImageFile.Some?
    ensures var q := Wowify(p);
      && q.rgbTimer != q.quoteTimer
      && q.rgbTimer !in p.intervals.Live() && q.quoteTimer !in p.intervals.Live()
      && q.intervals.Live() == p.intervals.Live() + {q.rgbTimer, q.quoteTimer}
      && q.intervals.tasks[q.rgbTimer] == ColorCycle
      && q.intervals.tasks[q.quoteTimer] == QuoteRotation
      && q.pollTimer == p.pollTimer
      && q.loadingQuote == "" && q.isUploading
      && q.pendingSubmissions == p.pendingSubmissions + 1
      && q.hasError == p.hasError && q.hasWowifiedImage == p.hasWowifiedImage
      && SubmissionFor(p) == Some(Submission(p.originalImageFile.value, p.settings.selectedBackground))
  {
  }

  /** A token from the PUT starts one poll interval for that token; the page stays busy. */
  lemma SubmitSucceededStartsPolling(p: Page, token: string)
    requires p.Valid() && p.pendingSubmissions > 0
    ensures var q := SubmitSucceeded(p, token);
      && q.pollTimer !in p.intervals.Live()
      && q.intervals.Live() == p.intervals.Live() + {q.pollTimer}
      && q.intervals.tasks[q.pollTimer] == PollJob(token)
      && q.isUploading == p.isUploading
      && q.hasError == p.hasError && q.errorMessage == p.errorMessage
      && q.rgbTimer == p.rgbTimer && q.quoteTimer == p.quoteTimer
      && q == p.(intervals := q.intervals, pollTimer := q.pollTimer,
                 pendingSubmissions := p.pendingSubmissions - 1)
  {
  }

  /**
   * A failed PUT shows the apology, raises the error flag, leaves the busy
   * state, and stops the intervals the three refs point at.
   */
  lemma SubmitFailedTearsDown(p: Page)
    requires p.Valid() && p.pendingSubmissions > 0
    ensures var q := SubmitFailed(p);
      && q.errorMessage == SubmitErrorMessage && q.hasError
      && !q.isUploading && !q.hasWowifiedImage
      && q.intervals.Live() == p.intervals.Live() - {p.rgbTimer, p.quoteTimer, p.pollTimer}
      && q.hasUploadedImage == p.hasUploadedImage && q.originalImageFile == p.originalImageFile
  {
  }

  // ---- Polling --------------------------------------------------------

  /** A 404 changes nothing at all: no field, no interval. */
  lemma PollNotReadyChangesNothing(p: Page)
    requires p.Valid()
    ensures PollResult(p, NotReady) == p
  {
  }

  /** A 200 stores both images, shows the result and stops the three intervals. */
  lemma PollReadyCompletes(p: Page, original: string, small: string)
    requires p.Valid()
    ensures var q := PollResult(p, Ready(original, small));
      && q.wowifiedImage == WowifiedImage(original, small)
      && q.hasWowifiedImage && !q.isUploading && ShowsResult(q)
      && q.intervals.Live() == p.intervals.Live() - {p.rgbTimer, p.quoteTimer, p.pollTimer}
      && q.hasError == p.hasError && q.errorMessage == p.errorMessage
  {
  }

  /**
   * Any other outcome raises the error flag, leaves the busy state and stops
   * the three intervals, but does not set a message: the toast shows
   * whatever `errorMessage` held before.
   */
  lemma PollErrorFails(p: Page)
    requires p.Valid()
    ensures var q := PollResult(p, PollError);
      && q.hasError && !q.isUploading && !q.hasWowifiedImage
      && q.errorMessage == p.errorMessage
      && q.intervals.Live() == p.intervals.Live() - {p.rgbTimer, p.quoteTimer, p.pollTimer}
  {
  }

  // ---- Restart and settings -------------------------------------------

  /** Restart twice is restart once. */
  lemma RestartIdempotent(p: Page)
    ensures Restart(Restart(p)) == Restart(p)
  {
  }

  /**
   * Restart returns to the upload form with the default name and no file or
   * result, but keeps the background choice, the thumbnails, the spinner
   * colour, the error message, the refs and every live interval.
   */
  lemma RestartResets(p: Page)
    ensures var q := Restart(p);
      && q.emojiName == "wow-emoji"
      && !q.hasError && !q.hasUploadedImage && !q.hasWowifiedImage && !q.isUploading
      && q.loadingQuote == "" && q.originalImage == "" && q.originalImageFile == None
      && q.wowifiedImage == WowifiedImage("", "")
      && ShowsUploadButton(q) && !ShowsResult(q)
      && q.settings == p.settings && q.loadingColor == p.loadingColor
      && q.errorMessage == p.errorMessage
      && q.intervals == p.intervals && q.pendingSubmissions == p.pendingSubmissions
      && q.rgbTimer == p.rgbTimer && q.quoteTimer == p.quoteTimer && q.pollTimer == p.pollTimer
  {
  }

  /** The settings handlers change only the modal flag or the selected background. */
  lemma SettingsChangeOnlySettings(p: Page, key: string)
    ensures OpenSettings(p) == p.(settings := Settings(true, p.settings.selectedBackground, p.settings.thumbnails))
    ensures CloseSettings(p) == p.(settings := Settings(false, p.settings.selectedBackground, p.settings.thumbnails))
    ensures SelectBackground(p, key) == p.(settings := Settings(p.settings.isModalOpen, key, p.settings.thumbnails))
  {
  }

  /** Rewowify is offered exactly when there is a result and the background is random. */
  lemma RewowifyOnlyWithRandomBackground(p: Page, key: string)
    ensures OffersRewowify(p) <==> p.hasWowifiedImage && p.settings.selectedBackground == ""
    ensures OffersRewowify(SelectBackground(p, key)) <==> p.hasWowifiedImage && key == ""
  {
  }

  // ---- Runs of events -------------------------------------------------

  /** Events that touch neither the job nor its intervals. */
  predicate Quiet(e: Event)
  {
    || e.NameEdited? || e.ErrorClosed? || e.ColorFired? || e.QuoteFired?
    || (e.PollFired? && e.outcome.NotReady?)
    || e.SettingsOpened? || e.SettingsClosed? || e.BackgroundSelected?
  }

  /** Running a + b is running a, then b. */
  lemma {:induction false} RunAppend(p: Page, a: seq<Event>, b: seq<Event>)
    requires p.Valid()
    ensures Run(p, a + b) == Run(Run(p, a), b)
    decreases |a|
  {
    if a != [] {
      assert (a + b)[0] == a[0] && (a + b)[1..] == a[1..] + b;
      if Enabled(p, a[0]) {
        RunAppend(Step(p, a[0]), a[1..], b);
      } else {
        RunAppend(p, a[1..], b);
      }
    } else {
      assert a + b == b;
    }
  }

  /** A single event runs as one step when it can happen. */
  lemma RunOne(p: Page, e: Event)
    requires p.Valid()
    ensures Run(p, [e]) == if Enabled(p, e) then Step(p, e) else p
  {
    assert [e][1..] == [];
  }

  /**
   * Quiet events, in any number and order, leave the intervals, the three
   * refs, the outstanding PUTs and the job's flags as they were.
   */
  lemma {:induction false} QuietRunKeepsJob(p: Page, events: seq<Event>)
    requires p.Valid()
    requires forall i :: 0 <= i < |events| ==> Quiet(events[i])
    ensures var q := Run(p, events);
      && q.intervals == p.intervals
      && q.rgbTimer == p.rgbTimer && q.quoteTimer == p.quoteTimer && q.pollTimer == p.pollTimer
      && q.pendingSubmissions == p.pendingSubmissions
      && q.originalImageFile == p.originalImageFile
      && q.isUploading == p.isUploading && q.hasWowifiedImage == p.hasWowifiedImage
      && q.errorMessage == p.errorMessage
    decreases |events|
  {
    if events != [] {
      assert Quiet(events[0]);
      var next := if Enabled(p, events[0]) then Step(p, events[0]) else p;
      QuietRunKeepsJob(next, events[1..]);
    }
  }

  /**
   * A job that fails at submission leaves no interval running, provided
   * none was running when it started: Wowify, any quiet events, then the
   * failed PUT.
   */
  lemma {:induction false} FailedSubmissionLeavesNoInterval(p: Page, quiet: seq<Event>)
    requires p.Valid() && p.intervals.Live() == {}
    requires p.originalImageFile.Some? && p.pendingSubmissions == 0
    requires forall i :: 0 <= i < |quiet| ==> Quiet(quiet[i])
    ensures var q := Run(p, [WowifyClicked] + quiet + [PutFailed]);
      && q.intervals.Live() == {}
      && q.hasError && q.errorMessage == SubmitErrorMessage && !q.isUploading
  {
    var started := Wowify(p);
    RunOne(p, WowifyClicked);
    RunAppend(p, [WowifyClicked], quiet);
    QuietRunKeepsJob(started, quiet);
    var waiting := Run(started, quiet);
    RunAppend(p, [WowifyClicked] + quiet, [PutFailed]);
    RunOne(waiting, PutFailed);
  }

  /**
   * A job that gets a token and then a terminal poll outcome (200, or any
   * outcome other than 404) leaves no interval running, provided none was
   * running when it started. Quiet events, including any number of 404s,
   * may come between. The poll interval is the third handle the job takes.
   */
  lemma {:induction false} FinishedJobLeavesNoInterval(
    p: Page, quiet1: seq<Event>, token: string, quiet2: seq<Event>, outcome: PollOutcome)
    requires p.Valid() && p.intervals.Live() == {}
    requires p.originalImageFile.Some? && p.pendingSubmissions == 0
    requires forall i :: 0 <= i < |quiet1| ==> Quiet(quiet1[i])
    requires forall i :: 0 <= i < |quiet2| ==> Quiet(quiet2[i])
    requires !outcome.NotReady?
    ensures var q := Run(p, [WowifyClicked] + quiet1 + [PutSucceeded(token)] + quiet2
                           + [PollFired(p.intervals.next + 2, outcome)]);
      && q.intervals.Live() == {}
      && !q.isUploading
      && (outcome.Ready? ==> q.hasWowifiedImage
                             && q.wowifiedImage == WowifiedImage(outcome.wowifiedOriginal, outcome.wowifiedSmall))
      && (outcome.PollError? ==> q.hasError && !q.hasWowifiedImage && q.errorMessage == p.errorMessage)
  {
    var h := p.intervals.next + 2;
    var started := Wowify(p);
    RunOne(p, WowifyClicked);
    RunAppend(p, [WowifyClicked], quiet1);
    QuietRunKeepsJob(started, quiet1);
    var waiting := Run(started, quiet1);
    RunAppend(p, [WowifyClicked] + quiet1, [PutSucceeded(token)]);
    RunOne(waiting, PutSucceeded(token));
    var polling := SubmitSucceeded(waiting, token);
    assert polling.pollTimer == h && polling.intervals.tasks[h] == PollJob(token);
    RunAppend(p, [WowifyClicked] + quiet1 + [PutSucceeded(token)], quiet2);
    QuietRunKeepsJob(polling, quiet2);
    var last := Run(polling, quiet2);
    RunAppend(p, [WowifyClicked] + quiet1 + [PutSucceeded(token)] + quiet2, [PollFired(h, outcome)]);
    RunOne(last, PollFired(h, outcome));
  }

  /** Once no interval is live, no interval callback can be delivered. */
  lemma NoCallbacksWhenIdle(p: Page)
    requires p.intervals.Live() == {}
    ensures forall h :: !Enabled(p, ColorFired(h))
    ensures forall h, quote :: !Enabled(p, QuoteFired(h, quote))
    ensures forall h, outcome :: !Enabled(p, PollFired(h, outcome))
  {
  }

  /**
   * A click on "Wowify Image" answered at once with a token: the colour,
   * quote and poll intervals take the next three handles.
   */
  lemma StartedPolling(p: Page, token: string)
    requires p.Valid() && p.intervals.Live() == {}
    requires p.originalImageFile.Some? && p.pendingSubmissions == 0
    ensures var n := p.intervals.next;
      var q := Run(p, [WowifyClicked, PutSucceeded(token)]);
      && q == SubmitSucceeded(Wowify(p), token)
      && q.intervals.Live() == {n, n + 1, n + 2}
      && q.intervals.tasks[n + 2] == PollJob(token)
      && q.isUploading && q.originalImageFile == p.originalImageFile
  {
    var n := p.intervals.next;
    var started := Wowify(p);
    var polling := SubmitSucceeded(started, token);
    WowifyStartsEffects(p);
    SubmitSucceededStartsPolling(started, token);
    var events := [WowifyClicked, PutSucceeded(token)];
    assert events == [WowifyClicked] + [PutSucceeded(token)];
    RunAppend(p, [WowifyClicked], [PutSucceeded(token)]);
    RunOne(p, WowifyClicked);
    RunOne(started, PutSucceeded(token));
    assert Run(p, events) == polling;
  }

  /**
   * Restart during polling stops nothing: the colour, quote and poll
   * intervals stay live, on a page back at the upload form.
   */
  lemma RestartWhilePollingKeepsIntervals(p: Page, token: string)
    requires p.Valid() && p.intervals.Live() == {}
    requires p.originalImageFile.Some? && p.pendingSubmissions == 0
    ensures var n := p.intervals.next;
      var q := Run(p, [WowifyClicked, PutSucceeded(token), RestartClicked]);
      && q.intervals.Live() == {n, n + 1, n + 2}
      && q.intervals.tasks[n + 2] == PollJob(token)
      && !q.hasUploadedImage && q.originalImageFile == None
  {
    StartedPolling(p, token);
    var polling := Run(p, [WowifyClicked, PutSucceeded(token)]);
    assert [WowifyClicked, PutSucceeded(token), RestartClicked]
        == [WowifyClicked, PutSucceeded(token)] + [RestartClicked];
    RunAppend(p, [WowifyClicked, PutSucceeded(token)], [RestartClicked]);
    RunOne(polling, RestartClicked);
    RestartResets(polling);
  }

  /**
   * A poll that a restart did not stop still delivers its 200: the result
   * is shown on a page that has no uploaded image.
   */
  lemma ResultAfterRestart(q: Page, h: Handle, original: string, small: string)
    requires q.Valid() && h in q.intervals.tasks && q.intervals.tasks[h].PollJob?
    requires !q.hasUploadedImage && q.originalImageFile == None
    ensures var r := Run(q, [PollFired(h, Ready(original, small))]);
      && ShowsResult(r) && !r.hasUploadedImage && r.originalImageFile == None
  {
    RunOne(q, PollFired(h, Ready(original, small)));
  }

  // ---- Scenarios ------------------------------------------------------

  /**
   * Upload "cat.jpg", wowify, get token "abc123", poll once for a 404 and
   * once for a 200: the result is shown, the small image is the one
   * returned, and no interval is left running.
   */
  lemma ScenarioCompletedJob(start: Page, preview: string, events: seq<Event>)
    requires start == Initial
    requires events == [UploadFiles(Some([File(2_000_000, "cat.jpg")]), preview),
                        WowifyClicked, PutSucceeded("abc123"),
                        PollFired(3, NotReady), PollFired(3, Ready("AA==", "BB=="))]
    ensures var q := Run(start, events);
      && q.hasWowifiedImage && !q.isUploading
      && q.wowifiedImage.small == "BB=="
      && q.intervals.Live() == {}
      && q.emojiName == "wow-cat"
  {
    var upload := UploadFiles(Some([File(2_000_000, "cat.jpg")]), preview);
    var uploaded := Upload(start, Some([File(2_000_000, "cat.jpg")]), preview);
    UploadCatJpg(preview);
    RunOne(start, upload);
    assert Run(start, [upload]) == uploaded;
    assert uploaded.intervals == NoIntervals && uploaded.pendingSubmissions == 0;
    assert uploaded.originalImageFile.Some?;
    var job := [WowifyClicked, PutSucceeded("abc123"), PollFired(3, NotReady), PollFired(3, Ready("AA==", "BB=="))];
    assert events[1..] == job;
    assert events == [upload] + job;
    RunAppend(start, [upload], job);
    assert uploaded.intervals.next + 2 == 3;
    OneNotReadyThenReady(uploaded, "abc123", "AA==", "BB==", job);
  }

  /**
   * The job part of the scenario above, from any page with a file, no live
   * interval and no outstanding PUT: the poll interval is the job's third
   * handle.
   */
  lemma OneNotReadyThenReady(p: Page, token: string, original: string, small: string, job: seq<Event>)
    requires p.Valid() && p.intervals.Live() == {}
    requires p.originalImageFile.Some? && p.pendingSubmissions == 0
    requires var h := p.intervals.next + 2;
      job == [WowifyClicked, PutSucceeded(token), PollFired(h, NotReady), PollFired(h, Ready(original, small))]
    ensures var q := Run(p, job);
      && q.hasWowifiedImage && !q.isUploading
      && q.wowifiedImage == WowifiedImage(original, small)
      && q.intervals.Live() == {}
      && q.emojiName == p.emojiName
  {
    var h := p.intervals.next + 2;
    var quiet2 := [PollFired(h, NotReady)];
    assert Quiet(quiet2[0]);
    FinishedJobLeavesNoInterval(p, [], token, quiet2, Ready(original, small));
    assert job == [WowifyClicked] + [] + [PutSucceeded(token)] + quiet2 + [PollFired(h, Ready(original, small))];
    QuietRunKeepsName(p, job);
  }

  /** The emoji name survives every event of a job that is not an upload, edit or restart. */
  lemma {:induction false} QuietRunKeepsName(p: Page, events: seq<Event>)
    requires p.Valid()
    requires forall i :: 0 <= i < |events| ==> !events[i].UploadFiles? && !events[i].NameEdited? && !events[i].RestartClicked?
    ensures Run(p, events).emojiName == p.emojiName
    decreases |events|
  {
    if events != [] {
      var next := if Enabled(p, events[0]) then Step(p, events[0]) else p;
      QuietRunKeepsName(next, events[1..]);
    }
  }

  /**
   * With a file uploaded, choose the "forest" background, wowify and
   * complete: the PUT carries "forest", the result is shown, and Rewowify is
   * not offered.
   */
  lemma ScenarioChosenBackground(p: Page, token: string, original: string, small: string)
    requires p.Valid() && p.intervals == NoIntervals
    requires p.originalImageFile.Some? && p.pendingSubmissions == 0
    ensures var chosen := SelectBackground(p, "forest");
      var q := Run(chosen, [WowifyClicked, PutSucceeded(token), PollFired(3, Ready(original, small))]);
      && SubmissionFor(chosen) == Some(Submission(p.originalImageFile.value, "forest"))
      && ShowsResult(q) && !OffersRewowify(q)
  {
    var chosen := SelectBackground(p, "forest");
    var started := Wowify(chosen);
    var polling := SubmitSucceeded(started, token);
    assert polling.intervals.tasks[3] == PollJob(token);
    RunOne(chosen, WowifyClicked);
    RunOne(started, PutSucceeded(token));
    RunOne(polling, PollFired(3, Ready(original, small)));
    assert [WowifyClicked, PutSucceeded(token), PollFired(3, Ready(original, small))]
        == [WowifyClicked] + [PutSucceeded(token)] + [PollFired(3, Ready(original, small))];
    RunAppend(chosen, [WowifyClicked], [PutSucceeded(token)]);
    RunAppend(chosen, [WowifyClicked] + [PutSucceeded(token)], [PollFired(3, Ready(original, small))]);
  }
}
