/** What each route promises its caller, derived from `Recipes.Handle`:
    which commands can run, what the log holds, and which files survive. */
module Guarantees {
  import opened Wrappers
  import opened JsValues
  import opened VideoId
  import opened Artifacts
  import opened Commands
  import opened StageLog
  import opened Recipes
  import opened Messages

  /** A step that spawns a download. */
  predicate Downloads(s: Step)
  {
    (s.Exec? || s.ExecInline?) && IsDownload(s.cmd)
  }

  predicate NoDownloads(steps: seq<Step>)
  {
    forall i :: 0 <= i < |steps| ==> !Downloads(steps[i])
  }

  lemma NoDownloadsAppend(a: seq<Step>, b: seq<Step>)
    requires NoDownloads(a) && NoDownloads(b)
    ensures NoDownloads(a + b)
  {
    forall i | 0 <= i < |a + b| ensures !Downloads((a + b)[i]) {
      if i >= |a| {
        assert (a + b)[i] == b[i - |a|];
      }
    }
  }

  /** No step of a cached portrait recipe downloads. */
  lemma PortraitCachedFetchesNothing(url: string, id: string, start: string, duration: string)
    ensures NoDownloads(PortraitRecipe(url, id, start, duration, true).steps)
  {
    var a, b, c := PortraitFetch(url, id, true), PortraitCut(id, start, duration), PortraitCombine(id);
    assert NoDownloads(a);
    assert NoDownloads(b);
    assert NoDownloads(c);
    NoDownloadsAppend(a, b);
    NoDownloadsAppend(a + b, c);
  }

  /** No step of a cached add-text recipe downloads. */
  lemma AddTextCachedFetchesNothing(url: string, id: string, whisper: Whisper)
    ensures NoDownloads(AddTextRecipe(url, id, true, whisper).steps)
  {
    var t := whisper(ArtifactPath(id, Audio));
    var a, b, c := AddTextFetch(url, id, true), AddTextTranscribe(id, t), AddTextOverlay(id, FilterOf(t));
    assert NoDownloads(a);
    assert NoDownloads(b);
    assert NoDownloads(c);
    NoDownloadsAppend(a, b);
    NoDownloadsAppend(a + b, c);
  }

  /** How every recipe opens: with a note; then, unless the source is
      cached, with the download. */
  lemma RecipeOpening(route: Route, body: Body, url: string, id: string, cached: bool)
    ensures var steps := RecipeFor(route, body, url, id, cached).steps;
      && |steps| > 1 && steps[0].Note?
      && (route.CutVideo? || !cached ==>
            steps[0].line == StartingDownload && Downloads(steps[1]))
      && (route.PortraitVideo? && cached ==> steps[0].line == WebmCached)
      && (route.AddTextVideo? && cached ==> steps[0].line == Mp4Cached)
  {
    var start, duration := Render(body.startTime), Render(body.duration);
    match route
    case CutVideo =>
    case PortraitVideo =>
      var fetch := PortraitFetch(url, id, cached);
      var rest := PortraitCut(id, start, duration) + PortraitCombine(id);
      assert PortraitRecipe(url, id, start, duration, cached).steps == fetch + rest;
      OpeningOf(fetch, rest);
    case AddTextVideo(whisper) =>
      var t := whisper(ArtifactPath(id, Audio));
      var fetch := AddTextFetch(url, id, cached);
      var rest := AddTextTranscribe(id, t) + AddTextOverlay(id, FilterOf(t));
      assert AddTextRecipe(url, id, cached, whisper).steps == fetch + rest;
      OpeningOf(fetch, rest);
  }

  /** The first two steps of `a + b` when `a` has one step or more and
      `b` has one step or more. */
  lemma OpeningOf(a: seq<Step>, b: seq<Step>)
    requires |a| > 0 && |b| > 0
    ensures (a + b)[0] == a[0]
    ensures (a + b)[1] == if |a| > 1 then a[1] else b[0]
  {
  }

  /** A run whose steps download nothing runs no download. */
  lemma RunWithoutDownloads(steps: seq<Step>, tool: Tool, st: State)
    requires NoDownloads(steps)
    ensures var r := RunSteps(steps, tool, st).state;
      forall k :: |st.invoked| <= k < |r.invoked| ==> !IsDownload(r.invoked[k])
  {
    RunStepsGrows(steps, tool, st);
    var r := RunSteps(steps, tool, st).state;
    forall k | |st.invoked| <= k < |r.invoked| ensures !IsDownload(r.invoked[k]) {
      var i :| 0 <= i < |steps| && Spawns(steps[i], r.invoked[k]);
      assert !Downloads(steps[i]);
    }
  }

  /** A run that opens with a note logs that note first. */
  lemma {:induction false} OpensWithNote(steps: seq<Step>, tool: Tool, st: State)
    requires |steps| > 0 && steps[0].Note?
    ensures st.logs + [Text(steps[0].line)] <= RunSteps(steps, tool, st).state.logs
  {
    var st1 := Perform(steps[0], tool, st).state;
    RunStepsGrows(steps[1..], tool, st1);
  }

  /** A run whose second step spawns a command always spawns it, first,
      whatever the command reports, when the first step is a note. */
  lemma {:induction false} SpawnsSecond(steps: seq<Step>, tool: Tool, st: State)
    requires |steps| > 1 && steps[0].Note? && (steps[1].Exec? || steps[1].ExecInline?)
    ensures var r := RunSteps(steps, tool, st).state;
      |st.invoked| < |r.invoked| && r.invoked[|st.invoked|] == steps[1].cmd
  {
    var st1 := Perform(steps[0], tool, st).state;
    var o2 := Perform(steps[1], tool, st1);
    assert steps[1..][0] == steps[1];
    assert o2.state.invoked == st.invoked + [steps[1].cmd];
    if o2.thrown.None? {
      assert steps[1..][1..] == steps[2..];
      RunStepsGrows(steps[2..], tool, o2.state);
    }
  }

  /** Every admitted request ends in a 500 carrying the log, or in the
      download of the route's own output file (or, when the steps left no
      such file, in nothing sent at all). A 500 removes no file, not even
      one the request itself wrote; otherwise exactly the route's cleanup
      files are removed and every other file the steps left is kept. */
  lemma AdmittedResponse(route: Route, body: Body, tool: Tool, st: State)
    requires Admit(body).Admitted?
    ensures var url, id := Admit(body).url, Admit(body).id;
      var cached := !route.CutVideo? && SourceOf(route, id) in st.disk;
      var o := RunSteps(RecipeFor(route, body, url, id, cached).steps, tool, st.(logs := []));
      var (resp, st') := Handle(route, body, tool, st);
      && st.invoked <= st'.invoked
      && st.disk <= o.state.disk
      && (resp.ServerError? || resp.FileSent? || resp.OutputMissing?)
      && (resp.ServerError? <==> o.thrown.Some?)
      && (resp.ServerError? ==>
            resp.message == "An error occurred." && resp.logs == st'.logs && st'.disk == o.state.disk)
      && (!resp.ServerError? ==> st'.disk == o.state.disk - CleanupOf(route, id))
      && (resp.FileSent? <==> o.thrown.None? && OutputOf(route, id) in o.state.disk)
      && (resp.FileSent? ==>
            resp.path == OutputOf(route, id) && resp.filename == resp.path.name && resp.logsHeader == st'.logs)
  {
    var url, id := Admit(body).url, Admit(body).id;
    var cached := !route.CutVideo? && SourceOf(route, id) in st.disk;
    HandleAdmitted(route, body, tool, st, url, id);
    var recipe := RecipeFor(route, body, url, id, cached);
    assert recipe.output == OutputOf(route, id) && recipe.cleanup == CleanupOf(route, id);
    RespondOutcome(recipe, tool, st.(logs := []));
  }

  /** A recipe that opens with a note and downloads nothing logs that note
      first, runs no download, and leaves any file outside its cleanup set
      on disk. */
  lemma QuietRun(recipe: Recipe, tool: Tool, st: State, kept: FilePath)
    requires |recipe.steps| > 0 && recipe.steps[0].Note?
    requires NoDownloads(recipe.steps)
    requires kept in st.disk && kept !in recipe.cleanup
    ensures var (resp, st') := Respond(recipe, tool, st);
      && st.logs + [Text(recipe.steps[0].line)] <= st'.logs
      && (forall k :: |st.invoked| <= k < |st'.invoked| ==> !IsDownload(st'.invoked[k]))
      && kept in st'.disk
  {
    RespondOutcome(recipe, tool, st);
    OpensWithNote(recipe.steps, tool, st);
    RunWithoutDownloads(recipe.steps, tool, st);
  }

  /** The portrait and add-text routes reuse a source video already on
      disk: the log opens with the route's "already exists" line, no
      download command runs, and the source file is still there afterwards. */
  lemma CachedSourceReused(route: Route, body: Body, tool: Tool, st: State)
    requires !route.CutVideo?
    requires Admit(body).Admitted? && SourceOf(route, Admit(body).id) in st.disk
    ensures var (resp, st') := Handle(route, body, tool, st);
      && |st'.logs| > 0
      && st'.logs[0] == Text(if route.PortraitVideo? then WebmCached else Mp4Cached)
      && (forall k :: |st.invoked| <= k < |st'.invoked| ==> !IsDownload(st'.invoked[k]))
      && SourceOf(route, Admit(body).id) in st'.disk
  {
    var url, id := Admit(body).url, Admit(body).id;
    HandleAdmitted(route, body, tool, st, url, id);
    CachedRecipe(route, body, url, id);
    QuietRun(RecipeFor(route, body, url, id, true), tool, st.(logs := []), SourceOf(route, id));
  }

  /** A cached recipe opens with its "already exists" note, downloads
      nothing and does not remove its source. */
  lemma CachedRecipe(route: Route, body: Body, url: string, id: string)
    requires !route.CutVideo?
    ensures var recipe := RecipeFor(route, body, url, id, true);
      && |recipe.steps| > 0
      && recipe.steps[0] == Note(if route.PortraitVideo? then WebmCached else Mp4Cached)
      && NoDownloads(recipe.steps)
      && SourceOf(route, id) !in recipe.cleanup
  {
    RecipeOpening(route, body, url, id, true);
    if route.PortraitVideo? {
      PortraitCachedFetchesNothing(url, id, Render(body.startTime), Render(body.duration));
      ArtifactsApart(id, SourceWebm, Cut);
      ArtifactsApart(id, SourceWebm, Portrait);
    } else {
      AddTextCachedFetchesNothing(url, id, route.whisper);
      ArtifactsApart(id, SourceMp4, Audio);
      ArtifactsApart(id, SourceMp4, Transcription);
    }
  }

  /** /cut-video always downloads, and so do the other routes when their
      source is not on disk: the first command a request runs is the
      download, and the log opens with "Starting video download...". */
  lemma DownloadFirst(route: Route, body: Body, tool: Tool, st: State)
    requires Admit(body).Admitted?
    requires route.CutVideo? || SourceOf(route, Admit(body).id) !in st.disk
    ensures var (resp, st') := Handle(route, body, tool, st);
      && |st.invoked| < |st'.invoked| && IsDownload(st'.invoked[|st.invoked|])
      && |st'.logs| > 0 && st'.logs[0] == Text(StartingDownload)
  {
    var url, id := Admit(body).url, Admit(body).id;
    HandleAdmitted(route, body, tool, st, url, id);
    var recipe := RecipeFor(route, body, url, id, false);
    var st0 := st.(logs := []);
    RespondOutcome(recipe, tool, st0);
    RecipeOpening(route, body, url, id, false);
    OpensWithNote(recipe.steps, tool, st0);
    SpawnsSecond(recipe.steps, tool, st0);
  }

  /** A run that reaches a failed transcription throws. */
  lemma {:induction false} ThrowsAtFailedTranscription(steps: seq<Step>, k: nat, tool: Tool, st: State)
    requires k < |steps| && steps[k].Transcribe? && steps[k].result.TranscribeFailed?
    ensures RunSteps(steps, tool, st).thrown.Some?
  {
    var o := Perform(steps[0], tool, st);
    if k > 0 && o.thrown.None? {
      ThrowsAtFailedTranscription(steps[1..], k - 1, tool, o.state);
    }
  }

  /** A step that burns captions into the video. */
  predicate Burns(s: Step)
  {
    (s.Exec? || s.ExecInline?) && s.cmd.BurnCaptions?
  }

  /** Before its overlay steps, the add-text recipe burns nothing. */
  lemma TranscribeBurnsNothing(url: string, id: string, cached: bool, t: Transcription)
    ensures var a := AddTextFetch(url, id, cached) + AddTextTranscribe(id, t);
      forall i :: 0 <= i < |a| ==> !Burns(a[i])
  {
    var fetch, transcribe := AddTextFetch(url, id, cached), AddTextTranscribe(id, t);
    forall i | 0 <= i < |fetch + transcribe| ensures !Burns((fetch + transcribe)[i]) {
      if i >= |fetch| {
        assert (fetch + transcribe)[i] == transcribe[i - |fetch|];
      }
    }
  }

  /** When whisper throws, the add-text recipe throws before it spawns any
      command that burns captions. */
  lemma AddTextStopsAtTranscription(url: string, id: string, cached: bool, whisper: Whisper, tool: Tool, st: State)
    requires whisper(ArtifactPath(id, Audio)).TranscribeFailed?
    ensures var r := RunSteps(AddTextRecipe(url, id, cached, whisper).steps, tool, st);
      && r.thrown.Some?
      && forall k :: |st.invoked| <= k < |r.state.invoked| ==> !r.state.invoked[k].BurnCaptions?
  {
    var t := whisper(ArtifactPath(id, Audio));
    var fetch, transcribe := AddTextFetch(url, id, cached), AddTextTranscribe(id, t);
    var a, b := fetch + transcribe, AddTextOverlay(id, FilterOf(t));
    assert AddTextRecipe(url, id, cached, whisper).steps == a + b;
    assert a[|fetch| + 3] == transcribe[3];
    ThrowsAtFailedTranscription(a, |fetch| + 3, tool, st);
    ShortCircuit(a, b, tool, st);
    RunStepsGrows(a, tool, st);
    TranscribeBurnsNothing(url, id, cached, t);
    var r := RunSteps(a, tool, st).state;
    forall k | |st.invoked| <= k < |r.invoked| ensures !r.invoked[k].BurnCaptions? {
      var i :| 0 <= i < |a| && Spawns(a[i], r.invoked[k]);
      assert !Burns(a[i]);
    }
  }

  /** When whisper throws, /add-text-video never burns captions: the
      request ends in a 500 and no `BurnCaptions` command is spawned. */
  lemma TranscriptionFailureStops(body: Body, whisper: Whisper, tool: Tool, st: State)
    requires Admit(body).Admitted?
    requires whisper(ArtifactPath(Admit(body).id, Audio)).TranscribeFailed?
    ensures var (resp, st') := Handle(AddTextVideo(whisper), body, tool, st);
      && resp.ServerError?
      && forall k :: |st.invoked| <= k < |st'.invoked| ==> !st'.invoked[k].BurnCaptions?
  {
    var url, id := Admit(body).url, Admit(body).id;
    var route := AddTextVideo(whisper);
    var cached := SourceOf(route, id) in st.disk;
    HandleAdmitted(route, body, tool, st, url, id);
    var st0 := st.(logs := []);
    AddTextStopsAtTranscription(url, id, cached, whisper, tool, st0);
    RespondOutcome(RecipeFor(route, body, url, id, cached), tool, st0);
  }

  /** The portrait route's uncached fetch throws when the download fails or
      leaves no `.webm` behind: the download is then the only command the
      recipe spawns. */
  lemma PortraitFetchStops(url: string, id: string, start: string, duration: string, tool: Tool, st: State)
    requires var run := tool(FetchMerged(id, url), st.disk);
      run.failed || ArtifactPath(id, SourceWebm) !in st.disk + run.writes
    ensures var run := tool(FetchMerged(id, url), st.disk);
      var r := RunSteps(PortraitRecipe(url, id, start, duration, false).steps, tool, st);
      && r.thrown == Some(if run.failed then FailureReason(run) else Text(DownloadMissing))
      && r.state.invoked == st.invoked + [FetchMerged(id, url)]
      && r.state.disk == st.disk + run.writes
  {
    var fetch := PortraitFetch(url, id, false);
    var rest := PortraitCut(id, start, duration) + PortraitCombine(id);
    assert PortraitRecipe(url, id, start, duration, false).steps == fetch + rest;
    var st1 := Perform(fetch[0], tool, st).state;
    assert RunSteps(fetch, tool, st) == RunSteps(fetch[1..], tool, st1);
    var o2 := Perform(fetch[1], tool, st1);
    if o2.thrown.None? {
      var st3 := Perform(fetch[2], tool, o2.state).state;
      assert RunSteps(fetch[1..], tool, st1) == RunSteps(fetch[2..], tool, o2.state);
      assert RunSteps(fetch[2..], tool, o2.state) == RunSteps(fetch[3..], tool, st3);
    }
    ShortCircuit(fetch, rest, tool, st);
  }

  /** /create-portrait-video checks that the download produced the `.webm`:
      when it did not (or the download failed), the request ends in a 500
      whose last log entry names the failure, and nothing after the
      download runs. */
  lemma PortraitMissingDownloadStops(body: Body, tool: Tool, st: State)
    requires Admit(body).Admitted?
    requires ArtifactPath(Admit(body).id, SourceWebm) !in st.disk
    requires var run := tool(FetchMerged(Admit(body).id, Admit(body).url), st.disk);
      run.failed || ArtifactPath(Admit(body).id, SourceWebm) !in run.writes
    ensures var url, id := Admit(body).url, Admit(body).id;
      var run := tool(FetchMerged(id, url), st.disk);
      var (resp, st') := Handle(PortraitVideo, body, tool, st);
      && resp.ServerError?
      && |st'.logs| > 0
      && st'.logs[|st'.logs| - 1] ==
           "Error: " + (if run.failed then FailureReason(run) else Text(DownloadMissing))
      && st'.invoked == st.invoked + [FetchMerged(id, url)]
      && st'.disk == st.disk + run.writes
  {
    var url, id := Admit(body).url, Admit(body).id;
    HandleAdmitted(PortraitVideo, body, tool, st, url, id);
    var st0 := st.(logs := []);
    PortraitFetchStops(url, id, Render(body.startTime), Render(body.duration), tool, st0);
    RespondOutcome(RecipeFor(PortraitVideo, body, url, id, false), tool, st0);
  }

  /** The /cut-video recipe when both of its commands succeed: one log
      entry per note and one (stdout) per command, in order. */
  lemma CutRecipeSucceeds(url: string, id: string, start: string, duration: string, tool: Tool, st: State)
    requires var video := ArtifactPath(id, SourceMp4);
      var run1 := tool(FetchBest(video, url), st.disk);
      !run1.failed && !tool(Trim(video, start, duration, ArtifactPath(id, Short)), st.disk + run1.writes).failed
    ensures var video, output := ArtifactPath(id, SourceMp4), ArtifactPath(id, Short);
      var fetch, trim := FetchBest(video, url), Trim(video, start, duration, output);
      var run1 := tool(fetch, st.disk);
      var run2 := tool(trim, st.disk + run1.writes);
      RunSteps(CutRecipe(url, id, start, duration).steps, tool, st) ==
        Outcome(State(st.logs + [Text(StartingDownload), run1.stdout, Text(StartingCut), run2.stdout, Text(ProcessingCompleted)],
                      st.disk + run1.writes + run2.writes,
                      st.invoked + [fetch, trim]),
                None)
  {
    var steps := CutRecipe(url, id, start, duration).steps;
    var st1 := Perform(steps[0], tool, st).state;
    var st2 := Perform(steps[1], tool, st1).state;
    var st3 := Perform(steps[2], tool, st2).state;
    var st4 := Perform(steps[3], tool, st3).state;
    assert RunSteps(steps, tool, st) == RunSteps(steps[1..], tool, st1);
    assert RunSteps(steps[1..], tool, st1) == RunSteps(steps[2..], tool, st2);
    assert RunSteps(steps[2..], tool, st2) == RunSteps(steps[3..], tool, st3);
    assert RunSteps(steps[3..], tool, st3) == RunSteps(steps[4..], tool, st4);
    assert st.logs + [Text(StartingDownload), InlineEntry(tool(steps[1].cmd, st1.disk))]
      + [Text(StartingCut), InlineEntry(tool(steps[3].cmd, st3.disk))] + [Text(ProcessingCompleted)]
      == st.logs + [Text(StartingDownload), InlineEntry(tool(steps[1].cmd, st1.disk)),
                    Text(StartingCut), InlineEntry(tool(steps[3].cmd, st3.disk)), Text(ProcessingCompleted)];
  }

  /** /cut-video when both commands succeed sends `outputs/<id>_short.mp4`
      under the name `<id>_short.mp4`, with a five-entry log header (or
      nothing, if the cut left no such file), and then both the download
      and the clip are gone. */
  lemma CutVideoDelivered(body: Body, tool: Tool, st: State)
    requires Admit(body).Admitted?
    requires var url, id := Admit(body).url, Admit(body).id;
      var video := ArtifactPath(id, SourceMp4);
      var run1 := tool(FetchBest(video, url), st.disk);
      && !run1.failed
      && !tool(Trim(video, Render(body.startTime), Render(body.duration), ArtifactPath(id, Short)),
               st.disk + run1.writes).failed
    ensures var url, id := Admit(body).url, Admit(body).id;
      var video, output := ArtifactPath(id, SourceMp4), ArtifactPath(id, Short);
      var run1 := tool(FetchBest(video, url), st.disk);
      var run2 := tool(Trim(video, Render(body.startTime), Render(body.duration), output), st.disk + run1.writes);
      var (resp, st') := Handle(CutVideo, body, tool, st);
      var written := st.disk + run1.writes + run2.writes;
      && resp == (if output in written then
                    FileSent(output, id + "_short.mp4",
                             [Text(StartingDownload), run1.stdout, Text(StartingCut), run2.stdout, Text(ProcessingCompleted)])
                  else OutputMissing(output))
      && st'.disk == written - {video, output}
  {
    var url, id := Admit(body).url, Admit(body).id;
    HandleAdmitted(CutVideo, body, tool, st, url, id);
    CutRecipeSucceeds(url, id, Render(body.startTime), Render(body.duration), tool, st.(logs := []));
  }

  /** The /cut-video recipe when its download fails: the opening note,
      the tool's `stderr || stdout`, and the fixed failure message thrown. */
  lemma CutRecipeDownloadFails(url: string, id: string, start: string, duration: string, tool: Tool, st: State)
    requires tool(FetchBest(ArtifactPath(id, SourceMp4), url), st.disk).failed
    ensures var fetch := FetchBest(ArtifactPath(id, SourceMp4), url);
      var run := tool(fetch, st.disk);
      RunSteps(CutRecipe(url, id, start, duration).steps, tool, st) ==
        Outcome(State(st.logs + [Text(StartingDownload), if run.stderr != "" then run.stderr else run.stdout],
                      st.disk + run.writes, st.invoked + [fetch]),
                Some(Text(DownloadFailed)))
  {
    var steps := CutRecipe(url, id, start, duration).steps;
    var st1 := Perform(steps[0], tool, st).state;
    assert RunSteps(steps, tool, st) == RunSteps(steps[1..], tool, st1);
    assert st.logs + [Text(StartingDownload)] + [InlineEntry(tool(steps[1].cmd, st1.disk))]
      == st.logs + [Text(StartingDownload), InlineEntry(tool(steps[1].cmd, st1.disk))];
  }

  /** /cut-video when the download fails: the 500 carries the opening
      note, the tool's `stderr || stdout` and the fixed error, and no cut
      runs. */
  lemma CutVideoDownloadFailed(body: Body, tool: Tool, st: State)
    requires Admit(body).Admitted?
    requires tool(FetchBest(ArtifactPath(Admit(body).id, SourceMp4), Admit(body).url), st.disk).failed
    ensures var run := tool(FetchBest(ArtifactPath(Admit(body).id, SourceMp4), Admit(body).url), st.disk);
      var (resp, st') := Handle(CutVideo, body, tool, st);
      && resp == ServerError("An error occurred.",
           [Text(StartingDownload), if run.stderr != "" then run.stderr else run.stdout, "Error: " + Text(DownloadFailed)])
      && st'.invoked == st.invoked + [FetchBest(ArtifactPath(Admit(body).id, SourceMp4), Admit(body).url)]
      && st'.disk == st.disk + run.writes
  {
    var url, id := Admit(body).url, Admit(body).id;
    HandleAdmitted(CutVideo, body, tool, st, url, id);
    CutRecipeDownloadFails(url, id, Render(body.startTime), Render(body.duration), tool, st.(logs := []));
  }
}
