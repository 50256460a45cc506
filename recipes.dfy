/** The three routes' step sequences, written as data and run by one
    interpreter. This is the specification the imperative handlers in
    module Server are proved against: steps run in order, the first thrown
    error ends the run, and only then is the response chosen and the
    route's files removed. */
module Recipes {
  import opened Wrappers
  import opened JsValues
  import opened VideoId
  import opened Artifacts
  import opened Commands
  import opened StageLog
  import opened Captions
  import opened Messages

  /** What `whisper` returns for an audio file: a transcript, or the
      message of the error it throws. */
  datatype Transcription = Transcribed(segments: seq<Segment>) | TranscribeFailed(message: string)

  type Whisper = FilePath -> Transcription

  /** One step of a route's try block. */
  datatype Step =
    | Note(line: Message)                           // logs.push(line)
    | Exec(cmd: Command)                            // await execWithLogs(cmd, logs)
    | ExecInline(cmd: Command, failure: Message)    // the /cut-video promise around exec
    | RequireFile(path: FilePath, failure: Message) // if (!fs.existsSync(path)) throw new Error(failure)
    | Transcribe(result: Transcription, saveTo: FilePath) // whisper, then fs.writeFileSync(saveTo, ...)

  /** The step spawns `c`. */
  predicate Spawns(s: Step, c: Command)
  {
    (s.Exec? || s.ExecInline?) && s.cmd == c
  }

  /** Some step of `steps` spawns `c`. */
  predicate Mentions(steps: seq<Step>, c: Command)
  {
    exists i | 0 <= i < |steps| :: Spawns(steps[i], c)
  }

  /** A request's log, the files on disk and (as a record for the proofs)
      every command spawned so far, oldest first. */
  datatype State = State(logs: seq<string>, disk: set<FilePath>, invoked: seq<Command>)

  /** The state after some steps, and the message of the error thrown, if any. */
  datatype Outcome = Outcome(state: State, thrown: Option<string>)

  /** One step. */
  function Perform(step: Step, tool: Tool, st: State): Outcome
  {
    match step
    case Note(line) =>
      Outcome(st.(logs := st.logs + [Text(line)]), None)
    case Exec(cmd) =>
      var run := tool(cmd, st.disk);
      Outcome(State(st.logs + ExecEntries(cmd, run), st.disk + run.writes, st.invoked + [cmd]),
              if run.failed then Some(FailureReason(run)) else None)
    case ExecInline(cmd, failure) =>
      var run := tool(cmd, st.disk);
      Outcome(State(st.logs + [InlineEntry(run)], st.disk + run.writes, st.invoked + [cmd]),
              if run.failed then Some(Text(failure)) else None)
    case RequireFile(path, failure) =>
      Outcome(st, if path in st.disk then None else Some(Text(failure)))
    case Transcribe(result, saveTo) =>
      match result
      case Transcribed(_) => Outcome(st.(disk := st.disk + {saveTo}), None)
      case TranscribeFailed(message) => Outcome(st, Some(message))
  }

  /** Steps in order, stopping at the first one that throws. */
  function RunSteps(steps: seq<Step>, tool: Tool, st: State): Outcome
  {
    if steps == [] then Outcome(st, None)
    else
      var o := Perform(steps[0], tool, st);
      if o.thrown.Some? then o else RunSteps(steps[1..], tool, o.state)
  }

  /** The run from step `k` on, by position: the form the handlers in
      module Server follow as they go. */
  function RunFrom(steps: seq<Step>, k: nat, tool: Tool, st: State): Outcome
    requires k <= |steps|
    decreases |steps| - k
  {
    if k == |steps| then Outcome(st, None)
    else
      var o := Perform(steps[k], tool, st);
      if o.thrown.Some? then o else RunFrom(steps, k + 1, tool, o.state)
  }

  /** One step further into a run by position. */
  lemma Proceed(steps: seq<Step>, k: nat, tool: Tool, st: State)
    requires k < |steps|
    ensures RunFrom(steps, k, tool, st) ==
      var o := Perform(steps[k], tool, st);
      if o.thrown.Some? then o else RunFrom(steps, k + 1, tool, o.state)
  {
  }

  /** Running by position from `k` is running the suffix from `k`. */
  lemma {:induction false} RunFromSuffix(steps: seq<Step>, k: nat, tool: Tool, st: State)
    requires k <= |steps|
    ensures RunFrom(steps, k, tool, st) == RunSteps(steps[k..], tool, st)
    decreases |steps| - k
  {
    if k < |steps| {
      assert steps[k..][0] == steps[k];
      assert steps[k..][1..] == steps[k + 1..];
      var o := Perform(steps[k], tool, st);
      if o.thrown.None? {
        RunFromSuffix(steps, k + 1, tool, o.state);
      }
    }
  }

  // ----- properties of the interpreter -----

  /** Running steps only appends to the log, only adds files, and spawns
      only commands that its steps name. */
  lemma {:induction false} RunStepsGrows(steps: seq<Step>, tool: Tool, st: State)
    ensures var r := RunSteps(steps, tool, st).state;
      && st.logs <= r.logs
      && st.disk <= r.disk
      && st.invoked <= r.invoked
      && forall k :: |st.invoked| <= k < |r.invoked| ==> Mentions(steps, r.invoked[k])
  {
    if steps != [] {
      var o := Perform(steps[0], tool, st);
      if o.thrown.None? {
        RunStepsGrows(steps[1..], tool, o.state);
        var r := RunSteps(steps, tool, st).state;
        forall k | |st.invoked| <= k < |r.invoked| ensures Mentions(steps, r.invoked[k]) {
          if k < |o.state.invoked| {
            assert Spawns(steps[0], r.invoked[k]);
          } else {
            var i :| 0 <= i < |steps[1..]| && Spawns(steps[1..][i], r.invoked[k]);
            assert Spawns(steps[i + 1], r.invoked[k]);
          }
        }
      } else {
        var r := o.state;
        forall k | |st.invoked| <= k < |r.invoked| ensures Mentions(steps, r.invoked[k]) {
          assert Spawns(steps[0], r.invoked[k]);
        }
      }
    }
  }

  /** Running `a + b` is running `a`, then `b` only if `a` threw nothing. */
  lemma {:induction false} RunStepsAppend(a: seq<Step>, b: seq<Step>, tool: Tool, st: State)
    ensures RunSteps(a + b, tool, st) ==
      var o := RunSteps(a, tool, st);
      if o.thrown.Some? then o else RunSteps(b, tool, o.state)
  {
    if a == [] {
      assert a + b == b;
    } else {
      assert (a + b)[0] == a[0];
      assert (a + b)[1..] == a[1..] + b;
      var o := Perform(a[0], tool, st);
      if o.thrown.None? {
        RunStepsAppend(a[1..], b, tool, o.state);
      }
    }
  }

  /** Short-circuit: whatever follows a failing prefix never runs. */
  lemma ShortCircuit(a: seq<Step>, b: seq<Step>, tool: Tool, st: State)
    requires RunSteps(a, tool, st).thrown.Some?
    ensures RunSteps(a + b, tool, st) == RunSteps(a, tool, st)
  {
    RunStepsAppend(a, b, tool, st);
  }

  /** A run that throws is the run of a prefix that threw nothing, followed
      by one failing step `k`; the steps after `k` play no part. */
  lemma {:induction false} FirstFailure(steps: seq<Step>, tool: Tool, st: State) returns (k: nat)
    requires RunSteps(steps, tool, st).thrown.Some?
    ensures k < |steps|
    ensures RunSteps(steps[..k], tool, st).thrown.None?
    ensures RunSteps(steps, tool, st) == Perform(steps[k], tool, RunSteps(steps[..k], tool, st).state)
    ensures !steps[k].Note?
  {
    var o := Perform(steps[0], tool, st);
    if o.thrown.Some? {
      k := 0;
      assert steps[..0] == [];
    } else {
      var j := FirstFailure(steps[1..], tool, o.state);
      k := j + 1;
      assert steps[..k] == [steps[0]] + steps[1..][..j];
      RunStepsAppend([steps[0]], steps[1..][..j], tool, st);
      assert RunSteps([steps[0]], tool, st) == o by {
        assert [steps[0]][1..] == [];
      }
    }
  }

  // ----- the routes -----

  /** A route's steps, the file it sends and the files its download callback removes. */
  datatype Recipe = Recipe(steps: seq<Step>, output: FilePath, cleanup: set<FilePath>)

  /** What the client gets. `NoReply` is a handler that throws before its
      try block, so that no response is ever sent. `OutputMissing` is
      `res.download` of a file that is not there: the error goes to the
      download callback, which ignores it, so nothing is sent either. */
  datatype Response =
    | BadRequest(message: string)
    | NoReply
    | ServerError(message: string, logs: seq<string>)
    | FileSent(path: FilePath, filename: string, logsHeader: seq<string>)
    | OutputMissing(path: FilePath)

  /** The catch block, or the response and the download callback. */
  function Respond(recipe: Recipe, tool: Tool, st: State): (r: (Response, State))
    ensures r.0.ServerError? || r.0.FileSent? || r.0.OutputMissing?
  {
    var o := RunSteps(recipe.steps, tool, st);
    match o.thrown
    case Some(message) =>
      var logs := o.state.logs + ["Error: " + message];
      (ServerError("An error occurred.", logs), o.state.(logs := logs))
    case None =>
      var after := o.state.(disk := o.state.disk - recipe.cleanup);
      if recipe.output in o.state.disk then
        (FileSent(recipe.output, recipe.output.name, o.state.logs), after)
      else
        (OutputMissing(recipe.output), after)
  }

  /** After the response, on success or failure: the log has only grown
      (by exactly one `Error:` entry after the steps' own on failure); on
      failure every file the request started with or wrote is still
      there; on success exactly the route's cleanup files are gone, and
      the output file is sent, under its own name, exactly when the steps
      left it on disk. */
  lemma RespondOutcome(recipe: Recipe, tool: Tool, st: State)
    ensures var (resp, st') := Respond(recipe, tool, st);
      var o := RunSteps(recipe.steps, tool, st);
      && st.logs <= o.state.logs <= st'.logs
      && st.invoked <= st'.invoked == o.state.invoked
      && st.disk <= o.state.disk
      && (o.thrown.Some? ==>
            && resp == ServerError("An error occurred.", st'.logs)
            && st'.logs == o.state.logs + ["Error: " + o.thrown.value]
            && st'.disk == o.state.disk)
      && (o.thrown.None? ==>
            && st'.logs == o.state.logs
            && st'.disk == o.state.disk - recipe.cleanup
            && (resp.FileSent? <==> recipe.output in o.state.disk)
            && (resp.FileSent? ==> resp == FileSent(recipe.output, recipe.output.name, st'.logs))
            && (!resp.FileSent? ==> resp == OutputMissing(recipe.output)))
  {
    RunStepsGrows(recipe.steps, tool, st);
  }

  datatype Route = CutVideo | PortraitVideo | AddTextVideo(whisper: Whisper)

  /** The downloaded source video each route works from. */
  function SourceOf(route: Route, id: string): FilePath
  {
    ArtifactPath(id, if route.PortraitVideo? then SourceWebm else SourceMp4)
  }

  /** The file each route sends back. */
  function OutputOf(route: Route, id: string): FilePath
  {
    ArtifactPath(id, match route
      case CutVideo => Short
      case PortraitVideo => Portrait
      case AddTextVideo(_) => WithText)
  }

  /** The files each route's download callback unlinks. */
  function CleanupOf(route: Route, id: string): set<FilePath>
  {
    match route
    case CutVideo => {ArtifactPath(id, SourceMp4), ArtifactPath(id, Short)}
    case PortraitVideo => {ArtifactPath(id, Cut), ArtifactPath(id, Portrait)}
    case AddTextVideo(_) => {ArtifactPath(id, Audio), ArtifactPath(id, Transcription)}
  }

  function CutRecipe(url: string, id: string, start: string, duration: string): Recipe
  {
    var video, output := ArtifactPath(id, SourceMp4), ArtifactPath(id, Short);
    Recipe(
      [ Note(StartingDownload),
        ExecInline(FetchBest(video, url), DownloadFailed),
        Note(StartingCut),
        ExecInline(Trim(video, start, duration, output), CutFailed),
        Note(ProcessingCompleted) ],
      OutputOf(CutVideo, id), CleanupOf(CutVideo, id))
  }

  function PortraitFetch(url: string, id: string, cached: bool): seq<Step>
  {
    if cached then
      [ Note(WebmCached) ]
    else
      [ Note(StartingDownload),
        Exec(FetchMerged(id, url)),
        Note(Downloaded),
        RequireFile(ArtifactPath(id, SourceWebm), DownloadMissing) ]
  }

  function PortraitCut(id: string, start: string, duration: string): seq<Step>
  {
    var source, cut := ArtifactPath(id, SourceWebm), ArtifactPath(id, Cut);
    [ Note(StartingCut),
      Exec(Trim(source, start, duration, cut)),
      Note(CutCompleted),
      RequireFile(cut, CutMissing) ]
  }

  function PortraitCombine(id: string): seq<Step>
  {
    var cut, final := ArtifactPath(id, Cut), ArtifactPath(id, Portrait);
    [ Note(StartingCombine),
      Exec(StackPortrait(cut, Entertainment, final)),
      Note(CombineCompleted),
      RequireFile(final, PortraitMissing),
      Note(SendingFinal) ]
  }

  function PortraitRecipe(url: string, id: string, start: string, duration: string, cached: bool): Recipe
  {
    Recipe(PortraitFetch(url, id, cached) + PortraitCut(id, start, duration) + PortraitCombine(id),
           OutputOf(PortraitVideo, id), CleanupOf(PortraitVideo, id))
  }

  function AddTextFetch(url: string, id: string, cached: bool): seq<Step>
  {
    if cached then
      [ Note(Mp4Cached) ]
    else
      [ Note(StartingDownload),
        Exec(FetchBest(ArtifactPath(id, SourceMp4), url)) ]
  }

  function AddTextTranscribe(id: string, transcription: Transcription): seq<Step>
  {
    var video, audio, saved := ArtifactPath(id, SourceMp4), ArtifactPath(id, Audio), ArtifactPath(id, Transcription);
    [ Note(ExtractingAudio),
      Exec(ExtractAudio(video, audio)),
      Note(Transcribing),
      Transcribe(transcription, saved),
      Note(TranscriptionCompleted) ]
  }

  /** The filter handed to ffmpeg; it is only reached when the
      transcription succeeded. */
  function FilterOf(transcription: Transcription): string
  {
    if transcription.Transcribed? then BuildFilter(transcription.segments) else ""
  }

  function AddTextOverlay(id: string, filter: string): seq<Step>
  {
    var video, output := ArtifactPath(id, SourceMp4), ArtifactPath(id, WithText);
    [ Note(GeneratingFilter),
      Note(AddingText),
      Exec(BurnCaptions(video, filter, output)),
      Note(TextAdded) ]
  }

  function AddTextRecipe(url: string, id: string, cached: bool, whisper: Whisper): Recipe
  {
    var transcription := whisper(ArtifactPath(id, Audio));
    Recipe(AddTextFetch(url, id, cached) + AddTextTranscribe(id, transcription) + AddTextOverlay(id, FilterOf(transcription)),
           OutputOf(AddTextVideo(whisper), id), CleanupOf(AddTextVideo(whisper), id))
  }

  /** The recipe a route runs for an admitted body, given whether its
      download file was already on disk when the request arrived. */
  function RecipeFor(route: Route, body: Body, url: string, id: string, cached: bool): Recipe
  {
    match route
    case CutVideo => CutRecipe(url, id, Render(body.startTime), Render(body.duration))
    case PortraitVideo => PortraitRecipe(url, id, Render(body.startTime), Render(body.duration), cached)
    case AddTextVideo(whisper) => AddTextRecipe(url, id, cached, whisper)
  }

  /** One request to one route, from the state the server is in. */
  function Handle(route: Route, body: Body, tool: Tool, st: State): (r: (Response, State))
    ensures !Admit(body).Admitted? <==> r.0.BadRequest? || r.0.NoReply?
    ensures !Admit(body).Admitted? ==> r.1 == st
    ensures Admit(body).MissingParameters? <==> r.0 == BadRequest("Missing required parameters.")
    ensures Admit(body).UrlNotAString? <==> r.0 == NoReply
    ensures Admit(body).InvalidUrl? <==> r.0 == BadRequest("Invalid YouTube URL.")
  {
    match Admit(body)
    case MissingParameters => (BadRequest("Missing required parameters."), st)
    case UrlNotAString => (NoReply, st)
    case InvalidUrl => (BadRequest("Invalid YouTube URL."), st)
    case Admitted(url, id) =>
      var cached := !route.CutVideo? && SourceOf(route, id) in st.disk;
      Respond(RecipeFor(route, body, url, id, cached), tool, st.(logs := []))
  }

  /** An admitted request starts a fresh log and runs its route's recipe. */
  lemma HandleAdmitted(route: Route, body: Body, tool: Tool, st: State, url: string, id: string)
    requires Admit(body) == Admitted(url, id)
    ensures Handle(route, body, tool, st) ==
      Respond(RecipeFor(route, body, url, id, !route.CutVideo? && SourceOf(route, id) in st.disk),
              tool, st.(logs := []))
  {
  }
}
