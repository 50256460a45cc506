/** The route handlers as the source writes them: each one pushes onto a
    request's `logs` array step by step, awaits one command at a time,
    leaves its try block at the first thrown error, and unlinks files in
    the download callback. Each handler is proved to do exactly what
    `Recipes.Handle` says. */
module Server {
  import opened Wrappers
  import opened JsValues
  import opened VideoId
  import opened Artifacts
  import opened Commands
  import opened StageLog
  import opened Captions
  import opened Recipes
  import opened Messages

  /** One request being served: its log, the files on disk (the
      `fs.existsSync` view), and the external tools it spawns. */
  class Job {
    var logs: seq<string>
    var disk: set<FilePath>
    ghost var invoked: seq<Command>
    const tool: Tool

    constructor (files: set<FilePath>, tool: Tool)
      ensures logs == [] && disk == files && invoked == [] && this.tool == tool
    {
      logs := [];
      disk := files;
      invoked := [];
      this.tool := tool;
    }

    ghost function Snapshot(): State
      reads this
    {
      State(logs, disk, invoked)
    }

    /** `execWithLogs(command, logs)`: run the command, log the command line
        and each non-empty stream, then settle. */
    method ExecWithLogs(cmd: Command) returns (s: Settled)
      modifies this
      ensures Snapshot() == Perform(Exec(cmd), tool, old(Snapshot())).state
      ensures s == Settle(tool(cmd, old(disk)))
    {
      var run := tool(cmd, disk);
      invoked := invoked + [cmd];
      disk := disk + run.writes;
      logs := logs + ["Command: " + CommandLine(cmd)];
      if run.stdout != "" {
        logs := logs + ["STDOUT: " + run.stdout];
      }
      if run.stderr != "" {
        logs := logs + ["STDERR: " + run.stderr];
      }
      if run.failed {
        var reason := if run.stderr != "" then run.stderr else if run.stdout != "" then run.stdout else run.message;
        return Rejected(reason);
      }
      s := Resolved(run.stdout);
    }

    /** The promise /cut-video wraps around `exec`: log `stderr || stdout`
        and reject with a fixed message, or log `stdout` and resolve with
        no value. The result is the rejection's message, if any. */
    method ExecInline(cmd: Command, failure: Message) returns (rejected: Option<string>)
      modifies this
      ensures Snapshot() == Perform(Step.ExecInline(cmd, failure), tool, old(Snapshot())).state
      ensures rejected.Some? <==> tool(cmd, old(disk)).failed
      ensures rejected.Some? ==> rejected.value == Text(failure)
    {
      var run := tool(cmd, disk);
      invoked := invoked + [cmd];
      disk := disk + run.writes;
      if run.failed {
        logs := logs + [if run.stderr != "" then run.stderr else run.stdout];
        return Some(Text(failure));
      }
      logs := logs + [run.stdout];
      rejected := None;
    }

    method Push(line: Message)
      modifies this
      ensures Snapshot() == Perform(Note(line), tool, old(Snapshot())).state
    {
      logs := logs + [Text(line)];
    }

    /** The catch block: log the error and answer 500 with the log. */
    method Fail(message: string) returns (resp: Response)
      modifies this
      ensures logs == old(logs) + ["Error: " + message]
      ensures disk == old(disk) && invoked == old(invoked)
      ensures resp == ServerError("An error occurred.", logs)
    {
      logs := logs + ["Error: " + message];
      resp := ServerError("An error occurred.", logs);
    }

    /** `res.download(output, ...)` with the log in a header; its callback
        unlinks the two given files. A missing output is reported only to
        the callback, so then nothing is sent. */
    method Deliver(output: FilePath, first: FilePath, second: FilePath) returns (resp: Response)
      modifies this
      ensures output in old(disk) ==> resp == FileSent(output, output.name, logs)
      ensures output !in old(disk) ==> resp == OutputMissing(output)
      ensures logs == old(logs) && invoked == old(invoked)
      ensures disk == old(disk) - {first, second}
    {
      if output in disk {
        resp := FileSent(output, output.name, logs);
      } else {
        resp := OutputMissing(output);
      }
      disk := disk - {first};
      disk := disk - {second};
    }

    /** The end of a handler: the catch block when the try block threw,
        otherwise the download with its cleanup callback. */
    method Answer(ghost recipe: Recipe, ghost st: State, thrown: Option<string>,
                  output: FilePath, first: FilePath, second: FilePath) returns (resp: Response)
      requires Outcome(Snapshot(), thrown) == RunSteps(recipe.steps, tool, st)
      requires recipe.output == output && recipe.cleanup == {first, second}
      modifies this
      ensures (resp, Snapshot()) == Respond(recipe, tool, st)
    {
      if thrown.Some? {
        resp := Fail(thrown.value);
      } else {
        resp := Deliver(output, first, second);
      }
    }

    /** POST /cut-video */
    method CutVideo(body: Body) returns (resp: Response)
      modifies this
      ensures (resp, Snapshot()) == Handle(Route.CutVideo, body, tool, old(Snapshot()))
    {
      var admission := Admit(body);
      if admission.MissingParameters? {
        return BadRequest("Missing required parameters.");
      } else if admission.UrlNotAString? {
        return NoReply;
      } else if admission.InvalidUrl? {
        return BadRequest("Invalid YouTube URL.");
      }
      var url, id := admission.url, admission.id;
      resp := ServeCut(body, url, id);
    }

    /** /cut-video once the body is admitted: a fresh log, the try block,
        then the response. */
    method ServeCut(body: Body, url: string, id: string) returns (resp: Response)
      requires Admit(body) == Admitted(url, id)
      modifies this
      ensures (resp, Snapshot()) == Handle(Route.CutVideo, body, tool, old(Snapshot()))
    {
      HandleAdmitted(Route.CutVideo, body, tool, Snapshot(), url, id);
      var start, duration := Render(body.startTime), Render(body.duration);
      logs := [];
      ghost var st := Snapshot();
      var thrown := CutSteps(url, id, start, duration);
      resp := Answer(CutRecipe(url, id, start, duration), st, thrown,
                     ArtifactPath(id, Short), ArtifactPath(id, SourceMp4), ArtifactPath(id, Short));
    }

    /** The try block of /cut-video: download, then cut, each through the
        inline promise. */
    method CutSteps(url: string, id: string, start: string, duration: string) returns (thrown: Option<string>)
      modifies this
      ensures Outcome(Snapshot(), thrown) == RunSteps(CutRecipe(url, id, start, duration).steps, tool, old(Snapshot()))
    {
      var videoPath, outputPath := ArtifactPath(id, SourceMp4), ArtifactPath(id, Short);
      ghost var steps := CutRecipe(url, id, start, duration).steps;
      RunFromSuffix(steps, 0, tool, Snapshot());
      assert steps[0..] == steps;

      ghost var before := Snapshot();
      Push(StartingDownload);
      Proceed(steps, 0, tool, before);

      before := Snapshot();
      var rejected := ExecInline(FetchBest(videoPath, url), DownloadFailed);
      Proceed(steps, 1, tool, before);
      if rejected.Some? {
        return rejected;
      }

      before := Snapshot();
      Push(StartingCut);
      Proceed(steps, 2, tool, before);

      before := Snapshot();
      rejected := ExecInline(Trim(videoPath, start, duration, outputPath), CutFailed);
      Proceed(steps, 3, tool, before);
      if rejected.Some? {
        return rejected;
      }

      before := Snapshot();
      Push(ProcessingCompleted);
      Proceed(steps, 4, tool, before);
      thrown := None;
    }

    /** POST /create-portrait-video */
    method CreatePortraitVideo(body: Body) returns (resp: Response)
      modifies this
      ensures (resp, Snapshot()) == Handle(Route.PortraitVideo, body, tool, old(Snapshot()))
    {
      var admission := Admit(body);
      if admission.MissingParameters? {
        return BadRequest("Missing required parameters.");
      } else if admission.UrlNotAString? {
        return NoReply;
      } else if admission.InvalidUrl? {
        return BadRequest("Invalid YouTube URL.");
      }
      var url, id := admission.url, admission.id;
      resp := ServePortrait(body, url, id);
    }

    /** /create-portrait-video once the body is admitted. */
    method ServePortrait(body: Body, url: string, id: string) returns (resp: Response)
      requires Admit(body) == Admitted(url, id)
      modifies this
      ensures (resp, Snapshot()) == Handle(Route.PortraitVideo, body, tool, old(Snapshot()))
    {
      HandleAdmitted(Route.PortraitVideo, body, tool, Snapshot(), url, id);
      var start, duration := Render(body.startTime), Render(body.duration);
      ghost var cached := ArtifactPath(id, SourceWebm) in disk;
      logs := [];
      ghost var st := Snapshot();
      var thrown := PortraitSteps(url, id, start, duration);
      resp := Answer(PortraitRecipe(url, id, start, duration, cached), st, thrown,
                     ArtifactPath(id, Portrait), ArtifactPath(id, Cut), ArtifactPath(id, Portrait));
    }

    /** The try block of /create-portrait-video: each stage runs only if
        no earlier one threw. */
    method PortraitSteps(url: string, id: string, start: string, duration: string) returns (thrown: Option<string>)
      modifies this
      ensures Outcome(Snapshot(), thrown) ==
        RunSteps(PortraitRecipe(url, id, start, duration, ArtifactPath(id, SourceWebm) in old(disk)).steps,
                 tool, old(Snapshot()))
    {
      ghost var st := Snapshot();
      ghost var fetch := PortraitFetch(url, id, ArtifactPath(id, SourceWebm) in disk);
      ghost var cut, combine := PortraitCut(id, start, duration), PortraitCombine(id);
      thrown := FetchPortraitSource(url, id);
      if thrown.None? {
        thrown := CutClip(id, start, duration);
      }
      if thrown.None? {
        thrown := CombinePortrait(id);
      }
      RunStepsAppend(fetch, cut, tool, st);
      RunStepsAppend(fetch + cut, combine, tool, st);
    }

    /** Steps 1 and 2 of the portrait route: reuse `<id>.webm` if it is on
        disk, otherwise download it and check that it appeared. */
    method FetchPortraitSource(url: string, id: string) returns (thrown: Option<string>)
      modifies this
      ensures Outcome(Snapshot(), thrown) ==
        RunSteps(PortraitFetch(url, id, ArtifactPath(id, SourceWebm) in old(disk)), tool, old(Snapshot()))
    {
      var downloadedFilePath := ArtifactPath(id, SourceWebm);
      ghost var steps := PortraitFetch(url, id, downloadedFilePath in disk);
      RunFromSuffix(steps, 0, tool, Snapshot());
      assert steps[0..] == steps;
      ghost var before := Snapshot();
      if downloadedFilePath in disk {
        Push(WebmCached);
        Proceed(steps, 0, tool, before);
        return None;
      }
      Push(StartingDownload);
      Proceed(steps, 0, tool, before);
      before := Snapshot();
      var s := ExecWithLogs(FetchMerged(id, url));
      Proceed(steps, 1, tool, before);
      if s.Rejected? {
        return Some(s.message);
      }
      before := Snapshot();
      Push(Downloaded);
      Proceed(steps, 2, tool, before);
      Proceed(steps, 3, tool, Snapshot());
      if downloadedFilePath !in disk {
        return Some(Text(DownloadMissing));
      }
      thrown := None;
    }

    /** Step 3 of the portrait route: cut the clip and check that it appeared. */
    method CutClip(id: string, start: string, duration: string) returns (thrown: Option<string>)
      modifies this
      ensures Outcome(Snapshot(), thrown) == RunSteps(PortraitCut(id, start, duration), tool, old(Snapshot()))
    {
      var downloadedFilePath, cutVideoPath := ArtifactPath(id, SourceWebm), ArtifactPath(id, Cut);
      ghost var steps := PortraitCut(id, start, duration);
      RunFromSuffix(steps, 0, tool, Snapshot());
      assert steps[0..] == steps;
      ghost var before := Snapshot();
      Push(StartingCut);
      Proceed(steps, 0, tool, before);
      before := Snapshot();
      var s := ExecWithLogs(Trim(downloadedFilePath, start, duration, cutVideoPath));
      Proceed(steps, 1, tool, before);
      if s.Rejected? {
        return Some(s.message);
      }
      before := Snapshot();
      Push(CutCompleted);
      Proceed(steps, 2, tool, before);
      Proceed(steps, 3, tool, Snapshot());
      if cutVideoPath !in disk {
        return Some(Text(CutMissing));
      }
      thrown := None;
    }

    /** Steps 4 and 5 of the portrait route: stack the clip over the fixed
        secondary video and check that the result appeared. */
    method CombinePortrait(id: string) returns (thrown: Option<string>)
      modifies this
      ensures Outcome(Snapshot(), thrown) == RunSteps(PortraitCombine(id), tool, old(Snapshot()))
    {
      var cutVideoPath, finalOutputPath := ArtifactPath(id, Cut), ArtifactPath(id, Portrait);
      ghost var steps := PortraitCombine(id);
      RunFromSuffix(steps, 0, tool, Snapshot());
      assert steps[0..] == steps;
      ghost var before := Snapshot();
      Push(StartingCombine);
      Proceed(steps, 0, tool, before);
      before := Snapshot();
      var s := ExecWithLogs(StackPortrait(cutVideoPath, Entertainment, finalOutputPath));
      Proceed(steps, 1, tool, before);
      if s.Rejected? {
        return Some(s.message);
      }
      before := Snapshot();
      Push(CombineCompleted);
      Proceed(steps, 2, tool, before);
      Proceed(steps, 3, tool, Snapshot());
      if finalOutputPath !in disk {
        return Some(Text(PortraitMissing));
      }
      before := Snapshot();
      Push(SendingFinal);
      Proceed(steps, 4, tool, before);
      thrown := None;
    }

    /** POST /add-text-video, with `whisper` standing for the transcription model. */
    method AddTextVideo(body: Body, whisper: Whisper) returns (resp: Response)
      modifies this
      ensures (resp, Snapshot()) == Handle(Route.AddTextVideo(whisper), body, tool, old(Snapshot()))
    {
      var admission := Admit(body);
      if admission.MissingParameters? {
        return BadRequest("Missing required parameters.");
      } else if admission.UrlNotAString? {
        return NoReply;
      } else if admission.InvalidUrl? {
        return BadRequest("Invalid YouTube URL.");
      }
      var url, id := admission.url, admission.id;
      resp := ServeAddText(body, url, id, whisper);
    }

    /** /add-text-video once the body is admitted. */
    method ServeAddText(body: Body, url: string, id: string, whisper: Whisper) returns (resp: Response)
      requires Admit(body) == Admitted(url, id)
      modifies this
      ensures (resp, Snapshot()) == Handle(Route.AddTextVideo(whisper), body, tool, old(Snapshot()))
    {
      HandleAdmitted(Route.AddTextVideo(whisper), body, tool, Snapshot(), url, id);
      ghost var cached := ArtifactPath(id, SourceMp4) in disk;
      logs := [];
      ghost var st := Snapshot();
      var thrown := AddTextSteps(url, id, whisper);
      resp := Answer(AddTextRecipe(url, id, cached, whisper), st, thrown,
                     ArtifactPath(id, WithText), ArtifactPath(id, Audio), ArtifactPath(id, Transcription));
    }

    /** The try block of /add-text-video: each stage runs only if no
        earlier one threw. */
    method AddTextSteps(url: string, id: string, whisper: Whisper) returns (thrown: Option<string>)
      modifies this
      ensures Outcome(Snapshot(), thrown) ==
        RunSteps(AddTextRecipe(url, id, ArtifactPath(id, SourceMp4) in old(disk), whisper).steps,
                 tool, old(Snapshot()))
    {
      ghost var st := Snapshot();
      ghost var transcription := whisper(ArtifactPath(id, Audio));
      ghost var fetch := AddTextFetch(url, id, ArtifactPath(id, SourceMp4) in disk);
      ghost var transcribe, overlay := AddTextTranscribe(id, transcription), AddTextOverlay(id, FilterOf(transcription));
      thrown := FetchMp4Source(url, id);
      var segments: seq<Segment> := [];
      if thrown.None? {
        thrown, segments := TranscribeAudio(id, whisper);
      }
      if thrown.None? {
        thrown := BurnInCaptions(id, segments);
      }
      RunStepsAppend(fetch, transcribe, tool, st);
      RunStepsAppend(fetch + transcribe, overlay, tool, st);
    }

    /** Step 1 of the add-text route: download `<id>.mp4` unless it is on disk. */
    method FetchMp4Source(url: string, id: string) returns (thrown: Option<string>)
      modifies this
      ensures Outcome(Snapshot(), thrown) ==
        RunSteps(AddTextFetch(url, id, ArtifactPath(id, SourceMp4) in old(disk)), tool, old(Snapshot()))
    {
      var videoPath := ArtifactPath(id, SourceMp4);
      ghost var steps := AddTextFetch(url, id, videoPath in disk);
      RunFromSuffix(steps, 0, tool, Snapshot());
      assert steps[0..] == steps;
      ghost var before := Snapshot();
      if videoPath !in disk {
        Push(StartingDownload);
        Proceed(steps, 0, tool, before);
        before := Snapshot();
        var s := ExecWithLogs(FetchBest(videoPath, url));
        Proceed(steps, 1, tool, before);
        if s.Rejected? {
          return Some(s.message);
        }
      } else {
        Push(Mp4Cached);
        Proceed(steps, 0, tool, before);
      }
      thrown := None;
    }

    /** Steps 2 and 3 of the add-text route: extract the audio, transcribe
        it and save the transcription; yields the transcript's segments. */
    method TranscribeAudio(id: string, whisper: Whisper) returns (thrown: Option<string>, segments: seq<Segment>)
      modifies this
      ensures Outcome(Snapshot(), thrown) ==
        RunSteps(AddTextTranscribe(id, whisper(ArtifactPath(id, Audio))), tool, old(Snapshot()))
      ensures thrown.None? ==> whisper(ArtifactPath(id, Audio)) == Transcribed(segments)
    {
      var videoPath, audioPath := ArtifactPath(id, SourceMp4), ArtifactPath(id, Audio);
      var transcriptionPath := ArtifactPath(id, Transcription);
      ghost var steps := AddTextTranscribe(id, whisper(audioPath));
      RunFromSuffix(steps, 0, tool, Snapshot());
      assert steps[0..] == steps;
      segments := [];
      ghost var before := Snapshot();
      Push(ExtractingAudio);
      Proceed(steps, 0, tool, before);
      before := Snapshot();
      var s := ExecWithLogs(ExtractAudio(videoPath, audioPath));
      Proceed(steps, 1, tool, before);
      if s.Rejected? {
        return Some(s.message), segments;
      }
      before := Snapshot();
      Push(Transcribing);
      Proceed(steps, 2, tool, before);
      Proceed(steps, 3, tool, Snapshot());
      var transcription := whisper(audioPath);
      if transcription.TranscribeFailed? {
        return Some(transcription.message), segments;
      }
      segments := transcription.segments;
      disk := disk + {transcriptionPath};
      before := Snapshot();
      Push(TranscriptionCompleted);
      Proceed(steps, 4, tool, before);
      thrown := None;
    }

    /** Steps 4 and 5 of the add-text route: build the drawtext filter and
        burn the captions into the video. */
    method BurnInCaptions(id: string, segments: seq<Segment>) returns (thrown: Option<string>)
      modifies this
      ensures Outcome(Snapshot(), thrown) ==
        RunSteps(AddTextOverlay(id, BuildFilter(segments)), tool, old(Snapshot()))
    {
      var videoPath, outputPath := ArtifactPath(id, SourceMp4), ArtifactPath(id, WithText);
      ghost var steps := AddTextOverlay(id, BuildFilter(segments));
      RunFromSuffix(steps, 0, tool, Snapshot());
      assert steps[0..] == steps;
      ghost var before := Snapshot();
      Push(GeneratingFilter);
      Proceed(steps, 0, tool, before);
      var drawTextFilters := BuildFilter(segments);
      before := Snapshot();
      Push(AddingText);
      Proceed(steps, 1, tool, before);
      before := Snapshot();
      var s := ExecWithLogs(BurnCaptions(videoPath, drawTextFilters, outputPath));
      Proceed(steps, 2, tool, before);
      if s.Rejected? {
        return Some(s.message);
      }
      before := Snapshot();
      Push(TextAdded);
      Proceed(steps, 3, tool, before);
      thrown := None;
    }
  }
}
