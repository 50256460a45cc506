/** Per-job file naming: every file a route reads or writes is a fixed
    suffix appended to the video id, in the downloads or the outputs folder. */
module Artifacts {

  /** The server's own directory and the two folders created beside it at start-up. */
  datatype Folder = ServerDir | Downloads | Outputs

  datatype FilePath = FilePath(folder: Folder, name: string)

  /** The kinds of per-job files the three routes use. */
  datatype Kind =
    | SourceMp4       // downloads/<id>.mp4      (/cut-video, /add-text-video)
    | SourceWebm      // downloads/<id>.webm     (/create-portrait-video)
    | Short           // outputs/<id>_short.mp4
    | Cut             // outputs/<id>_cut.mp4
    | Portrait        // outputs/<id>_portrait.mp4
    | WithText        // outputs/<id>_with_text.mp4
    | Audio           // outputs/<id>.wav
    | Transcription   // outputs/<id>_transcription.json

  function FolderOf(k: Kind): Folder
  {
    if k.SourceMp4? || k.SourceWebm? then Downloads else Outputs
  }

  function Suffix(k: Kind): string
  {
    match k
    case SourceMp4 => ".mp4"
    case SourceWebm => ".webm"
    case Short => "_short.mp4"
    case Cut => "_cut.mp4"
    case Portrait => "_portrait.mp4"
    case WithText => "_with_text.mp4"
    case Audio => ".wav"
    case Transcription => "_transcription.json"
  }

  /** The path of the file of kind `k` for video `id`. */
  function ArtifactPath(id: string, k: Kind): FilePath
  {
    FilePath(FolderOf(k), id + Suffix(k))
  }

  /** The secondary clip stacked under every portrait video. */
  const Entertainment := FilePath(ServerDir, "entertainment_video.mp4")

  /** A path as it is written into a command line, relative to the server's directory. */
  function PathText(p: FilePath): string
  {
    match p.folder
    case ServerDir => p.name
    case Downloads => "downloads/" + p.name
    case Outputs => "outputs/" + p.name
  }

  // ----- no two jobs' files collide -----

  lemma SuffixOfEqual(a: string, s1: string, b: string, s2: string)
    requires a + s1 == b + s2
    requires |s1| <= |s2|
    ensures s2[|s2| - |s1|..] == s1
  {
    var n := |a + s1|;
    assert (a + s1)[n - |s1|..] == s1;
    assert (b + s2)[n - |s1|..] == s2[|s2| - |s1|..];
  }

  /** No suffix of one kind ends the suffix of another kind in the same folder. */
  lemma SuffixesApart(k1: Kind, k2: Kind)
    requires FolderOf(k1) == FolderOf(k2)
    requires |Suffix(k1)| <= |Suffix(k2)|
    requires Suffix(k2)[|Suffix(k2)| - |Suffix(k1)|..] == Suffix(k1)
    ensures k1 == k2
  {
  }

  /** Paths are a pure function of (id, kind) and are never shared: two
      jobs for different videos, or two kinds of one job, use different files. */
  lemma {:induction false} ArtifactPathInjective(id1: string, k1: Kind, id2: string, k2: Kind)
    requires ArtifactPath(id1, k1) == ArtifactPath(id2, k2)
    ensures id1 == id2 && k1 == k2
  {
    var s1, s2 := Suffix(k1), Suffix(k2);
    assert id1 + s1 == id2 + s2;
    if |s1| <= |s2| {
      SuffixOfEqual(id1, s1, id2, s2);
      SuffixesApart(k1, k2);
    } else {
      SuffixOfEqual(id2, s2, id1, s1);
      SuffixesApart(k2, k1);
    }
    assert id1 == (id1 + s1)[..|id1|];
    assert id2 == (id2 + s2)[..|id2|];
  }

  /** One video's artifacts of different kinds never share a path. */
  lemma ArtifactsApart(id: string, k1: Kind, k2: Kind)
    requires k1 != k2
    ensures ArtifactPath(id, k1) != ArtifactPath(id, k2)
  {
    if ArtifactPath(id, k1) == ArtifactPath(id, k2) {
      ArtifactPathInjective(id, k1, id, k2);
    }
  }
}
