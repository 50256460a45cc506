/** The external commands the routes spawn (yt-dlp and ffmpeg), kept as
    structured values, with the exact command line each one is run as. */
module Commands {
  import opened Artifacts

  datatype Command =
    | FetchBest(target: FilePath, url: string)            // yt-dlp, single best format, fixed file name
    | FetchMerged(id: string, url: string)                // yt-dlp, best video + best audio, extension chosen by yt-dlp
    | Trim(input: FilePath, start: string, duration: string, output: FilePath)
    | StackPortrait(top: FilePath, bottom: FilePath, output: FilePath)
    | ExtractAudio(input: FilePath, output: FilePath)
    | BurnCaptions(input: FilePath, filter: string, output: FilePath)

  /** A command that fetches the source video. */
  predicate IsDownload(c: Command)
  {
    c.FetchBest? || c.FetchMerged?
  }

  function Quoted(s: string): string
  {
    "\"" + s + "\""
  }

  /** The shell command line, as the route's template string builds it. */
  function CommandLine(c: Command): string
  {
    match c
    case FetchBest(target, url) =>
      "yt-dlp -o " + Quoted(PathText(target)) + " -f best " + Quoted(url)
    case FetchMerged(id, url) =>
      "yt-dlp -o " + Quoted("downloads/" + id + ".%(ext)s")
        + " -f \"bestvideo+bestaudio/best\" " + Quoted(url)
    case Trim(input, start, duration, output) =>
      "ffmpeg -i " + Quoted(PathText(input)) + " -ss " + start + " -t " + duration
        + " -c copy " + Quoted(PathText(output))
    case StackPortrait(top, bottom, output) =>
      // A multi-line template literal whose `\` line ends are continuations.
      "\n        ffmpeg "
        + "        -i " + Quoted(PathText(top)) + " "
        + "        -i " + Quoted(PathText(bottom)) + " "
        + "        -filter_complex \"[0:v:0]scale=640:360[vid1];[1:v:0]scale=640:360[vid2];[vid1][vid2]vstack=inputs=2\" "
        + "        -c:v libx264 -crf 23 -preset veryfast "
        + "        -c:a aac -strict experimental "
        + "        " + Quoted(PathText(output))
    case ExtractAudio(input, output) =>
      "ffmpeg -i " + Quoted(PathText(input)) + " -q:a 0 -map a " + Quoted(PathText(output))
    case BurnCaptions(input, filter, output) =>
      "ffmpeg -i " + Quoted(PathText(input)) + " -vf " + Quoted(filter)
        + " -c:v libx264 -crf 23 -preset veryfast -c:a copy " + Quoted(PathText(output))
  }
}
