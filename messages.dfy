/** The fixed lines the route handlers push onto a request's log, and the
    messages of the errors they throw, each with its exact text. */
module Messages {

  datatype Message =
    // /cut-video
    | StartingDownload
    | StartingCut
    | ProcessingCompleted
    | DownloadFailed
    | CutFailed
    // /create-portrait-video
    | WebmCached
    | Downloaded
    | DownloadMissing
    | CutCompleted
    | CutMissing
    | StartingCombine
    | CombineCompleted
    | PortraitMissing
    | SendingFinal
    // /add-text-video
    | Mp4Cached
    | ExtractingAudio
    | Transcribing
    | TranscriptionCompleted
    | GeneratingFilter
    | AddingText
    | TextAdded

  function Text(m: Message): string
  {
    match m
    case StartingDownload => "Starting video download..."
    case StartingCut => "Starting video cutting..."
    case ProcessingCompleted => "Processing completed."
    case DownloadFailed => "Failed to download video."
    case CutFailed => "Failed to cut video."
    case WebmCached => "File already exists in downloads. Using the existing file."
    case Downloaded => "Video downloaded successfully."
    case DownloadMissing => "YouTube video download failed."
    case CutCompleted => "Video cutting completed."
    case CutMissing => "Cut video file not created."
    case StartingCombine => "Starting video combination into portrait layout..."
    case CombineCompleted => "Video combination completed."
    case PortraitMissing => "Portrait video file not created."
    case SendingFinal => "Sending the final video..."
    case Mp4Cached => "Video already exists. Using the existing file."
    case ExtractingAudio => "Extracting audio from the video..."
    case Transcribing => "Transcribing audio..."
    case TranscriptionCompleted => "Transcription completed."
    case GeneratingFilter => "Generating overlay filter..."
    case AddingText => "Adding text to video..."
    case TextAdded => "Text added to video successfully."
  }
}
