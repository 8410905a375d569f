/** How an attachment is presented in the report: the card chosen by the
    lower-cased file extension and the links it carries. The markup and its
    styling are not modelled, only which card is built and what it links. */
module Attachments {
  import opened Text

  /** The three presentations of an attachment. */
  datatype AttachmentKind = Video | Trace | Generic

  /** The extension switch: ".webm" is a video, ".zip" a trace, anything else
      a generic file; the comparison is made on the lower-cased extension. */
  function KindOf(filePath: string): (k: AttachmentKind)
    ensures k == Video <==> ToLower(Extension(filePath)) == ".webm"
    ensures k == Trace <==> ToLower(Extension(filePath)) == ".zip"
  {
    var ext := ToLower(Extension(filePath));
    if ext == ".webm" then Video else if ext == ".zip" then Trace else Generic
  }

  /** The folders videos and traces are filed in, under the reports directory. */
  const VideosFolder: string := "Videos"
  const TracesFolder: string := "Traces"

  /** A report card: a video card links its file twice (download link and
      player source), a trace card once, a generic card once under a title. */
  datatype Card =
    | VideoCard(downloadLink: string, videoSource: string)
    | TraceCard(downloadLink: string)
    | GenericCard(title: string, downloadLink: string)

  /** `AttachmentHelper.CreateAttachmentHtml(filePath, description)`. */
  function CreateAttachmentHtml(filePath: string, description: string): (c: Card)
    ensures c.VideoCard? <==> KindOf(filePath) == Video
    ensures c.TraceCard? <==> KindOf(filePath) == Trace
    ensures c.VideoCard? ==> c.downloadLink == c.videoSource == VideosFolder + "/" + FileName(filePath)
    ensures c.TraceCard? ==> c.downloadLink == TracesFolder + "/" + FileName(filePath)
    ensures c.GenericCard? ==> c.title == description && c.downloadLink == FileName(filePath)
  {
    var fileName := FileName(filePath);
    match KindOf(filePath)
    case Video => VideoCard(VideosFolder + "/" + fileName, VideosFolder + "/" + fileName)
    case Trace => TraceCard(TracesFolder + "/" + fileName)
    case Generic => GenericCard(description, fileName)
  }

  /** Only the last path component of the attachment appears in a link: the
      directory the file lives in never changes the card. */
  lemma DirectoryDoesNotMatter(dir: string, name: string, description: string)
    requires name != "" && '/' !in name
    ensures CreateAttachmentHtml(Combine(dir, name), description) == CreateAttachmentHtml(name, description)
  {
    FileNameOfCombine(dir, name);
    ExtensionOfCombine(dir, name);
  }

  /** The description is read only by the generic card. */
  lemma DescriptionOnlyForGeneric(filePath: string, d1: string, d2: string)
    requires KindOf(filePath) != Generic
    ensures CreateAttachmentHtml(filePath, d1) == CreateAttachmentHtml(filePath, d2)
  {
  }

  /** ".WEBM" is an extension and lower-cases to ".webm". */
  lemma UpperWebmLiteral()
    ensures var ext := ".WEBM";
            |ext| >= 2 && ext[0] == '.' && '.' !in ext[1..] && '/' !in ext && ToLower(ext) == ".webm"
  {
    var lower := ToLower(".WEBM");
    assert lower[1] == 'w' && lower[2] == 'e' && lower[3] == 'b' && lower[4] == 'm';
  }

  /** ".webm" is an extension and is already lower case. */
  lemma WebmLiteral()
    ensures var ext := ".webm";
            |ext| >= 2 && ext[0] == '.' && '.' !in ext[1..] && '/' !in ext && ToLower(ext) == ext
  {
    var lower := ToLower(".webm");
    assert lower[1] == 'w' && lower[2] == 'e' && lower[3] == 'b' && lower[4] == 'm';
  }

  /** ".zip" is an extension and is already lower case. */
  lemma ZipLiteral()
    ensures var ext := ".zip";
            |ext| >= 2 && ext[0] == '.' && '.' !in ext[1..] && '/' !in ext && ToLower(ext) == ext
  {
    var lower := ToLower(".zip");
    assert lower[1] == 'z' && lower[2] == 'i' && lower[3] == 'p';
  }

  /** The extension match ignores case: "clip.WEBM" is still a video. */
  lemma UpperCaseVideoExtension(stem: string)
    ensures KindOf(stem + ".WEBM") == Video
  {
    UpperWebmLiteral();
    ExtensionOfSuffix(stem, ".WEBM");
  }

  /** A file named "{stem}.zip" is presented as a trace. */
  lemma ZipIsTrace(stem: string)
    ensures KindOf(stem + ".zip") == Trace
  {
    ZipLiteral();
    ExtensionOfSuffix(stem, ".zip");
  }

  /** A file named "{stem}.webm" is presented as a video. */
  lemma WebmIsVideo(stem: string)
    ensures KindOf(stem + ".webm") == Video
  {
    WebmLiteral();
    ExtensionOfSuffix(stem, ".webm");
  }

  /** The card the HTML reporter builds in `AddFileAttachment`: the same
      extension switch, but every link is the path relative to the reports
      directory, and the generic card is titled with the description. */
  function ReporterCard(filePath: string, relativePath: string, description: string): (c: Card)
    ensures c.VideoCard? <==> KindOf(filePath) == Video
    ensures c.TraceCard? <==> KindOf(filePath) == Trace
    ensures c.VideoCard? ==> c.downloadLink == c.videoSource == relativePath
    ensures c.TraceCard? ==> c.downloadLink == relativePath
    ensures c.GenericCard? ==> c.title == description && c.downloadLink == relativePath
  {
    match KindOf(filePath)
    case Video => VideoCard(relativePath, relativePath)
    case Trace => TraceCard(relativePath)
    case Generic => GenericCard(description, relativePath)
  }
}
