/**
 * The per-node tables and small handlers of the node component: which toolbar
 * controls a node shows, the MIME type and download name of its output, the size
 * check on uploads, and whether its input and output handles are connected.
 */
module NodeView {
  import opened Wrappers
  import opened Strings
  import opened Graph

  datatype Tool = Delete | Aspect | ModelPicker | Settings

  /**
   * `nodeToolbarConfig[t]`. The table has no entry for `Upload`, so that lookup is
   * undefined (`None`).
   */
  function ToolbarItems(t: NodeType): (r: Option<seq<Tool>>)
    ensures r.None? <==> t == Upload
    ensures r.Some? ==> |r.value| > 0 && r.value[0] == Delete
    ensures r.Some? ==> ModelPicker in r.value && Settings in r.value
    ensures r.Some? ==> (Aspect in r.value <==> t == Image || t == Video)
    ensures r.Some? ==> r.value == [Delete] + (if t == Image || t == Video then [Aspect] else []) + [ModelPicker, Settings]
  {
    match t
    case Text => Some([Delete, ModelPicker, Settings])
    case Image => Some([Delete, Aspect, ModelPicker, Settings])
    case Video => Some([Delete, Aspect, ModelPicker, Settings])
    case Audio => Some([Delete, ModelPicker, Settings])
    case Upload => None
  }

  /** `mimeTypes[t]`; again no entry for `Upload`. */
  function MimeType(t: NodeType): (r: Option<string>)
    ensures r.None? <==> t == Upload
  {
    match t
    case Image => Some("image/png")
    case Video => Some("video/mp4")
    case Audio => Some("audio/wav")
    case Text => Some("text/plain")
    case Upload => None
  }

  /** `mime.split("/")[1]`: the piece after the first slash, undefined when there is none. */
  function Subtype(mime: string): Option<string> {
    var parts := Split(mime, '/');
    if |parts| > 1 then Some(parts[1]) else None
  }

  /** For `type/subtype` with no further slash, the subtype is what follows the slash. */
  lemma SubtypeOf(top: string, sub: string)
    requires '/' !in top && '/' !in sub
    ensures Subtype(top + "/" + sub) == Some(sub)
  {
    SplitAfterHead(top, '/', sub);
    SplitWithoutSeparator(sub, '/');
  }

  /** The file extension a download of a node's output gets. */
  function Extension(t: NodeType): Option<string> {
    match MimeType(t)
    case None => None
    case Some(m) => Subtype(m)
  }

  /** The extensions are png, mp4, wav and plain. */
  lemma Extensions()
    ensures Extension(Image) == Some("png")
    ensures Extension(Video) == Some("mp4")
    ensures Extension(Audio) == Some("wav")
    ensures Extension(Text) == Some("plain")
    ensures Extension(Upload) == None
  {
    assert "image/png" == "image" + "/" + "png";
    SubtypeOf("image", "png");
    assert "video/mp4" == "video" + "/" + "mp4";
    SubtypeOf("video", "mp4");
    assert "audio/wav" == "audio" + "/" + "wav";
    SubtypeOf("audio", "wav");
    assert "text/plain" == "text" + "/" + "plain";
    SubtypeOf("text", "plain");
  }

  function TypeName(t: NodeType): string {
    match t
    case Text => "Text"
    case Image => "Image"
    case Video => "Video"
    case Audio => "Audio"
    case Upload => "Upload"
  }

  datatype Download = Download(href: string, fileName: string)

  /**
   * `handleDownload`: nothing when the output is empty; otherwise a link to the output
   * named `<type>_<stamp>.<extension>`, `stamp` standing for the clock reading.
   */
  function DownloadLink(t: NodeType, output: Option<string>, stamp: string): (r: Option<Download>)
    ensures r.Some? ==> output.Some? && output.value != "" && r.value.href == output.value
    ensures Extension(t).Some? && output.Some? && output.value != "" ==> r.Some?
    ensures r.Some? ==> Extension(t).Some?
    ensures r.Some? ==> r.value.fileName == ToLower(TypeName(t)) + "_" + stamp + "." + Extension(t).value
  {
    if output.None? || output.value == "" then None
    else match Extension(t)
      case None => None
      case Some(ext) => Some(Download(output.value, ToLower(TypeName(t)) + "_" + stamp + "." + ext))
  }

  /** An Image node's output downloads as `image_<stamp>.png`. */
  lemma ImageDownloadName(output: string, stamp: string)
    requires output != ""
    ensures DownloadLink(Image, Some(output), stamp).Some?
    ensures DownloadLink(Image, Some(output), stamp).value.fileName == "image" + "_" + stamp + "." + "png"
  {
    Extensions();
    LowerImage();
    var r := DownloadLink(Image, Some(output), stamp);
    assert r.Some?;
    var ext := Extension(Image);
    assert ext.value == "png";
    assert r.value.fileName == ToLower(TypeName(Image)) + "_" + stamp + "." + ext.value;
  }

  lemma LowerImage()
    ensures ToLower(TypeName(Image)) == "image"
  {
    assert TypeName(Image) == "Image";
  }

  // ----- uploads -----

  const MaxVideoUploadBytes: nat := 8 * 1024 * 1024

  datatype File = File(name: string, size: nat)

  /**
   * `handleFileUpload`: a Video file over 8 MiB is refused (`None`); any other file becomes
   * the node's output, with the file name as its prompt. `dataUri` stands for what the
   * browser's file reader produces.
   */
  function UploadPatch(t: NodeType, file: File, dataUri: string): (r: Option<Patch>)
    ensures r.None? <==> t == Video && file.size > MaxVideoUploadBytes
    ensures r.Some? ==> forall d :: Merge(d, r.value) == d.(output := Some(dataUri), prompt := file.name)
  {
    if t == Video && file.size > MaxVideoUploadBytes then None
    else Some(EmptyPatch.(output := Some(Some(dataUri)), prompt := Some(file.name)))
  }

  /**
   * `handleFileUpload` on node `id` of type `t`: no file, no change; a Video file over the
   * limit is refused (`tooLarge`) and the node is left alone; otherwise the node's output
   * becomes the file's data URI and its prompt the file's name.
   */
  method HandleFileUpload(canvas: Canvas, id: string, t: NodeType, file: Option<File>, dataUri: string)
    returns (tooLarge: bool)
    requires exists n :: n in canvas.nodes && n.id == id && n.data.kind == t
    modifies canvas
    ensures tooLarge <==> file.Some? && t == Video && file.value.size > MaxVideoUploadBytes
    ensures canvas.edges == old(canvas.edges)
    ensures file.None? || tooLarge ==> canvas.nodes == old(canvas.nodes)
    ensures file.Some? && !tooLarge ==> canvas.nodes == UpdateNodes(old(canvas.nodes), id, UploadPatch(t, file.value, dataUri).value)
  {
    tooLarge := false;
    if file.Some? {
      var patch := UploadPatch(t, file.value, dataUri);
      if patch.None? {
        tooLarge := true;
      } else {
        canvas.UpdateNodeData(id, patch.value);
      }
    }
  }

  /** `handleClearOutput`: the node's output becomes null, nothing else changes. */
  method HandleClearOutput(canvas: Canvas, id: string)
    modifies canvas
    ensures canvas.edges == old(canvas.edges)
    ensures canvas.nodes == UpdateNodes(old(canvas.nodes), id, EmptyPatch.(output := Some(None)))
  {
    canvas.UpdateNodeData(id, EmptyPatch.(output := Some(None)));
  }

  // ----- handles -----

  /** `edges.some(edge => edge.target === id)`: the input handle is connected. */
  predicate IsTarget(edges: seq<Edge>, id: string) {
    exists e :: e in edges && e.target == id
  }

  /** `edges.some(edge => edge.source === id)`: the output handle is connected. */
  predicate IsSource(edges: seq<Edge>, id: string) {
    exists e :: e in edges && e.source == id
  }

  /** Once a node is deleted, no handle anywhere still refers to it. */
  lemma DeletedNodeUnconnected(edges: seq<Edge>, id: string)
    ensures !IsTarget(RemoveIncident(edges, id), id) && !IsSource(RemoveIncident(edges, id), id)
  {
  }

  // ----- preview -----

  const AspectRatioOptions: seq<string> := ["16:9", "4:3", "1:1", "3:4", "9:16"]

  const AspectClasses: map<string, string> := map[
    "16:9" := "aspect-[16/9]",
    "4:3" := "aspect-[4/3]",
    "1:1" := "aspect-square",
    "3:4" := "aspect-[3/4]",
    "9:16" := "aspect-[9/16]"]

  /** The preview box's aspect class: the ratio's own, or square for an unknown ratio. */
  function PreviewClass(ratio: string): (c: string)
    ensures ratio in AspectClasses ==> c == AspectClasses[ratio]
    ensures ratio !in AspectClasses ==> c == "aspect-square"
  {
    if ratio in AspectClasses then AspectClasses[ratio] else "aspect-square"
  }

  /** Every ratio the aspect menu offers has its own preview class. */
  lemma OptionsHaveClasses()
    ensures forall r :: r in AspectRatioOptions ==> r in AspectClasses
  {
  }
}
