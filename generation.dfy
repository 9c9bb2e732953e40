/**
 * What pressing "Generate" on a node does (`handleGenerate`), with the calls to the
 * hosted models taken out: resolve the node's inputs from the edges, decide which
 * request to make or which validation error to raise, classify a failure for the
 * error toast, and update the node's `output` and `isGenerating` fields around the run.
 */
module Generation {
  import opened Wrappers
  import opened Strings
  import opened Graph
  import StitchVideos
  import NodeView

  const StitcherModel := "Video Stitcher"
  const MinStitchInputs := 2
  const MaxStitchInputs := 12
  const AnimatePrompt := "Animate this image"

  const StitchPromptMessage := "The prompt for the target video node must be empty to stitch videos."
  const StitchCountMessage := "Video Stitcher requires between 2 and 12 connected video inputs."
  const TextPromptMessage := "Prompt cannot be empty for Text generation."
  const ImagePromptMessage := "Prompt is required for image generation."
  const VideoInputMessage := "Prompt or image input is required for video generation."
  const AudioPromptMessage := "Prompt is required for audio generation."

  // ----- input resolution -----

  /** `nodes.find(node => node.id === id)`. */
  function FindNode(nodes: seq<Node>, id: string): (r: Option<Node>)
    ensures r.Some? ==> r.value in nodes && r.value.id == id
    ensures r.None? <==> forall n :: n in nodes ==> n.id != id
  {
    if nodes == [] then None
    else if nodes[0].id == id then Some(nodes[0])
    else FindNode(nodes[1..], id)
  }

  /** `find` returns the first match: a match in the front part hides any later one. */
  lemma {:induction false} FindNodeAppend(a: seq<Node>, b: seq<Node>, id: string)
    ensures FindNode(a + b, id) == if FindNode(a, id).Some? then FindNode(a, id) else FindNode(b, id)
    decreases |a|
  {
    if a != [] {
      assert (a + b)[1..] == a[1..] + b;
      FindNodeAppend(a[1..], b, id);
    } else {
      assert a + b == b;
    }
  }

  /**
   * The node's inputs: for each edge into `id`, in edge order, the node its source names;
   * an edge whose source node does not exist contributes nothing.
   */
  function InputNodes(nodes: seq<Node>, edges: seq<Edge>, id: string): (r: seq<Node>)
    ensures |r| <= |edges|
    ensures forall n :: n in r ==> n in nodes
    ensures forall n :: n in r ==> exists e :: e in edges && e.target == id && e.source == n.id
    ensures forall e :: e in edges && e.target == id && FindNode(nodes, e.source).Some?
                     ==> FindNode(nodes, e.source).value in r
  {
    if edges == [] then []
    else
      var e := edges[0];
      var here := if e.target == id && FindNode(nodes, e.source).Some? then [FindNode(nodes, e.source).value] else [];
      here + InputNodes(nodes, edges[1..], id)
  }

  /** Inputs keep edge order: the inputs of a longer edge list extend those of its prefix. */
  lemma {:induction false} InputNodesAppend(nodes: seq<Node>, a: seq<Edge>, b: seq<Edge>, id: string)
    ensures InputNodes(nodes, a + b, id) == InputNodes(nodes, a, id) + InputNodes(nodes, b, id)
    decreases |a|
  {
    if a != [] {
      assert (a + b)[0] == a[0];
      assert (a + b)[1..] == a[1..] + b;
      InputNodesAppend(nodes, a[1..], b, id);
      var e := a[0];
      var here := if e.target == id && FindNode(nodes, e.source).Some? then [FindNode(nodes, e.source).value] else [];
      assert InputNodes(nodes, a + b, id) == here + InputNodes(nodes, a[1..] + b, id);
      assert InputNodes(nodes, a, id) == here + InputNodes(nodes, a[1..], id);
    } else {
      assert a + b == b;
    }
  }

  /** A node with an input has a connected input handle; one without a connected handle has none. */
  lemma InputsImplyTarget(nodes: seq<Node>, edges: seq<Edge>, id: string)
    ensures InputNodes(nodes, edges, id) != [] ==> NodeView.IsTarget(edges, id)
    ensures !NodeView.IsTarget(edges, id) ==> InputNodes(nodes, edges, id) == []
  {
    var r := InputNodes(nodes, edges, id);
    if r != [] {
      assert r[0] in r;
    }
  }

  /** `inputNodes[0]?.data`: the primary input. */
  function Primary(inputs: seq<Node>): Option<NodeData> {
    if inputs == [] then None else Some(inputs[0].data)
  }

  /** A present, non-empty output: what JavaScript treats as truthy. */
  predicate Truthy(output: Option<string>) {
    output.Some? && output.value != ""
  }

  /** The primary's output when the primary is of type `t` and has one. */
  function UpstreamOutput(primary: Option<NodeData>, t: NodeType): (r: Option<string>)
    ensures r.Some? ==> primary.Some? && primary.value.kind == t && primary.value.output == r && r.value != ""
    ensures primary.Some? && primary.value.kind == t && Truthy(primary.value.output) ==> r.Some?
  {
    if primary.Some? && primary.value.kind == t && Truthy(primary.value.output) then primary.value.output else None
  }

  /** `imageInput`: an upstream image, else an Image node's own output. */
  function ImageInput(self: NodeData, primary: Option<NodeData>): (r: Option<string>)
    ensures r.Some? ==> r.value != ""
    ensures UpstreamOutput(primary, Image).Some? ==> r == UpstreamOutput(primary, Image)
    ensures UpstreamOutput(primary, Image).None? ==> (r.Some? <==> self.kind == Image && Truthy(self.output))
    ensures UpstreamOutput(primary, Image).None? && r.Some? ==> r == self.output
  {
    if UpstreamOutput(primary, Image).Some? then UpstreamOutput(primary, Image)
    else if self.kind == Image && Truthy(self.output) then self.output
    else None
  }

  /** `textInput || prompt`: upstream text replaces the node's own prompt. */
  function GenerationPrompt(self: NodeData, primary: Option<NodeData>): (p: string)
    ensures UpstreamOutput(primary, Text).Some? ==> p == UpstreamOutput(primary, Text).value
    ensures UpstreamOutput(primary, Text).None? ==> p == self.prompt
  {
    UpstreamOutput(primary, Text).GetOr(self.prompt)
  }

  /** The outputs of the Video inputs that have one, in input order. */
  function VideoOutputs(inputs: seq<Node>): (r: seq<string>)
    ensures |r| <= |inputs|
    ensures forall v :: v in r ==> v != "" && exists n :: n in inputs && n.data.kind == Video && n.data.output == Some(v)
    ensures forall n :: n in inputs && n.data.kind == Video && Truthy(n.data.output) ==> n.data.output.value in r
  {
    if inputs == [] then []
    else
      var d := inputs[0].data;
      (if d.kind == Video && Truthy(d.output) then [d.output.value] else []) + VideoOutputs(inputs[1..])
  }

  /** Collecting keeps input order and multiplicity: it works on each part of the list separately. */
  lemma {:induction false} VideoOutputsAppend(a: seq<Node>, b: seq<Node>)
    ensures VideoOutputs(a + b) == VideoOutputs(a) + VideoOutputs(b)
    decreases |a|
  {
    if a != [] {
      assert (a + b)[1..] == a[1..] + b;
      VideoOutputsAppend(a[1..], b);
    } else {
      assert a + b == b;
    }
  }

  /** A single input contributes its output exactly when it is a Video node with one. */
  lemma VideoOutputsSingle(n: Node)
    ensures VideoOutputs([n]) == if n.data.kind == Video && Truthy(n.data.output) then [n.data.output.value] else []
  {
  }

  // ----- the decision -----

  /** The request sent to a model service (or, for stitching, to the stitcher). */
  datatype Request =
    | Stitch(videoDataUris: seq<string>)
    | DescribeImage(photoDataUri: string)
    | TranscribeAudio(audioDataUri: string)
    | GenerateText(prompt: string)
    | GenerateImage(prompt: string)
    | GenerateVideoFromImage(prompt: string, photoDataUri: string, aspectRatio: string)
    | GenerateVideoFromText(prompt: string)
    | GenerateAudio(prompt: string)

  /** Send a request, raise a validation error, or (for a node type no branch handles) do nothing. */
  datatype Decision = Send(request: Request) | Reject(message: string) | NoRequest

  predicate IsStitcher(self: NodeData) {
    self.kind == Video && self.model == StitcherModel
  }

  /** No request carries an empty prompt or an empty data URI; a stitch has 2 to 12 videos. */
  predicate WellFormed(req: Request) {
    match req
    case Stitch(vs) => MinStitchInputs <= |vs| <= MaxStitchInputs && forall v :: v in vs ==> v != ""
    case DescribeImage(photo) => photo != ""
    case TranscribeAudio(audio) => audio != ""
    case GenerateText(p) => p != ""
    case GenerateImage(p) => p != ""
    case GenerateVideoFromImage(p, photo, _) => p != "" && photo != ""
    case GenerateVideoFromText(p) => p != ""
    case GenerateAudio(p) => p != ""
  }

  /** The node type a request produces output for. */
  function Produces(req: Request): NodeType {
    match req
    case Stitch(_) => Video
    case DescribeImage(_) => Text
    case TranscribeAudio(_) => Text
    case GenerateText(_) => Text
    case GenerateImage(_) => Image
    case GenerateVideoFromImage(_, _, _) => Video
    case GenerateVideoFromText(_) => Video
    case GenerateAudio(_) => Audio
  }

  const RejectMessages := {StitchPromptMessage, StitchCountMessage, TextPromptMessage,
                           ImagePromptMessage, VideoInputMessage, AudioPromptMessage}

  /**
   * The synchronous part of `handleGenerate` for a node with data `self` and resolved
   * inputs `inputs`.
   */
  function Decide(self: NodeData, inputs: seq<Node>): (d: Decision)
    ensures d.NoRequest? <==> self.kind == Upload
    ensures d.Send? ==> WellFormed(d.request) && Produces(d.request) == self.kind
    ensures d.Reject? ==> d.message in RejectMessages
    ensures IsStitcher(self) && !IsBlank(self.prompt) ==> d == Reject(StitchPromptMessage)
    ensures IsStitcher(self) && IsBlank(self.prompt) ==>
              (d.Send? <==> MinStitchInputs <= |VideoOutputs(inputs)| <= MaxStitchInputs)
    ensures IsStitcher(self) && d.Send? ==> d.request == Stitch(VideoOutputs(inputs))
    ensures IsStitcher(self) && d.Reject? && IsBlank(self.prompt) ==> d.message == StitchCountMessage
    ensures !IsStitcher(self) ==> !(d.Send? && d.request.Stitch?)
    ensures self.kind == Image && d.Send? ==> d.request == GenerateImage(GenerationPrompt(self, Primary(inputs)))
    ensures self.kind == Audio && d.Send? ==> d.request == GenerateAudio(GenerationPrompt(self, Primary(inputs)))
    ensures (self.kind == Text && d.Send? && ImageInput(self, Primary(inputs)).None? &&
             UpstreamOutput(Primary(inputs), Audio).None?) ==>
              d.request == GenerateText(GenerationPrompt(self, Primary(inputs)))
    ensures (self.kind == Video && !IsStitcher(self) && d.Send? && ImageInput(self, Primary(inputs)).None?) ==>
              d.request == GenerateVideoFromText(GenerationPrompt(self, Primary(inputs)))
    ensures self.kind == Text && d.Reject? ==> d.message == TextPromptMessage
    ensures self.kind == Image && d.Reject? ==> d.message == ImagePromptMessage
    ensures self.kind == Audio && d.Reject? ==> d.message == AudioPromptMessage
    ensures self.kind == Video && !IsStitcher(self) && d.Reject? ==> d.message == VideoInputMessage
  {
    if IsStitcher(self) then
      if Trim(self.prompt) != "" then Reject(StitchPromptMessage)
      else
        var videos := VideoOutputs(inputs);
        if |videos| < MinStitchInputs || |videos| > MaxStitchInputs then Reject(StitchCountMessage)
        else Send(Stitch(videos))
    else
      var primary := Primary(inputs);
      var imageInput := ImageInput(self, primary);
      var audioInput := UpstreamOutput(primary, Audio);
      var prompt := GenerationPrompt(self, primary);
      match self.kind
      case Text =>
        if imageInput.Some? then Send(DescribeImage(imageInput.value))
        else if audioInput.Some? then Send(TranscribeAudio(audioInput.value))
        else if prompt == "" then Reject(TextPromptMessage)
        else Send(GenerateText(prompt))
      case Image =>
        if prompt == "" then Reject(ImagePromptMessage) else Send(GenerateImage(prompt))
      case Video =>
        if prompt == "" && imageInput.None? then Reject(VideoInputMessage)
        else if imageInput.Some? then
          var ratio := if primary.Some? && primary.value.aspectRatio != "" then primary.value.aspectRatio
                       else self.aspectRatio;
          Send(GenerateVideoFromImage(if self.prompt != "" then self.prompt else AnimatePrompt,
                                      imageInput.value, ratio))
        else Send(GenerateVideoFromText(prompt))
      case Audio =>
        if prompt == "" then Reject(AudioPromptMessage) else Send(GenerateAudio(prompt))
      case Upload => NoRequest
  }

  /** Outside stitching only the primary input matters: later inputs can be anything. */
  lemma OnlyPrimaryMatters(self: NodeData, inputs: seq<Node>, others: seq<Node>)
    requires !IsStitcher(self) && inputs != []
    ensures Decide(self, inputs) == Decide(self, [inputs[0]] + others)
  {
  }

  /** An upstream Text output becomes the prompt of every prompt-driven request. */
  lemma UpstreamTextIsPrompt(self: NodeData, inputs: seq<Node>)
    requires !IsStitcher(self) && inputs != []
    requires inputs[0].data.kind == Text && Truthy(inputs[0].data.output)
    ensures var text := inputs[0].data.output.value;
      && (self.kind == Text ==> Decide(self, inputs) == Send(GenerateText(text)))
      && (self.kind == Image ==> Decide(self, inputs) == Send(GenerateImage(text)))
      && (self.kind == Video ==> Decide(self, inputs) == Send(GenerateVideoFromText(text)))
      && (self.kind == Audio ==> Decide(self, inputs) == Send(GenerateAudio(text)))
  {
  }

  /**
   * A Text node describes an upstream image first, transcribes upstream audio second, and
   * only then generates from the prompt; an empty prompt is an error only in that last case.
   */
  lemma TextNodePreference(self: NodeData, inputs: seq<Node>)
    requires self.kind == Text
    ensures inputs != [] && inputs[0].data.kind == Image && Truthy(inputs[0].data.output) ==>
              Decide(self, inputs) == Send(DescribeImage(inputs[0].data.output.value))
    ensures inputs != [] && inputs[0].data.kind == Audio && Truthy(inputs[0].data.output) ==>
              Decide(self, inputs) == Send(TranscribeAudio(inputs[0].data.output.value))
    ensures Decide(self, inputs).Reject? <==>
              self.prompt == "" && (inputs == [] || !Truthy(inputs[0].data.output)
                                    || inputs[0].data.kind !in {Text, Image, Audio})
  {
  }

  /** Image and Audio nodes refuse to run exactly when neither upstream text nor their own prompt is there. */
  lemma PromptRequired(self: NodeData, inputs: seq<Node>)
    requires self.kind == Image || self.kind == Audio
    ensures Decide(self, inputs).Reject? <==>
              self.prompt == "" && (inputs == [] || inputs[0].data.kind != Text || !Truthy(inputs[0].data.output))
  {
  }

  /**
   * A Video node that is not stitching needs a prompt or an upstream image. From an image it
   * animates with its own prompt, or a stock one when that is empty, at the primary's aspect
   * ratio, or its own when the primary has none.
   */
  lemma VideoRules(self: NodeData, inputs: seq<Node>)
    requires self.kind == Video && !IsStitcher(self)
    ensures Decide(self, inputs).Reject? <==>
              self.prompt == "" && (inputs == [] || inputs[0].data.kind !in {Text, Image}
                                    || !Truthy(inputs[0].data.output))
    ensures inputs != [] && inputs[0].data.kind == Image && Truthy(inputs[0].data.output) ==>
              var p := inputs[0].data;
              Decide(self, inputs) == Send(GenerateVideoFromImage(
                if self.prompt == "" then AnimatePrompt else self.prompt,
                p.output.value,
                if p.aspectRatio == "" then self.aspectRatio else p.aspectRatio))
  {
  }

  /**
   * The fallback of `imageInput` to an Image node's own output never reaches a request: the
   * Image branch sends only the prompt, so the decision does not depend on that output.
   */
  lemma ImageNodeIgnoresOwnOutput(self: NodeData, inputs: seq<Node>, other: Option<string>)
    requires self.kind == Image
    ensures Decide(self, inputs) == Decide(self.(output := other), inputs)
  {
  }

  // ----- errors -----

  /** What a `catch` receives: an `Error` with its message, or some other thrown value. */
  datatype Thrown = ErrorWithMessage(message: string) | NonError

  const UnknownErrorMessage := "An unknown error occurred."

  function ErrorMessage(e: Thrown): string {
    match e
    case ErrorWithMessage(m) => m
    case NonError => UnknownErrorMessage
  }

  datatype ErrorKind = QuotaExceeded | ContentBlocked | Generic

  /** The message names a rate limit: "429", or "resource_exhausted" or "quota" in any case. */
  ghost predicate MentionsQuota(message: string) {
    || (exists i :: OccursAt(message, "429", i))
    || (exists i :: OccursAt(ToLower(message), "resource_exhausted", i))
    || (exists i :: OccursAt(ToLower(message), "quota", i))
  }

  /** The classification of a failure; a quota mention wins over a content-filter mention. */
  function Classify(message: string): (k: ErrorKind)
    ensures k == QuotaExceeded <==> MentionsQuota(message)
    ensures k == ContentBlocked <==> !MentionsQuota(message) && exists i :: OccursAt(message, "content filters", i)
  {
    var lower := ToLower(message);
    if Contains(message, "429") || Contains(lower, "resource_exhausted") || Contains(lower, "quota") then
      QuotaExceeded
    else if Contains(message, "content filters") then
      ContentBlocked
    else
      Generic
  }

  /** Lower-casing works piece by piece. */
  lemma ToLowerAppend(a: string, b: string)
    ensures ToLower(a + b) == ToLower(a) + ToLower(b)
  {
  }

  /** "QUOTA" anywhere in a message, in capitals, marks it as a quota failure. */
  lemma UpperCaseQuota(before: string, after: string)
    ensures Classify(before + "QUOTA" + after) == QuotaExceeded
  {
    var m := before + "QUOTA" + after;
    ToLowerAppend(before, "QUOTA");
    ToLowerAppend(before + "QUOTA", after);
    assert ToLower("QUOTA") == "quota";
    assert OccursAt(ToLower(m), "quota", |before|);
  }

  datatype Toast = Toast(title: string, description: string)

  const QuotaToast := Toast("API Quota Exceeded",
    "You have exceeded your request limit for the AI model. Please check your plan or try again later.")
  const BlockedToast := Toast("Content Generation Blocked",
    "The generation was blocked by content safety filters. Please modify your prompt and try again.")
  const GenericTitle := "Uh oh! Something went wrong."

  /** The destructive toast shown for a failed run. */
  function ErrorToast(e: Thrown): (t: Toast)
    ensures Classify(ErrorMessage(e)) == QuotaExceeded ==> t == QuotaToast
    ensures Classify(ErrorMessage(e)) == ContentBlocked ==> t == BlockedToast
    ensures Classify(ErrorMessage(e)) == Generic ==> t == Toast(GenericTitle, ErrorMessage(e))
  {
    match Classify(ErrorMessage(e))
    case QuotaExceeded => QuotaToast
    case ContentBlocked => BlockedToast
    case Generic => Toast(GenericTitle, ErrorMessage(e))
  }

  /** A substring that holds a character the string lacks does not occur in it. */
  lemma MissingCharacter(s: string, sub: string, c: char)
    requires c in sub && c !in s
    ensures !exists i :: OccursAt(s, sub, i)
  {
  }

  /** Lower-casing produces a lower-case letter only from that letter or its capital. */
  lemma MissingLetter(s: string, c: char, upper: char)
    requires 'a' <= c <= 'z' && upper as int == c as int - 32
    requires c !in s && upper !in s
    ensures c !in ToLower(s)
  {
    forall j | 0 <= j < |s| ensures ToLower(s)[j] != c {
      assert s[j] != c && s[j] != upper;
    }
  }

  /** The stock message names neither a quota nor the content filters. */
  lemma UnknownMessageUnclassified()
    ensures !MentionsQuota(UnknownErrorMessage)
    ensures !exists i :: OccursAt(UnknownErrorMessage, "content filters", i)
  {
    var m := UnknownErrorMessage;
    var lower := ToLower(m);
    assert '4' !in m && 'q' !in m && 'Q' !in m && 'f' !in m && '_' !in m;
    MissingLetter(m, 'q', 'Q');
    MissingLowLine(m);
    assert !exists i :: OccursAt(m, "429", i) by { MissingCharacter(m, "429", '4'); }
    assert !exists i :: OccursAt(lower, "quota", i) by { MissingCharacter(lower, "quota", 'q'); }
    assert !exists i :: OccursAt(lower, "resource_exhausted", i) by {
      MissingCharacter(lower, "resource_exhausted", '_');
    }
    assert !exists i :: OccursAt(m, "content filters", i) by { MissingCharacter(m, "content filters", 'f'); }
  }

  lemma MissingLowLine(s: string)
    requires '_' !in s
    ensures '_' !in ToLower(s)
  {
  }

  /** A thrown value that is not an `Error` gets the generic toast with the stock message. */
  lemma NonErrorIsGeneric()
    ensures ErrorToast(NonError) == Toast(GenericTitle, UnknownErrorMessage)
  {
    UnknownMessageUnclassified();
  }

  // ----- the run -----

  /** The answer of the model service a request went to: a result field, possibly empty, or a failure. */
  datatype Reply = Produced(value: string) | Failed(error: Thrown)

  /** How the `try` block ends: with `result` (empty when undefined) or with a thrown value. */
  datatype Ending = Finished(result: string) | Raised(error: Thrown)

  /** Carries out a decision; stitching runs the stitcher, every other request takes `reply`. */
  function Settle(d: Decision, reply: Reply): (end: Ending)
    ensures d.Reject? ==> end == Raised(ErrorWithMessage(d.message))
    ensures d.NoRequest? ==> end == Finished("")
    ensures d.Send? && d.request.Stitch? && d.request.videoDataUris != [] ==>
              end == Finished(d.request.videoDataUris[0])
    ensures d.Send? && d.request.Stitch? && d.request.videoDataUris == [] ==>
              end == Raised(ErrorWithMessage(StitchVideos.NoVideosMessage))
    ensures d.Send? && !d.request.Stitch? && reply.Produced? ==> end == Finished(reply.value)
    ensures d.Send? && !d.request.Stitch? && reply.Failed? ==> end == Raised(reply.error)
  {
    match d
    case Reject(m) => Raised(ErrorWithMessage(m))
    case NoRequest => Finished("")
    case Send(req) =>
      if req.Stitch? then
        match StitchVideos.Stitch(req.videoDataUris)
        case Ok(uri) => Finished(uri)
        case Err(m) => Raised(ErrorWithMessage(m))
      else
        match reply
        case Produced(v) => Finished(v)
        case Failed(e) => Raised(e)
  }

  /** A stitch the decision allows always succeeds, with the first connected video. */
  lemma StitchSucceeds(self: NodeData, inputs: seq<Node>, reply: Reply)
    requires Decide(self, inputs).Send? && Decide(self, inputs).request.Stitch?
    ensures VideoOutputs(inputs) != []
    ensures Settle(Decide(self, inputs), reply) == Finished(VideoOutputs(inputs)[0])
  {
  }

  const StartPatch := EmptyPatch.(output := Some(None), isGenerating := Some(true))
  const EndPatch := EmptyPatch.(isGenerating := Some(false))

  function OutputPatch(result: string): Patch {
    EmptyPatch.(output := Some(Some(result)))
  }

  /** The node list after a run that ended with `end`: start, store a non-empty result, finish. */
  function AfterRun(nodes: seq<Node>, id: string, end: Ending): seq<Node> {
    var started := UpdateNodes(nodes, id, StartPatch);
    var stored := if end.Finished? && end.result != "" then UpdateNodes(started, id, OutputPatch(end.result))
                  else started;
    UpdateNodes(stored, id, EndPatch)
  }

  /** The output a node is left with: the result when there is a non-empty one, else cleared. */
  function RunOutput(end: Ending): Option<string> {
    if end.Finished? && end.result != "" then Some(end.result) else None
  }

  /**
   * After a run the node is no longer generating and holds the run's result, or nothing at
   * all, even after a failure; its other fields and every other node are as they were.
   */
  lemma RunLifecycle(nodes: seq<Node>, id: string, end: Ending)
    ensures |AfterRun(nodes, id, end)| == |nodes|
    ensures forall i :: 0 <= i < |nodes| && nodes[i].id != id ==> AfterRun(nodes, id, end)[i] == nodes[i]
    ensures forall i :: 0 <= i < |nodes| && nodes[i].id == id ==>
              AfterRun(nodes, id, end)[i] == Node(id, nodes[i].data.(output := RunOutput(end), isGenerating := false))
  {
    var after := AfterRun(nodes, id, end);
    forall i | 0 <= i < |nodes| && nodes[i].id == id
      ensures after[i] == Node(id, nodes[i].data.(output := RunOutput(end), isGenerating := false))
    {
      var d := nodes[i].data;
      var s := Merge(d, StartPatch);
      if end.Finished? && end.result != "" {
        assert after[i].data == Merge(Merge(s, OutputPatch(end.result)), EndPatch);
      } else {
        assert after[i].data == Merge(s, EndPatch);
      }
    }
  }

  /**
   * `handleGenerate` on the node `id` of `canvas`, given the reply its request would get.
   * The decision reads the graph as it was when the run started; the node is updated three
   * times (start, result, finish), and a failure yields the toast to show.
   */
  method HandleGenerate(canvas: Canvas, id: string, reply: Reply) returns (decision: Decision, toast: Option<Toast>)
    requires FindNode(canvas.nodes, id).Some?
    modifies canvas
    ensures decision == Decide(FindNode(old(canvas.nodes), id).value.data,
                               InputNodes(old(canvas.nodes), old(canvas.edges), id))
    ensures canvas.nodes == AfterRun(old(canvas.nodes), id, Settle(decision, reply))
    ensures canvas.edges == old(canvas.edges)
    ensures toast.Some? <==> Settle(decision, reply).Raised?
    ensures toast.Some? ==> toast.value == ErrorToast(Settle(decision, reply).error)
  {
    var self := FindNode(canvas.nodes, id).value.data;
    var inputs := InputNodes(canvas.nodes, canvas.edges, id);
    canvas.UpdateNodeData(id, StartPatch);
    decision := Decide(self, inputs);
    var end := Settle(decision, reply);
    toast := None;
    match end {
      case Finished(result) =>
        if result != "" {
          canvas.UpdateNodeData(id, OutputPatch(result));
        }
      case Raised(e) =>
        toast := Some(ErrorToast(e));
    }
    canvas.UpdateNodeData(id, EndPatch);
  }
}
