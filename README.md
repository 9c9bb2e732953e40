# FlowForge AI editor graph, in Dafny

FlowForge AI is a browser editor in which users chain generative-AI calls as a node
graph: each node (Text, Image, Video, Audio, or Upload) holds a prompt, a model, an
aspect ratio and an output, and an edge feeds one node's output into another node's input.
This project models the client-side logic of that editor:

- `canvas.dfy` (module `Graph`): the canvas state, a list of nodes and a list of edges held
  by the class `Graph.Canvas`. Its methods replace the lists with the results of pure
  sequence functions: delete a node together with its incident edges, merge a partial
  update into a node's data, append a new node with the default model of its type. The
  initial two-node graph is also here.
- `generation.dfy` (module `Generation`): what "Generate" on a node does, with the hosted
  model calls taken out. It resolves the node's inputs from the edges and decides which
  request to make (stitch, describe image, transcribe, text, image, video from image or
  text, audio) or which validation error to raise. It classifies a failure for the error
  toast, and runs the lifecycle of the node's `output` and `isGenerating` fields.
- `node_view.dfy` (module `NodeView`): the node component's tables and small handlers:
  toolbar controls per type, MIME types and the download name, the 8 MiB video upload
  limit, clearing the output, handle connectivity, and the preview aspect class.
- `stitch_videos.dfy` (module `StitchVideos`): the placeholder stitcher. It refuses an empty
  list and otherwise returns the first video.
- `strings.dfy` (module `Strings`): the JavaScript string operations the logic depends on:
  `trim` (with ECMAScript's whitespace set), `includes`, `toLowerCase` and `split`.
- `wrappers.dfy` (module `Wrappers`): `Option` and `Result`.

Modelling choices:
- A node's `type` field is called `kind`, because `type` is a Dafny keyword.
- `output` is `Option<string>`. `None` stands for both null and undefined. A JavaScript-truthy
  output is `Some(s)` with `s != ""`.
- A partial update (`Partial<NodeData>`) is a `Patch` with one `Option` per field. A field
  that is `None` is absent from the update.
- The model's result and its failure become a `Reply` that is passed in. The stitcher is the
  exception: it is modelled, so a stitch request is settled by `StitchVideos.Stitch`.
- The id of a new node and the time stamp in a download name are parameters; the source
  reads them from the clock.
- `node.tsx` reads `nodes` and `edges` from the node's data (src/components/dashboard/node.tsx:124).
  `canvas.tsx` never puts them there (src/components/dashboard/canvas.tsx:134-146). So
  `Generation.HandleGenerate` takes the canvas and reads its lists, as they were when the
  run started.

## Model

| member | source | states |
|---|---|---|
| Strings.Trim | src/components/dashboard/node.tsx:166 | `trim()` is a slice of the string with a blank prefix and a blank suffix cut off; it is empty exactly when the prompt is all whitespace; a non-empty result starts and ends with non-whitespace |
| Strings.Contains | src/components/dashboard/node.tsx:245-248 | `includes` holds exactly when the substring occurs at some position |
| Strings.ToLower | src/components/dashboard/node.tsx:245 | lower-casing keeps the length and maps each capital ASCII letter to its small letter |
| Strings.JoinSplit | src/components/dashboard/node.tsx:272 | `split` loses nothing: joining the pieces with the separator restores the string |
| Strings.SplitWithoutSeparator | src/components/dashboard/node.tsx:272 | a string without the separator splits into itself alone |
| Strings.SplitAfterHead | src/components/dashboard/node.tsx:272 | a separator after a separator-free head splits off exactly that head |
| StitchVideos.Stitch | src/ai/flows/stitch-videos.ts:41-51 | fails, with "No videos provided to stitch.", exactly when the list is empty; otherwise returns the first URI, an element of the list |
| StitchVideos.StitchIgnoresRest | src/ai/flows/stitch-videos.ts:48-50 | two non-empty lists with the same first video stitch to the same result |
| Graph.MergeFields | src/components/dashboard/canvas.tsx:103 | each field of the merged data comes from the patch if the patch holds it, else from the old data; an empty patch changes nothing |
| Graph.MergeThen | src/components/dashboard/canvas.tsx:99-105 | merging two patches in turn equals merging their combination once |
| Graph.RemoveNode | src/components/dashboard/canvas.tsx:91 | a node survives deletion exactly when its id differs from the deleted id |
| Graph.RemoveIncident | src/components/dashboard/canvas.tsx:92-94 | an edge survives exactly when neither its source nor its target is the deleted id |
| Graph.RemoveNodeAppend | src/components/dashboard/canvas.tsx:91 | node deletion distributes over concatenation, so surviving nodes keep their order |
| Graph.RemoveNodeAbsent | src/components/dashboard/canvas.tsx:91 | deleting an id no node has leaves the node list unchanged |
| Graph.RemoveIncidentAppend | src/components/dashboard/canvas.tsx:92-94 | edge removal distributes over concatenation, so surviving edges keep their order |
| Graph.RemoveIncidentAbsent | src/components/dashboard/canvas.tsx:92-94 | removing the edges of a node no edge touches leaves the edge list unchanged |
| Graph.DeleteIdempotent | src/components/dashboard/canvas.tsx:89-97 | deleting the same node twice gives the same nodes and edges as deleting it once |
| Graph.UpdateNodes | src/components/dashboard/canvas.tsx:101-105 | same length and ids in the same order; nodes with another id are unchanged; the matching node's data is the merge of the patch into its data |
| Graph.UpdateAbsent | src/components/dashboard/canvas.tsx:101-104 | updating an id no node has leaves the node list unchanged |
| Graph.UpdateThen | src/components/dashboard/canvas.tsx:99-108 | two updates of one node in a row equal one update with the combined patch |
| Graph.DefaultModel | src/components/dashboard/canvas.tsx:111-115 | Text, Image, Video and Audio start with "Gemini 1.5 Pro", "Imagen 4", "Veo 3" and "TTS-1"; any other type starts with "Default" |
| Graph.NewNode | src/components/dashboard/canvas.tsx:117-130 | a new node has the given id and type, an empty prompt, ratio "1:1", the type's default model and no output |
| Graph.InitialGraph | src/components/dashboard/canvas.tsx:41-66 | the canvas starts with exactly two nodes, Image "1" and Text "2", both "1:1" with no output, and no edges |
| Graph.Canvas.constructor | src/components/dashboard/canvas.tsx:73-74 | the canvas state starts as the initial nodes and edges |
| Graph.Canvas.DeleteNode | src/components/dashboard/canvas.tsx:89-97 | nodes and edges become their filtered lists; afterwards no node has the id and no edge starts or ends at it |
| Graph.Canvas.UpdateNodeData | src/components/dashboard/canvas.tsx:99-108 | nodes become the updated list; edges are unchanged |
| Graph.Canvas.AddNode | src/components/dashboard/canvas.tsx:110-132 | exactly one new node is appended at the end; the old nodes and all edges are unchanged |
| NodeView.ToolbarItems | src/components/dashboard/node.tsx:51-56 | the four configured types show exactly delete, then aspect for Image and Video only, then model and settings; Upload has no entry |
| NodeView.MimeType | src/components/dashboard/node.tsx:66-71 | every type except Upload has a MIME type |
| NodeView.SubtypeOf | src/components/dashboard/node.tsx:272 | for `top/sub` with no other slash, the extension taken from the MIME type is `sub` |
| NodeView.Extensions | src/components/dashboard/node.tsx:66-71 | the download extensions are png, mp4, wav and plain; Upload has none |
| NodeView.DownloadLink | src/components/dashboard/node.tsx:268-277 | nothing is downloaded without a non-empty output; otherwise the link points at the output and is named `<type in lower case>_<stamp>.<extension>` |
| NodeView.ImageDownloadName | src/components/dashboard/node.tsx:272-273 | an Image node's output downloads as `image_<stamp>.png` |
| NodeView.UploadPatch | src/components/dashboard/node.tsx:139-150 | a Video file over 8×1024×1024 bytes is refused; any other file sets output to its data URI and prompt to its name and leaves the other fields alone |
| NodeView.HandleFileUpload | src/components/dashboard/node.tsx:136-154 | for a node of the given type: no file or a refused file leaves the nodes unchanged; an accepted file updates the node with the upload patch; edges never change |
| NodeView.HandleClearOutput | src/components/dashboard/node.tsx:264-266 | clearing sets the node's output to null and changes nothing else |
| NodeView.DeletedNodeUnconnected | src/components/dashboard/node.tsx:133-134 | after a node's incident edges are removed, neither of its handles is connected |
| NodeView.PreviewClass | src/components/dashboard/node.tsx:331 | a known ratio gets its own preview class; an unknown one gets the square class |
| NodeView.OptionsHaveClasses | src/components/dashboard/node.tsx:466 | every ratio in the aspect menu has a preview class |
| Generation.FindNode | src/components/dashboard/node.tsx:162 | the node found has the searched id; nothing is found exactly when no node has it |
| Generation.FindNodeAppend | src/components/dashboard/node.tsx:162 | the search returns the first match in list order |
| Generation.InputNodes | src/components/dashboard/node.tsx:161-162 | every input is an existing node that is the source of an edge into this node; every such edge whose source exists contributes its node; missing sources are dropped |
| Generation.InputNodesAppend | src/components/dashboard/node.tsx:161-162 | inputs follow edge order |
| Generation.InputsImplyTarget | src/components/dashboard/node.tsx:133 | a node with inputs has a connected input handle |
| Generation.UpstreamOutput | src/components/dashboard/node.tsx:180-182 | an upstream value exists exactly when the primary input has the asked type and a non-empty output, and it is that output |
| Generation.ImageInput | src/components/dashboard/node.tsx:181 | the image input is the primary Image's output if it has one, else an Image node's own non-empty output, else none; it is never empty |
| Generation.GenerationPrompt | src/components/dashboard/node.tsx:184 | upstream text replaces the node's own prompt; without it the own prompt is used |
| Generation.VideoOutputs | src/components/dashboard/node.tsx:169 | exactly the non-empty outputs of Video inputs are collected, no more items than inputs |
| Generation.VideoOutputsAppend | src/components/dashboard/node.tsx:169 | collection works part by part, so outputs keep input order and each input counts once, duplicates included |
| Generation.VideoOutputsSingle | src/components/dashboard/node.tsx:169 | one input contributes its output exactly when it is a Video node with a non-empty output |
| Generation.Decide | src/components/dashboard/node.tsx:164-232 | no request only for Upload nodes; every request is well formed (no empty prompt or data URI, 2 to 12 stitched videos) and fits the node's type; the stitcher rejects a non-blank prompt and otherwise stitches exactly when 2 to 12 Video inputs have output; only the stitcher stitches; Image and Audio requests, Text requests without image or audio input, and Video requests without image input carry the generation prompt; each type rejects with its own message |
| Generation.OnlyPrimaryMatters | src/components/dashboard/node.tsx:179 | outside stitching, inputs after the first never change the decision |
| Generation.UpstreamTextIsPrompt | src/components/dashboard/node.tsx:180-184 | an upstream Text output becomes the prompt of the text, image, video and audio requests |
| Generation.TextNodePreference | src/components/dashboard/node.tsx:186-201 | a Text node describes an upstream image, else transcribes upstream audio; it rejects exactly when its prompt is empty and it has no image, audio or text input |
| Generation.PromptRequired | src/components/dashboard/node.tsx:202-232 | Image and Audio nodes reject exactly when there is no upstream text and their own prompt is empty |
| Generation.VideoRules | src/components/dashboard/node.tsx:208-223 | a Video node rejects exactly when it has no prompt, no upstream text and no upstream image; with an image it uses its own prompt or "Animate this image", at the primary's ratio or its own |
| Generation.ImageNodeIgnoresOwnOutput | src/components/dashboard/node.tsx:181-207 | an Image node's own output never changes the decision |
| Generation.Classify | src/components/dashboard/node.tsx:245-251 | quota exactly when the message holds "429", or "resource_exhausted" or "quota" after lower-casing; content-blocked exactly when it is not quota and holds "content filters" |
| Generation.UpperCaseQuota | src/components/dashboard/node.tsx:245 | "QUOTA" anywhere in the message classifies it as quota |
| Generation.ErrorToast | src/components/dashboard/node.tsx:240-257 | quota and content-blocked failures get their fixed toasts; any other failure gets the generic title with the raw message |
| Generation.NonErrorIsGeneric | src/components/dashboard/node.tsx:240 | a thrown non-Error gets the generic toast with "An unknown error occurred." |
| Generation.Settle | src/components/dashboard/node.tsx:164-233 | a rejection throws its message; an Upload node finishes without a result; a stitch finishes with the first video, or throws on an empty list; any other request ends with the reply |
| Generation.StitchSucceeds | src/components/dashboard/node.tsx:169-175 | a stitch the decision allows never fails and yields the first connected video with an output |
| Generation.RunLifecycle | src/components/dashboard/node.tsx:156-261 | after a run the node is not generating; its output is the non-empty result, or null after a failure or an empty result; its other fields and all other nodes are unchanged |
| Generation.HandleGenerate | src/components/dashboard/node.tsx:156-262 | decides from the graph at the start of the run; applies start, result and finish updates; leaves edges alone; returns the error toast exactly when the run threw |

## Left out

- React Flow's own change handlers (`onNodesChange`, `onEdgesChange`, `onConnect`) call library code that is not part of this model.
- Node positions are window-size arithmetic in floating point, so they are not modelled. Node ids and download time stamps come from the clock and are parameters.
- Strings.ToLower: handles ASCII letters only, where `toLowerCase` folds all of Unicode. The classifier searches only for "resource_exhausted" and "quota". The only non-ASCII characters that lower-case into ASCII become 'i' and 'k', and neither letter occurs in those words. So the classification is the same either way.
- Neither file enforces a maximum node count or a maximum number of incoming edges, so no such limit is modelled.
- The hosted model calls (`generate-*`, `improve-prompt`, transcription, image description) are replies passed in, not computations. Their polling loops and WAV encoding are not modelled.
- The progress toasts ("started", "complete"), `console` logging and the local `isLoading` flag (which mirrors `isGenerating`) are not modelled.
- Concurrent runs on several nodes, and the ordering of React state updates between awaits, are not modelled. One run is applied as its three updates in sequence.
- `handleCopy` (clipboard), the file reader, and the anchor click of a download are browser services. The file reader's data URI is a parameter.
- The model menu's option table, the prompt text box and the aspect/model selections are plain `onUpdate` patches, covered by `Graph.Canvas.UpdateNodeData`. The option lists themselves are not modelled.
- The input handle's colour comes from the `node-info` colour table, and `onDeleteEdge` is never supplied by the canvas. Neither is modelled.
- For the Upload type, the toolbar and MIME tables have no entry, so lookups yield `None`. What the page does with the resulting undefined value is not modelled.
