# mcp-comfy-ui-builder, modelled in Dafny

mcp-comfy-ui-builder is an MCP server and command-line tool. It builds ComfyUI
workflow graphs, submits them to a ComfyUI engine, reads back history and
output files, and keeps a knowledge base of ComfyUI node classes. This
project models the sequential core of that system, with every network,
filesystem, subprocess and clock result passed in as a parameter, and proves
properties of the model:

- **the dynamic workflow graph** (`DynamicBuilder`): a class whose
  node map and counter the add, connect, remove and set-input methods update
  in place, failing with "not found" and leaving the graph unchanged. The
  validator reports every dangling reference and every negative output
  index, and it accepts a graph exactly when it has no errors.
- **the workflow context store** (`Store`): a class over an id → context
  map, with TTL eviction by `Cleanup(now)`, and the store singleton.
- **the txt2img template builder** (`Templates`): its seven-node graph, the
  defaults merged with overrides, and the proof that the graph passes the
  validator.
- **ComfyUI response handling** (`ApiTypes`, `ComfyClient`, `Outputs`):
  - URL joining and the attempt loop;
  - the `/history` shape normalisation;
  - queue defaults and the interrupt and delete request bodies;
  - the first output image and the completed/failed classification;
  - the one-shot poll guard of the progress handler;
  - the "final status" predicate and the output listing with its retries;
  - the base64 download decisions and the download naming.
- **the node catalogue** (`Catalog`, `Discovery`, `Updater`, `Server`,
  `Cli`):
  - normalised live and knowledge-base nodes, where the live entry wins;
  - the filters and the query;
  - sorted unique categories;
  - the sync that adds only new classes;
  - the compatibility index, whose producer and consumer lists never gain
    duplicates;
  - the `seed` merge that keeps existing entries;
  - the `sync-manager` pack mapping;
  - the TTL caches of the server and of the discovery;
  - the decisions of the `check_compatibility`, `suggest_nodes`,
    `execute_workflow` and `delete_queue_items` tools.
- **resource recommendations** (`Resources`): the VRAM tier table, FLUX
  readiness, the Apple Silicon hints and timeout, and the largest resolution
  a workflow asks for.
- **string, path and retry helpers** (`WorkflowStorage`, `ManagerCli`,
  `Scanner`):
  - saved-workflow name sanitising, the path-or-name rule of loading, and
    the sorted listing;
  - the model-type → directory table and the downloaded-filename fallback
    and sanitising;
  - `cm-cli` result shaping;
  - the 429 retry loop with exponential backoff.

Supporting modules: `Wrappers` (Option, Result), `Text` (ASCII case
mapping, trimming, substrings, scalar-value order), `Objects` (a JavaScript
object as an ordered list of distinct keys, in insertion order), and
`JsonValues` (parsed JSON, with numbers as reals).

Where the code and its documentation disagree, the model follows the code:

- `flux_ready` holds for the high tier (8 GB and up), although a comment says
  FLUX needs about 12 GB.
- `isComfyUIConfigured` always answers true; the handlers take `configured`
  as a parameter.
- `tests/workflow-builder.test.ts` (lines 27-34) and `tests/mcp-tools.test.ts`
  (lines 115-122) expect the KSampler node to carry `sampler_name: 'euler'`
  and `scheduler: 'normal'`; `buildTxt2Img` emits neither input, and the
  model's txt2img graph has neither (see `Templates.Txt2ImgGraph`).

## Model

| member | source | states |
|---|---|---|
| ApiTypes.DecodeImage | src/types/comfyui-api-types.ts:21-25 | a string `filename` is read as it is, and a missing one as the empty string; `subfolder` and `type` are each the string under that key, or absent |
| ApiTypes.DecodeImages | src/types/comfyui-api-types.ts:29 | an `images` list is present exactly when the property holds an array; it then has one decoded record for each element, in order |
| ApiTypes.DecodeOutputs | src/types/comfyui-api-types.ts:36 | `outputs` is present exactly when the property holds an object, and it keeps that object's node ids in order |
| ApiTypes.DecodeStatus | src/types/comfyui-api-types.ts:37 | `status` is absent exactly when the property is missing or null |
| ApiTypes.DecodeEntry | src/types/comfyui-api-types.ts:34-39 | the entry's `prompt_id` is the string property of that name |
| Catalog.Stamped | src/node-discovery/updater.ts:55-56 | `metadata ??= {}` followed by `last_updated = today`: the stamp is set, version and node count are kept, and a missing metadata object starts empty |
| ComfyClient.StripTrailingSlash | src/comfyui-client.ts:26 | at most one trailing `/` is removed: a string ending in `/` is the result plus `/`; any other string is returned unchanged |
| ComfyClient.NormalizeUrl | src/comfyui-client.ts:21-29 | the URL is the base without its trailing slash, then a `/` (added only when the path lacks one), then the path; its length is exactly those parts' lengths |
| ComfyClient.FetchWithRetry | src/comfyui-client.ts:33-58 | at most `MAX_RETRIES + 1` = 3 attempts; every attempt before the last one threw; the first response is returned as it is; a thrown error is rethrown only after the third attempt |
| ComfyClient.Checked | src/comfyui-client.ts:69-73 | success exactly when `res.ok` holds and the body parses as JSON, with the parsed body; a non-ok response gives the error naming the path and the status, whose detail is the response text, or the status text when the text is empty; an ok response whose body is not JSON gives the parse error for that path |
| ComfyClient.WorkflowJson | src/comfyui-client.ts:67 | the serialised workflow has the node ids in order, and each one holds `{class_type, inputs}` of its node |
| ComfyClient.SubmitBody | src/comfyui-client.ts:67 | the request body's `prompt` property is the serialised workflow |
| ComfyClient.SubmitPrompt | src/comfyui-client.ts:64-78 | success exactly when the response is ok, its body parses, and its `prompt_id` is truthy; a non-ok or unparsable response gives the `Checked` error; a parsed body without an id gives the missing-id error |
| ComfyClient.WithPromptId | src/comfyui-client.ts:99 | `{...entry, prompt_id: id}` is an object whose `prompt_id` is the id |
| ComfyClient.WithPromptIdKeeps | src/comfyui-client.ts:108-111 | every other property is the one the spread copied, so an object entry keeps all its other properties |
| ComfyClient.SelectEntry | src/comfyui-client.ts:94-98 | nothing is selected only from an empty object; the value under the id wins whenever that value is present and non-null |
| ComfyClient.ListHistory | src/comfyui-client.ts:102-105 | an array response is returned reversed (newest first); reversing a list of length 0 or 1 changes nothing |
| ComfyClient.AllHistory | src/comfyui-client.ts:107-113 | a keyed response without an id yields one entry per key; entry `i` is the `i`-th key from the end, tagged with that key |
| ComfyClient.AllHistoryIds | src/comfyui-client.ts:108-112 | entry `i` of the keyed listing carries the key of the `i`-th field from the end as its `prompt_id` |
| ComfyClient.KeyedEntry | src/comfyui-client.ts:92-101 | corrected keyed read: at most one entry, and exactly one when the object is non-empty; an object stored under the id is returned tagged with the id |
| ComfyClient.EmptyHistoryObjectAsWritten | src/comfyui-client.ts:92-101 | as written, the answer `{}` for a given id yields `[{}]`, and the poller classifies that empty entry as completed |
| ComfyClient.NormalizeHistory | src/comfyui-client.ts:91-114 | the response shapes: a keyed object for an id gives the keyed entry; an array is reversed; an object without an id gives every entry tagged with its key, in reverse key order; anything else gives `[]` |
| ComfyClient.NormalizeHistoryCorrection | src/comfyui-client.ts:92-101 | the corrected read differs from the code as written exactly when an id is given and the response is `{}` |
| ComfyClient.KeyedHistoryIds | src/comfyui-client.ts:107-113 | in a keyed history without an id, entry `i` has as its `prompt_id` the key of the `i`-th field from the end |
| ComfyClient.GetHistory | src/comfyui-client.ts:84-115 | success exactly when the response is ok and its body parses; the entries are then the body normalised with the corrected read of an empty keyed answer (see "Findings"); a failure is the `Checked` error for `/history` or `/history/<id>` |
| ComfyClient.OrEmptyList | src/comfyui-client.ts:160-161 | `x ?? []`: a present non-null value is kept; a missing or null one becomes `[]` |
| ComfyClient.GetQueue | src/comfyui-client.ts:152-163 | an ok response with a parsable body gives both queue lists, each defaulting to `[]`; any other response gives the `Checked` error for `/queue` |
| ComfyClient.GetObjectInfo | src/comfyui-client.ts:122-130 | success exactly when the response is ok and its body parses; a null body becomes `{}`, and any other body is returned unchanged; a failure is the `Checked` error |
| ComfyClient.GetSystemStats | src/comfyui-client.ts:136-147 | success exactly when the response is ok, its body parses, `system` is truthy and `devices` is an array; a non-ok or unparsable response gives the `Checked` error; a parsed body that fails the shape test gives the invalid-structure error |
| ComfyClient.InterruptBody | src/comfyui-client.ts:169-170 | without an id (or with an empty one) the body is `{}`; with an id it has the single key `prompt_id`, holding that id |
| ComfyClient.DeleteQueueBody | src/comfyui-client.ts:198-203 | an empty id list sends no request; otherwise the body has the single key `delete`, holding the ids in order |
| ComfyClient.GetFirstOutputImageRef | src/comfyui-client.ts:229-244 | no entries gives nothing; the result is absent exactly when no node output of the first entry has images; otherwise it is the first image of the first such output in key order, with `type` defaulting to `output` |
| ComfyClient.ClassifyEntry | src/comfyui-client.ts:502-521 | a polled entry counts as failed exactly when `status.messages` is non-empty, and the error is then its first message; otherwise it counts as completed with no error; the outputs and the prompt id are passed through |
| ComfyClient.ClassifyIgnoresStatusStr | src/comfyui-client.ts:508-513 | `status_str` is read but plays no part: changing it never changes the result |
| ComfyClient.PollRound | src/comfyui-client.ts:505-517 | a round decides exactly when the history has an entry, and the decision is the classification of the first entry |
| ComfyClient.TimeoutResult | src/comfyui-client.ts:489-495 | when the deadline passes the call resolves for its prompt with status `timeout`, no outputs, and the error `Timed out after <timeoutMs>ms` |
| ComfyClient.OneShotPolls | src/comfyui-client.ts:467-480 | when nothing after a resolution or a scheduled poll schedules another poll, at most one poll fallback is scheduled |
| ComfyClient.ProgressHandler.constructor | src/comfyui-client.ts:434-435 | a new handler has both flags false |
| ComfyClient.ProgressHandler.OnProgress | src/comfyui-client.ts:448-481 | `completed` and `failed` events always resolve with that status; any other event schedules the poll fallback exactly when nothing is resolving, no poll is scheduled and progress is at least 1; the flags are never cleared |
| ComfyClient.ProgressHandler.HandleEvents | src/comfyui-client.ts:446-486 | over any event stream, one action per event; every `completed` event resolves as completed with its outputs and every `failed` event as failed with its message; no poll is scheduled after a resolution or an earlier poll; at most one poll in all; none at all when the handler was already resolving; afterwards the resolving flag is set exactly when it was set before or some event acted, and the poll flag exactly when it was set before or some event scheduled the poll |
| DynamicBuilder.Link | src/workflow/dynamic-builder.ts:71 | the stored `[fromNodeId, outputIndex]` is a value the validator reads as a link, with that target and that index |
| DynamicBuilder.NodeErrorsEmptyIff | src/workflow/dynamic-builder.ts:117-132 | a node contributes no error exactly when every one of its input values passes the link check |
| DynamicBuilder.GraphErrorsEmptyIff | src/workflow/dynamic-builder.ts:115-134 | the nodes walked contribute no error exactly when every input of every node passes the link check |
| DynamicBuilder.ErrorsEmptyIff | src/workflow/dynamic-builder.ts:111-136 | `valid` means exactly that every link names an existing node and has a non-negative output index |
| DynamicBuilder.InNodeErrorsIntro | src/workflow/dynamic-builder.ts:117-132 | an error produced by one input of a node is in that node's error list |
| DynamicBuilder.InNodeErrorsElim | src/workflow/dynamic-builder.ts:117-132 | every error in a node's error list comes from one of its inputs |
| DynamicBuilder.InGraphErrorsIntro | src/workflow/dynamic-builder.ts:115-134 | an error of one node is in the graph's error list |
| DynamicBuilder.InGraphErrorsElim | src/workflow/dynamic-builder.ts:115-134 | every error in the graph's list comes from one of its nodes |
| DynamicBuilder.InErrorsAt | src/workflow/dynamic-builder.ts:115-134 | an error is reported exactly when some input of some node produces it |
| DynamicBuilder.DanglingLinkReported | src/workflow/dynamic-builder.ts:121-125 | the non-existent-node error for (node, input, target) is reported exactly when that input is a link to that target and the target is not a node |
| DynamicBuilder.NegativeIndexReported | src/workflow/dynamic-builder.ts:126-130 | the invalid-index error for (node, input, x) is reported exactly when that input is a link whose index `x` is below 0 |
| DynamicBuilder.PushInputErrors | src/workflow/dynamic-builder.ts:118-131 | one input's pushes append exactly that input's errors |
| DynamicBuilder.PushNodeErrors | src/workflow/dynamic-builder.ts:117-133 | the inner loop appends exactly the node's errors, input by input, in order |
| DynamicBuilder.ValidateGraph | src/workflow/dynamic-builder.ts:111-137 | the error list is every node's errors in order; `valid` holds exactly when the list is empty, which is exactly when every link resolves |
| DynamicBuilder.WorkflowContext.constructor | src/workflow/dynamic-builder.ts:28-35 | a fresh context has an empty graph and counter 0 |
| DynamicBuilder.WorkflowContext.AddNode | src/workflow/dynamic-builder.ts:40-52 | the counter goes up by one; the id is `String(counter)`; the node is stored under it and no other key changes; an id issued by the counter was not already in the graph |
| DynamicBuilder.WorkflowContext.ConnectNodes | src/workflow/dynamic-builder.ts:57-72 | a missing target node, then a missing source node, is the `not found` error with the graph unchanged; otherwise only the target's input becomes the link |
| DynamicBuilder.WorkflowContext.RemoveNode | src/workflow/dynamic-builder.ts:77-83 | a missing node is the error with the graph unchanged; otherwise that key alone is deleted; links to it elsewhere are kept |
| DynamicBuilder.WorkflowContext.SetNodeInput | src/workflow/dynamic-builder.ts:88-99 | a missing node is the error with the graph unchanged; otherwise only that input of that node is overwritten |
| DynamicBuilder.WorkflowContext.Validate | src/workflow/dynamic-builder.ts:111-137 | validating a context gives the graph's error list, and it is valid exactly when every link resolves |
| DynamicBuilder.CreateWorkflow | src/workflow/dynamic-builder.ts:19-35 | the id is `wf_` followed by the stamp; the graph is empty; the counter is 0 |
| DynamicBuilder.FreshContextNumbering | src/workflow/dynamic-builder.ts:45-47 | on a fresh context, the first two `addNode` calls return `"1"` and `"2"` and store the nodes under those ids |
| Store.RetainedMembers | src/workflow/workflow-store.ts:50-57 | cleanup keeps every live entry and nothing else, and keys stay distinct |
| Store.CleanupStep | src/workflow/workflow-store.ts:52-55 | one step of the walk: the entry being visited sits at the cursor, and it is either removed there or kept |
| Store.RetainedLookup | src/workflow/workflow-store.ts:29-31 | after cleanup, `get(id)` gives the same context when it is alive, and null otherwise |
| Store.RetainedLookups | src/workflow/workflow-store.ts:50-57 | the lookup fact holds for every id at once |
| Store.WorkflowStore.constructor | src/workflow/workflow-store.ts:13-15 | a new store is empty, with the given ttl or 30 minutes |
| Store.WorkflowStore.Create | src/workflow/workflow-store.ts:20-24 | a fresh empty context is stored under its own `wf_` id; other ids are untouched |
| Store.WorkflowStore.Update | src/workflow/workflow-store.ts:36-38 | `get(id)` returns the new context afterwards; other ids are untouched |
| Store.WorkflowStore.Delete | src/workflow/workflow-store.ts:43-45 | that id is gone; other ids are untouched |
| Store.WorkflowStore.Cleanup | src/workflow/workflow-store.ts:50-57 | the entries left are the live ones in their original order, where an entry older than the ttl (strictly) is dropped; every lookup is the one before cleanup, if still alive |
| Store.StoreRegistry.constructor | src/workflow/workflow-store.ts:61 | no store exists at first |
| Store.StoreRegistry.GetWorkflowStore | src/workflow/workflow-store.ts:66-71 | the first call creates an empty store with the given ttl; later calls return that same store and ignore their argument |
| Templates.Txt2ImgGraphKeys | src/workflow/workflow-builder.ts:40-78 | the txt2img graph has exactly the node ids `"1"` to `"7"`, in that order |
| Templates.Txt2ImgGraphNodes | src/workflow/workflow-builder.ts:40-78 | ids 1 to 7 hold the loader, positive encoder, negative encoder, latent, sampler, decoder and save node, each built from its own values |
| Templates.LoaderInputs | src/workflow/workflow-builder.ts:41-44 | the loader's `ckpt_name` is the chosen checkpoint |
| Templates.TextEncodeInputs | src/workflow/workflow-builder.ts:45-52 | an encoder's `text` is its prompt, and its `clip` input is the link `["1", 1]` |
| Templates.LatentInputs | src/workflow/workflow-builder.ts:53-56 | the latent node carries width, height and batch size |
| Templates.SamplerInputs | src/workflow/workflow-builder.ts:57-69 | the sampler is wired to `["1",0]`, `["2",0]`, `["3",0]` and `["4",0]`, and it carries seed, steps, cfg and denoise |
| Templates.SamplerLacksSamplerAndScheduler | src/workflow/workflow-builder.ts:57-69 | the sampler node has no `sampler_name` and no `scheduler` input |
| Templates.DecodeInputs | src/workflow/workflow-builder.ts:70-73 | the decoder reads `["5",0]` and the VAE `["1",2]` |
| Templates.SaveInputs | src/workflow/workflow-builder.ts:74-77 | the save node reads `["6",0]` and carries the filename prefix |
| Templates.Txt2ImgGraphSlots | src/workflow/workflow-builder.ts:40-78 | each chosen value sits at its own input of its own node |
| Templates.MergedParameter | src/workflow/workflow-builder.ts:39 | in `{...DEFAULT_TXT2IMG, ...params}` a given parameter (even `null`) wins and a missing one takes its default |
| Templates.Txt2ImgParameters | src/workflow/workflow-builder.ts:21-39 | every one of the eleven parameters reaches its slot: the caller's value when given, otherwise the default from `DEFAULT_TXT2IMG` |
| Templates.Txt2ImgGraphFixed | src/workflow/workflow-builder.ts:40-78 | whatever values fill it, the graph has ids 1 to 7 and the fixed wiring between them |
| Templates.Txt2ImgFixedPart | src/workflow/workflow-builder.ts:36-80 | for any parameters, the seven class types are in order and so are the nine fixed links between the nodes |
| Templates.NodeInputsResolve | src/workflow/workflow-builder.ts:40-78 | when nodes 1 to 6 exist and no value is link-shaped, every link of each of the seven node kinds resolves |
| Templates.Txt2ImgGraphResolves | src/workflow/workflow-builder.ts:40-78 | with no link-shaped value among the chosen ones, every link of the graph resolves |
| Templates.SevenNodesResolve | src/workflow/workflow-builder.ts:40-78 | a graph whose seven nodes each have resolving links passes the link check |
| Templates.DefaultsNotLinks | src/workflow/workflow-builder.ts:21-33 | no default value is link-shaped |
| Templates.MergedNotLink | src/workflow/workflow-builder.ts:39 | a parameter that is not link-shaped in the caller's object is not link-shaped after the merge |
| Templates.Txt2ImgValidates | src/workflow/workflow-builder.ts:36-80 | when no caller parameter has the shape `[string, number]`, the built graph has no validation error |
| Templates.Txt2ImgLinkShapedPrompt | src/workflow/workflow-builder.ts:47 | a link-shaped prompt `[t, n]` is copied as it is, so a `t` outside 1..7 is reported as a dangling link of node 2 |
| Templates.ListTemplates | src/workflow/workflow-builder.ts:104-106 | the template ids are the keys of the table: `["txt2img"]` |
| Templates.BuildFromTemplate | src/workflow/workflow-builder.ts:90-99 | corrected lookup: the result is a failure exactly for an id that is not a listed template, and the failure message names the id and the available ones; `txt2img` gives the txt2img graph over `params ?? {}` |
| Templates.ListedTemplatesBuild | src/workflow/workflow-builder.ts:90-99 | every listed id builds, and a missing `params` means the same as `{}` |
| Templates.InheritedIdNotRejected | src/workflow/workflow-builder.ts:94-97 | as written, `toString` and `constructor` are found in the object literal through its prototype, so they are not rejected even though they are not templates; the corrected lookup rejects them |
| Outputs.BuildViewUrl | src/output-manager.ts:29-33 | the URL names the file and the type; the subfolder is set exactly when it is given and non-empty |
| Outputs.FileOf | src/output-manager.ts:91-98 | an output file carries the prompt id, the node id, the kind and the filename; its subfolder defaults to `""`; its URL is built with `type` defaulting to `output` |
| Outputs.FilesOf | src/output-manager.ts:89-110 | a list of records becomes one file per record, in order |
| Outputs.ExtractedFilesTagged | src/output-manager.ts:84-112 | every extracted file belongs to the prompt and names a node of the outputs |
| Outputs.ExtractedFilesComplete | src/output-manager.ts:84-112 | every image and every gif of every node yields its file |
| Outputs.CollectFiles | src/output-manager.ts:84-112 | the push loop produces, node by node in key order, that node's images and then its gifs |
| Outputs.FindEntry | src/output-manager.ts:68 | the entry found has the prompt id (a missing id reads as `""`); nothing is found exactly when no entry has it; the first match wins |
| Outputs.ListEntries | src/output-manager.ts:65-70 | the entries of `GET /history/{id}` when there are any; otherwise at most the one entry of the full history whose `prompt_id` is the id; a failed request is the error; the history it reads is `ComfyClient.GetHistory` with the corrected read of an empty keyed answer |
| Outputs.TryList | src/output-manager.ts:64-113 | no entry gives no files; an entry without outputs whose lower-cased `status_str` is not final is the `not completed yet` error; otherwise the result is the entry's files; the history it reads is `ComfyClient.GetHistory` with the corrected read of an empty keyed answer |
| Outputs.StillRunningNotFinal | src/output-manager.ts:41-49 | the `not completed yet` guard fires only for entries that `isHistoryEntryFinal` calls unfinished, unless they carry error messages; and every unfinished entry with a status string trips it |
| Outputs.FreshPromptFallsBack | src/output-manager.ts:65-70 | with the corrected history read, a prompt that `GET /history/{id}` answers with `{}` falls back to its entry in the full history |
| Outputs.ListOutputs | src/output-manager.ts:115-126 | up to three attempts; the first that yields files wins; an error is rethrown only from the third attempt; three fruitless attempts give `[]`; the history it reads is `ComfyClient.GetHistory` with the corrected read of an empty keyed answer |
| Outputs.MimeFor | src/output-manager.ts:183-197 | the MIME type by extension: png, jpg/jpeg, webp and gif map to their image types, and anything else is `application/octet-stream` |
| Outputs.ClampQuality | src/output-manager.ts:181 | the quality lies in 1..100: 85 by default, an in-range value kept, and out-of-range values clamped to the nearer bound |
| Outputs.LastSegmentProper | src/output-manager.ts:186 | the text after the last `.` of a name that holds a `.` is shorter than the name |
| Outputs.LowerLettersOnly | src/output-manager.ts:186-203 | an extension that lower-cases to png/jpg/jpeg/webp/gif is made of ASCII letters only, so the `/\.[a-z]+$/i` pattern matches it |
| Outputs.WebpNameOfImage | src/output-manager.ts:203 | an image name keeps its stem and gets `.webp`, and its extension is then `webp` |
| Outputs.WebpExtension | src/output-manager.ts:186-203 | the extension of `stem.webp` is `webp` |
| Outputs.LastSegmentAfterDot | src/output-manager.ts:186 | the text after the last `.` of `stem.tail` is `tail` when `tail` has no `.` of its own |
| Outputs.DownloadBase64 | src/output-manager.ts:179-217 | the file is converted exactly when it has an image extension, the limit is positive, the size exceeds it and the encoder succeeds; a converted file is `image/webp`, renamed, and reports its original size; otherwise the name and the extension's MIME type are kept; a limit of 0 never converts |
| Outputs.BaseName | src/output-manager.ts:252 | with the prefix on, the name is exactly `<node_id>_` followed by the filename (it starts with the one, ends with the other, and has their combined length); with it off it is the filename itself |
| Outputs.DownloadPaths | src/output-manager.ts:243-258 | the files are downloaded in order, each to the destination directory joined with its base name; all paths are returned exactly when every `/view` request answers ok; otherwise the first failing request ends the loop with its `/view failed` status and URL, or the fetch's own error, and only the files before it were written |
| Updater.AddNode | src/node-discovery/updater.ts:37-59 | a missing file starts a document holding just that node, with `total_nodes` 1; a document without `nodes` is the TypeError `Cannot set properties of undefined (setting '<class>')`; otherwise the node is stored under its class, every other node is kept, and the metadata is stamped and recounted |
| Updater.AddNodeCounts | src/node-discovery/updater.ts:54-57 | after every successful `addNode`, `total_nodes` is the number of node keys: unchanged when the class was already there, one more when it was new |
| Updater.AddAllUniqueFacts | src/node-discovery/updater.ts:78-87 | appending only the absent items keeps the old list as a prefix, adds each item, adds nothing else, and keeps a duplicate-free list duplicate-free |
| Updater.TypesAfterUntouched | src/node-discovery/updater.ts:72-89 | a data type the node does not return is left as it was |
| Updater.TypesAfterExtends | src/node-discovery/updater.ts:72-89 | an existing entry only grows: its old producers and consumers stay as prefixes |
| Updater.TypesAfterCovers | src/node-discovery/updater.ts:72-89 | every return type has an entry afterwards; the node is among its producers; every consumer listed for that type is among its consumers |
| Updater.TypesAfterDistinct | src/node-discovery/updater.ts:78-87 | no producer or consumer list gains a duplicate |
| Updater.AppendAbsent | src/node-discovery/updater.ts:83-87 | the inner loop pushes each consumer, in order, only when it is not already listed |
| Updater.RecordReturnType | src/node-discovery/updater.ts:73-88 | one pass of the outer loop stores, under the return type, its entry or a fresh empty one, with the producer and the consumers recorded |
| Updater.UpdatedCompat | src/node-discovery/updater.ts:72-81 | the update fails exactly when `updateCompatibility` throws on the description, with that TypeError's message: `return_types` not iterable, or `compatible_outputs` undefined when the first return type is read from it |
| Updater.UpdatedCompatRecords | src/node-discovery/updater.ts:64-94 | after a successful update `last_updated` is today; each return type has an entry listing the node as a producer and every consumer given for that type; every other type is left as it was; a document without duplicates gains none |
| Updater.UpdateCompatibility | src/node-discovery/updater.ts:64-94 | the call throws, writing nothing, exactly when `return_types` is missing, or when it is not empty and `compatible_outputs` is missing; otherwise the document written starts from the file, or from an empty version-1.0.0 document when there is none, its `data_types` are updated for each return type in order, and the metadata is stamped |
| Updater.ChangelogLines | src/node-discovery/updater.ts:105-112 | the lines are a blank line, `## <today>`, a blank line and `### Added nodes`, then one `- **class** — display name: description` line per new node, in order, with the intended em dash (see "Findings"), then a closing blank line |
| Updater.GenerateChangelog | src/node-discovery/updater.ts:99-115 | nothing is written for no nodes; otherwise the text written starts with the old file, or with `# Changelog` when there is none |
| Updater.ChangelogMentionsEach | src/node-discovery/updater.ts:105-114 | every new node's line appears after the text that was there already |
| Updater.ChangelogDashGarbled | src/node-discovery/updater.ts:110 | where the intended line has its em dash, the line as the template is written has the three characters `â€”`, so the two lines differ |
| Discovery.NormalizeLiveNode | src/node-discovery/hybrid-discovery.ts:40-53 | a live node keeps its class name; its display name is `display_name`, else `name`, else the class; its category defaults to `unknown`; inputs and outputs default to empty; its source is `live` |
| Discovery.LiveShape | src/node-discovery/hybrid-discovery.ts:59 | a knowledge-base input with a type becomes `[type, {default}]`, or `[type, {}]` when it has no default; one without a type becomes `[]` |
| Discovery.NormalizeKnowledgeNode | src/node-discovery/hybrid-discovery.ts:55-71 | a knowledge-base node keeps its class name, display name (defaulting to the class) and category (defaulting to `unknown`); it has the same required input names; its optional inputs and outputs are carried over; its source is `knowledge` |
| Discovery.InputTypeOf | src/node-discovery/hybrid-discovery.ts:74-80 | a plain string is its own type; an array whose head is a string has that head as its type; anything else is `UNKNOWN` |
| Discovery.KnowledgeInputTypes | src/node-discovery/hybrid-discovery.ts:55-80 | after normalisation a knowledge-base input reads back as its declared type, or as `UNKNOWN` when it has none |
| Discovery.InputTypes | src/node-discovery/hybrid-discovery.ts:89-91 | the input types of a node: the required inputs, then the optional ones |
| Discovery.EmptyFiltersMatch | src/node-discovery/hybrid-discovery.ts:83-101 | absent filters, or filters whose three fields are all empty, let every node through |
| Discovery.TypeFiltersIgnoreCase | src/node-discovery/hybrid-discovery.ts:88-99 | the input-type and output-type filters compare upper-cased strings, so upper-casing a filter value changes nothing |
| Discovery.BlankQueryMatches | src/node-discovery/hybrid-discovery.ts:105 | a blank or empty query matches every node |
| Discovery.QueryIgnoresCase | src/node-discovery/hybrid-discovery.ts:104-113 | the query is lower-cased, so its case does not matter |
| Discovery.LiveView | src/node-discovery/hybrid-discovery.ts:136-148 | a fresh cache is served as it is; otherwise the fetched catalogue is returned, or `null` when the fetch failed |
| Discovery.CacheAfter | src/node-discovery/hybrid-discovery.ts:138-147 | the cache is refilled for five minutes only after a successful fetch; otherwise it stays as it was |
| Discovery.RefilledCacheServes | src/node-discovery/hybrid-discovery.ts:136-148 | a fetched catalogue is served without another fetch for the next five minutes, and the cache is left alone meanwhile |
| Discovery.NodeLookup | src/node-discovery/hybrid-discovery.ts:153-164 | the live entry wins when the engine lists the class; otherwise the knowledge-base entry; otherwise `null`; the result always names the class asked for |
| Discovery.KnowledgeInfos | src/node-discovery/hybrid-discovery.ts:175-180 | one normalised knowledge-base entry per class, in order |
| Discovery.LiveInfos | src/node-discovery/hybrid-discovery.ts:181-185 | one normalised live entry per class, in order |
| Discovery.MergedEntry | src/node-discovery/hybrid-discovery.ts:173-185 | in the `byClass` map a class holds the live entry when the engine lists it, otherwise the knowledge-base one, and otherwise nothing |
| Discovery.MergedNamesKeys | src/node-discovery/hybrid-discovery.ts:173-185 | every merged entry is stored under its own class name |
| Discovery.Filter | src/node-discovery/hybrid-discovery.ts:189-192 | the filtered list holds exactly the elements that satisfy the predicate |
| Discovery.SearchOnePerClass | src/node-discovery/hybrid-discovery.ts:170-195 | the search returns at most one result per class name |
| Discovery.SearchLiveOverrides | src/node-discovery/hybrid-discovery.ts:168-185 | every result is the live entry for its class when the engine lists the class, and the knowledge-base entry otherwise |
| Discovery.SearchComplete | src/node-discovery/hybrid-discovery.ts:187-194 | every merged entry that matches the query and the filters is in the result |
| Discovery.MergeCatalog | src/node-discovery/hybrid-discovery.ts:173-185 | the two `byClass.set` loops build the merged map: knowledge-base entries first, then live entries over them |
| Discovery.SetAdd | src/node-discovery/hybrid-discovery.ts:207-212 | `set.add` keeps the elements distinct and adds exactly that one element |
| Discovery.CollectCategories | src/node-discovery/hybrid-discovery.ts:200-216 | the categories come back sorted and without repeats, and they are exactly the non-empty categories of knowledge-base and live nodes |
| Discovery.CategoriesStrictlyIncreasing | src/node-discovery/hybrid-discovery.ts:215 | a sorted list without repeats is strictly increasing |
| Discovery.DescriptionOf | src/node-discovery/hybrid-discovery.ts:255-284 | the minimal description: display name as for live nodes, category defaulting to `unknown`, description defaulting to `Node <class>`, outputs carried over, no compatibility, priority `low`, one required input per live one with its type and, when the live spec's options object has one, its default; one optional input per live one, stored as the object `{type, default?}` |
| Discovery.NewClasses | src/node-discovery/hybrid-discovery.ts:233-237 | the classes the engine lists that the knowledge base lacks, in order |
| Discovery.SyncStepAccounts | src/node-discovery/hybrid-discovery.ts:233-245 | one pass skips and counts a known class; otherwise it either adds the class or records exactly one error |
| Discovery.SyncFoldSkips | src/node-discovery/hybrid-discovery.ts:234-236 | `skipped` grows by the number of live classes already in the knowledge base |
| Discovery.SyncStepAddsOnlyNew | src/node-discovery/hybrid-discovery.ts:238-245 | one pass appends at most its own class, and only a class that is new |
| Discovery.SyncFoldAddsOnlyNew | src/node-discovery/hybrid-discovery.ts:219-249 | the sync only appends to `added`, and only classes the engine lists that the knowledge base lacks |
| Discovery.SyncFoldTotals | src/node-discovery/hybrid-discovery.ts:233-246 | every class the knowledge base lacks is either added or reported as an error, exactly once |
| Discovery.SyncFoldAddsNew | src/node-discovery/hybrid-discovery.ts:233-246 | when the knowledge-base file has a `nodes` object, or is missing, nothing fails and the classes added are exactly the new ones, in order |
| Discovery.HybridNodeDiscovery.constructor | src/node-discovery/hybrid-discovery.ts:123-128 | a new discovery object starts with no cached catalogue |
| Discovery.HybridNodeDiscovery.InvalidateCache | src/node-discovery/hybrid-discovery.ts:131-133 | the cache is dropped |
| Discovery.HybridNodeDiscovery.GetLiveObjectInfo | src/node-discovery/hybrid-discovery.ts:136-148 | the catalogue returned and the new cache are those of `LiveView` and `CacheAfter` |
| Discovery.HybridNodeDiscovery.GetNode | src/node-discovery/hybrid-discovery.ts:153-164 | the lookup over the catalogue the cache step yields |
| Discovery.HybridNodeDiscovery.SearchNodes | src/node-discovery/hybrid-discovery.ts:170-195 | the search over the catalogue the cache step yields |
| Discovery.HybridNodeDiscovery.ListNodeCategories | src/node-discovery/hybrid-discovery.ts:200-216 | sorted, without repeats, and exactly the categories of the knowledge base and of the catalogue the cache step yields |
| Discovery.FetchErrorText | src/node-discovery/hybrid-discovery.ts:226-227 | a thrown `Error` is reported by its message, and any other thrown value as `Failed to fetch /object_info` |
| Discovery.HybridNodeDiscovery.SyncToKnowledgeBase | src/node-discovery/hybrid-discovery.ts:221-249 | a failed fetch reports only the thrown error's message and changes nothing; otherwise the result and the two rewritten files are the fold of the per-class step over the live catalogue, and the cache is dropped |
| Server.LoadThrough | src/mcp-server.ts:43-67 | one load through a cache: unexpired cached data is served as it is; otherwise the file is read and cached for five minutes; a missing file gives the empty document and caches nothing |
| Server.ReloadServesUntilExpiry | src/mcp-server.ts:43-54 | after a load that read the file, every load in the next five minutes gives that data without reading the file again |
| Server.MissingFileNotCached | src/mcp-server.ts:48-50 | a missing file never fills the cache, so the next load reads the file again |
| Server.KnowledgeCache.constructor | src/mcp-server.ts:36-37 | both caches start empty |
| Server.KnowledgeCache.InvalidateBaseNodesCache | src/mcp-server.ts:39-41 | the base-nodes cache is dropped and the compatibility cache is left alone |
| Server.KnowledgeCache.LoadBaseNodes | src/mcp-server.ts:43-54 | `loadBaseNodes` is one load through its own cache, and the other cache is untouched |
| Server.KnowledgeCache.LoadCompatibility | src/mcp-server.ts:56-67 | `loadCompatibility` is one load through its own cache, and the other cache is untouched |
| Server.RequiredInputTypes | src/mcp-server.ts:178-179 | the target's required input types skip absent and empty ones; every declared non-empty type is among them, and every type among them is one a required input declares |
| Server.MatchedTypesIff | src/mcp-server.ts:181-187 | a type is reported as a match exactly when the source node outputs it, the target takes it as a required input, and the target is among its consumers |
| Server.MatchLines | src/mcp-server.ts:185 | one `type (from → to)` line per matched type, in order |
| Server.CheckCompatibility | src/mcp-server.ts:162-193 | a missing node is reported exactly when either class is unknown, and the report names the from-node when that one is missing; otherwise the answer is `Compatible` exactly when some type matches, with the match lines, or else `No direct type match` with both type lists |
| Server.SuggestNodes | src/mcp-server.ts:222 | at most twenty suggestions |
| Server.SuggestionsIff | src/mcp-server.ts:208-221 | a node passes the filters exactly when it is in the knowledge base and passes both the task filter and the type filter (an absent or empty argument does not filter) |
| Server.SuggestionIsMatch | src/mcp-server.ts:206-222 | every suggestion is a knowledge-base node that passes both filters |
| Server.SuggestionsComplete | src/mcp-server.ts:206-222 | when at most twenty nodes match, every matching node is suggested |
| Server.SuggestTypeIgnoresCase | src/mcp-server.ts:219-220 | the output-type argument is upper-cased first, so its case does not matter |
| Server.AsGraph | src/mcp-server.ts:79-85 | the server's validator throws exactly on a `null` document and on a `null` node entry; otherwise it walks the document's own keys, in order |
| Server.ExecuteWorkflow | src/mcp-server.ts:611-646 | not configured, invalid JSON and a throwing validator each answer without submitting; a parsed graph with an unresolved link is a validation failure reporting exactly its errors; the workflow is submitted exactly when it parses and every link resolves, and the answer is then the prompt id or the submit error |
| Server.DeleteQueueItems | src/mcp-server.ts:847-868 | not configured, or no ids, answers at once without contacting the engine; otherwise the `{delete: ids}` body is posted and the outcome follows the engine's answer |
| Scanner.Schedule | src/node-discovery/scanner.ts:25-33 | the pause after attempt `k` is `1000 · 2^k` ms |
| Scanner.ScheduleTotal | src/node-discovery/scanner.ts:21-37 | the pauses double each time, so `n` of them last `1000 · (2^n − 1)` ms in all |
| Scanner.FetchWithRetry | src/node-discovery/scanner.ts:15-39 | at most `retries + 1` attempts; every attempt before the last threw or was answered 429; the pause after each of them follows the doubling schedule; a response is returned as it is (a 429 only on the last attempt); a throw is rethrown only after the last attempt |
| Scanner.FetchManagerList | src/node-discovery/scanner.ts:59-65 | the parsed body is returned exactly when the answer is ok and its body parses; a non-ok answer is the `ComfyUI-Manager list failed:` error; an ok answer that is not JSON is the parse error; a thrown request stays an error |
| Cli.NetworkErrorIgnoresCase | src/cli.ts:15-18 | the network-error test is case-insensitive: upper-casing the message does not change the verdict |
| Cli.RefusedConnectionIsNetworkError | src/cli.ts:17 | a Node "connect ECONNREFUSED host:port" message is recognised as a network error |
| Cli.MergeSeedGet | src/cli.ts:67-72 | after the merge a key reads the knowledge base's description when the base had the key, and the seed's description otherwise |
| Cli.MergeSeedKeepsBase | src/cli.ts:64-72 | the knowledge base's own entries stay first, in their order, unchanged |
| Cli.MergeSeedCount | src/cli.ts:66-71 | the merge grows the node object by exactly the number of seed keys the base lacked |
| Cli.MergeSeedLoop | src/cli.ts:66-72 | the loop computes the merge, and `added` equals the number of seed keys not previously in the base, which is also the growth of the object |
| Cli.InheritedKeySkippedAsWritten | src/cli.ts:67-72 | the `in` test as written drops a seed node named `constructor`, while the intended merge keeps it |
| Cli.CompatAfterAll | src/cli.ts:86-88 | refreshing over no nodes leaves the compatibility file as it was and throws nothing; a refresh over at least one node that throws nothing has written a file |
| Cli.RefreshCompletesIff | src/cli.ts:86-88 | the refresh runs to the end exactly when no node description makes `updateCompatibility` throw |
| Cli.RefreshStopsAtThrow | src/cli.ts:86-90 | once a call has thrown, no later node is processed: the file and the message stay as the throw left them |
| Cli.RefreshFailsAtFirstThrow | src/cli.ts:86-90 | when node `k` is the first whose update throws, the file holds what the refresh of the nodes before it wrote, and the message is node `k`'s |
| Cli.RefreshRecordsProducers | src/cli.ts:86-88 | after a refresh that did not throw, every node is listed as a producer of each type it returns |
| Cli.RefreshCompatibility | src/cli.ts:86-88 | the loop applies `updateCompatibility` to every node in order, each call reading the previous call's result, and stops at the first call that throws |
| Cli.Counted | src/cli.ts:59-60 | the stamped metadata carries today's date and the node count, and keeps the version it had |
| Cli.Seed | src/cli.ts:37-94 | a missing seed file or seed compatibility file fails with that error and writes nothing; overwrite mode (forced, or no knowledge base) writes the seed nodes, and writes nothing but fails when the seed has no node object; merge mode always writes the merged nodes and the count of added keys; whatever is written has `total_nodes` equal to the number of nodes and `last_updated` today, and its compatibility file is the copied or existing one after the refresh over every node; the run succeeds exactly when that refresh did not throw, and otherwise fails with the thrown message and what was written |
| Cli.PackOf | src/cli.ts:103-111 | a pack takes the title or `Unknown`, the reference or `''`, the author as is, the description or `''`, priority `medium` and empty key nodes and use cases |
| Cli.ManagerEntries | src/cli.ts:102-103 | a missing or null `custom_nodes` gives no entries; an array without null elements gives one entry per element, in order; a null answer, a non-array list and a null element each fail with the TypeError text V8 gives for it (`Cannot read properties of null (reading 'custom_nodes')`, `customNodes.map is not a function`, `Cannot read properties of null (reading 'title')`) |
| Cli.CustomNodesDoc | src/cli.ts:112-120 | the document has one pack per entry in order, `total_packs` equal to the number of packs, version `1.0.0`, today's date and the Manager-list source |
| Cli.SyncManager | src/cli.ts:99-131 | success exactly when the list is fetched and its entries read, with the document built from them; a failure is reported as a list outage exactly when its message is a network error |
| Resources.TierBands | src/resource-analyzer.ts:72-78 | each tier covers exactly one band of total VRAM: unknown at or below 0 GB, low below 4, medium below 8, high below 12, very high from 12 up |
| Resources.TierMonotone | src/resource-analyzer.ts:72-78 | more VRAM never gives a lower tier |
| Resources.RecommendationsFromTier | src/resource-analyzer.ts:83-145 | the resolution, model size and batch limits depend on the tier alone |
| Resources.LimitsMonotone | src/resource-analyzer.ts:98-144 | a higher tier never recommends a smaller width, height, model size or batch size |
| Resources.RecommendationWarnings | src/resource-analyzer.ts:96-143 | the unknown tier always warns; the very-high tier never does; a known tier with at least a quarter of its VRAM free does not warn |
| Resources.BaseTimeout | src/resource-analyzer.ts:184-191 | every base timeout is an even number of milliseconds, so the Apple factor of 2.5 needs no rounding |
| Resources.AppleTimeout | src/resource-analyzer.ts:192 | the Apple timeout is exactly two and a half times the base |
| Resources.RoundHalfUp | src/resource-analyzer.ts:65 | `Math.round` gives the integer within half of its argument, a half rounding up |
| Resources.BytesToGb | src/resource-analyzer.ts:64-66 | the result has at most two decimals and lies within 0.005 of the exact number of gigabytes, a half rounding up |
| Resources.JustUnderEightGiBIsHigh | src/resource-analyzer.ts:64-78 | a card 2^19 bytes short of 8 GiB reads as 8.00 GB, so its tier is high and FLUX is ready |
| Resources.JustUnderTwelveGiBIsVeryHigh | src/resource-analyzer.ts:64-78 | a card just short of 12 GiB reads as 12.00 GB, so its tier is very high |
| Resources.Readings | src/resource-analyzer.ts:151-158 | without a usable primary device, both VRAM readings are 0 |
| Resources.GpuName | src/resource-analyzer.ts:153-166 | without a usable primary device, the GPU name is `unknown` |
| Resources.AnalyzeSystemResources | src/resource-analyzer.ts:150-219 | the four gigabyte fields are the readings rounded to two decimals; the tier is that of the rounded total VRAM; the limits and warnings are those of its tier; FLUX is ready exactly for the high and very-high tiers, with a 1024×1024 maximum then and 0×0 otherwise; with no device the tier is unknown and the GPU `unknown` |
| Resources.AppleAdjustments | src/resource-analyzer.ts:174-210 | platform hints appear exactly when the GPU name looks like Apple Silicon or MPS, and hold the one Apple hint; the timeout is then 2.5 times the tier's base, and otherwise the base |
| Resources.NoDevicesUnknown | src/resource-analyzer.ts:151-192 | with no device the analysis gives the unknown tier, GPU `unknown`, a warning, no FLUX, 512-pixel width and the 300000 ms timeout |
| Resources.UnknownLacks | src/resource-analyzer.ts:166-176 | the fallback name `unknown` matches none of the Apple patterns |
| Resources.GetWorkflowResolution | src/resource-analyzer.ts:225-238 | the result is none exactly when no node has a positive numeric width and height; otherwise it is the largest such width and the largest such height, each reached by some node |
| WorkflowStorage.ReplaceDisallowed | src/workflow/workflow-storage.ts:12 | the first replacement keeps the length and turns every character outside `[a-zA-Z0-9_-]` into `_`, keeping the rest in place |
| WorkflowStorage.CollapseUnderscores | src/workflow/workflow-storage.ts:12 | collapsing never lengthens the name, empties only the empty name, keeps the last character, introduces no new character and leaves no two underscores in a row |
| WorkflowStorage.CollapseKeepsClean | src/workflow/workflow-storage.ts:12 | a name without a run of underscores is not changed by the collapse |
| WorkflowStorage.SanitizeName | src/workflow/workflow-storage.ts:11-13 | the saved name is non-empty, uses only `[a-zA-Z0-9_-]` and has no `__`; the empty name becomes `workflow`; no other name gets longer |
| WorkflowStorage.SanitizeFixedPoints | src/workflow/workflow-storage.ts:11-13 | the sanitiser leaves a name unchanged exactly when it is already clean |
| WorkflowStorage.SanitizeIdempotent | src/workflow/workflow-storage.ts:11-13 | sanitising twice gives the same as sanitising once |
| WorkflowStorage.SanitizeHelloWorld | src/workflow/workflow-storage.ts:12 | `hello world` is saved as `hello_world` |
| WorkflowStorage.LoadPath | src/workflow/workflow-storage.ts:61-62 | a name with `/` or `\` is read as given; any other name is read from the file that saving under that name writes |
| WorkflowStorage.SavePathShape | src/workflow/workflow-storage.ts:20-23 | the saved file lies directly in the workflows directory, under a clean name without `/`, and ends in `.json` |
| WorkflowStorage.JoinHasSlash | src/workflow/workflow-storage.ts:23 | a joined path always contains a `/`, so it is taken for a path when loaded |
| WorkflowStorage.LoadSavedPath | src/workflow/workflow-storage.ts:19-62 | the path that saving returns loads that same file, whatever the working directory at load time |
| WorkflowStorage.LoadSanitizedName | src/workflow/workflow-storage.ts:11-62 | a sanitised name is never taken for a path, and it loads the file saved under the original name |
| WorkflowStorage.CleanNotPath | src/workflow/workflow-storage.ts:61 | a clean name contains neither path separator |
| WorkflowStorage.SaveWorkflow | src/workflow/workflow-storage.ts:19-26 | the save returns the path of the sanitised name, stores the workflow at that path, and leaves every other file as it was |
| WorkflowStorage.LoadWorkflow | src/workflow/workflow-storage.ts:60-69 | loading succeeds exactly when the file exists, parses, and holds an object or array, and then returns its content; parsed content that is not an object is refused with the "expected object" error |
| WorkflowStorage.SaveThenLoadByName | src/workflow/workflow-storage.ts:19-69 | an object saved under a name (one without separators) loads back, unchanged, by that name |
| WorkflowStorage.SaveThenLoadByPath | src/workflow/workflow-storage.ts:19-69 | an object saved under any name loads back, unchanged, from the path that the save returned |
| WorkflowStorage.LoadMissingFails | src/workflow/workflow-storage.ts:63 | a name whose file does not exist fails to load |
| WorkflowStorage.StripJson | src/workflow/workflow-storage.ts:49 | removing the suffix gives the name that, followed by `.json`, is the file name |
| WorkflowStorage.Listed | src/workflow/workflow-storage.ts:45-52 | there are never more entries than directory entries |
| WorkflowStorage.ListedSound | src/workflow/workflow-storage.ts:45-52 | every listed entry stands for one of the `.json` files, named without the suffix |
| WorkflowStorage.ListedComplete | src/workflow/workflow-storage.ts:45-52 | every `.json` file of the directory has its entry listed |
| WorkflowStorage.ListedPaths | src/workflow/workflow-storage.ts:49-50 | every entry's path is the directory joined with its name plus `.json` |
| WorkflowStorage.InsertByName | src/workflow/workflow-storage.ts:53 | inserting into a name-sorted list keeps it sorted and adds exactly the one entry |
| WorkflowStorage.SortByName | src/workflow/workflow-storage.ts:53 | the result is sorted by name and is a permutation of the input |
| WorkflowStorage.ListSavedWorkflows | src/workflow/workflow-storage.ts:37-54 | a missing directory lists nothing; otherwise the listing is a permutation of the `.json` entries, sorted by name |
| WorkflowStorage.ListingIff | src/workflow/workflow-storage.ts:45-53 | an entry is listed exactly when it stands for one of the directory's `.json` files |
| WorkflowStorage.ListedAfterSave | src/workflow/workflow-storage.ts:19-54 | once a name is saved, the listing holds the sanitised name together with the path that the save returned |
| ManagerCli.DirForKey | src/manager-cli.ts:13-28 | a key in the table gives the table's directory; any other key gives `models/<key>` |
| ManagerCli.RelativePathForModelType | src/manager-cli.ts:161-164 | the model type is lower-cased and trimmed, then looked up: the table's directory when the key is there, `models/<key>` otherwise |
| ManagerCli.AliasesAgree | src/manager-cli.ts:13-28 | checkpoint/checkpoints, lora/loras and hypernetwork/hypernetworks each name the same directory under `models/` |
| ManagerCli.RelativePathIgnoresCase | src/manager-cli.ts:162 | an upper-cased model type resolves to the same directory as the original |
| ManagerCli.ComfyPath | src/manager-cli.ts:30-35 | the path is absent exactly when the variable is unset or only white space; otherwise it is the trimmed, non-empty value |
| ManagerCli.ComfyPathTrimmed | src/manager-cli.ts:33 | the returned path neither starts nor ends with white space |
| ManagerCli.Shaped | src/manager-cli.ts:84-92 | a finished run is `ok` exactly when it exited with 0, reports that exit code, and carries the trimmed output streams (empty when missing) |
| ManagerCli.CheckRichAvailable | src/manager-cli.ts:99-117 | `rich` is available exactly when the probe exited with 0, and then there is no message; otherwise the message starts with the install advice |
| ManagerCli.RunCmCli | src/manager-cli.ts:48-93 | the run is `ok` exactly when a path is set, cm-cli exists, `rich` is available and cm-cli exits with 0; without a path the result is the not-set error with no code; a code is reported only when cm-cli actually ran, and the result is then shaped from that run |
| ManagerCli.UnconfiguredRunsNothing | src/manager-cli.ts:49-57 | without `COMFYUI_PATH` the result depends on no file and no subprocess, and it is not-ok with no code |
| ManagerCli.RunComfyModelDownload | src/manager-cli.ts:122-150 | the download is `ok` exactly when a path is set and `comfy` exits with 0; without a path the result is the not-set error; otherwise it is shaped from the run |
| ManagerCli.ReplaceFileChars | src/manager-cli.ts:200 | the replacement keeps the length and turns every character outside `[\w.\-()+]` into `_`, keeping the rest |
| ManagerCli.StripQuotes | src/manager-cli.ts:188 | unquoting never lengthens the name, and a name with no quote at either end is left unchanged |
| ManagerCli.UrlFileName | src/manager-cli.ts:190-198 | the URL's name is non-empty and has no `/`; it is the last path segment whenever that segment is non-empty |
| ManagerCli.ChosenFileName | src/manager-cli.ts:184-198 | the chosen name is non-empty: the one from the Content-Disposition header when that survives, else the URL's |
| ManagerCli.Sanitized | src/manager-cli.ts:199-201 | the result is a safe file name without `/`, of the same length, equal to the name when that is already safe, and agreeing with it on every allowed character |
| ManagerCli.DownloadModelToDir | src/manager-cli.ts:170-211 | the download is `ok` exactly when a path is set, the fetch answers `ok` and the write succeeds; without a path, or when the fetch throws, it fails with that message; a non-ok answer fails with `Download failed: <status> <statusText>`; a failed write fails with the write's error; on success the path is `destDir` joined with the sanitised chosen name, a safe file name |

## Left out

- I/O, as parameters:
  - network, filesystem, subprocess and clock results are inputs: the
    attempt outcomes, the file contents (`None` when missing), the exit
    statuses, `now` and `today`;
  - `JSON.stringify` followed by `JSON.parse` is taken to give a saved value
    back.
- Time and concurrency:
  - the `waitForCompletion` race, `Promise.race`, the `setTimeout`
    deadlines, the `waitWithPolling` and `submitPromptAndWait` timing loops
    and the WebSocket client are left out, because their point is timers and
    concurrency. Only the per-event guard of the progress handler and the
    classification of a polled entry are modelled;
  - the `sync-nodes` daemon interval is left out.
- Plumbing and text output:
  - MCP registration, argument schemas, the stdio transport, command-line
    wiring, logging and `process.exit` are glue;
  - the text the `list_node_types` and `get_node_info` handlers print, and
    suggestion lines beyond `Server.SuggestionLine`, are presentation;
  - `sync-nodes` only formats what `Discovery.HybridNodeDiscovery.SyncToKnowledgeBase` returns.
- File and image bytes:
  - `uploadImage`, `fetchOutputByFilename`, `fetchOutputImageBytes`,
    `prepareImageForWorkflow` and the byte copy of `downloadOutput` move
    bytes and nothing more;
  - the sharp WebP encoding is replaced by whether the encoder succeeded.
- `isComfyCliAvailable` only probes a subprocess.
- The choice between `python` and `python3` and the argument lists passed to
  subprocesses are not modelled.
- `getKnowledgePath` and its `COMFYUI_KNOWLEDGE_DIR` override are not
  modelled: documents are values, not files.
- `setHybridDiscoveryOptions` and `getHybridDiscovery`, the module-level
  discovery instance, are not modelled: the discovery is a class created
  directly.
- Randomness and identity:
  - `generateWorkflowId` draws on `Date.now` and `Math.random`, so the id
    suffix is a parameter;
  - `getWorkflow` hands out the live object while the model's graph is a
    value, so aliasing through it is not modelled.
- Number formatting:
  - numbers are exact reals, not IEEE doubles, so `bytesToGb` rounds the
    exact quotient; a double's own rounding error could move a size lying
    on or next to a rounding boundary across it;
  - `Number(x) || 0` on a string field reads as 0;
  - JSON fields of an unexpected type read as absent.
- Strings and paths:
  - the default `sort()` order compares UTF-16 code units, and the model
    compares Unicode scalar values instead; the two differ only on
    characters beyond U+FFFF;
  - `localeCompare` is read as the same scalar-value order, not as the
    locale's collation;
  - `Server.SuggestionLine` cuts the description to its first 80
    characters counted as scalar values, where `slice(0, 80)` counts UTF-16
    code units; the cut differs only on descriptions with characters beyond
    U+FFFF;
  - `toLowerCase` and `toUpperCase` are ASCII only;
  - `path.join` is a plain join with `/`, with no normalisation of `..`
    or of repeated separators;
  - the percent-encoding of ids and query strings is not modelled.
- Parsing done by library code becomes a parameter:
  - the Content-Disposition match is the captured name;
  - `new URL(url)` is its pathname, or `None` when it throws.
- Object key order:
  - JavaScript objects keep insertion order;
  - the rule that integer-like keys enumerate first is left out.
- Inherited members:
  - only the lookups named under "Findings" model members inherited from
    `Object.prototype`;
  - the other `in` and index tests (`check_compatibility`,
    `getRelativePathForModelType`, the discovery) read own keys only;
  - so do the `this.workflow[nodeId]` lookups of the dynamic builder's
    `connectNodes`, `removeNode` and `setNodeInput`: for an id such as
    `toString` the source finds the inherited member, while the model
    reports the node as not found.
- `saveWorkflow` does not model a failing `mkdir` or `writeFile`.
- Cli.Seed: the seed and knowledge-base files are passed in already parsed,
  so a file that exists but is not JSON (the `JSON.parse` of `src/cli.ts`
  lines 54 and 64 throwing, which ends in "Seed failed.") is not
  represented. The same holds for the documents `Updater.AddNode` and
  `Updater.UpdateCompatibility` read, and for a compatibility entry without
  a `producers` or `consumers` list, whose `includes` would throw, and for
  the server's loaders: `Server.LoadThrough`, `Server.KnowledgeCache.LoadBaseNodes`
  and `Server.KnowledgeCache.LoadCompatibility` treat an existing file as
  already parsed, so the throw of `JSON.parse` at `src/mcp-server.ts` lines
  51 and 64 on a file that is not JSON is not represented.
- DynamicBuilder.ValidationError: the source's `validate` pushes message
  strings (`src/workflow/dynamic-builder.ts` lines 122-130); the model keeps
  the structured record each message is formed from (the node, the input and
  the missing target or the negative index), in the same order, and does not
  render the text.
- File writes of the download operations: a throwing `mkdirSync` or
  `writeFileSync` in `downloadOutput` (`src/output-manager.ts` lines
  140-143), and the file branch of `downloadByFilename` with its rewording of
  an `ENOENT` or `EACCES` error (lines 219-235), are not modelled; only the
  base64 branch of `downloadByFilename` is.
- ApiTypes.DecodeImage: a missing or non-string `filename` reads as the
  empty string; the source keeps `undefined`, and the path joins that
  later receive it would throw. That failure is not modelled.
- Templates: only txt2img is in `src/workflow/workflow-builder.ts`. The other
  templates that `tests/workflow-builder.test.ts` exercises, and `buildBatch`,
  are not part of this model.
- The unreachable `|| 'model.safetensors'` after the file-name replacement
  (the replacement keeps a non-empty name non-empty) is kept in the code but
  never taken.

## Findings

| source | as written | input that shows it | evidently intended | confidence | as-written member | corrected member |
|---|---|---|---|---|---|---|
| src/workflow/workflow-builder.ts:94-97 | `TEMPLATES[templateId]` also finds the members that the object literal inherits, so `if (!fn)` lets them through | `buildFromTemplate("toString")` calls `Object.prototype.toString` instead of throwing "Unknown template" | only the table's own templates are accepted; any other id is rejected with the list of available templates | not executed; high | Templates.InheritedIdNotRejected | Templates.BuildFromTemplate |
| src/comfyui-client.ts:92-101 | when an id is given and ComfyUI answers `{}` (the prompt is not in the history yet), the entry falls back to `data` itself, so one empty entry is returned | `getHistory("p1")` on the answer `{}` returns `[{}]`; a poller then classifies that empty entry as completed, and `listOutputs` never reaches its full-history fallback | no entry (`[]`) for an empty keyed answer | not executed; medium | ComfyClient.EmptyHistoryObjectAsWritten | ComfyClient.NormalizeHistory |
| src/node-discovery/updater.ts:110 | the changelog template holds `â€”`, the em dash's UTF-8 bytes read back as Windows-1252, so the file gets those three characters | `generateChangelog([{className: "A", description: d}])` writes `- **A** â€” …` | `- **A** — <display name>: <description>`, with an em dash | not executed; medium | Updater.ChangelogDashGarbled | Updater.ChangelogLines |
| src/cli.ts:67-72 | the merge tests `key in base.nodes`, which is also true for the members every object inherits | a seed node with class name `constructor` is never added to an existing knowledge base | test own keys only, so every seed key the base lacks is added | not executed; low | Cli.InheritedKeySkippedAsWritten | Cli.MergeSeedLoop |
