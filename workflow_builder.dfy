/**
 * Template-built workflows: the txt2img graph (checkpoint loader, positive and
 * negative text encoders, empty latent, sampler, VAE decode, save) built from
 * defaults merged with caller parameters, and the template table that
 * dispatches by name.
 */
module Templates {
  import opened Wrappers
  import opened Objects
  import opened JsonValues
  import Text
  import DB = DynamicBuilder

  /** `DEFAULT_TXT2IMG`. */
  const DEFAULT_TXT2IMG: Obj<Json> := [
    ("width", JNum(1024.0)),
    ("height", JNum(1024.0)),
    ("steps", JNum(20.0)),
    ("cfg", JNum(8.0)),
    ("prompt", JStr("")),
    ("negative_prompt", JStr("")),
    ("seed", JNum(0.0)),
    ("ckpt_name", JStr("sd_xl_base_1.0.safetensors")),
    ("filename_prefix", JStr("ComfyUI")),
    ("batch_size", JNum(1.0)),
    ("denoise", JNum(1.0))
  ]

  const NO_PARAMS: Obj<Json> := []

  /** `p.key` of `{...DEFAULT_TXT2IMG, ...params}`. */
  function P(p: Obj<Json>, key: string): Json
  {
    match Get(p, key)
    case Some(v) => v
    case None => JNull
  }

  function LoaderNode(ckptName: Json): DB.NodeDef
  {
    DB.NodeDef("CheckpointLoaderSimple", [("ckpt_name", ckptName)])
  }

  function TextEncodeNode(text: Json): DB.NodeDef
  {
    DB.NodeDef("CLIPTextEncode", [("text", text), ("clip", DB.Link("1", 1.0))])
  }

  function LatentNode(width: Json, height: Json, batchSize: Json): DB.NodeDef
  {
    DB.NodeDef("EmptyLatentImage", [("width", width), ("height", height), ("batch_size", batchSize)])
  }

  function SamplerNode(seed: Json, steps: Json, cfg: Json, denoise: Json): DB.NodeDef
  {
    DB.NodeDef("KSampler", [
      ("model", DB.Link("1", 0.0)),
      ("positive", DB.Link("2", 0.0)),
      ("negative", DB.Link("3", 0.0)),
      ("latent_image", DB.Link("4", 0.0)),
      ("seed", seed),
      ("steps", steps),
      ("cfg", cfg),
      ("denoise", denoise)])
  }

  function DecodeNode(): DB.NodeDef
  {
    DB.NodeDef("VAEDecode", [("samples", DB.Link("5", 0.0)), ("vae", DB.Link("1", 2.0))])
  }

  function SaveNode(filenamePrefix: Json): DB.NodeDef
  {
    DB.NodeDef("SaveImage", [("images", DB.Link("6", 0.0)), ("filename_prefix", filenamePrefix)])
  }

  /** The seven-node txt2img graph over already-chosen parameter values. */
  function Txt2ImgGraph(ckptName: Json, prompt: Json, negativePrompt: Json,
                        width: Json, height: Json, batchSize: Json,
                        seed: Json, steps: Json, cfg: Json, denoise: Json,
                        filenamePrefix: Json): DB.Workflow
  {
    [
      ("1", LoaderNode(ckptName)),
      ("2", TextEncodeNode(prompt)),
      ("3", TextEncodeNode(negativePrompt)),
      ("4", LatentNode(width, height, batchSize)),
      ("5", SamplerNode(seed, steps, cfg, denoise)),
      ("6", DecodeNode()),
      ("7", SaveNode(filenamePrefix))
    ]
  }

  /** `buildTxt2Img(params)`: the graph over `p = {...DEFAULT_TXT2IMG, ...params}`. */
  function BuildTxt2Img(params: Obj<Json>): DB.Workflow
  {
    var p := Spread(DEFAULT_TXT2IMG, params);
    Txt2ImgGraph(P(p, "ckpt_name"), P(p, "prompt"), P(p, "negative_prompt"),
                 P(p, "width"), P(p, "height"), P(p, "batch_size"),
                 P(p, "seed"), P(p, "steps"), P(p, "cfg"), P(p, "denoise"),
                 P(p, "filename_prefix"))
  }

  /** The value a parameter takes: the caller's when given (even `null`), the default otherwise. */
  function Effective(params: Obj<Json>, key: string): Json
  {
    match Get(params, key)
    case Some(v) => v
    case None => P(DEFAULT_TXT2IMG, key)
  }

  lemma Txt2ImgGraphKeys(ckptName: Json, prompt: Json, negativePrompt: Json,
                          width: Json, height: Json, batchSize: Json,
                          seed: Json, steps: Json, cfg: Json, denoise: Json,
                          filenamePrefix: Json)
    ensures Keys(Txt2ImgGraph(ckptName, prompt, negativePrompt, width, height, batchSize,
                              seed, steps, cfg, denoise, filenamePrefix)) == ["1", "2", "3", "4", "5", "6", "7"]
  {
  }

  /** The seven node ids of the graph and the node each one holds. */
  lemma Txt2ImgGraphNodes(ckptName: Json, prompt: Json, negativePrompt: Json,
                          width: Json, height: Json, batchSize: Json,
                          seed: Json, steps: Json, cfg: Json, denoise: Json,
                          filenamePrefix: Json)
    ensures var w := Txt2ImgGraph(ckptName, prompt, negativePrompt, width, height, batchSize,
                                  seed, steps, cfg, denoise, filenamePrefix);
      Get(w, "1") == Some(LoaderNode(ckptName)) &&
      Get(w, "2") == Some(TextEncodeNode(prompt)) &&
      Get(w, "3") == Some(TextEncodeNode(negativePrompt)) &&
      Get(w, "4") == Some(LatentNode(width, height, batchSize)) &&
      Get(w, "5") == Some(SamplerNode(seed, steps, cfg, denoise)) &&
      Get(w, "6") == Some(DecodeNode()) &&
      Get(w, "7") == Some(SaveNode(filenamePrefix))
  {
    var w := Txt2ImgGraph(ckptName, prompt, negativePrompt, width, height, batchSize,
                          seed, steps, cfg, denoise, filenamePrefix);
    GetAt(w, 0);
    GetAt(w, 1);
    GetAt(w, 2);
    GetAt(w, 3);
    GetAt(w, 4);
    GetAt(w, 5);
    GetAt(w, 6);
  }

  lemma LoaderInputs(ckptName: Json)
    ensures Get(LoaderNode(ckptName).inputs, "ckpt_name") == Some(ckptName)
  {
    GetAt(LoaderNode(ckptName).inputs, 0);
  }

  lemma TextEncodeInputs(text: Json)
    ensures var n := TextEncodeNode(text).inputs;
      Get(n, "text") == Some(text) && Get(n, "clip") == Some(DB.Link("1", 1.0))
  {
    var n := TextEncodeNode(text).inputs;
    GetAt(n, 0);
    GetAt(n, 1);
  }

  lemma LatentInputs(width: Json, height: Json, batchSize: Json)
    ensures var n := LatentNode(width, height, batchSize).inputs;
      Get(n, "width") == Some(width) && Get(n, "height") == Some(height) &&
      Get(n, "batch_size") == Some(batchSize)
  {
    var n := LatentNode(width, height, batchSize).inputs;
    GetAt(n, 0);
    GetAt(n, 1);
    GetAt(n, 2);
  }

  lemma SamplerInputs(seed: Json, steps: Json, cfg: Json, denoise: Json)
    ensures var n := SamplerNode(seed, steps, cfg, denoise).inputs;
      Get(n, "model") == Some(DB.Link("1", 0.0)) &&
      Get(n, "positive") == Some(DB.Link("2", 0.0)) &&
      Get(n, "negative") == Some(DB.Link("3", 0.0)) &&
      Get(n, "latent_image") == Some(DB.Link("4", 0.0)) &&
      Get(n, "seed") == Some(seed) && Get(n, "steps") == Some(steps) &&
      Get(n, "cfg") == Some(cfg) && Get(n, "denoise") == Some(denoise)
  {
    var n := SamplerNode(seed, steps, cfg, denoise).inputs;
    GetAt(n, 0);
    GetAt(n, 1);
    GetAt(n, 2);
    GetAt(n, 3);
    GetAt(n, 4);
    GetAt(n, 5);
    GetAt(n, 6);
    GetAt(n, 7);
  }

  /**
   * The sampler has no `sampler_name` and no `scheduler` input, although the
   * builder's tests expect `euler` and `normal` there.
   */
  lemma SamplerLacksSamplerAndScheduler(seed: Json, steps: Json, cfg: Json, denoise: Json)
    ensures var n := SamplerNode(seed, steps, cfg, denoise).inputs;
      Get(n, "sampler_name").None? && Get(n, "scheduler").None?
  {
    var n := SamplerNode(seed, steps, cfg, denoise).inputs;
    forall i | 0 <= i < |n| ensures n[i].0 != "sampler_name" && n[i].0 != "scheduler" {
      assert n[i].0[0] != 's' || |n[i].0| < 9;
    }
  }

  lemma DecodeInputs()
    ensures var n := DecodeNode().inputs;
      Get(n, "samples") == Some(DB.Link("5", 0.0)) && Get(n, "vae") == Some(DB.Link("1", 2.0))
  {
    var n := DecodeNode().inputs;
    GetAt(n, 0);
    GetAt(n, 1);
  }

  lemma SaveInputs(filenamePrefix: Json)
    ensures var n := SaveNode(filenamePrefix).inputs;
      Get(n, "images") == Some(DB.Link("6", 0.0)) && Get(n, "filename_prefix") == Some(filenamePrefix)
  {
    var n := SaveNode(filenamePrefix).inputs;
    GetAt(n, 0);
    GetAt(n, 1);
  }

  /** Each chosen value sits at its slot of the graph. */
  lemma Txt2ImgGraphSlots(ckptName: Json, prompt: Json, negativePrompt: Json,
                          width: Json, height: Json, batchSize: Json,
                          seed: Json, steps: Json, cfg: Json, denoise: Json,
                          filenamePrefix: Json)
    ensures var w := Txt2ImgGraph(ckptName, prompt, negativePrompt, width, height, batchSize,
                                  seed, steps, cfg, denoise, filenamePrefix);
      DB.InputAt(w, "1", "ckpt_name") == Some(ckptName) &&
      DB.InputAt(w, "2", "text") == Some(prompt) &&
      DB.InputAt(w, "3", "text") == Some(negativePrompt) &&
      DB.InputAt(w, "4", "width") == Some(width) &&
      DB.InputAt(w, "4", "height") == Some(height) &&
      DB.InputAt(w, "4", "batch_size") == Some(batchSize) &&
      DB.InputAt(w, "5", "seed") == Some(seed) &&
      DB.InputAt(w, "5", "steps") == Some(steps) &&
      DB.InputAt(w, "5", "cfg") == Some(cfg) &&
      DB.InputAt(w, "5", "denoise") == Some(denoise) &&
      DB.InputAt(w, "7", "filename_prefix") == Some(filenamePrefix)
  {
    Txt2ImgGraphNodes(ckptName, prompt, negativePrompt, width, height, batchSize,
                      seed, steps, cfg, denoise, filenamePrefix);
    LoaderInputs(ckptName);
    TextEncodeInputs(prompt);
    TextEncodeInputs(negativePrompt);
    LatentInputs(width, height, batchSize);
    SamplerInputs(seed, steps, cfg, denoise);
    SaveInputs(filenamePrefix);
  }

  /** The merged object yields the caller's value when given, the default otherwise. */
  lemma MergedParameter(params: Obj<Json>, key: string)
    ensures P(Spread(DEFAULT_TXT2IMG, params), key) == Effective(params, key)
  {
    SpreadGet(DEFAULT_TXT2IMG, params, key);
  }

  /**
   * Every missing parameter takes its default and every given one (even
   * `null`) overrides it, each at its fixed input of its fixed node.
   */
  lemma Txt2ImgParameters(params: Obj<Json>)
    ensures var w := BuildTxt2Img(params);
      DB.InputAt(w, "1", "ckpt_name") == Some(Effective(params, "ckpt_name")) &&
      DB.InputAt(w, "2", "text") == Some(Effective(params, "prompt")) &&
      DB.InputAt(w, "3", "text") == Some(Effective(params, "negative_prompt")) &&
      DB.InputAt(w, "4", "width") == Some(Effective(params, "width")) &&
      DB.InputAt(w, "4", "height") == Some(Effective(params, "height")) &&
      DB.InputAt(w, "4", "batch_size") == Some(Effective(params, "batch_size")) &&
      DB.InputAt(w, "5", "seed") == Some(Effective(params, "seed")) &&
      DB.InputAt(w, "5", "steps") == Some(Effective(params, "steps")) &&
      DB.InputAt(w, "5", "cfg") == Some(Effective(params, "cfg")) &&
      DB.InputAt(w, "5", "denoise") == Some(Effective(params, "denoise")) &&
      DB.InputAt(w, "7", "filename_prefix") == Some(Effective(params, "filename_prefix"))
  {
    var p := Spread(DEFAULT_TXT2IMG, params);
    Txt2ImgGraphSlots(P(p, "ckpt_name"), P(p, "prompt"), P(p, "negative_prompt"),
                      P(p, "width"), P(p, "height"), P(p, "batch_size"),
                      P(p, "seed"), P(p, "steps"), P(p, "cfg"), P(p, "denoise"),
                      P(p, "filename_prefix"));
    MergedParameter(params, "ckpt_name");
    MergedParameter(params, "prompt");
    MergedParameter(params, "negative_prompt");
    MergedParameter(params, "width");
    MergedParameter(params, "height");
    MergedParameter(params, "batch_size");
    MergedParameter(params, "seed");
    MergedParameter(params, "steps");
    MergedParameter(params, "cfg");
    MergedParameter(params, "denoise");
    MergedParameter(params, "filename_prefix");
  }

  /** The fixed classes and wiring of the graph, whatever values fill it. */
  lemma Txt2ImgGraphFixed(ckptName: Json, prompt: Json, negativePrompt: Json,
                          width: Json, height: Json, batchSize: Json,
                          seed: Json, steps: Json, cfg: Json, denoise: Json,
                          filenamePrefix: Json)
    ensures var w := Txt2ImgGraph(ckptName, prompt, negativePrompt, width, height, batchSize,
                                  seed, steps, cfg, denoise, filenamePrefix);
      Keys(w) == ["1", "2", "3", "4", "5", "6", "7"] &&
      DB.InputAt(w, "2", "clip") == Some(DB.Link("1", 1.0)) &&
      DB.InputAt(w, "3", "clip") == Some(DB.Link("1", 1.0)) &&
      DB.InputAt(w, "5", "model") == Some(DB.Link("1", 0.0)) &&
      DB.InputAt(w, "5", "positive") == Some(DB.Link("2", 0.0)) &&
      DB.InputAt(w, "5", "negative") == Some(DB.Link("3", 0.0)) &&
      DB.InputAt(w, "5", "latent_image") == Some(DB.Link("4", 0.0)) &&
      DB.InputAt(w, "6", "samples") == Some(DB.Link("5", 0.0)) &&
      DB.InputAt(w, "6", "vae") == Some(DB.Link("1", 2.0)) &&
      DB.InputAt(w, "7", "images") == Some(DB.Link("6", 0.0))
  {
    Txt2ImgGraphKeys(ckptName, prompt, negativePrompt, width, height, batchSize,
                     seed, steps, cfg, denoise, filenamePrefix);
    Txt2ImgGraphNodes(ckptName, prompt, negativePrompt, width, height, batchSize,
                      seed, steps, cfg, denoise, filenamePrefix);
    TextEncodeInputs(prompt);
    TextEncodeInputs(negativePrompt);
    SamplerInputs(seed, steps, cfg, denoise);
    DecodeInputs();
    SaveInputs(filenamePrefix);
  }

  /** The fixed classes of the seven nodes and the fixed wiring between them. */
  lemma Txt2ImgFixedPart(params: Obj<Json>)
    ensures var w := BuildTxt2Img(params);
      Keys(w) == ["1", "2", "3", "4", "5", "6", "7"] &&
      [w[0].1.classType, w[1].1.classType, w[2].1.classType, w[3].1.classType,
       w[4].1.classType, w[5].1.classType, w[6].1.classType] ==
      ["CheckpointLoaderSimple", "CLIPTextEncode", "CLIPTextEncode", "EmptyLatentImage",
       "KSampler", "VAEDecode", "SaveImage"] &&
      DB.InputAt(w, "2", "clip") == Some(DB.Link("1", 1.0)) &&
      DB.InputAt(w, "3", "clip") == Some(DB.Link("1", 1.0)) &&
      DB.InputAt(w, "5", "model") == Some(DB.Link("1", 0.0)) &&
      DB.InputAt(w, "5", "positive") == Some(DB.Link("2", 0.0)) &&
      DB.InputAt(w, "5", "negative") == Some(DB.Link("3", 0.0)) &&
      DB.InputAt(w, "5", "latent_image") == Some(DB.Link("4", 0.0)) &&
      DB.InputAt(w, "6", "samples") == Some(DB.Link("5", 0.0)) &&
      DB.InputAt(w, "6", "vae") == Some(DB.Link("1", 2.0)) &&
      DB.InputAt(w, "7", "images") == Some(DB.Link("6", 0.0))
  {
    var p := Spread(DEFAULT_TXT2IMG, params);
    Txt2ImgGraphFixed(P(p, "ckpt_name"), P(p, "prompt"), P(p, "negative_prompt"),
                      P(p, "width"), P(p, "height"), P(p, "batch_size"),
                      P(p, "seed"), P(p, "steps"), P(p, "cfg"), P(p, "denoise"),
                      P(p, "filename_prefix"));
  }

  /** Every link among a node's inputs resolves in `w`. */
  predicate InputsResolve(w: DB.Workflow, n: DB.NodeDef)
  {
    forall j | 0 <= j < |n.inputs| :: DB.LinkOk(w, n.inputs[j].1)
  }

  /** The links of each node point at nodes "1".."6" with a non-negative index. */
  lemma NodeInputsResolve(w: DB.Workflow, ckptName: Json, text: Json,
                          width: Json, height: Json, batchSize: Json,
                          seed: Json, steps: Json, cfg: Json, denoise: Json,
                          filenamePrefix: Json)
    requires HasKey(w, "1") && HasKey(w, "2") && HasKey(w, "3")
    requires HasKey(w, "4") && HasKey(w, "5") && HasKey(w, "6")
    requires !DB.IsLink(ckptName) && !DB.IsLink(text)
    requires !DB.IsLink(width) && !DB.IsLink(height) && !DB.IsLink(batchSize)
    requires !DB.IsLink(seed) && !DB.IsLink(steps) && !DB.IsLink(cfg) && !DB.IsLink(denoise)
    requires !DB.IsLink(filenamePrefix)
    ensures InputsResolve(w, LoaderNode(ckptName))
    ensures InputsResolve(w, TextEncodeNode(text))
    ensures InputsResolve(w, LatentNode(width, height, batchSize))
    ensures InputsResolve(w, SamplerNode(seed, steps, cfg, denoise))
    ensures InputsResolve(w, DecodeNode())
    ensures InputsResolve(w, SaveNode(filenamePrefix))
  {
  }

  /** With no link-shaped value among the chosen ones, every link of the graph resolves. */
  lemma Txt2ImgGraphResolves(ckptName: Json, prompt: Json, negativePrompt: Json,
                             width: Json, height: Json, batchSize: Json,
                             seed: Json, steps: Json, cfg: Json, denoise: Json,
                             filenamePrefix: Json)
    requires !DB.IsLink(ckptName) && !DB.IsLink(prompt) && !DB.IsLink(negativePrompt)
    requires !DB.IsLink(width) && !DB.IsLink(height) && !DB.IsLink(batchSize)
    requires !DB.IsLink(seed) && !DB.IsLink(steps) && !DB.IsLink(cfg) && !DB.IsLink(denoise)
    requires !DB.IsLink(filenamePrefix)
    ensures DB.AllLinksResolve(Txt2ImgGraph(ckptName, prompt, negativePrompt, width, height, batchSize,
                                            seed, steps, cfg, denoise, filenamePrefix))
  {
    var w := Txt2ImgGraph(ckptName, prompt, negativePrompt, width, height, batchSize,
                          seed, steps, cfg, denoise, filenamePrefix);
    Txt2ImgGraphNodes(ckptName, prompt, negativePrompt, width, height, batchSize,
                      seed, steps, cfg, denoise, filenamePrefix);
    NodeInputsResolve(w, ckptName, prompt, width, height, batchSize, seed, steps, cfg, denoise, filenamePrefix);
    NodeInputsResolve(w, ckptName, negativePrompt, width, height, batchSize, seed, steps, cfg, denoise, filenamePrefix);
    SevenNodesResolve(w);
  }

  lemma SevenNodesResolve(w: DB.Workflow)
    requires |w| == 7
    requires InputsResolve(w, w[0].1) && InputsResolve(w, w[1].1) && InputsResolve(w, w[2].1)
    requires InputsResolve(w, w[3].1) && InputsResolve(w, w[4].1) && InputsResolve(w, w[5].1)
    requires InputsResolve(w, w[6].1)
    ensures DB.AllLinksResolve(w)
  {
    forall i | 0 <= i < |w| ensures InputsResolve(w, w[i].1) {
      if i == 0 {} else if i == 1 {} else if i == 2 {} else if i == 3 {} else if i == 4 {} else if i == 5 {}
    }
  }

  /** No value of the defaults is link-shaped. */
  lemma DefaultsNotLinks()
    ensures forall i | 0 <= i < |DEFAULT_TXT2IMG| :: !DB.IsLink(DEFAULT_TXT2IMG[i].1)
  {
  }

  /** A parameter that is not link-shaped in the caller's object is not link-shaped once merged. */
  lemma MergedNotLink(params: Obj<Json>, key: string)
    requires forall i | 0 <= i < |params| :: !DB.IsLink(params[i].1)
    ensures !DB.IsLink(P(Spread(DEFAULT_TXT2IMG, params), key))
  {
    MergedParameter(params, key);
    DefaultsNotLinks();
  }

  /**
   * The graph passes the validator whenever no caller parameter is itself
   * shaped like a link (`[string, number]`): the fixed links all point at
   * nodes 1..6 with index >= 0, and the defaults are plain literals.
   */
  lemma Txt2ImgValidates(params: Obj<Json>)
    requires forall i | 0 <= i < |params| :: !DB.IsLink(params[i].1)
    ensures DB.Errors(BuildTxt2Img(params)) == []
  {
    var p := Spread(DEFAULT_TXT2IMG, params);
    forall key ensures !DB.IsLink(P(p, key)) {
      MergedNotLink(params, key);
    }
    Txt2ImgGraphResolves(P(p, "ckpt_name"), P(p, "prompt"), P(p, "negative_prompt"),
                         P(p, "width"), P(p, "height"), P(p, "batch_size"),
                         P(p, "seed"), P(p, "steps"), P(p, "cfg"), P(p, "denoise"),
                         P(p, "filename_prefix"));
    DB.ErrorsEmptyIff(BuildTxt2Img(params));
  }

  /**
   * A link-shaped prompt is copied verbatim, so a prompt `[t, n]` naming a
   * node outside "1".."7" makes the output fail validation.
   */
  lemma Txt2ImgLinkShapedPrompt(params: Obj<Json>, t: string, n: real)
    requires Get(params, "prompt") == Some(DB.Link(t, n))
    requires t !in ["1", "2", "3", "4", "5", "6", "7"]
    ensures DB.DanglingLink("2", "text", t) in DB.Errors(BuildTxt2Img(params))
  {
    var w := BuildTxt2Img(params);
    Txt2ImgParameters(params);
    Txt2ImgFixedPart(params);
    HasKeyInKeys(w, t);
    DB.DanglingLinkReported(w, "2", "text", t);
  }

  // --------------------------------------------------------------- table

  /** The keys of `TEMPLATES`, in declaration order. */
  const TEMPLATE_IDS: seq<string> := ["txt2img"]

  /** `listTemplates()`. */
  function ListTemplates(): (ids: seq<string>)
    ensures ids == TEMPLATE_IDS
  {
    TEMPLATE_IDS
  }

  /** `buildFromTemplate(templateId, params?)`, looking the id up among the table's own keys. */
  function BuildFromTemplate(templateId: string, params: Option<Obj<Json>>): (r: Result<DB.Workflow, string>)
    ensures r.Failure? <==> templateId !in ListTemplates()
    ensures r.Failure? ==>
      r.error == "Unknown template: " + templateId + ". Available: " + Text.Join(ListTemplates(), ", ")
    ensures templateId == "txt2img" ==> r == Success(BuildTxt2Img(params.GetOr([])))
  {
    if templateId == "txt2img" then Success(BuildTxt2Img(params.GetOr([])))
    else Failure("Unknown template: " + templateId + ". Available: " + Text.Join(ListTemplates(), ", "))
  }

  /** Every listed template builds, and with no parameters it yields the all-defaults graph. */
  lemma ListedTemplatesBuild(id: string)
    requires id in ListTemplates()
    ensures BuildFromTemplate(id, None).Success?
    ensures BuildFromTemplate(id, None) == BuildFromTemplate(id, Some(NO_PARAMS))
  {
  }

  // ------------------------------------------- lookup through the prototype

  /** The members every plain object inherits from `Object.prototype`. */
  const OBJECT_PROTOTYPE_MEMBERS: seq<string> := [
    "constructor", "hasOwnProperty", "isPrototypeOf", "propertyIsEnumerable",
    "toLocaleString", "toString", "valueOf", "__proto__",
    "__defineGetter__", "__defineSetter__", "__lookupGetter__", "__lookupSetter__"
  ]

  /** What `TEMPLATES[templateId]` yields on the object literal: an own template, an inherited member, or `undefined`. */
  datatype TableEntry = OwnTemplate | InheritedMember(name: string) | Undefined

  function LookupAsWritten(templateId: string): TableEntry
  {
    if templateId in TEMPLATE_IDS then OwnTemplate
    else if templateId in OBJECT_PROTOTYPE_MEMBERS then InheritedMember(templateId)
    else Undefined
  }

  /** `if (!fn) throw ...` as written: the error is raised only for an `undefined` entry. */
  predicate RejectsAsWritten(templateId: string)
  {
    LookupAsWritten(templateId).Undefined?
  }

  /**
   * As written, an id naming an inherited member (`toString`, `constructor`)
   * is not reported as unknown although it is not a template.
   */
  lemma InheritedIdNotRejected()
    ensures "toString" !in ListTemplates() && !RejectsAsWritten("toString")
    ensures "constructor" !in ListTemplates() && !RejectsAsWritten("constructor")
    ensures BuildFromTemplate("toString", None).Failure?
  {
  }
}
