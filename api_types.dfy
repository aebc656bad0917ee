/**
 * The engine's response types (history entries, node outputs, images) and
 * the reading of a parsed history entry into them. A field holding a value
 * of another JSON type than the declared one reads as absent.
 */
module ApiTypes {
  import opened Wrappers
  import opened Objects
  import opened JsonValues

  /** `HistoryImageOutput`: `{filename, subfolder?, type?}`. */
  datatype ImageOutput = ImageOutput(filename: string, subfolder: Option<string>, kind: Option<string>)

  /** `HistoryNodeOutput`: the `images` list, and the `gifs` list the output manager also reads. */
  datatype NodeOutput = NodeOutput(images: Option<seq<ImageOutput>>, gifs: Option<seq<ImageOutput>>)

  /** The `status` object of a history entry. */
  datatype EntryStatus = EntryStatus(statusStr: Option<string>, messages: Option<seq<Json>>)

  /** `HistoryEntry`: one prompt's entry of `GET /history`. */
  datatype HistoryEntry = HistoryEntry(promptId: Option<string>, outputs: Option<Obj<NodeOutput>>, status: Option<EntryStatus>)

  /** An image record; a missing or non-string `filename` reads as the empty string. */
  function DecodeImage(j: Json): (r: ImageOutput)
    ensures StrProp(j, "filename").Some? ==> r.filename == StrProp(j, "filename").value
    ensures StrProp(j, "filename").None? ==> r.filename == ""
    ensures r.subfolder == StrProp(j, "subfolder") && r.kind == StrProp(j, "type")
  {
    ImageOutput(StrProp(j, "filename").GetOr(""), StrProp(j, "subfolder"), StrProp(j, "type"))
  }

  /** A list of image records: one record per array element. */
  function DecodeImages(p: Option<Json>): (r: Option<seq<ImageOutput>>)
    ensures r.Some? <==> p.Some? && p.value.JArr?
    ensures r.Some? ==> |r.value| == |p.value.items|
    ensures r.Some? ==> forall i | 0 <= i < |r.value| :: r.value[i] == DecodeImage(p.value.items[i])
  {
    match p
    case Some(JArr(items)) => Some(seq(|items|, i requires 0 <= i < |items| => DecodeImage(items[i])))
    case _ => None
  }

  function DecodeNodeOutput(j: Json): NodeOutput
  {
    NodeOutput(DecodeImages(Prop(j, "images")), DecodeImages(Prop(j, "gifs")))
  }

  /** The `outputs` object: node id -> node output, keys in the response's order. */
  function DecodeOutputs(p: Option<Json>): (r: Option<Obj<NodeOutput>>)
    ensures r.Some? <==> p.Some? && p.value.JObj?
    ensures r.Some? ==> Keys(r.value) == Keys(p.value.fields)
  {
    match p
    case Some(JObj(f)) => Some(MapValues(f, DecodeNodeOutput))
    case _ => None
  }

  /** The `status` field; a non-object, non-null status has neither `status_str` nor `messages`. */
  function DecodeStatus(p: Option<Json>): (r: Option<EntryStatus>)
    ensures r.None? <==> !Present(p)
  {
    match p
    case None => None
    case Some(JNull) => None
    case Some(s) =>
      Some(EntryStatus(StrProp(s, "status_str"),
                       match Prop(s, "messages") case Some(JArr(ms)) => Some(ms) case _ => None))
  }

  function DecodeEntry(j: Json): (e: HistoryEntry)
    ensures e.promptId == StrProp(j, "prompt_id")
  {
    HistoryEntry(StrProp(j, "prompt_id"), DecodeOutputs(Prop(j, "outputs")), DecodeStatus(Prop(j, "status")))
  }

  /** `status.messages?.length` is non-zero. */
  predicate HasErrorMessages(e: HistoryEntry)
  {
    e.status.Some? && e.status.value.messages.Some? && |e.status.value.messages.value| > 0
  }

  /** `status?.status_str`. */
  function StatusStr(e: HistoryEntry): Option<string>
  {
    if e.status.Some? then e.status.value.statusStr else None
  }

  /** `entry.outputs` is present and has at least one key. */
  predicate HasOutputs(e: HistoryEntry)
  {
    e.outputs.Some? && |e.outputs.value| > 0
  }
}
