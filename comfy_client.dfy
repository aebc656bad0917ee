/**
 * The engine client: URL construction, the request retry loop, the several
 * shapes `GET /history` may take, queue defaults, request bodies, picking the
 * first output image, classifying a finished history entry, and the
 * per-event guard of the WebSocket wait. Every HTTP result is a parameter:
 * the sequence of attempt outcomes, or the response the request produced.
 */
module ComfyClient {
  import opened Wrappers
  import opened Objects
  import opened JsonValues
  import opened ApiTypes
  import Text
  import DB = DynamicBuilder

  const DEFAULT_HOST: string := "http://127.0.0.1:8188"
  const MAX_RETRIES: nat := 2

  // ------------------------------------------------------------------ URLs

  /** `process.env.COMFYUI_HOST ?? DEFAULT_HOST`: an empty setting is kept. */
  function BaseUrl(host: Option<string>): string
  {
    host.GetOr(DEFAULT_HOST)
  }

  /** `replace(/\/$/, '')`: at most one trailing slash goes. */
  function StripTrailingSlash(s: string): (r: string)
    ensures Text.EndsWith(s, "/") ==> s == r + "/"
    ensures !Text.EndsWith(s, "/") ==> r == s
  {
    if s != [] && s[|s| - 1] == '/' then s[..|s| - 1] else s
  }

  /** `normalizeUrl(url)`: the base without its trailing slash, then the path with a leading slash. */
  function NormalizeUrl(host: Option<string>, url: string): (r: string)
    ensures var base := StripTrailingSlash(BaseUrl(host));
      |r| == |base| + |url| + (if Text.StartsWith(url, "/") then 0 else 1) &&
      Text.StartsWith(r, base) && Text.EndsWith(r, url) && r[|base|] == '/'
  {
    var base := StripTrailingSlash(BaseUrl(host));
    var path := if Text.StartsWith(url, "/") then url else "/" + url;
    var r := base + path;
    assert r[..|base|] == base;
    assert path[0] == '/' && r[|base|] == path[0];
    assert path[|path| - |url|..] == url;
    assert r[|r| - |url|..] == path[|path| - |url|..];
    r
  }

  // ----------------------------------------------------------- responses

  /**
   * What a `fetch` resolved to: status line, raw text and parsed body;
   * `body` is `None` when the text is not JSON, so that `res.json()` rejects.
   */
  datatype HttpResponse = HttpResponse(ok: bool, status: nat, statusText: string, text: string, body: Option<Json>)

  /** One attempt of a request: a response, or a thrown network error. */
  datatype Attempt = Responded(response: HttpResponse) | Threw(error: string)

  datatype ClientError =
    | RequestFailed(path: string, status: nat, detail: string)
    | MissingPromptId
    | InvalidSystemStats
    | MalformedBody(path: string)  // the SyntaxError `res.json()` rejects with

  /**
   * `fetchWithRetry`: attempts in order until one yields a response; after
   * `MAX_RETRIES + 1` thrown attempts the last error is rethrown.
   * `outcomes[k]` is what attempt `k` would produce.
   */
  method FetchWithRetry(outcomes: seq<Attempt>) returns (r: Result<HttpResponse, string>, attempts: nat)
    requires |outcomes| > MAX_RETRIES
    ensures 1 <= attempts <= MAX_RETRIES + 1
    ensures forall k | 0 <= k < attempts - 1 :: outcomes[k].Threw?
    ensures outcomes[attempts - 1].Responded? ==> r == Success(outcomes[attempts - 1].response)
    ensures outcomes[attempts - 1].Threw? ==>
      attempts == MAX_RETRIES + 1 && r == Failure(outcomes[attempts - 1].error)
  {
    var attempt := 0;
    while attempt < MAX_RETRIES && outcomes[attempt].Threw?
      invariant attempt <= MAX_RETRIES
      invariant forall k | 0 <= k < attempt :: outcomes[k].Threw?
    {
      attempt := attempt + 1;
    }
    attempts := attempt + 1;
    match outcomes[attempt]
    case Responded(res) => r := Success(res);
    case Threw(e) => r := Failure(e);
  }

  /**
   * `if (!res.ok) throw new Error(`ComfyUI <path> failed (<status>): <text || statusText>`)`,
   * then `await res.json()`, which rejects on a body that is not JSON.
   */
  function Checked(path: string, res: HttpResponse): (r: Result<Json, ClientError>)
    ensures r.Success? <==> res.ok && res.body.Some?
    ensures r.Success? ==> r.value == res.body.value
    ensures !res.ok ==> r.Failure? && r.error.RequestFailed? && r.error.path == path && r.error.status == res.status
    ensures !res.ok && res.text != "" ==> r.error.detail == res.text
    ensures !res.ok && res.text == "" ==> r.error.detail == res.statusText
    ensures res.ok && res.body.None? ==> r == Failure(MalformedBody(path))
  {
    if !res.ok then
      Failure(RequestFailed(path, res.status, if res.text != "" then res.text else res.statusText))
    else if res.body.None? then Failure(MalformedBody(path))
    else Success(res.body.value)
  }

  /** The parsed body of an ok response whose text is JSON. */
  predicate Parsed(res: HttpResponse)
  {
    res.ok && res.body.Some?
  }

  // ------------------------------------------------------------- prompt

  /** The API-format workflow as the JSON object it serialises to. */
  function NodeJson(n: DB.NodeDef): Json
  {
    JObj([("class_type", JStr(n.classType)), ("inputs", JObj(n.inputs))])
  }

  function WorkflowJson(w: DB.Workflow): (j: Json)
    ensures j.JObj? && Keys(j.fields) == Keys(w)
    ensures forall i | 0 <= i < |w| :: j.fields[i].1 == NodeJson(w[i].1)
  {
    JObj(MapValues(w, NodeJson))
  }

  /** The body of `POST /prompt`: `{prompt: workflow}`. */
  function SubmitBody(w: DB.Workflow): (j: Json)
    ensures Prop(j, "prompt") == Some(WorkflowJson(w))
  {
    var b: Obj<Json> := [("prompt", WorkflowJson(w))];
    assert Get(b, "prompt") == Some(WorkflowJson(w)) by { GetAt(b, 0); }
    JObj(b)
  }

  predicate HasPromptId(data: Json)
  {
    Prop(data, "prompt_id").Some? && Truthy(Prop(data, "prompt_id").value)
  }

  /** `submitPrompt`: a non-ok response or a body without a truthy `prompt_id` is an error. */
  function SubmitPrompt(res: HttpResponse): (r: Result<Json, ClientError>)
    ensures r.Success? <==> Parsed(res) && HasPromptId(res.body.value)
    ensures r.Success? ==> r.value == res.body.value
    ensures !Parsed(res) ==> r == Checked("/prompt", res)
    ensures Parsed(res) && !HasPromptId(res.body.value) ==> r == Failure(MissingPromptId)
  {
    match Checked("/prompt", res)
    case Failure(e) => Failure(e)
    case Success(data) => if HasPromptId(data) then Success(data) else Failure(MissingPromptId)
  }

  // ------------------------------------------------------------ history

  /** `promptId ? ... : ...`: an empty id counts as no id. */
  predicate IdGiven(promptId: Option<string>)
  {
    promptId.Some? && promptId.value != ""
  }

  /** The path requested; percent-encoding of the id is not modelled. */
  function HistoryPath(promptId: Option<string>): string
  {
    if IdGiven(promptId) then "/history/" + promptId.value else "/history"
  }

  /** `v && typeof v === 'object'`: objects and arrays. */
  predicate ObjectLike(j: Json)
  {
    j.JObj? || j.JArr?
  }

  /** `{...entry, prompt_id: id}`. */
  function WithPromptId(entry: Json, id: string): (r: Json)
    ensures r.JObj?
    ensures Prop(r, "prompt_id") == Some(JStr(id))
  {
    JObj(Set(SpreadOf(entry), "prompt_id", JStr(id)))
  }

  /** Every other property of the entry is kept. */
  lemma WithPromptIdKeeps(entry: Json, id: string, k: string)
    requires k != "prompt_id"
    ensures Prop(WithPromptId(entry, id), k) == Get(SpreadOf(entry), k)
    ensures entry.JObj? ==> Prop(WithPromptId(entry, id), k) == Prop(entry, k)
  {
  }

  /**
   * The entry `GET /history/{id}` picks out of an object response: the value
   * under the id, else the object itself when it has both `outputs` and
   * `status`, else its first value.
   */
  function SelectEntry(id: string, keyed: Obj<Json>): (r: Option<Json>)
    ensures r.None? <==> keyed == []
    ensures Present(Get(keyed, id)) ==> r == Get(keyed, id)
  {
    if Present(Get(keyed, id)) then Get(keyed, id)
    else if Present(Get(keyed, "outputs")) && Present(Get(keyed, "status")) then Some(JObj(keyed))
    else if keyed == [] then None
    else Some(keyed[0].1)
  }

  function ReverseSeq<T>(s: seq<T>): (r: seq<T>)
    ensures |r| == |s|
    ensures forall i | 0 <= i < |s| :: r[i] == s[|s| - 1 - i]
  {
    if s == [] then [] else ReverseSeq(s[1..]) + [s[0]]
  }

  /** `getHistory`'s normalisation exactly as written. */
  function NormalizeHistoryAsWritten(promptId: Option<string>, data: Json): seq<Json>
  {
    if IdGiven(promptId) && data.JObj? then
      match SelectEntry(promptId.value, data.fields)
      case Some(entry) => if ObjectLike(entry) then [WithPromptId(entry, promptId.value)] else [data]
      case None => [data]
    else if data.JArr? then ListHistory(data.items)
    else if data.JObj? then AllHistory(data.fields)
    else []
  }

  /** A list response, newest first. */
  function ListHistory(items: seq<Json>): (r: seq<Json>)
    ensures r == ReverseSeq(items)
  {
    if |items| > 1 then ReverseSeq(items) else items
  }

  /** A keyed response without an id: every entry tagged with its key, newest (last key) first. */
  function AllHistory(fields: seq<(string, Json)>): (r: seq<Json>)
    ensures |r| == |fields|
    ensures forall i | 0 <= i < |r| :: r[i] == WithPromptId(fields[|r| - 1 - i].1, fields[|r| - 1 - i].0)
  {
    seq(|fields|, i requires 0 <= i < |fields| => WithPromptId(fields[|fields| - 1 - i].1, fields[|fields| - 1 - i].0))
  }

  /** A keyed response for a given id, with an empty object read as "no entry". */
  function KeyedEntry(id: string, data: Json): (r: seq<Json>)
    requires data.JObj?
    ensures (|r| == 1 <==> data.fields != []) && |r| <= 1
    ensures Present(Prop(data, id)) && ObjectLike(Prop(data, id).value) ==> r == [WithPromptId(Prop(data, id).value, id)]
  {
    match SelectEntry(id, data.fields)
    case Some(entry) => if ObjectLike(entry) then [WithPromptId(entry, id)] else [data]
    case None => []
  }

  /**
   * As written, the engine's answer `{}` for a prompt not yet in the history
   * yields one empty entry, which the poller then classifies as completed
   * and which keeps the output listing from falling back to the full history.
   */
  lemma EmptyHistoryObjectAsWritten(id: string)
    requires id != ""
    ensures NormalizeHistoryAsWritten(Some(id), JObj([])) == [JObj([])]
    ensures ClassifyEntry(id, DecodeEntry(JObj([]))).status == Completed
  {
  }

  /**
   * `getHistory`'s normalisation, with an empty keyed object for a given id
   * read as "no entry" (see "Findings" in README.md).
   */
  function NormalizeHistory(promptId: Option<string>, data: Json): (r: seq<Json>)
    ensures IdGiven(promptId) && data.JObj? ==> r == KeyedEntry(promptId.value, data)
    ensures data.JArr? ==> r == ReverseSeq(data.items)
    ensures !IdGiven(promptId) && data.JObj? ==> r == AllHistory(data.fields)
    ensures !data.JObj? && !data.JArr? ==> r == []
  {
    if IdGiven(promptId) && data.JObj? then KeyedEntry(promptId.value, data)
    else if data.JArr? then ListHistory(data.items)
    else if data.JObj? then AllHistory(data.fields)
    else []
  }

  /** The two agree on every response except the empty keyed object for a given id. */
  lemma NormalizeHistoryCorrection(promptId: Option<string>, data: Json)
    ensures NormalizeHistory(promptId, data) != NormalizeHistoryAsWritten(promptId, data) <==>
      IdGiven(promptId) && data == JObj([])
  {
  }

  /** In a keyed history every entry carries its own key as `prompt_id`, newest (last key) first. */
  lemma KeyedHistoryIds(fields: Obj<Json>, i: nat)
    requires i < |fields|
    ensures Prop(NormalizeHistory(None, JObj(fields))[i], "prompt_id") == Some(JStr(fields[|fields| - 1 - i].0))
  {
    assert NormalizeHistory(None, JObj(fields)) == AllHistory(fields);
    AllHistoryIds(fields, i);
  }

  lemma AllHistoryIds(fields: seq<(string, Json)>, i: nat)
    requires i < |fields|
    ensures Prop(AllHistory(fields)[i], "prompt_id") == Some(JStr(fields[|fields| - 1 - i].0))
  {
    var e := fields[|fields| - 1 - i];
    assert AllHistory(fields)[i] == WithPromptId(e.1, e.0);
  }

  /** `getHistory(promptId)` given the response of its request. */
  function GetHistory(promptId: Option<string>, res: HttpResponse): (r: Result<seq<Json>, ClientError>)
    ensures r.Success? <==> Parsed(res)
    ensures r.Success? ==> r.value == NormalizeHistory(promptId, res.body.value)
    ensures r.Failure? ==> r.error == Checked(HistoryPath(promptId), res).error
    ensures r.Failure? ==> (r.error.RequestFailed? || r.error.MalformedBody?) && r.error.path == HistoryPath(promptId)
  {
    match Checked(HistoryPath(promptId), res)
    case Failure(e) => Failure(e)
    case Success(data) => Success(NormalizeHistory(promptId, data))
  }

  // -------------------------------------------------- other endpoints

  datatype QueueStatus = QueueStatus(running: Json, pending: Json)

  /** `x ?? []`. */
  function OrEmptyList(p: Option<Json>): (r: Json)
    ensures Present(p) ==> r == p.value
    ensures !Present(p) ==> r == JArr([])
  {
    if Present(p) then p.value else JArr([])
  }

  /** `getQueue`: a missing (or null) list reads as `[]`. */
  function GetQueue(res: HttpResponse): (r: Result<QueueStatus, ClientError>)
    ensures r.Success? <==> Parsed(res)
    ensures r.Success? ==> r.value.running == OrEmptyList(Prop(res.body.value, "queue_running"))
    ensures r.Success? ==> r.value.pending == OrEmptyList(Prop(res.body.value, "queue_pending"))
    ensures r.Failure? ==> r.error == Checked("/queue", res).error
  {
    match Checked("/queue", res)
    case Failure(e) => Failure(e)
    case Success(data) =>
      Success(QueueStatus(OrEmptyList(Prop(data, "queue_running")), OrEmptyList(Prop(data, "queue_pending"))))
  }

  /** `getObjectInfo`: `data ?? {}`. */
  function GetObjectInfo(res: HttpResponse): (r: Result<Json, ClientError>)
    ensures r.Success? <==> Parsed(res)
    ensures r.Success? ==> r.value == (if res.body.value == JNull then JObj([]) else res.body.value)
    ensures r.Failure? ==> r == Checked("/object_info", res)
  {
    match Checked("/object_info", res)
    case Failure(e) => Failure(e)
    case Success(data) => Success(if data == JNull then JObj([]) else data)
  }

  /** `getSystemStats`: the body needs a truthy `system` and an array `devices`. */
  function GetSystemStats(res: HttpResponse): (r: Result<Json, ClientError>)
    ensures r.Success? <==> (Parsed(res) && Prop(res.body.value, "system").Some? &&
      Truthy(Prop(res.body.value, "system").value) && Prop(res.body.value, "devices").Some? &&
      Prop(res.body.value, "devices").value.JArr?)
    ensures r.Success? ==> r.value == res.body.value
    ensures !Parsed(res) ==> r == Checked("/system_stats", res)
    ensures Parsed(res) && r.Failure? ==> r.error == InvalidSystemStats
  {
    match Checked("/system_stats", res)
    case Failure(e) => Failure(e)
    case Success(data) =>
      var sys := Prop(data, "system");
      var devices := Prop(data, "devices");
      if sys.None? || !Truthy(sys.value) || devices.None? || !devices.value.JArr? then Failure(InvalidSystemStats)
      else Success(data)
  }

  /** The body of `POST /interrupt`: `{}` without an id, `{prompt_id}` with one. */
  function InterruptBody(promptId: Option<string>): (j: Json)
    ensures j.JObj?
    ensures !IdGiven(promptId) ==> j.fields == []
    ensures IdGiven(promptId) ==> Keys(j.fields) == ["prompt_id"] && Prop(j, "prompt_id") == Some(JStr(promptId.value))
  {
    if IdGiven(promptId) then
      var b: Obj<Json> := [("prompt_id", JStr(promptId.value))];
      assert Get(b, "prompt_id") == Some(JStr(promptId.value)) by { GetAt(b, 0); }
      JObj(b)
    else JObj([])
  }

  /** The body of the queue-clearing `POST /queue`: `{clear: true}`. */
  const CLEAR_BODY: Json := JObj([("clear", JBool(true))])

  /** `deleteQueueItems`: no request at all for an empty list, else `{delete: ids}`. */
  function DeleteQueueBody(promptIds: seq<string>): (r: Option<Json>)
    ensures r.None? <==> promptIds == []
    ensures r.Some? ==> r.value.JObj? && Keys(r.value.fields) == ["delete"]
    ensures r.Some? ==> Prop(r.value, "delete") == Some(JArr(seq(|promptIds|, i requires 0 <= i < |promptIds| => JStr(promptIds[i]))))
  {
    if promptIds == [] then None
    else
      var ids := JArr(seq(|promptIds|, i requires 0 <= i < |promptIds| => JStr(promptIds[i])));
      var b: Obj<Json> := [("delete", ids)];
      assert Get(b, "delete") == Some(ids) by { GetAt(b, 0); }
      Some(JObj(b))
  }

  // --------------------------------------------------- first output image

  datatype OutputImageRef = OutputImageRef(filename: string, subfolder: Option<string>, kind: string)

  /** `images?.length` is truthy. */
  predicate HasImages(o: NodeOutput)
  {
    o.images.Some? && |o.images.value| > 0
  }

  /** `{filename, subfolder, type: type ?? 'output'}`. */
  function RefOf(img: ImageOutput): OutputImageRef
  {
    OutputImageRef(img.filename, img.subfolder, img.kind.GetOr("output"))
  }

  /** `entries[0].outputs ?? {}`, or nothing when there is no entry. */
  function FirstOutputs(entries: seq<HistoryEntry>): Obj<NodeOutput>
  {
    if entries == [] then [] else entries[0].outputs.GetOr([])
  }

  /**
   * `getFirstOutputImageRef`: the first image of the first node output (in
   * key order) that has images; nothing when no output has any.
   */
  method GetFirstOutputImageRef(entries: seq<HistoryEntry>) returns (r: Option<OutputImageRef>)
    ensures entries == [] ==> r.None?
    ensures r.None? <==> forall k | 0 <= k < |FirstOutputs(entries)| :: !HasImages(FirstOutputs(entries)[k].1)
    ensures r.Some? ==> exists k | 0 <= k < |FirstOutputs(entries)| ::
      HasImages(FirstOutputs(entries)[k].1) &&
      (forall j | 0 <= j < k :: !HasImages(FirstOutputs(entries)[j].1)) &&
      r.value == RefOf(FirstOutputs(entries)[k].1.images.value[0])
  {
    if |entries| == 0 {
      return None;
    }
    var outputs := FirstOutputs(entries);
    var k := 0;
    while k < |outputs|
      invariant k <= |outputs|
      invariant forall j | 0 <= j < k :: !HasImages(outputs[j].1)
    {
      var images := outputs[k].1.images;
      if images.Some? && |images.value| > 0 {
        var img := images.value[0];
        return Some(OutputImageRef(img.filename, img.subfolder, img.kind.GetOr("output")));
      }
      k := k + 1;
    }
    return None;
  }

  // -------------------------------------------------- entry classification

  datatype ExecStatus = Completed | Failed | TimedOut

  /** The `error` of a result: the first history message (before `String()`), an event's message, or a timeout. */
  datatype ErrorInfo = FirstMessage(message: Json) | EventError(eventMessage: Option<string>) | TimeoutAfter(ms: nat)

  datatype ExecutionResult = ExecutionResult(promptId: string, status: ExecStatus,
                                             outputs: Option<Obj<NodeOutput>>, error: Option<ErrorInfo>)

  /**
   * The result the poller returns for the first history entry: failed with
   * the first message when `status.messages` is non-empty, completed
   * otherwise, whatever `status_str` says.
   */
  function ClassifyEntry(promptId: string, entry: HistoryEntry): (r: ExecutionResult)
    ensures r.promptId == promptId && r.outputs == entry.outputs
    ensures r.status == Failed <==> HasErrorMessages(entry)
    ensures r.status == Completed <==> !HasErrorMessages(entry)
    ensures HasErrorMessages(entry) ==> r.error == Some(FirstMessage(entry.status.value.messages.value[0]))
    ensures !HasErrorMessages(entry) ==> r.error.None?
  {
    if HasErrorMessages(entry) then
      ExecutionResult(promptId, Failed, entry.outputs, Some(FirstMessage(entry.status.value.messages.value[0])))
    else ExecutionResult(promptId, Completed, entry.outputs, None)
  }

  /** `status_str` plays no part in the classification. */
  lemma ClassifyIgnoresStatusStr(promptId: string, entry: HistoryEntry, s: Option<string>)
    requires entry.status.Some?
    ensures ClassifyEntry(promptId, entry.(status := Some(entry.status.value.(statusStr := s)))) ==
      ClassifyEntry(promptId, entry)
  {
  }

  /** One polling round: the classified first entry, or nothing yet. */
  function PollRound(promptId: string, entries: seq<HistoryEntry>): (r: Option<ExecutionResult>)
    ensures r.None? <==> entries == []
    ensures r.Some? ==> r.value == ClassifyEntry(promptId, entries[0])
  {
    if entries == [] then None else Some(ClassifyEntry(promptId, entries[0]))
  }

  /** The result when the deadline passes: `Timed out after <ms>ms`. */
  function TimeoutResult(promptId: string, timeoutMs: nat): (r: ExecutionResult)
    ensures r.promptId == promptId && r.status == TimedOut
    ensures r.outputs.None? && r.error == Some(TimeoutAfter(timeoutMs))
  {
    ExecutionResult(promptId, TimedOut, None, Some(TimeoutAfter(timeoutMs)))
  }

  // ------------------------------------------------ WebSocket event guard

  /** A progress event of the WebSocket subscription. */
  datatype ProgressEvent = ProgressEvent(status: string, currentNodeProgress: Option<real>,
                                         outputs: Option<Obj<NodeOutput>>, errorMessage: Option<string>)

  /** What the handler does with an event. */
  datatype HandlerAction = Resolve(result: ExecutionResult) | SchedulePollFallback | NoAction

  /** `current_node_progress !== undefined && current_node_progress >= 1`. */
  predicate ReachedEnd(ev: ProgressEvent)
  {
    ev.currentNodeProgress.Some? && ev.currentNodeProgress.value >= 1.0
  }

  /** Number of poll fallbacks among the actions taken. */
  function PollCount(actions: seq<HandlerAction>): nat
  {
    if actions == [] then 0
    else PollCount(actions[..|actions| - 1]) + (if actions[|actions| - 1].SchedulePollFallback? then 1 else 0)
  }

  /** When nothing after a resolution or a scheduled poll schedules a poll, at most one poll is scheduled. */
  lemma {:induction false} OneShotPolls(actions: seq<HandlerAction>)
    requires forall i, j | 0 <= i < j < |actions| :: !actions[i].NoAction? ==> !actions[j].SchedulePollFallback?
    ensures PollCount(actions) <= 1
    ensures PollCount(actions) == 1 ==> exists i | 0 <= i < |actions| :: actions[i].SchedulePollFallback?
    decreases |actions|
  {
    if actions != [] {
      var init := actions[..|actions| - 1];
      OneShotPolls(init);
      if PollCount(init) == 1 {
        var i :| 0 <= i < |init| && init[i].SchedulePollFallback?;
        assert !actions[|actions| - 1].SchedulePollFallback?;
      }
    }
  }

  /** The closure state of one `waitWithWebSocket` call. */
  class ProgressHandler {
    const promptId: string
    var completedOrResolving: bool
    var pollFallbackScheduled: bool

    ghost predicate Valid()
      reads this
    {
      pollFallbackScheduled ==> completedOrResolving
    }

    constructor(promptId: string)
      ensures this.promptId == promptId
      ensures !completedOrResolving && !pollFallbackScheduled && Valid()
    {
      this.promptId := promptId;
      completedOrResolving := false;
      pollFallbackScheduled := false;
    }

    /**
     * The subscription's event callback: `completed` and `failed` always
     * resolve with their own status; a progress of 1 or more schedules the
     * poll fallback only when nothing is resolving and none was scheduled.
     */
    method OnProgress(ev: ProgressEvent) returns (action: HandlerAction)
      requires Valid()
      modifies this
      ensures Valid()
      ensures ev.status == "completed" ==>
        action == Resolve(ExecutionResult(promptId, Completed, ev.outputs, None)) &&
        completedOrResolving && pollFallbackScheduled == old(pollFallbackScheduled)
      ensures ev.status == "failed" ==>
        action == Resolve(ExecutionResult(promptId, Failed, None, Some(EventError(ev.errorMessage)))) &&
        completedOrResolving && pollFallbackScheduled == old(pollFallbackScheduled)
      ensures ev.status != "completed" && ev.status != "failed" ==>
        (action.SchedulePollFallback? <==>
          !old(completedOrResolving) && !old(pollFallbackScheduled) && ReachedEnd(ev)) &&
        (action.SchedulePollFallback? || action.NoAction?)
      ensures action.SchedulePollFallback? ==> completedOrResolving && pollFallbackScheduled
      ensures action.NoAction? ==>
        completedOrResolving == old(completedOrResolving) && pollFallbackScheduled == old(pollFallbackScheduled)
      ensures old(completedOrResolving) ==> completedOrResolving
      ensures old(pollFallbackScheduled) ==> pollFallbackScheduled
    {
      if ev.status == "completed" {
        completedOrResolving := true;
        action := Resolve(ExecutionResult(promptId, Completed, ev.outputs, None));
      } else if ev.status == "failed" {
        completedOrResolving := true;
        action := Resolve(ExecutionResult(promptId, Failed, None, Some(EventError(ev.errorMessage))));
      } else if !completedOrResolving && !pollFallbackScheduled && ev.currentNodeProgress.Some?
                && ev.currentNodeProgress.value >= 1.0 {
        pollFallbackScheduled := true;
        completedOrResolving := true;
        action := SchedulePollFallback;
      } else {
        action := NoAction;
      }
    }

    /**
     * A stream of events: after a resolution or a scheduled poll no later
     * event schedules a poll, so the fallback is scheduled at most once,
     * and never once something was already resolving.
     */
    method HandleEvents(events: seq<ProgressEvent>) returns (actions: seq<HandlerAction>)
      requires Valid()
      modifies this
      ensures Valid()
      ensures |actions| == |events|
      ensures forall i, j | 0 <= i < j < |actions| :: !actions[i].NoAction? ==> !actions[j].SchedulePollFallback?
      ensures PollCount(actions) <= 1
      ensures old(completedOrResolving) ==> forall i | 0 <= i < |actions| :: !actions[i].SchedulePollFallback?
      ensures forall i | 0 <= i < |events| :: events[i].status == "completed" ==>
        actions[i] == Resolve(ExecutionResult(promptId, Completed, events[i].outputs, None))
      ensures forall i | 0 <= i < |events| :: events[i].status == "failed" ==>
        actions[i] == Resolve(ExecutionResult(promptId, Failed, None, Some(EventError(events[i].errorMessage))))
      ensures completedOrResolving == (old(completedOrResolving) || exists i | 0 <= i < |actions| :: !actions[i].NoAction?)
      ensures pollFallbackScheduled ==
        (old(pollFallbackScheduled) || exists i | 0 <= i < |actions| :: actions[i].SchedulePollFallback?)
    {
      actions := [];
      var k := 0;
      while k < |events|
        invariant Valid()
        invariant k <= |events| && |actions| == k
        invariant forall i | 0 <= i < k :: !actions[i].NoAction? ==> completedOrResolving
        invariant forall i, j | 0 <= i < j < k :: !actions[i].NoAction? ==> !actions[j].SchedulePollFallback?
        invariant old(completedOrResolving) ==> completedOrResolving
        invariant old(completedOrResolving) ==> forall i | 0 <= i < k :: !actions[i].SchedulePollFallback?
        invariant forall i | 0 <= i < k :: events[i].status == "completed" ==>
          actions[i] == Resolve(ExecutionResult(promptId, Completed, events[i].outputs, None))
        invariant forall i | 0 <= i < k :: events[i].status == "failed" ==>
          actions[i] == Resolve(ExecutionResult(promptId, Failed, None, Some(EventError(events[i].errorMessage))))
        invariant completedOrResolving == (old(completedOrResolving) || exists i | 0 <= i < k :: !actions[i].NoAction?)
        invariant pollFallbackScheduled ==
          (old(pollFallbackScheduled) || exists i | 0 <= i < k :: actions[i].SchedulePollFallback?)
      {
        ghost var before := actions;
        ghost var wasResolving, wasScheduled := completedOrResolving, pollFallbackScheduled;
        var a := OnProgress(events[k]);
        actions := actions + [a];
        assert forall i | 0 <= i < k :: actions[i] == before[i];
        if exists i | 0 <= i < k :: !before[i].NoAction? {
          var i :| 0 <= i < k && !before[i].NoAction?;
          assert !actions[i].NoAction?;
        }
        if exists i | 0 <= i < k :: before[i].SchedulePollFallback? {
          var i :| 0 <= i < k && before[i].SchedulePollFallback?;
          assert actions[i].SchedulePollFallback?;
        }
        assert a.Resolve? ==> pollFallbackScheduled == wasScheduled && completedOrResolving;
        if !a.NoAction? {
          assert !actions[k].NoAction?;
        }
        if a.SchedulePollFallback? {
          assert actions[k].SchedulePollFallback?;
        }
        k := k + 1;
      }
      OneShotPolls(actions);
    }
  }
}
