/**
 * The ComfyUI-Manager list fetch: an attempt loop that retries thrown
 * requests and "429 Too Many Requests" answers with exponential backoff, and
 * the rule that a non-ok answer is an error. Each attempt's outcome and the
 * answer's parsed body are parameters; the sleeps are recorded, not taken.
 */
module Scanner {
  import opened Wrappers
  import opened JsonValues
  import Text
  import CC = ComfyClient

  const COMFYUI_MANAGER_LIST_URL: string :=
    "https://raw.githubusercontent.com/Comfy-Org/ComfyUI-Manager/main/custom-node-list.json"
  const DEFAULT_RETRIES: nat := 2
  const INITIAL_BACKOFF_MS: nat := 1000
  const TOO_MANY_REQUESTS: nat := 429

  function Pow2(k: nat): (r: nat)
    ensures r >= 1
  {
    if k == 0 then 1 else 2 * Pow2(k - 1)
  }

  /** The pause after attempt `k` before the next one. */
  function Backoff(k: nat): nat
  {
    INITIAL_BACKOFF_MS * Pow2(k)
  }

  /** The pauses taken after the first `n` attempts. */
  function Schedule(n: nat): (r: seq<nat>)
    ensures |r| == n && forall k | 0 <= k < n :: r[k] == Backoff(k)
  {
    seq(n, k requires 0 <= k < n => Backoff(k))
  }

  function Sum(s: seq<nat>): nat
  {
    if s == [] then 0 else Sum(s[..|s| - 1]) + s[|s| - 1]
  }

  /** The pauses double each time, so `n` of them last `1000·(2^n − 1)` ms in all. */
  lemma {:induction false} ScheduleTotal(n: nat)
    ensures Sum(Schedule(n)) == INITIAL_BACKOFF_MS * (Pow2(n) - 1)
  {
    if n > 0 {
      ScheduleTotal(n - 1);
      assert Schedule(n)[..n - 1] == Schedule(n - 1);
    }
  }

  /** An attempt after which the loop tries again, when it is not the last one. */
  predicate Retryable(a: CC.Attempt)
  {
    a.Threw? || a.response.status == TOO_MANY_REQUESTS
  }

  /**
   * `fetchWithRetry(url, options, retries)`: `outcomes[k]` is what attempt
   * `k` produces. The first answer that is not a 429 is returned; on the last
   * attempt a 429 is returned too; when that last attempt throws, its error
   * is rethrown. `waits` are the pauses taken, in order.
   */
  method FetchWithRetry(outcomes: seq<CC.Attempt>, retries: nat)
    returns (r: Result<CC.HttpResponse, string>, attempts: nat, waits: seq<nat>)
    requires |outcomes| > retries
    ensures 1 <= attempts <= retries + 1
    ensures forall k | 0 <= k < attempts - 1 :: Retryable(outcomes[k])
    ensures waits == Schedule(attempts - 1)
    ensures outcomes[attempts - 1].Responded? ==> r == Success(outcomes[attempts - 1].response)
    ensures outcomes[attempts - 1].Threw? ==> attempts == retries + 1 && r == Failure(outcomes[attempts - 1].error)
    ensures Retryable(outcomes[attempts - 1]) ==> attempts == retries + 1
  {
    var lastError := "";
    waits := [];
    var attempt := 0;
    while attempt <= retries
      invariant attempt <= retries + 1
      invariant forall k | 0 <= k < attempt :: Retryable(outcomes[k])
      invariant waits == Schedule(if attempt <= retries then attempt else retries)
      invariant attempt == retries + 1 ==> outcomes[retries].Threw? && lastError == outcomes[retries].error
    {
      var outcome := outcomes[attempt];
      if outcome.Responded? {
        if outcome.response.status == TOO_MANY_REQUESTS && attempt < retries {
          waits := waits + [Backoff(attempt)];
          attempt := attempt + 1;
          continue;
        }
        return Success(outcome.response), attempt + 1, waits;
      }
      lastError := outcome.error;
      if attempt < retries {
        waits := waits + [Backoff(attempt)];
      }
      attempt := attempt + 1;
    }
    return Failure(lastError), retries + 1, waits;
  }

  /** One entry of the Manager's `custom-node-list.json`; fields of another JSON type read as absent. */
  datatype ManagerCustomNode = ManagerCustomNode(
    author: Option<string>, title: Option<string>, id: Option<string>, reference: Option<string>,
    description: Option<string>)

  function CustomNodeOf(j: Json): ManagerCustomNode
  {
    ManagerCustomNode(StrProp(j, "author"), StrProp(j, "title"), StrProp(j, "id"), StrProp(j, "reference"),
                      StrProp(j, "description"))
  }

  /**
   * `fetchManagerList()`: the parsed body of an ok answer; a non-ok answer is
   * the "list failed" error and a body that is not JSON the parse error.
   */
  function FetchManagerList(fetched: Result<CC.HttpResponse, string>): (r: Result<Json, string>)
    ensures fetched.Failure? ==> r == Failure(fetched.error)
    ensures fetched.Success? ==> (r.Success? <==> CC.Parsed(fetched.value))
    ensures r.Success? ==> r.value == fetched.value.body.value
    ensures fetched.Success? && !fetched.value.ok ==>
      r.Failure? && Text.StartsWith(r.error, "ComfyUI-Manager list failed: ")
    ensures fetched.Success? && fetched.value.ok && fetched.value.body.None? ==> r == Failure(PARSE_ERROR)
  {
    if fetched.Failure? then Failure(fetched.error)
    else if !fetched.value.ok then
      Failure("ComfyUI-Manager list failed: " + Text.NatToString(fetched.value.status) + " " + fetched.value.statusText)
    else if fetched.value.body.None? then Failure(PARSE_ERROR)
    else Success(fetched.value.body.value)
  }
}
