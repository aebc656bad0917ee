/**
 * The ComfyUI-Manager command line and model downloads: the model-type →
 * directory table, reading `COMFYUI_PATH`, how the result of a `cm-cli` or
 * `comfy` subprocess is reported, and how `downloadModelToDir` picks the
 * file name it writes. The environment value, the files that exist, the
 * subprocess results and the HTTP answer are parameters.
 */
module ManagerCli {
  import opened Wrappers
  import opened Text
  import Outputs

  // ------------------------------------------------------- model-type table

  /** `MODEL_TYPE_PATHS`: standard model type → path relative to the ComfyUI root. */
  const MODEL_TYPE_PATHS: map<string, string> := map[
    "checkpoint" := "models/checkpoints",
    "checkpoints" := "models/checkpoints",
    "lora" := "models/loras",
    "loras" := "models/loras",
    "vae" := "models/vae",
    "controlnet" := "models/controlnet",
    "clip" := "models/clip",
    "embeddings" := "embeddings",
    "hypernetwork" := "models/hypernetworks",
    "hypernetworks" := "models/hypernetworks",
    "upscale_models" := "models/upscale_models",
    "clip_vision" := "models/clip_vision",
    "unet" := "models/unet",
    "diffusers" := "models/diffusers"
  ]

  const MODELS_PREFIX: string := "models/"

  /** The key the table is read with: `modelType.toLowerCase().trim()`. */
  function ModelTypeKey(modelType: string): string
  {
    Trim(Lower(modelType))
  }

  /** The directory for a key: the table's entry, else `models/<key>`. */
  function DirForKey(key: string): (r: string)
    ensures key in MODEL_TYPE_PATHS ==> r == MODEL_TYPE_PATHS[key]
    ensures key !in MODEL_TYPE_PATHS ==> r == MODELS_PREFIX + key
  {
    if key in MODEL_TYPE_PATHS then MODEL_TYPE_PATHS[key] else MODELS_PREFIX + key
  }

  /** `getRelativePathForModelType(modelType)`. */
  function RelativePathForModelType(modelType: string): (r: string)
    ensures ModelTypeKey(modelType) in MODEL_TYPE_PATHS ==> r == MODEL_TYPE_PATHS[ModelTypeKey(modelType)]
    ensures ModelTypeKey(modelType) !in MODEL_TYPE_PATHS ==> r == MODELS_PREFIX + ModelTypeKey(modelType)
  {
    DirForKey(ModelTypeKey(modelType))
  }

  /** The singular and plural spellings name the same directory. */
  lemma AliasesAgree()
    ensures DirForKey("checkpoint") == DirForKey("checkpoints") == "models/checkpoints"
    ensures DirForKey("lora") == DirForKey("loras") == "models/loras"
    ensures DirForKey("hypernetwork") == DirForKey("hypernetworks") == "models/hypernetworks"
  {
  }

  /** Upper-case spellings resolve as the lower-case ones do. */
  lemma RelativePathIgnoresCase(modelType: string)
    ensures RelativePathForModelType(Upper(modelType)) == RelativePathForModelType(modelType)
  {
    LowerOfUpper(modelType);
  }

  // ------------------------------------------------------------ COMFYUI_PATH

  /** `getComfyPath()` on the value of `COMFYUI_PATH` (None when unset). */
  function ComfyPath(env: Option<string>): (r: Option<string>)
    ensures r.None? <==> env.None? || forall i | 0 <= i < |env.value| :: IsSpace(env.value[i])
    ensures r.Some? ==> r.value == Trim(env.value) && r.value != []
  {
    if env.None? || env.value == "" then None
    else
      TrimEmptyIffBlank(env.value);
      var trimmed := Trim(env.value);
      if trimmed == "" then None else Some(trimmed)
  }

  /** The trimmed value has no surrounding white space. */
  lemma ComfyPathTrimmed(env: Option<string>)
    requires ComfyPath(env).Some?
    ensures var p := ComfyPath(env).value; !IsSpace(p[0]) && !IsSpace(p[|p| - 1])
  {
    var t := TrimStart(env.value);
    assert t != [];
    assert TrimEnd(t) == t[..|TrimEnd(t)|];
  }

  function CmCliPath(base: string): string
  {
    Outputs.JoinPath(Outputs.JoinPath(Outputs.JoinPath(base, "custom_nodes"), "ComfyUI-Manager"), "cm-cli.py")
  }

  /** `isManagerCliConfigured()`: `existing` is the set of paths that exist. */
  predicate ManagerCliConfigured(env: Option<string>, existing: set<string>)
  {
    ComfyPath(env).Some? && CmCliPath(ComfyPath(env).value) in existing
  }

  // --------------------------------------------------------- subprocesses

  /** What `spawnSync` returns: the captured streams and the exit status (None when killed or not started). */
  datatype SpawnResult = SpawnResult(stdout: Option<string>, stderr: Option<string>, status: Option<int>)

  datatype CliResult = CliResult(ok: bool, stdout: string, stderr: string, code: Option<int>)

  /** The result both runners build from a finished subprocess. */
  function Shaped(child: SpawnResult): (r: CliResult)
    ensures r.ok <==> child.status == Some(0)
    ensures r.code == child.status
    ensures r.stdout == Trim(child.stdout.GetOr("")) && r.stderr == Trim(child.stderr.GetOr(""))
  {
    CliResult(child.status == Some(0), Trim(child.stdout.GetOr("")), Trim(child.stderr.GetOr("")), child.status)
  }

  const NOT_SET_MESSAGE: string :=
    "COMFYUI_PATH is not set. Set it to your ComfyUI installation directory (e.g. /path/to/ComfyUI)."
  const RICH_PREFIX: string :=
    "ComfyUI-Manager requires the Python package 'rich'. Run: pip install rich (in your ComfyUI Python environment). Original: "
  const RICH_DEFAULT_ERROR: string := "ModuleNotFoundError: No module named 'rich'"
  const RICH_FALLBACK: string :=
    "ComfyUI-Manager cm-cli requires the Python package 'rich'. Run: pip install rich (in your ComfyUI Python environment)."

  datatype RichCheck = RichCheck(available: bool, message: Option<string>)

  /** `checkRichAvailable(python, cwd)` on the result of running `python -c "import rich"`. */
  function CheckRichAvailable(child: SpawnResult): (r: RichCheck)
    ensures r.available <==> child.status == Some(0)
    ensures r.available ==> r.message.None?
    ensures !r.available ==> r.message.Some? && StartsWith(r.message.value, RICH_PREFIX)
  {
    if child.status == Some(0) then RichCheck(true, None)
    else
      var stderr := Trim(child.stderr.GetOr(""));
      var msg := if stderr == "" then RICH_DEFAULT_ERROR else stderr;
      var m := RICH_PREFIX + msg;
      assert m[..|RICH_PREFIX|] == RICH_PREFIX;
      RichCheck(false, Some(m))
  }

  /**
   * `runCmCli(args)`: `richProbe` is the `import rich` check and `child` the
   * `cm-cli.py` run; neither happens unless `COMFYUI_PATH` is set and
   * `cm-cli.py` exists.
   */
  function RunCmCli(env: Option<string>, existing: set<string>, richProbe: SpawnResult, child: SpawnResult): (r: CliResult)
    ensures r.ok <==> ManagerCliConfigured(env, existing) && richProbe.status == Some(0) && child.status == Some(0)
    ensures ComfyPath(env).None? ==> r == CliResult(false, "", NOT_SET_MESSAGE, None)
    ensures r.code.Some? ==> ManagerCliConfigured(env, existing) && richProbe.status == Some(0) && r.code == child.status
    ensures ManagerCliConfigured(env, existing) && richProbe.status == Some(0) ==> r == Shaped(child)
  {
    var base := ComfyPath(env);
    if base.None? then CliResult(false, "", NOT_SET_MESSAGE, None)
    else
      var cmCliPath := CmCliPath(base.value);
      if cmCliPath !in existing then
        CliResult(false, "", "ComfyUI-Manager not found at " + cmCliPath
                  + ". Install ComfyUI-Manager in your ComfyUI custom_nodes.", None)
      else
        var richCheck := CheckRichAvailable(richProbe);
        if !richCheck.available then CliResult(false, "", richCheck.message.GetOr(RICH_FALLBACK), None)
        else Shaped(child)
  }

  /** Without `COMFYUI_PATH` nothing runs: the result depends on neither subprocess nor on any file. */
  lemma UnconfiguredRunsNothing(env: Option<string>, existing1: set<string>, existing2: set<string>,
                                rich1: SpawnResult, rich2: SpawnResult, child1: SpawnResult, child2: SpawnResult)
    requires ComfyPath(env).None?
    ensures RunCmCli(env, existing1, rich1, child1) == RunCmCli(env, existing2, rich2, child2)
    ensures !RunCmCli(env, existing1, rich1, child1).ok && RunCmCli(env, existing1, rich1, child1).code.None?
  {
  }

  /** `runComfyModelDownload(url, relativePath)`: `child` is the `comfy model download` run. */
  function RunComfyModelDownload(env: Option<string>, child: SpawnResult): (r: CliResult)
    ensures r.ok <==> ComfyPath(env).Some? && child.status == Some(0)
    ensures ComfyPath(env).None? ==> r == CliResult(false, "", "COMFYUI_PATH is not set.", None)
    ensures ComfyPath(env).Some? ==> r == Shaped(child)
  {
    if ComfyPath(env).None? then CliResult(false, "", "COMFYUI_PATH is not set.", None)
    else Shaped(child)
  }

  // --------------------------------------------------------- download names

  const DEFAULT_MODEL_FILE: string := "model.safetensors"

  /** The characters of `[\w.\-()+]`. */
  predicate FileChar(c: char)
  {
    'a' <= c <= 'z' || 'A' <= c <= 'Z' || '0' <= c <= '9' || c == '_'
    || c == '.' || c == '-' || c == '(' || c == ')' || c == '+'
  }

  /** `/^[\w.\-()+]+$/i.test(name)`. */
  predicate SafeFileName(s: string)
  {
    s != [] && forall i | 0 <= i < |s| :: FileChar(s[i])
  }

  /** `replace(/[^\w.\-()+]/g, '_')`. */
  function ReplaceFileChars(s: string): (r: string)
    ensures |r| == |s|
    ensures forall i | 0 <= i < |s| :: r[i] == (if FileChar(s[i]) then s[i] else '_')
  {
    seq(|s|, i requires 0 <= i < |s| => if FileChar(s[i]) then s[i] else '_')
  }

  predicate IsQuote(c: char)
  {
    c == '"' || c == '\''
  }

  /** `replace(/^["']|["']$/g, '')`: one leading and one trailing quote go. */
  function StripQuotes(s: string): (r: string)
    ensures |r| <= |s|
    ensures s != [] && !IsQuote(s[0]) && !IsQuote(s[|s| - 1]) ==> r == s
  {
    var a := if s != [] && IsQuote(s[0]) then s[1..] else s;
    if a != [] && IsQuote(a[|a| - 1]) then a[..|a| - 1] else a
  }

  /** The answer `fetch(url)` gave: the first capture of the Content-Disposition filename pattern, when it matched. */
  datatype DownloadResponse = DownloadResponse(ok: bool, status: nat, statusText: string, dispositionName: Option<string>)

  datatype DownloadResult = DownloadResult(ok: bool, path: Option<string>, error: Option<string>)

  /** The name taken from the Content-Disposition header, when one survives trimming and unquoting. */
  function DispositionFileName(dispositionName: Option<string>): string
  {
    if dispositionName.Some? && dispositionName.value != "" then StripQuotes(Trim(dispositionName.value)) else ""
  }

  /** The URL's last path segment (`pathname.slice(pathname.lastIndexOf('/') + 1)`), or `model.safetensors` when it is empty or the URL does not parse. */
  function UrlFileName(pathname: Option<string>): (r: string)
    ensures r != [] && '/' !in r
    ensures pathname.Some? && AfterLast(pathname.value, '/') != [] ==> r == AfterLast(pathname.value, '/')
  {
    assert '/' !in DEFAULT_MODEL_FILE;
    if pathname.None? then DEFAULT_MODEL_FILE
    else
      var seg := AfterLast(pathname.value, '/');
      assert '/' !in seg;
      if seg == "" then DEFAULT_MODEL_FILE else seg
  }

  /** The name before sanitising: the header's, else the URL's. */
  function ChosenFileName(dispositionName: Option<string>, pathname: Option<string>): (r: string)
    ensures r != []
    ensures DispositionFileName(dispositionName) != [] ==> r == DispositionFileName(dispositionName)
    ensures DispositionFileName(dispositionName) == [] ==> r == UrlFileName(pathname)
  {
    var fromHeader := DispositionFileName(dispositionName);
    if fromHeader != "" then fromHeader else UrlFileName(pathname)
  }

  /** The sanitising step: a safe name is kept, otherwise every other character becomes `_`. */
  function Sanitized(filename: string): (r: string)
    requires filename != []
    ensures SafeFileName(r)
    ensures SafeFileName(filename) ==> r == filename
    ensures |r| == |filename|
    ensures forall i | 0 <= i < |r| :: FileChar(filename[i]) ==> r[i] == filename[i]
    ensures '/' !in r
  {
    if SafeFileName(filename) then filename else ReplaceFileChars(filename)
  }

  /**
   * `downloadModelToDir(url, destDir)`: `fetched` is the answer or the error
   * thrown, `pathname` the URL's path (None when `new URL` throws), and
   * `writeError` the error writing the file threw, if any.
   */
  method DownloadModelToDir(env: Option<string>, destDir: string, fetched: Result<DownloadResponse, string>,
                            pathname: Option<string>, writeError: Option<string>)
    returns (r: DownloadResult)
    ensures r.ok <==> ComfyPath(env).Some? && fetched.Success? && fetched.value.ok && writeError.None?
    ensures ComfyPath(env).None? ==> r == DownloadResult(false, None, Some("COMFYUI_PATH is not set."))
    ensures ComfyPath(env).Some? && fetched.Failure? ==> r == DownloadResult(false, None, Some(fetched.error))
    ensures ComfyPath(env).Some? && fetched.Success? && !fetched.value.ok ==>
      r == DownloadResult(false, None,
                          Some("Download failed: " + NatToString(fetched.value.status) + " " + fetched.value.statusText))
    ensures ComfyPath(env).Some? && fetched.Success? && fetched.value.ok && writeError.Some? ==>
      r == DownloadResult(false, None, writeError)
    ensures r.ok ==>
      var f := Sanitized(ChosenFileName(fetched.value.dispositionName, pathname));
      r == DownloadResult(true, Some(Outputs.JoinPath(destDir, f)), None)
    ensures r.ok ==> r.path.Some? && exists f | SafeFileName(f) :: r.path.value == Outputs.JoinPath(destDir, f)
  {
    var base := ComfyPath(env);
    if base.None? {
      return DownloadResult(false, None, Some("COMFYUI_PATH is not set."));
    }
    if fetched.Failure? {
      return DownloadResult(false, None, Some(fetched.error));
    }
    var res := fetched.value;
    if !res.ok {
      return DownloadResult(false, None, Some("Download failed: " + NatToString(res.status) + " " + res.statusText));
    }
    var filename := "";
    if res.dispositionName.Some? && res.dispositionName.value != "" {
      filename := StripQuotes(Trim(res.dispositionName.value));
    }
    if filename == "" {
      if pathname.None? {
        filename := DEFAULT_MODEL_FILE;
      } else {
        filename := AfterLast(pathname.value, '/');
        if filename == "" {
          filename := DEFAULT_MODEL_FILE;
        }
      }
    }
    if !SafeFileName(filename) {
      filename := ReplaceFileChars(filename);
      if filename == "" {
        filename := DEFAULT_MODEL_FILE;
      }
    }
    if writeError.Some? {
      return DownloadResult(false, None, writeError);
    }
    return DownloadResult(true, Some(Outputs.JoinPath(destDir, filename)), None);
  }
}
