/**
 * Saved workflows under `workflows/` (relative to the working directory):
 * the file-name sanitiser, where `saveWorkflow` writes, how `loadWorkflow`
 * tells a path from a name, and the listing `listSavedWorkflows` returns.
 * The directory's files are an in-memory map from path to the parsed value
 * JSON.parse would return for the file's content (None when it does not
 * parse); the `readdir` answer is a parameter.
 */
module WorkflowStorage {
  import opened Wrappers
  import opened JsonValues
  import Text
  import Outputs

  const WORKFLOWS_DIR: string := "workflows"
  const JSON_SUFFIX: string := ".json"
  const DEFAULT_NAME: string := "workflow"
  const NOT_AN_OBJECT: string := "Invalid workflow JSON: expected object"

  // ------------------------------------------------------------ sanitising

  /** The characters a saved name may keep: `[a-zA-Z0-9_-]`. */
  predicate NameChar(c: char)
  {
    'a' <= c <= 'z' || 'A' <= c <= 'Z' || '0' <= c <= '9' || c == '_' || c == '-'
  }

  /** No two consecutive underscores. */
  predicate NoDoubleUnderscore(s: string)
  {
    forall i | 0 < i < |s| :: s[i] == '_' ==> s[i - 1] != '_'
  }

  /** What the sanitiser can produce: non-empty, only name characters, no `__`. */
  predicate CleanName(s: string)
  {
    s != [] && (forall i | 0 <= i < |s| :: NameChar(s[i])) && NoDoubleUnderscore(s)
  }

  /** `replace(/[^a-zA-Z0-9_-]/g, '_')`. */
  function ReplaceDisallowed(s: string): (r: string)
    ensures |r| == |s|
    ensures forall i | 0 <= i < |s| :: r[i] == (if NameChar(s[i]) then s[i] else '_')
  {
    seq(|s|, i requires 0 <= i < |s| => if NameChar(s[i]) then s[i] else '_')
  }

  /** `replace(/_+/g, '_')`: every run of underscores becomes one. */
  function CollapseUnderscores(s: string): (r: string)
    ensures |r| <= |s|
    ensures r == [] <==> s == []
    ensures r != [] ==> r[|r| - 1] == s[|s| - 1]
    ensures forall i | 0 <= i < |r| :: r[i] in s
    ensures NoDoubleUnderscore(r)
  {
    if s == [] then []
    else
      var p := CollapseUnderscores(s[..|s| - 1]);
      var c := s[|s| - 1];
      if c == '_' && p != [] && p[|p| - 1] == '_' then p else p + [c]
  }

  /** A string without a run of underscores is left as it is. */
  lemma {:induction false} CollapseKeepsClean(s: string)
    requires NoDoubleUnderscore(s)
    ensures CollapseUnderscores(s) == s
  {
    if s != [] {
      var init := s[..|s| - 1];
      assert NoDoubleUnderscore(init) by {
        forall i | 0 < i < |init| ensures init[i] == '_' ==> init[i - 1] != '_' {
          assert init[i] == s[i] && init[i - 1] == s[i - 1];
        }
      }
      CollapseKeepsClean(init);
      assert s == init + [s[|s| - 1]];
    }
  }

  /** `sanitizeName(name)`. */
  function SanitizeName(name: string): (r: string)
    ensures CleanName(r)
    ensures name == [] ==> r == DEFAULT_NAME
    ensures name != [] ==> |r| <= |name|
  {
    var c := CollapseUnderscores(ReplaceDisallowed(name));
    if c == [] then DEFAULT_NAME
    else
      assert forall i | 0 <= i < |c| :: NameChar(c[i]) by {
        forall i | 0 <= i < |c| ensures NameChar(c[i]) {
          var d := ReplaceDisallowed(name);
          var j :| 0 <= j < |d| && d[j] == c[i];
        }
      }
      c
  }

  /** The names the sanitiser leaves alone are exactly the clean ones. */
  lemma SanitizeFixedPoints(name: string)
    ensures SanitizeName(name) == name <==> CleanName(name)
  {
    if CleanName(name) {
      assert ReplaceDisallowed(name) == name;
      CollapseKeepsClean(name);
    }
  }

  /** Sanitising twice is sanitising once. */
  lemma SanitizeIdempotent(name: string)
    ensures SanitizeName(SanitizeName(name)) == SanitizeName(name)
  {
    SanitizeFixedPoints(SanitizeName(name));
  }

  /** A space becomes an underscore: "hello world" is saved as `hello_world`. */
  lemma SanitizeHelloWorld()
    ensures SanitizeName("hello world") == "hello_world"
  {
    var d := ReplaceDisallowed("hello world");
    assert d == "hello_world";
    assert NoDoubleUnderscore(d);
    CollapseKeepsClean(d);
  }

  // ---------------------------------------------------------------- paths

  function WorkflowsDir(cwd: string): string
  {
    Outputs.JoinPath(cwd, WORKFLOWS_DIR)
  }

  /** The file `saveWorkflow(name, …)` writes: `workflows/<sanitizeName(name)>.json`. */
  function SavePath(cwd: string, name: string): string
  {
    Outputs.JoinPath(WorkflowsDir(cwd), SanitizeName(name) + JSON_SUFFIX)
  }

  /** `/[\\/]/.test(nameOrPath)`. */
  predicate LooksLikePath(s: string)
  {
    '/' in s || '\\' in s
  }

  /** The file `loadWorkflow(nameOrPath)` reads. */
  function LoadPath(cwd: string, nameOrPath: string): (r: string)
    ensures LooksLikePath(nameOrPath) ==> r == nameOrPath
    ensures !LooksLikePath(nameOrPath) ==> r == SavePath(cwd, nameOrPath)
  {
    if LooksLikePath(nameOrPath) then nameOrPath
    else Outputs.JoinPath(WorkflowsDir(cwd), SanitizeName(nameOrPath) + JSON_SUFFIX)
  }

  /** A saved file sits directly in the workflows directory under a clean name ending in `.json`. */
  lemma SavePathShape(cwd: string, name: string)
    ensures var p := SavePath(cwd, name);
      p == WorkflowsDir(cwd) + "/" + SanitizeName(name) + JSON_SUFFIX &&
      Text.EndsWith(p, JSON_SUFFIX) && Text.StartsWith(p, WorkflowsDir(cwd) + "/") &&
      CleanName(SanitizeName(name)) && '/' !in SanitizeName(name)
  {
    var p := SavePath(cwd, name);
    var n := SanitizeName(name);
    assert p == (WorkflowsDir(cwd) + "/") + (n + JSON_SUFFIX);
    assert p[|p| - |JSON_SUFFIX|..] == JSON_SUFFIX;
  }

  lemma JoinHasSlash(dir: string, name: string)
    ensures '/' in Outputs.JoinPath(dir, name)
  {
    assert Outputs.JoinPath(dir, name)[|dir|] == '/';
  }

  /** The path `saveWorkflow` returns loads that same file, whatever the working directory then. */
  lemma LoadSavedPath(cwd: string, name: string, laterCwd: string)
    ensures LoadPath(laterCwd, SavePath(cwd, name)) == SavePath(cwd, name)
  {
    JoinHasSlash(WorkflowsDir(cwd), SanitizeName(name) + JSON_SUFFIX);
  }

  /** A sanitised name is never taken for a path and loads the file its original name saved. */
  lemma LoadSanitizedName(cwd: string, name: string)
    ensures !LooksLikePath(SanitizeName(name))
    ensures LoadPath(cwd, SanitizeName(name)) == SavePath(cwd, name)
  {
    var n := SanitizeName(name);
    CleanNotPath(n);
    SanitizeIdempotent(name);
    assert LoadPath(cwd, n) == SavePath(cwd, n);
  }

  /** A clean name has neither separator. */
  lemma CleanNotPath(s: string)
    requires CleanName(s)
    ensures !LooksLikePath(s)
  {
  }

  // ------------------------------------------------------- save and load

  /** The workflows directory: each path's parsed content, None where the content is not JSON. */
  type Files = map<string, Option<Json>>

  /**
   * `saveWorkflow(name, workflow)`: the path written and the files after the
   * write. `JSON.stringify` followed by `JSON.parse` gives the value back.
   */
  function SaveWorkflow(cwd: string, name: string, workflow: Json, files: Files): (r: (string, Files))
    ensures r.0 == SavePath(cwd, name)
    ensures r.1.Keys == files.Keys + {r.0}
    ensures r.1[r.0] == Some(workflow)
    ensures forall p | p in files && p != r.0 :: r.1[p] == files[p]
  {
    var path := SavePath(cwd, name);
    (path, files[path := Some(workflow)])
  }

  /** `typeof parsed !== 'object' || parsed === null`: arrays pass the check. */
  predicate ObjectLike(j: Json)
  {
    j.JObj? || j.JArr?
  }

  /** `loadWorkflow(nameOrPath)`: a missing file and unparsable content throw; a non-object is refused. */
  function LoadWorkflow(cwd: string, nameOrPath: string, files: Files): (r: Result<Json, string>)
    ensures r.Success? <==>
      var p := LoadPath(cwd, nameOrPath);
      p in files && files[p].Some? && ObjectLike(files[p].value)
    ensures r.Success? ==> Some(r.value) == files[LoadPath(cwd, nameOrPath)]
    ensures var p := LoadPath(cwd, nameOrPath);
      p in files && files[p].Some? && !ObjectLike(files[p].value) ==> r == Failure(NOT_AN_OBJECT)
  {
    var path := LoadPath(cwd, nameOrPath);
    if path !in files then Failure("ENOENT: no such file or directory, open '" + path + "'")
    else if files[path].None? then Failure(PARSE_ERROR)
    else if !ObjectLike(files[path].value) then Failure(NOT_AN_OBJECT)
    else Success(files[path].value)
  }

  /** Saving an object and loading it back by the same name gives the object. */
  lemma SaveThenLoadByName(cwd: string, name: string, workflow: Json, files: Files)
    requires workflow.JObj?
    requires !LooksLikePath(name)
    ensures LoadWorkflow(cwd, name, SaveWorkflow(cwd, name, workflow, files).1) == Success(workflow)
  {
  }

  /** Loading by the path `saveWorkflow` returned gives the object back too. */
  lemma SaveThenLoadByPath(cwd: string, name: string, workflow: Json, files: Files)
    requires workflow.JObj?
    ensures var (path, after) := SaveWorkflow(cwd, name, workflow, files);
      LoadWorkflow(cwd, path, after) == Success(workflow)
  {
    LoadSavedPath(cwd, name, cwd);
  }

  /** A name that was never saved (no such file) fails to load. */
  lemma LoadMissingFails(cwd: string, nameOrPath: string, files: Files)
    requires LoadPath(cwd, nameOrPath) !in files
    ensures LoadWorkflow(cwd, nameOrPath, files).Failure?
  {
  }

  // --------------------------------------------------------------- listing

  datatype SavedWorkflowEntry = SavedWorkflowEntry(name: string, path: string)

  /** `f.replace(/\.json$/, '')` on a name that ends in `.json`. */
  function StripJson(f: string): (r: string)
    requires Text.EndsWith(f, JSON_SUFFIX)
    ensures r + JSON_SUFFIX == f
  {
    f[..|f| - |JSON_SUFFIX|]
  }

  /** The entry pushed for the `.json` file `f` of `dir`. */
  function EntryFor(dir: string, f: string): SavedWorkflowEntry
    requires Text.EndsWith(f, JSON_SUFFIX)
  {
    SavedWorkflowEntry(StripJson(f), Outputs.JoinPath(dir, f))
  }

  /** The entries for the `.json` files among `files`, in directory order. */
  function Listed(dir: string, files: seq<string>): (r: seq<SavedWorkflowEntry>)
    ensures |r| <= |files|
  {
    if files == [] then []
    else
      var init := Listed(dir, files[..|files| - 1]);
      var f := files[|files| - 1];
      if Text.EndsWith(f, JSON_SUFFIX) then init + [EntryFor(dir, f)] else init
  }

  /** `e` is the entry for the `.json` file at position `i`. */
  predicate EntryAt(dir: string, files: seq<string>, i: int, e: SavedWorkflowEntry)
  {
    0 <= i < |files| && Text.EndsWith(files[i], JSON_SUFFIX) && e == EntryFor(dir, files[i])
  }

  /** Every listed entry stands for one of the `.json` files. */
  lemma {:induction false} ListedSound(dir: string, files: seq<string>, e: SavedWorkflowEntry) returns (i: int)
    requires e in Listed(dir, files)
    ensures EntryAt(dir, files, i, e)
  {
    var init := files[..|files| - 1];
    if e in Listed(dir, init) {
      i := ListedSound(dir, init, e);
      assert init[i] == files[i];
    } else {
      i := |files| - 1;
    }
  }

  /** Every `.json` file has its entry listed. */
  lemma {:induction false} ListedComplete(dir: string, files: seq<string>, i: int, e: SavedWorkflowEntry)
    requires EntryAt(dir, files, i, e)
    ensures e in Listed(dir, files)
  {
    var init := files[..|files| - 1];
    if i < |files| - 1 {
      assert init[i] == files[i];
      ListedComplete(dir, init, i, e);
    }
  }

  /** Every listed entry's path is its name plus `.json` in the directory. */
  lemma {:induction false} ListedPaths(dir: string, files: seq<string>)
    ensures forall e | e in Listed(dir, files) :: e.path == Outputs.JoinPath(dir, e.name + JSON_SUFFIX)
  {
    if files != [] {
      ListedPaths(dir, files[..|files| - 1]);
    }
  }

  predicate ByName(a: SavedWorkflowEntry, b: SavedWorkflowEntry)
  {
    Text.Lte(a.name, b.name)
  }

  predicate SortedByName(s: seq<SavedWorkflowEntry>)
  {
    forall i, j | 0 <= i < j < |s| :: ByName(s[i], s[j])
  }

  function InsertByName(x: SavedWorkflowEntry, s: seq<SavedWorkflowEntry>): (r: seq<SavedWorkflowEntry>)
    requires SortedByName(s)
    ensures SortedByName(r)
    ensures multiset(r) == multiset(s) + multiset{x}
  {
    if s == [] then [x]
    else if ByName(x, s[0]) then
      assert forall j | 0 < j < |s| :: ByName(x, s[j]) by {
        forall j | 0 < j < |s| ensures ByName(x, s[j]) { Text.LteTransitive(x.name, s[0].name, s[j].name); }
      }
      [x] + s
    else
      Text.LteTotal(x.name, s[0].name);
      var t := InsertByName(x, s[1..]);
      assert s == [s[0]] + s[1..];
      assert forall j | 0 <= j < |t| :: ByName(s[0], t[j]) by {
        forall j | 0 <= j < |t| ensures ByName(s[0], t[j]) {
          assert t[j] in multiset(t);
          assert t[j] == x || t[j] in s[1..];
        }
      }
      [s[0]] + t
  }

  /** `result.sort((a, b) => a.name.localeCompare(b.name))`, with the scalar-value order as the collation. */
  function SortByName(s: seq<SavedWorkflowEntry>): (r: seq<SavedWorkflowEntry>)
    ensures SortedByName(r)
    ensures multiset(r) == multiset(s)
  {
    if s == [] then []
    else
      assert s == [s[0]] + s[1..];
      InsertByName(s[0], SortByName(s[1..]))
  }

  /**
   * `listSavedWorkflows()`: `entries` is what `readdir` answered (None when
   * the directory is missing). The `.json` files, each named by its file
   * name without the suffix and located in the directory, sorted by name.
   */
  method ListSavedWorkflows(cwd: string, entries: Option<seq<string>>) returns (r: seq<SavedWorkflowEntry>)
    ensures entries.None? ==> r == []
    ensures entries.Some? ==> multiset(r) == multiset(Listed(WorkflowsDir(cwd), entries.value))
    ensures SortedByName(r)
  {
    var dir := WorkflowsDir(cwd);
    if entries.None? {
      return [];
    }
    var files := entries.value;
    var result: seq<SavedWorkflowEntry> := [];
    var i := 0;
    while i < |files|
      invariant i <= |files|
      invariant result == Listed(dir, files[..i])
    {
      var f := files[i];
      assert files[..i + 1][..i] == files[..i];
      if Text.EndsWith(f, JSON_SUFFIX) {
        result := result + [SavedWorkflowEntry(StripJson(f), Outputs.JoinPath(dir, f))];
      }
      i := i + 1;
    }
    assert files[..|files|] == files;
    return SortByName(result);
  }

  /** What the listing holds: an entry per `.json` file of the directory, and nothing else. */
  lemma ListingIff(cwd: string, files: seq<string>, r: seq<SavedWorkflowEntry>, e: SavedWorkflowEntry)
    requires multiset(r) == multiset(Listed(WorkflowsDir(cwd), files))
    ensures e in r <==> exists i :: EntryAt(WorkflowsDir(cwd), files, i, e)
  {
    var dir := WorkflowsDir(cwd);
    assert e in r <==> e in multiset(r);
    assert e in Listed(dir, files) <==> e in multiset(Listed(dir, files));
    if e in r {
      var i := ListedSound(dir, files, e);
    }
    if exists i :: EntryAt(dir, files, i, e) {
      var i :| EntryAt(dir, files, i, e);
      ListedComplete(dir, files, i, e);
    }
  }

  /** After saving under `name`, the listing holds the sanitised name with the path the save returned. */
  lemma ListedAfterSave(cwd: string, name: string, files: seq<string>, r: seq<SavedWorkflowEntry>)
    requires SanitizeName(name) + JSON_SUFFIX in files
    requires multiset(r) == multiset(Listed(WorkflowsDir(cwd), files))
    ensures SavedWorkflowEntry(SanitizeName(name), SavePath(cwd, name)) in r
  {
    var n := SanitizeName(name);
    var f := n + JSON_SUFFIX;
    var i :| 0 <= i < |files| && files[i] == f;
    assert Text.EndsWith(f, JSON_SUFFIX) by {
      assert f[|f| - |JSON_SUFFIX|..] == JSON_SUFFIX;
    }
    var e := EntryFor(WorkflowsDir(cwd), f);
    assert StripJson(f) == n by {
      assert StripJson(f) == f[..|n|];
      assert f[..|n|] == n;
    }
    assert EntryAt(WorkflowsDir(cwd), files, i, e);
    ListingIff(cwd, files, r, e);
  }
}
