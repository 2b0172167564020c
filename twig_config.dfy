/**
 * `RenderTwig` (dist/RenderTwig.php): the configuration a Twig render is
 * built from. Every setter updates one field in place: an ordered list of
 * template directories, the view name with its automatic extension, two
 * variable scopes, three name-keyed registration tables, three append-only
 * lists and the environment options.
 */
module TwigConfig {
  import opened Php

  /** `RenderTwig::DEFAULT_EXTENSION`. */
  const DEFAULT_EXTENSION: string := ".html.twig"

  /** The environment options a new configuration starts with. */
  const DEFAULT_OPTIONS: Scope := map[
    "debug" := Bool(false),
    "charset" := Str("utf-8"),
    "cache" := Bool(false),
    "strict_variables" := Bool(false),
    "autoescape" := Bool(false)]

  /** A `Twig_Filter`, `Twig_Function` or `Twig_Test`: the name, the callable and the options it was built with. */
  datatype Registration = Registration(name: string, callable: Value, options: Scope)

  // ---------------------------------------------------------------------------
  // The values the setters store.

  /** What `addDirectory` stores for each directory, in order: the text up to its trailing separators, then one separator. */
  function DirectoryEntries(ds: seq<string>): (r: seq<string>)
    ensures |r| == |ds|
    ensures forall i :: 0 <= i < |ds| ==> r[i] == SlashTerminated(ds[i])
  {
    if ds == [] then [] else DirectoryEntries(ds[..|ds| - 1]) + [SlashTerminated(ds[|ds| - 1])]
  }

  /** Normalising directories that are already normalised changes nothing. */
  lemma DirectoryEntriesIdempotent(ds: seq<string>)
    ensures DirectoryEntries(DirectoryEntries(ds)) == DirectoryEntries(ds)
  {
    var once := DirectoryEntries(ds);
    forall i | 0 <= i < |ds|
      ensures DirectoryEntries(once)[i] == once[i]
    {
      SlashTerminatedIdempotent(ds[i]);
    }
  }

  /**
   * `setPath`'s automatic extension: `view . ext` when `ext` is truthy and
   * `strpos(view, ext)` is `false` or `0`, otherwise `view` as given.
   */
  function AutoExtend(view: string, ext: string): (r: string)
    ensures r == if !Falsy(ext) && (OccursAt(view, ext, 0) || forall j :: 1 <= j ==> !OccursAt(view, ext, j))
                 then view + ext else view
  {
    var at := StrPos(view, ext);
    if !Falsy(ext) && (at.None? || at.value == 0) then view + ext else view
  }

  /**
   * Setting the stored view again leaves it alone, unless the extension is
   * where the stored view starts (then `strpos` answers `0` and the extension
   * is appended once more).
   */
  lemma AutoExtendStable(view: string, ext: string)
    requires !OccursAt(view + ext, ext, 0)
    ensures AutoExtend(AutoExtend(view, ext), ext) == AutoExtend(view, ext)
  {
    var r := AutoExtend(view, ext);
    if r != view {
      assert view != [];
      assert OccursAt(r, ext, |view|) by { assert r[|view|..|view| + |ext|] == ext; }
    }
  }

  /** A view that is exactly the extension gets it appended on every `setPath`. */
  lemma AutoExtendRepeats(ext: string)
    requires !Falsy(ext)
    ensures AutoExtend(ext, ext) == ext + ext
    ensures AutoExtend(ext + ext, ext) == ext + ext + ext
  {
    assert OccursAt(ext, ext, 0) by { assert ext[0..|ext|] == ext; }
    assert OccursAt(ext + ext, ext, 0) by { assert (ext + ext)[0..|ext|] == ext; }
  }

  /**
   * `foreach ($datas as $name => $global) { $m[$name] = $global; }`: the
   * assignments of `entries` made to `m` one after the other.
   */
  function Overlay(m: Scope, entries: seq<(string, Value)>): (r: Scope)
    ensures m.Keys <= r.Keys
  {
    if entries == [] then m
    else
      var last := entries[|entries| - 1];
      Overlay(m, entries[..|entries| - 1])[last.0 := last.1]
  }

  /** A key the entries do not name keeps its value. */
  lemma {:induction false} OverlayUntouched(m: Scope, entries: seq<(string, Value)>, k: string)
    requires forall i :: 0 <= i < |entries| ==> entries[i].0 != k
    ensures k in Overlay(m, entries) <==> k in m
    ensures k in m ==> Overlay(m, entries)[k] == m[k]
  {
    if entries != [] {
      var before := entries[..|entries| - 1];
      assert forall i :: 0 <= i < |before| ==> before[i] == entries[i];
      OverlayUntouched(m, before, k);
    }
  }

  /** A key the entries name holds the value of its last occurrence. */
  lemma {:induction false} OverlayLastWins(m: Scope, entries: seq<(string, Value)>, i: nat)
    requires i < |entries|
    requires forall j :: i < j < |entries| ==> entries[j].0 != entries[i].0
    ensures entries[i].0 in Overlay(m, entries)
    ensures Overlay(m, entries)[entries[i].0] == entries[i].1
  {
    if i < |entries| - 1 {
      var before := entries[..|entries| - 1];
      assert forall j :: 0 <= j < |before| ==> before[j] == entries[j];
      OverlayLastWins(m, before, i);
    }
  }

  /**
   * Assigning the entries one by one is `array_merge` of the scope with the
   * array the entries make on their own.
   */
  lemma {:induction false} OverlayIsMerge(m: Scope, entries: seq<(string, Value)>)
    ensures Overlay(m, entries) == ArrayMerge(m, Overlay(map[], entries))
  {
    if entries != [] {
      var last := entries[|entries| - 1];
      var before := entries[..|entries| - 1];
      OverlayIsMerge(m, before);
      assert Overlay(m, entries) == (m + Overlay(map[], before))[last.0 := last.1];
      assert Overlay(map[], entries) == Overlay(map[], before)[last.0 := last.1];
    }
  }

  // ---------------------------------------------------------------------------
  // The configuration object.

  class RenderTwig {
    /** The root path given to the constructor (PHP `null` when none was). */
    var root: Option<string>
    var directories: seq<string>
    var extension: string
    var view: string
    var globals: Scope
    var datas: Scope
    var filters: map<string, Registration>
    var functions: map<string, Registration>
    var tests: map<string, Registration>
    var tokenParsers: seq<Value>
    var nodeVisitors: seq<Value>
    var extensions: seq<Value>
    var options: Scope

    /** `__construct`: every field at its declared default, and the given root. */
    constructor(root: Option<string>)
      ensures this.root == root
      ensures directories == [] && extension == DEFAULT_EXTENSION && view == ""
      ensures globals == map[] && datas == map[]
      ensures filters == map[] && functions == map[] && tests == map[]
      ensures tokenParsers == [] && nodeVisitors == [] && extensions == []
      ensures options == DEFAULT_OPTIONS
    {
      this.root := root;
      directories := [];
      extension := DEFAULT_EXTENSION;
      view := "";
      globals, datas := map[], map[];
      filters, functions, tests := map[], map[], map[];
      tokenParsers, nodeVisitors, extensions := [], [], [];
      options := DEFAULT_OPTIONS;
    }

    /** `addDirectory`: one normalised entry joins the end of the list. */
    method AddDirectory(directory: string)
      modifies this`directories
      ensures directories == old(directories) + [SlashTerminated(directory)]
    {
      directories := directories + [SlashTerminated(directory)];
    }

    /** `addDirectories`: `addDirectory` for each one, in order. */
    method AddDirectories(ds: seq<string>)
      modifies this`directories
      ensures directories == old(directories) + DirectoryEntries(ds)
    {
      for i := 0 to |ds|
        invariant directories == old(directories) + DirectoryEntries(ds[..i])
      {
        AddDirectory(ds[i]);
        assert ds[..i + 1][..i] == ds[..i];
      }
      assert ds[..|ds|] == ds;
    }

    /** `clearsDirectories`. */
    method ClearsDirectories()
      modifies this`directories
      ensures directories == []
    {
      directories := [];
    }

    /** `setDirectory`: the list becomes the one normalised directory. */
    method SetDirectory(directory: string)
      modifies this`directories
      ensures directories == [SlashTerminated(directory)]
    {
      ClearsDirectories();
      AddDirectory(directory);
    }

    /** `setDirectories`: the list becomes the given directories, normalised, in order. */
    method SetDirectories(ds: seq<string>)
      modifies this`directories
      ensures directories == DirectoryEntries(ds)
    {
      ClearsDirectories();
      AddDirectories(ds);
    }

    /** `addFilter`: registers under `name`, replacing an earlier filter of that name. */
    method AddFilter(name: string, callable: Value, opts: Scope)
      modifies this`filters
      ensures filters == old(filters)[name := Registration(name, callable, opts)]
    {
      filters := filters[name := Registration(name, callable, opts)];
    }

    /** `addFunction`: registers under `name`, replacing an earlier function of that name. */
    method AddFunction(name: string, callable: Value, opts: Scope)
      modifies this`functions
      ensures functions == old(functions)[name := Registration(name, callable, opts)]
    {
      functions := functions[name := Registration(name, callable, opts)];
    }

    /** `addTest`: registers under `name`, replacing an earlier test of that name. */
    method AddTest(name: string, callable: Value, opts: Scope)
      modifies this`tests
      ensures tests == old(tests)[name := Registration(name, callable, opts)]
    {
      tests := tests[name := Registration(name, callable, opts)];
    }

    /** `addTokenParser`: appends, duplicates kept. */
    method AddTokenParser(parser: Value)
      modifies this`tokenParsers
      ensures tokenParsers == old(tokenParsers) + [parser]
    {
      tokenParsers := tokenParsers + [parser];
    }

    /** `addNodeVisitor`: appends, duplicates kept. */
    method AddNodeVisitor(visitor: Value)
      modifies this`nodeVisitors
      ensures nodeVisitors == old(nodeVisitors) + [visitor]
    {
      nodeVisitors := nodeVisitors + [visitor];
    }

    /** `addExtension`: appends, duplicates kept. */
    method AddExtension(ext: Value)
      modifies this`extensions
      ensures extensions == old(extensions) + [ext]
    {
      extensions := extensions + [ext];
    }

    /** `addGlobals`: assigns each entry of the array in turn. */
    method AddGlobals(entries: seq<(string, Value)>)
      modifies this`globals
      ensures globals == Overlay(old(globals), entries)
    {
      for i := 0 to |entries|
        invariant globals == Overlay(old(globals), entries[..i])
      {
        globals := globals[entries[i].0 := entries[i].1];
        assert entries[..i + 1][..i] == entries[..i];
      }
      assert entries[..|entries|] == entries;
    }

    /** `setDatas`: replaces the render variables wholesale. */
    method SetDatas(data: Scope)
      modifies this`datas
      ensures datas == data
    {
      datas := data;
    }

    /** `setFileExtension`. */
    method SetFileExtension(ext: string)
      modifies this`extension
      ensures extension == ext
    {
      extension := ext;
    }

    /** `setPath`: stores the view, with the configured extension appended when `strpos` allows. */
    method SetPath(v: string)
      modifies this`view
      ensures view == AutoExtend(v, extension)
    {
      var named := v;
      var at := StrPos(named, extension);
      if !Falsy(extension) && (at.None? || at.value == 0) {
        named := named + extension;
      }
      view := named;
    }

    /** `setOptions`: replaces the whole option map. */
    method SetOptions(opts: Scope)
      modifies this`options
      ensures options == opts
    {
      options := opts;
    }

    /** `setDebug`: the `debug` option, the others untouched. */
    method SetDebug(state: bool)
      modifies this`options
      ensures options == old(options)["debug" := Bool(state)]
    {
      options := options["debug" := Bool(state)];
    }

    /** `setStrictVariables`: the `strict_variables` option, the others untouched. */
    method SetStrictVariables(state: bool)
      modifies this`options
      ensures options == old(options)["strict_variables" := Bool(state)]
    {
      options := options["strict_variables" := Bool(state)];
    }

    /** `setAutoescape`: the `autoescape` option, the others untouched. */
    method SetAutoescape(state: bool)
      modifies this`options
      ensures options == old(options)["autoescape" := Bool(state)]
    {
      options := options["autoescape" := Bool(state)];
    }

    /** `setCharset`: the charset option, the others untouched. */
    method SetCharset(charset: string)
      modifies this`options
      ensures options == old(options)["charset" := Str(charset)]
    {
      options := options["charset" := Str(charset)];
    }
  }
}
