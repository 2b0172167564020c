/**
 * The native renderer (`Render`): a single-owner object that queues view
 * files resolved under a root directory, collects the errors met on the way,
 * and renders the queued views into the layout of the chosen template, with
 * global and per-call variables in scope.
 */
module NativeRender {
  import opened Php
  import opened ViewPaths

  /** `$this->forceTemplate ?: $this->template`: a falsy forced template does not count. */
  function EffectiveTemplate(template: string, forceTemplate: string): (t: string)
    ensures !Falsy(forceTemplate) ==> t == forceTemplate
    ensures Falsy(forceTemplate) ==> t == template
  {
    if Falsy(forceTemplate) then template else forceTemplate
  }

  /** The layout file of the effective template. */
  function LayoutPath(directory: string, template: string, forceTemplate: string): (path: string)
    ensures !Falsy(forceTemplate) ==> path == directory + forceTemplate + "/layout/layout.php"
    ensures Falsy(forceTemplate) ==> path == directory + template + "/layout/layout.php"
  {
    directory + EffectiveTemplate(template, forceTemplate) + "/layout/layout." + DEFAULT_EXTENSION
  }

  /** What one queued view prints: nothing when it was not resolved. */
  function ViewOutput(view: ResolvedView, scope: Scope, exec: Exec): string
  {
    if Falsy(view.path) then "" else exec(view.path, scope, "")
  }

  /** The buffered output of a queue of views, in queue order. */
  function ViewsOutput(files: seq<ResolvedView>, scope: Scope, exec: Exec): string
  {
    if files == [] then ""
    else ViewsOutput(files[..|files| - 1], scope, exec) + ViewOutput(files[|files| - 1], scope, exec)
  }

  /** The resolved entries of a queue, in queue order. */
  function Resolved(files: seq<ResolvedView>): (r: seq<ResolvedView>)
    ensures |r| <= |files|
    ensures forall i :: 0 <= i < |r| ==> !Falsy(r[i].path) && r[i] in files
  {
    if files == [] then []
    else if Falsy(files[|files| - 1].path) then Resolved(files[..|files| - 1])
    else Resolved(files[..|files| - 1]) + [files[|files| - 1]]
  }

  /** Filtering two queues one after the other keeps the first queue's resolved entries, then the second's. */
  lemma {:induction false} ResolvedAppend(a: seq<ResolvedView>, b: seq<ResolvedView>)
    ensures Resolved(a + b) == Resolved(a) + Resolved(b)
    decreases |b|
  {
    if b == [] {
      assert a + b == a;
    } else {
      var b' := b[..|b| - 1];
      assert (a + b)[..|a + b| - 1] == a + b';
      ResolvedAppend(a, b');
    }
  }

  /** One entry is kept exactly when its path is truthy. */
  lemma ResolvedSingle(v: ResolvedView)
    ensures Resolved([v]) == if Falsy(v.path) then [] else [v]
  {
    assert [v][..0] == [];
  }

  /** Buffering two queues one after the other prints the first queue's output, then the second's. */
  lemma {:induction false} ViewsOutputAppend(a: seq<ResolvedView>, b: seq<ResolvedView>, scope: Scope, exec: Exec)
    ensures ViewsOutput(a + b, scope, exec) == ViewsOutput(a, scope, exec) + ViewsOutput(b, scope, exec)
    decreases |b|
  {
    if b == [] {
      assert a + b == a;
    } else {
      var b' := b[..|b| - 1];
      assert (a + b)[..|a + b| - 1] == a + b';
      ViewsOutputAppend(a, b', scope, exec);
    }
  }

  /** Unresolved entries are skipped: the output is that of the resolved entries alone. */
  lemma {:induction false} ViewsOutputSkipsUnresolved(files: seq<ResolvedView>, scope: Scope, exec: Exec)
    ensures ViewsOutput(files, scope, exec) == ViewsOutput(Resolved(files), scope, exec)
    decreases |files|
  {
    if files != [] {
      var init, last := files[..|files| - 1], files[|files| - 1];
      ViewsOutputSkipsUnresolved(init, scope, exec);
      ViewsOutputAppend(Resolved(init), [last], scope, exec);
      assert ViewsOutput([last], scope, exec) == ViewOutput(last, scope, exec) by {
        assert [last][..0] == [];
      }
    }
  }

  /** The `foreach` over the queue inside `render()`: requires each resolved view in turn under one buffer. */
  method BufferViews(files: seq<ResolvedView>, scope: Scope, exec: Exec) returns (out: string)
    ensures out == ViewsOutput(files, scope, exec)
  {
    out := "";
    for i := 0 to |files|
      invariant out == ViewsOutput(files[..i], scope, exec)
    {
      if !Falsy(files[i].path) {
        out := out + exec(files[i].path, scope, "");
      }
      assert files[..i + 1][..i] == files[..i];
    }
    assert files[..|files|] == files;
  }

  /**
   * What `render()` prints once no error is pending: the effective
   * template's layout, run with the buffered views; nothing without a layout.
   */
  function PageOutput(directory: string, fs: FileSystem, exec: Exec, files: seq<ResolvedView>,
                      template: string, forceTemplate: string, scope: Scope): string
  {
    var path := LayoutPath(directory, template, forceTemplate);
    if path in fs.files then exec(path, scope, ViewsOutput(files, scope, exec)) else ""
  }

  /** A non-empty forced template decides the layout, whatever the paths detected. */
  lemma ForcedTemplateDecides(directory: string, fs: FileSystem, exec: Exec, files: seq<ResolvedView>,
                              template1: string, template2: string, forceTemplate: string, scope: Scope)
    requires !Falsy(forceTemplate)
    ensures PageOutput(directory, fs, exec, files, template1, forceTemplate, scope)
         == PageOutput(directory, fs, exec, files, template2, forceTemplate, scope)
  {
  }

  lemma AppendAssoc<T>(a: seq<T>, b: seq<T>, c: seq<T>)
    ensures a + b + c == a + (b + c)
  {
  }

  class Render {
    /** The root directory, ending in exactly one slash. */
    const directory: string

    var template: string
    var forceTemplate: string

    var globals: Scope
    var datas: Scope
    var files: seq<ResolvedView>

    var views: string
    var layout: string

    var exceptions: seq<Error>

    /** Whether a debug closure is set, and every error it has been handed so far. */
    var observing: bool
    var notified: seq<Error>

    constructor (dir: string)
      ensures directory == SlashTerminated(dir)
      ensures template == "" && forceTemplate == ""
      ensures globals == map[] && datas == map[] && files == []
      ensures views == "" && layout == "" && exceptions == []
      ensures !observing && notified == []
    {
      directory := SlashTerminated(dir);
      template, forceTemplate := "", "";
      globals, datas, files := map[], map[], [];
      views, layout := "", "";
      exceptions := [];
      observing, notified := false, [];
    }

    /** `addException`: records `e` and hands it to the debug closure, if one is set. */
    method AddException(e: Error)
      modifies this`exceptions, this`notified
      ensures exceptions == old(exceptions) + [e]
      ensures notified == if observing then old(notified) + [e] else old(notified)
    {
      exceptions := exceptions + [e];
      if observing {
        notified := notified + [e];
      }
    }

    /** The errors recorded (and, under observation, notified) since the logs were `exceptions0` and `notified0`. */
    ghost predicate Logged(exceptions0: seq<Error>, notified0: seq<Error>, recorded: seq<Error>)
      reads this
    {
      && exceptions == exceptions0 + recorded
      && notified == notified0 + (if observing then recorded else [])
    }

    /**
     * `file()`'s `if (<step failed>) { addException(...) }`, seen as extending
     * the errors recorded so far in the call.
     */
    method AddExceptionIf(failed: bool, e: Error, ghost exceptions0: seq<Error>, ghost notified0: seq<Error>,
                          ghost recorded: seq<Error>)
      requires Logged(exceptions0, notified0, recorded)
      modifies this`exceptions, this`notified
      ensures Logged(exceptions0, notified0, recorded + Raised(failed, e))
    {
      if failed {
        AppendAssoc(exceptions0, recorded, [e]);
        AppendAssoc(notified0, recorded, [e]);
        AddException(e);
      } else {
        assert recorded + [] == recorded;
      }
    }

    /**
     * `file()`: resolves `raw`, records every failure met on the way, and
     * leaves the resolved template in `template`. Every failure it meets is
     * recorded, never thrown (with `realpath` taken as the identity).
     */
    method File(fs: FileSystem, raw: string) returns (v: ResolvedView)
      modifies this`template, this`exceptions, this`notified
      ensures var r := Resolve(directory, fs, raw);
        && v == r.view
        && template == r.view.template
        && exceptions == old(exceptions) + r.errors
        && notified == old(notified) + (if observing then r.errors else [])
    {
      var p := Normalise(raw);
      var accepted := AcceptedTemplate(directory, fs, p);
      var kept := KeptExtension(p);
      var target := Target(directory, p);
      var file := if target in fs.files then target else "";
      var extension := if kept.None? then DEFAULT_EXTENSION else Lower(kept.value);
      template := if accepted.None? then DEFAULT_TEMPLATE else accepted.value;
      v := ResolvedView(file, template, extension);
      ghost var r := ResolveClean(directory, fs, p);
      assert r.view == v;
      assert r.errors == Raised(Falsy(p), EmptyPath) + Raised(accepted.None?, TemplateMissing(p))
                       + Raised(target !in fs.files, ViewMissing(target));

      AddExceptionIf(Falsy(p), EmptyPath, old(exceptions), old(notified), []);
      assert [] + Raised(Falsy(p), EmptyPath) == Raised(Falsy(p), EmptyPath);
      AddExceptionIf(accepted.None?, TemplateMissing(p), old(exceptions), old(notified),
                     Raised(Falsy(p), EmptyPath));
      AddExceptionIf(target !in fs.files, ViewMissing(target), old(exceptions), old(notified),
                     Raised(Falsy(p), EmptyPath) + Raised(accepted.None?, TemplateMissing(p)));
    }

    /** `getViews`. */
    method GetViews() returns (v: string)
      ensures v == views
    {
      v := views;
    }

    /** `setGlobalDatas`: replaces the global variables. */
    method SetGlobalDatas(data: Scope)
      modifies this`globals
      ensures globals == data
    {
      globals := data;
    }

    /** `addGlobalDatas`: merges into the global variables, the given ones winning. */
    method AddGlobalDatas(data: Scope)
      modifies this`globals
      ensures globals == ArrayMerge(old(globals), data)
    {
      globals := ArrayMerge(globals, data);
    }

    /** `setDatas`: replaces the per-call variables. */
    method SetDatas(data: Scope)
      modifies this`datas
      ensures datas == data
    {
      datas := data;
    }

    /** `addDatas`: merges into the per-call variables, the given ones winning. */
    method AddDatas(data: Scope)
      modifies this`datas
      ensures datas == ArrayMerge(old(datas), data)
    {
      datas := ArrayMerge(datas, data);
    }

    /** `setPath`: the queue becomes the one view `raw` resolves to. */
    method SetPath(fs: FileSystem, raw: string)
      modifies this`files, this`template, this`exceptions, this`notified
      ensures var r := Resolve(directory, fs, raw);
        && files == [r.view]
        && template == r.view.template
        && exceptions == old(exceptions) + r.errors
        && notified == old(notified) + (if observing then r.errors else [])
    {
      var v := File(fs, raw);
      ghost var r := Resolve(directory, fs, raw);
      assert v == r.view;
      files := [v];
    }

    /** `addPath`: the view `raw` resolves to joins the end of the queue. */
    method AddPath(fs: FileSystem, raw: string)
      modifies this`files, this`template, this`exceptions, this`notified
      ensures var r := Resolve(directory, fs, raw);
        && files == old(files) + [r.view]
        && template == r.view.template
        && exceptions == old(exceptions) + r.errors
        && notified == old(notified) + (if observing then r.errors else [])
    {
      var v := File(fs, raw);
      ghost var r := Resolve(directory, fs, raw);
      assert v == r.view;
      files := files + [v];
    }

    /** `getExceptions`. */
    method GetExceptions() returns (es: seq<Error>)
      ensures es == exceptions
    {
      es := exceptions;
    }

    /** `debug`: sets (`true`) or removes (`false`) the debug closure. */
    method Debug(observe: bool)
      modifies this`observing
      ensures observing == observe
    {
      observing := observe;
    }

    /** `forceTemplate`: overrides the detected template, slashes trimmed. */
    method ForceTemplate(t: string)
      modifies this`forceTemplate
      ensures forceTemplate == Trim(t, '/')
    {
      forceTemplate := Trim(t, '/');
    }

    /**
     * `reset`: always empties the errors, the queue, the template, the views
     * and the forced template; clears the per-call and global variables only
     * on request.
     */
    method Reset(clearDatas: bool, clearGlobals: bool)
      modifies this`datas, this`globals, this`exceptions, this`files, this`template, this`views, this`forceTemplate
      ensures datas == if clearDatas then map[] else old(datas)
      ensures globals == if clearGlobals then map[] else old(globals)
      ensures exceptions == [] && files == [] && template == "" && views == "" && forceTemplate == ""
    {
      if clearDatas {
        datas := map[];
      }
      if clearGlobals {
        globals := map[];
      }
      exceptions := [];
      files := [];
      template := "";
      views := "";
      forceTemplate := "";
    }

    /**
     * `render`: with errors pending, prints nothing and keeps the whole
     * configuration. Otherwise buffers the queued views under the merged
     * variables, prints the effective template's layout with those views
     * (recording an error when it is missing), and resets, keeping only the
     * global variables; the layout's output stays in `layout`.
     */
    method Render(fs: FileSystem, exec: Exec) returns (out: string)
      modifies this
      ensures observing == old(observing)
      ensures old(exceptions) != [] ==>
        && out == "" && views == "" && layout == ""
        && files == old(files) && datas == old(datas) && globals == old(globals)
        && exceptions == old(exceptions) && notified == old(notified)
        && template == old(template) && forceTemplate == old(forceTemplate)
      ensures old(exceptions) == [] ==>
        var path := LayoutPath(directory, old(template), old(forceTemplate));
        && out == PageOutput(directory, fs, exec, old(files), old(template), old(forceTemplate), ArrayMerge(old(globals), old(datas)))
        && layout == out
        && notified == old(notified) + (if observing && path !in fs.files then [LayoutMissing(path)] else [])
        && datas == map[] && globals == old(globals)
        && exceptions == [] && files == [] && template == "" && views == "" && forceTemplate == ""
    {
      layout := "";
      views := "";

      if exceptions != [] {
        return "";
      }

      var scope := ArrayMerge(globals, datas);
      if files != [] {
        views := BufferViews(files, scope, exec);
      }

      var path := LayoutPath(directory, template, forceTemplate);
      if path in fs.files {
        layout := exec(path, scope, views);
      } else {
        AddException(LayoutMissing(path));
        layout := "";
      }

      Reset(true, false);
      out := layout;
    }

    /**
     * `view`: resolves `raw` on its own (the queue is left alone, but the
     * template and the errors are updated as by `file()`) and prints that one
     * view under the global variables merged with `data`; nothing if it was
     * not resolved.
     */
    method View(fs: FileSystem, exec: Exec, raw: string, data: Scope) returns (out: string)
      modifies this`template, this`exceptions, this`notified
      ensures var r := Resolve(directory, fs, raw);
        && out == (if Falsy(r.view.path) then "" else exec(r.view.path, ArrayMerge(globals, data), views))
        && template == r.view.template
        && exceptions == old(exceptions) + r.errors
        && notified == old(notified) + (if observing then r.errors else [])
    {
      var v := File(fs, raw);
      if Falsy(v.path) {
        return "";
      }
      out := exec(v.path, ArrayMerge(globals, data), views);
    }
  }

  /** A path that resolves without error is required when its queue is buffered. */
  lemma CleanViewOutput(directory: string, fs: FileSystem, raw: string, scope: Scope, exec: Exec)
    requires Resolve(directory, fs, raw).errors == []
    ensures var view := Resolve(directory, fs, raw).view;
      ViewsOutput([view], scope, exec) == exec(view.path, scope, "")
  {
    var p, view := Normalise(raw), Resolve(directory, fs, raw).view;
    ErrorFreeIff(directory, fs, p);
    ViewFileResolution(directory, fs, p);
    TargetTruthy(directory, p);
    assert [view][..0] == [];
  }

  /**
   * One path that resolves without error, queued alone and not overridden:
   * its template's layout runs with that view's output as `views`, both under
   * the same variables.
   */
  lemma OnePageOutput(directory: string, fs: FileSystem, exec: Exec, raw: string, scope: Scope)
    requires Resolve(directory, fs, raw).errors == []
    ensures var view := Resolve(directory, fs, raw).view;
      var path := directory + view.template + "/layout/layout.php";
      PageOutput(directory, fs, exec, [view], view.template, "", scope)
        == if path in fs.files then exec(path, scope, exec(view.path, scope, "")) else ""
  {
    var view := Resolve(directory, fs, raw).view;
    CleanViewOutput(directory, fs, raw, scope, exec);
    assert LayoutPath(directory, view.template, "") == directory + view.template + "/layout/layout.php";
  }

  // ---------------------------------------------------------------------------
  // Whole render cycles of a fresh renderer on one path.

  /**
   * A path that does not resolve cleanly: `render()` prints nothing, and
   * the queue and the errors survive it.
   */
  method RenderUnresolvedPage(fs: FileSystem, exec: Exec, dir: string, raw: string)
    returns (out: string, queued: seq<ResolvedView>, left: seq<Error>)
    requires Resolve(SlashTerminated(dir), fs, raw).errors != []
    ensures var r := Resolve(SlashTerminated(dir), fs, raw);
      out == "" && queued == [r.view] && left == r.errors
  {
    var r := new Render(dir);
    r.SetPath(fs, raw);
    out := r.Render(fs, exec);
    queued := r.files;
    left := r.GetExceptions();
  }

  /**
   * A page without a layout: `render()` prints nothing, the observer is
   * handed the missing layout, and the final reset wipes it from the errors.
   */
  method RenderWithoutLayout(fs: FileSystem, exec: Exec, dir: string, raw: string)
    returns (out: string, left: seq<Error>, seen: seq<Error>)
    requires Resolve(SlashTerminated(dir), fs, raw).errors == []
    requires LayoutPath(SlashTerminated(dir), Resolve(SlashTerminated(dir), fs, raw).view.template, "") !in fs.files
    ensures out == "" && left == []
    ensures seen == [LayoutMissing(LayoutPath(SlashTerminated(dir), Resolve(SlashTerminated(dir), fs, raw).view.template, ""))]
  {
    var r := new Render(dir);
    r.Debug(true);
    ghost var path := LayoutPath(r.directory, Resolve(r.directory, fs, raw).view.template, r.forceTemplate);
    r.SetPath(fs, raw);
    assert LayoutPath(r.directory, r.template, r.forceTemplate) == path;
    out := r.Render(fs, exec);
    left := r.GetExceptions();
    seen := r.notified;
  }
}
