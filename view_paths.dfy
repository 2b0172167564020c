/**
 * The pure part of `Render::file()`: how a caller's view path is cleaned,
 * which template folder it names, which extension it carries, which file it
 * targets, and which errors resolving it records. The method that records
 * those errors on a renderer is `NativeRender.Render.File`.
 */
module ViewPaths {
  import opened Php

  const DEFAULT_EXTENSION := "php"
  const DEFAULT_TEMPLATE := "default"

  /** The failures the renderer records (the source records `Exception` objects carrying these texts). */
  datatype Error =
    | EmptyPath                           // "Empty given path"
    | TemplateMissing(path: string)       // "Template directory does not exist : <path>"
    | ViewMissing(target: string)         // "View file does not exist : <target>"
    | LayoutMissing(layoutPath: string)   // "Layout file does not exist : <layoutPath>"

  /** The array `file()` returns: `path` is "" when no view file was found. */
  datatype ResolvedView = ResolvedView(path: string, template: string, extension: string)

  /** What resolving one path yields: the view, and the errors it records, in order. */
  datatype Resolution = Resolution(view: ResolvedView, errors: seq<Error>)

  /** The character class `[a-z0-9_-]` under the `i` flag. */
  predicate IsNameChar(c: char) {
    'a' <= c <= 'z' || 'A' <= c <= 'Z' || '0' <= c <= '9' || c == '_' || c == '-'
  }

  /** The character class `[a-z0-9]` under the `i` flag. */
  predicate IsAlnum(c: char) {
    'a' <= c <= 'z' || 'A' <= c <= 'Z' || '0' <= c <= '9'
  }

  /** Step one of `file()`: delete the spaces, then trim slashes at both ends. */
  function Normalise(raw: string): (p: string)
    ensures ' ' !in p
    ensures p == [] || (p[0] != '/' && p[|p| - 1] != '/')
  {
    Trim(StripSpaces(raw), '/')
  }

  /** The longest prefix of `s` made of name characters. */
  function LeadingName(s: string): (r: string)
    ensures |r| <= |s| && r == s[..|r|]
    ensures forall i :: 0 <= i < |r| ==> IsNameChar(r[i])
    ensures |r| == |s| || !IsNameChar(s[|r|])
  {
    if s != [] && IsNameChar(s[0]) then [s[0]] + LeadingName(s[1..]) else []
  }

  /** A prefix of name characters that stops at a non-name character is the longest one. */
  lemma {:induction false} LeadingNameUnique(s: string, n: string)
    requires |n| < |s| && s[..|n|] == n && !IsNameChar(s[|n|])
    requires forall i :: 0 <= i < |n| ==> IsNameChar(n[i])
    ensures LeadingName(s) == n
  {
    var r := LeadingName(s);
    if |r| < |n| {
      assert false;
    } else if |r| > |n| {
      assert false;
    }
  }

  /**
   * The `template` group of `^(?P<template>[a-z0-9_-]*)/.*` (flag `i`): the
   * run of name characters at the start, provided a `/` follows it.
   */
  function DetectTemplate(p: string): (t: Option<string>)
  {
    var n := LeadingName(p);
    if |n| < |p| && p[|n|] == '/' then Some(n) else None
  }

  /** The longest suffix of `s` made of alphanumeric characters. */
  function TrailingAlnum(s: string): (r: string)
    ensures |r| <= |s| && r == s[|s| - |r|..]
    ensures forall i :: 0 <= i < |r| ==> IsAlnum(r[i])
    ensures |r| == |s| || !IsAlnum(s[|s| - |r| - 1])
  {
    if s != [] && IsAlnum(s[|s| - 1]) then TrailingAlnum(s[..|s| - 1]) + [s[|s| - 1]] else []
  }

  /** A suffix of alphanumerics that starts after a non-alphanumeric character is the longest one. */
  lemma {:induction false} TrailingAlnumUnique(s: string, e: string)
    requires |e| < |s| && s[|s| - |e|..] == e && !IsAlnum(s[|s| - |e| - 1])
    requires forall i :: 0 <= i < |e| ==> IsAlnum(e[i])
    ensures TrailingAlnum(s) == e
  {
    var r := TrailingAlnum(s);
    if |r| < |e| {
      assert false;
    } else if |r| > |e| {
      assert false;
    }
  }

  /**
   * The text that `$` may close on: PCRE without the `D` flag lets `$` match
   * at the very end or just before one final newline.
   */
  function ExtensionSubject(p: string): (q: string)
  {
    if p != [] && p[|p| - 1] == '\n' then p[..|p| - 1] else p
  }

  /** The `extension` group of `\.(?P<extension>[a-z0-9]+)$` (flag `i`). */
  function DetectExtension(p: string): (e: Option<string>)
  {
    var q := ExtensionSubject(p);
    var e := TrailingAlnum(q);
    if 0 < |e| < |q| && q[|q| - |e| - 1] == '.' then Some(e) else None
  }

  /** The template `file()` accepts: captured, not `empty()`, and an existing directory. */
  function AcceptedTemplate(directory: string, fs: FileSystem, p: string): Option<string>
  {
    match DetectTemplate(p)
    case Some(t) => if !Falsy(t) && directory + t in fs.dirs then Some(t) else None
    case None => None
  }

  /** The extension `file()` keeps: captured and not `empty()`. */
  function KeptExtension(p: string): Option<string>
  {
    match DetectExtension(p)
    case Some(e) => if !Falsy(e) then Some(e) else None
    case None => None
  }

  /** `$addExt`: the default extension, dotted, when no extension was kept. */
  function AddedExtension(p: string): string
  {
    if KeptExtension(p).None? then "." + DEFAULT_EXTENSION else ""
  }

  /** `$target`: the file `file()` looks for. */
  function Target(directory: string, p: string): string
  {
    directory + p + AddedExtension(p)
  }

  /** Everything `file()` computes for `raw` under root `directory`, and the errors it records, in order. */
  function Resolve(directory: string, fs: FileSystem, raw: string): Resolution
  {
    ResolveClean(directory, fs, Normalise(raw))
  }

  /** Resolution of the cleaned path `p`: every step of `file()` after the cleaning. */
  function ResolveClean(directory: string, fs: FileSystem, p: string): Resolution
  {
    var template := AcceptedTemplate(directory, fs, p);
    var extension := KeptExtension(p);
    var target := Target(directory, p);
    var found := target in fs.files;
    Resolution(
      ResolvedView(
        if found then target else "",
        if template.Some? then template.value else DEFAULT_TEMPLATE,
        if extension.Some? then Lower(extension.value) else DEFAULT_EXTENSION),
      Raised(Falsy(p), EmptyPath)
      + Raised(template.None?, TemplateMissing(p))
      + Raised(!found, ViewMissing(target)))
  }

  /** What one checking step of `file()` records: its error when it failed, nothing otherwise. */
  function Raised(failed: bool, e: Error): seq<Error> {
    if failed then [e] else []
  }

  // ---------------------------------------------------------------------------
  // Properties of resolution, stated on the characters of the cleaned path.

  /** `t` is a usable template name that the cleaned path `p` starts with, followed by `/`. */
  ghost predicate NamesTemplate(directory: string, fs: FileSystem, p: string, t: string) {
    && 0 < |t| < |p| && p[..|t|] == t && p[|t|] == '/'
    && (forall i :: 0 <= i < |t| ==> IsNameChar(t[i]))
    && t != "0"
    && directory + t in fs.dirs
  }

  /** A path that names an existing template folder resolves to that template, with no template error. */
  lemma TemplateAccepted(directory: string, fs: FileSystem, p: string, t: string)
    requires NamesTemplate(directory, fs, p, t)
    ensures ResolveClean(directory, fs, p).view.template == t
    ensures TemplateMissing(p) !in ResolveClean(directory, fs, p).errors
  {
    NamedTemplateAccepted(directory, fs, p, t);
  }

  /** When no template error is recorded, the template is a folder the cleaned path names. */
  lemma TemplateFound(directory: string, fs: FileSystem, p: string)
    ensures var r := ResolveClean(directory, fs, p);
      TemplateMissing(p) !in r.errors ==> NamesTemplate(directory, fs, p, r.view.template)
  {
    if AcceptedTemplate(directory, fs, p).Some? {
      var t := AcceptedTemplate(directory, fs, p).value;
      assert DetectTemplate(p) == Some(t);
    }
  }

  /** Otherwise exactly one template error is recorded and the default template stands in. */
  lemma TemplateFallback(directory: string, fs: FileSystem, p: string)
    ensures var r := ResolveClean(directory, fs, p);
      TemplateMissing(p) in r.errors ==>
        r.view.template == DEFAULT_TEMPLATE && multiset(r.errors)[TemplateMissing(p)] == 1
  {
  }

  /** A path with no `/` left after cleaning always falls back to the default template. */
  lemma NoSlashFallsBack(directory: string, fs: FileSystem, p: string)
    requires '/' !in p
    ensures ResolveClean(directory, fs, p).view.template == DEFAULT_TEMPLATE
    ensures TemplateMissing(p) in ResolveClean(directory, fs, p).errors
  {
  }

  /** `q` ends with a dot at index `k` followed only by alphanumerics, other than the single digit `0`. */
  ghost predicate ExtensionAt(q: string, k: nat) {
    && k + 1 < |q| && q[k] == '.'
    && (forall i :: k < i < |q| ==> IsAlnum(q[i]))
    && q[k + 1..] != "0"
  }

  /** The extension found at a final dot is the one `file()` keeps. */
  lemma ExtensionAtKept(p: string, k: nat)
    requires ExtensionAt(ExtensionSubject(p), k)
    ensures KeptExtension(p) == Some(ExtensionSubject(p)[k + 1..])
  {
    var q := ExtensionSubject(p);
    var e := q[k + 1..];
    assert q[|q| - |e| - 1] == '.';
    TrailingAlnumUnique(q, e);
    assert DetectExtension(p) == Some(e);
  }

  /** Whatever extension `file()` keeps sits after a final dot. */
  lemma KeptExtensionIsAt(p: string)
    ensures var q := ExtensionSubject(p);
      KeptExtension(p).Some? ==> ExtensionAt(q, |q| - |KeptExtension(p).value| - 1)
  {
    var q := ExtensionSubject(p);
    var e := TrailingAlnum(q);
    assert q[|q| - |e|..] == e;
  }

  /** With no final dot-and-extension, `file()` keeps no extension. */
  lemma NoExtensionAtKeepsNone(p: string)
    requires forall k :: !ExtensionAt(ExtensionSubject(p), k)
    ensures KeptExtension(p).None?
  {
    KeptExtensionIsAt(p);
  }

  /**
   * A path that ends in a dot and an extension keeps that extension,
   * lower-cased, and its target is the path itself.
   */
  lemma ExtensionFound(directory: string, fs: FileSystem, p: string, k: nat)
    requires ExtensionAt(ExtensionSubject(p), k)
    ensures Target(directory, p) == directory + p
    ensures ResolveClean(directory, fs, p).view.extension == Lower(ExtensionSubject(p)[k + 1..])
  {
    ExtensionAtKept(p, k);
  }

  /** Any other path gets extension `php`, and `.php` is appended to its target. */
  lemma ExtensionDefaulted(directory: string, fs: FileSystem, p: string)
    requires forall k :: !ExtensionAt(ExtensionSubject(p), k)
    ensures Target(directory, p) == directory + p + ".php"
    ensures ResolveClean(directory, fs, p).view.extension == DEFAULT_EXTENSION
  {
    NoExtensionAtKeepsNone(p);
  }

  /** The view's `path` is empty exactly when its target is not an existing file, which records one error. */
  lemma ViewFileResolution(directory: string, fs: FileSystem, p: string)
    ensures var r := ResolveClean(directory, fs, p);
      var target := Target(directory, p);
      && (r.view.path == "" <==> target !in fs.files)
      && (r.view.path != "" ==> r.view.path == target)
      && (ViewMissing(target) in r.errors <==> target !in fs.files)
  {
  }

  /**
   * A target is never falsy: without a kept extension it ends in ".php", and
   * a kept extension needs a dot and a character after it. So the queue entry
   * of a found file is always required.
   */
  lemma TargetTruthy(directory: string, p: string)
    ensures !Falsy(Target(directory, p))
  {
    KeptExtensionIsAt(p);
    if KeptExtension(p).Some? {
      assert |ExtensionSubject(p)| <= |p|;
    }
  }

  /** Resolution records one error per failed step, and only those: at most three. */
  lemma ErrorCount(directory: string, fs: FileSystem, p: string)
    ensures var r := ResolveClean(directory, fs, p);
      |r.errors| == (if Falsy(p) then 1 else 0)
                    + (if AcceptedTemplate(directory, fs, p).None? then 1 else 0)
                    + (if Target(directory, p) in fs.files then 0 else 1)
  {
  }

  /** A resolution is error-free exactly when the path is truthy, its template accepted and its file found. */
  lemma ErrorFreeIff(directory: string, fs: FileSystem, p: string)
    ensures var r := ResolveClean(directory, fs, p);
      r.errors == [] <==> !Falsy(p) && AcceptedTemplate(directory, fs, p).Some? && r.view.path != ""
  {
  }

  /** A cleaned path is truthy only if it holds something; the empty and "0" paths record `EmptyPath`. */
  lemma EmptyPathRecorded(directory: string, fs: FileSystem, p: string)
    requires Falsy(p)
    ensures multiset(ResolveClean(directory, fs, p).errors)[EmptyPath] == 1
    ensures ResolveClean(directory, fs, p).view.template == DEFAULT_TEMPLATE
  {
  }

  /**
   * The cleaned path is the text left once the spaces are removed, between
   * its leading and trailing runs of `/`: nothing else is dropped.
   */
  lemma NormaliseKeeps(raw: string)
    ensures exists i :: TrimmedAt(StripSpaces(raw), Normalise(raw), '/', i)
  {
    var q := StripSpaces(raw);
    TrimIsSlice(q, '/');
    var i :| TrimmedAt(q, Trim(q, '/'), '/', i);
    assert Normalise(raw) == Trim(q, '/');
    assert TrimmedAt(q, Normalise(raw), '/', i);
  }

  /** A path with no spaces and no slash at either end is already clean. */
  lemma CleanPathIsNormal(p: string)
    requires ' ' !in p && p != [] && p[0] != '/' && p[|p| - 1] != '/'
    ensures Normalise(p) == p
  {
    TrimIdentity(p, '/');
  }

  /** The template a clean path names is the one `file()` accepts. */
  lemma NamedTemplateAccepted(directory: string, fs: FileSystem, p: string, t: string)
    requires NamesTemplate(directory, fs, p, t)
    ensures AcceptedTemplate(directory, fs, p) == Some(t)
  {
    LeadingNameUnique(p, t);
  }

  /** A path without any dot keeps no extension, and `.php` is appended. */
  lemma DotlessPathDefaulted(p: string)
    requires '.' !in p
    ensures KeptExtension(p).None? && AddedExtension(p) == ".php"
  {
    var q := ExtensionSubject(p);
    var e := TrailingAlnum(q);
    if 0 < |e| < |q| && q[|q| - |e| - 1] == '.' {
      assert false;
    }
  }

  /** A clean, truthy path with an accepted template and an existing target resolves without error. */
  lemma CleanResolution(directory: string, fs: FileSystem, p: string, t: string)
    requires !Falsy(p)
    requires AcceptedTemplate(directory, fs, p) == Some(t)
    requires Target(directory, p) in fs.files
    ensures ResolveClean(directory, fs, p) == Resolution(ResolvedView(Target(directory, p), t,
      if KeptExtension(p).Some? then Lower(KeptExtension(p).value) else DEFAULT_EXTENSION), [])
  {
    var r := ResolveClean(directory, fs, p);
    assert r.errors == [] + [] + [];
    assert r.view.path == Target(directory, p);
  }

  /**
   * A clean path `template/.../name.ext`, whose template folder and view file
   * exist, resolves without error: to that file, that template and the
   * lower-cased extension.
   */
  lemma WellFormedPathResolves(directory: string, fs: FileSystem, p: string, t: string, k: nat)
    requires ' ' !in p && NamesTemplate(directory, fs, p, t) && ExtensionAt(p, k)
    requires directory + p in fs.files
    ensures Resolve(directory, fs, p) == Resolution(ResolvedView(directory + p, t, Lower(p[k + 1..])), [])
  {
    assert p[0] == t[0] && IsAlnum(p[|p| - 1]);
    CleanPathIsNormal(p);
    TemplateAccepted(directory, fs, p, t);
    ExtensionFound(directory, fs, p, k);
    ErrorFreeIff(directory, fs, p);
  }

  /**
   * A clean path `template/...` with no dot at all, whose template folder
   * exists and whose `.php` file exists, resolves without error to that file,
   * with extension `php`.
   */
  lemma ExtensionlessPathResolves(directory: string, fs: FileSystem, p: string, t: string)
    requires ' ' !in p && '.' !in p && NamesTemplate(directory, fs, p, t) && p[|p| - 1] != '/'
    requires directory + p + ".php" in fs.files
    ensures Resolve(directory, fs, p) == Resolution(ResolvedView(directory + p + ".php", t, DEFAULT_EXTENSION), [])
  {
    CleanPathIsNormal(p);
    NamedTemplateAccepted(directory, fs, p, t);
    DotlessPathDefaulted(p);
    CleanResolution(directory, fs, p, t);
  }
}
