# Coercive/Render in Dafny

A model of the two renderers of Coercive/Render, with proofs about them.

- `Render` (dist/Render.php) is the native renderer. It resolves view paths
  under a root directory into a queue of view files, detecting a template
  folder and an extension along the way. It records every failure in an
  error list and hands each one to an optional debug closure. It renders the
  queue by requiring each view under the merged global and per-call
  variables, then requiring the layout of the chosen template, and finishes
  with a reset.
- `RenderTwig` (dist/RenderTwig.php) is the configuration a Twig render is
  built from: template directories, the view name with its automatic
  extension, variables, registered filters, functions and tests, extension
  objects, and the environment options.

Files:

- `php.dfy` (module `Php`): PHP values and scopes, the filesystem and
  `require` oracles, PHP truthiness on strings, and the string built-ins the
  renderers call (`str_replace(' ', '', _)`, `trim`, `rtrim`, `strtolower`,
  `strpos`, `array_merge`).
- `view_paths.dfy` (module `ViewPaths`): the pure part of `Render::file()`.
  `Resolve` gives the view and the errors `file()` records, in order. The
  lemmas characterise them character by character.
- `native_render.dfy` (module `NativeRender`): class `Render`, whose methods
  update its fields as the PHP methods do. The postconditions of `File`,
  `SetPath`, `AddPath`, `View` and `Render` tie the new state to `Resolve`,
  `ViewsOutput` or `PageOutput`. The setters, `Reset`, `Debug`,
  `ForceTemplate` and `AddException` state their new fields directly. Two
  whole render cycles of a fresh renderer are spelled out as methods.
- `twig_config.dfy` (module `TwigConfig`): class `RenderTwig` and the pure
  functions its setters store (`DirectoryEntries`, `AutoExtend`, `Overlay`),
  with their lemmas.

Environment:

- The filesystem is a `FileSystem` value passed in: the sets that `is_dir`
  and `is_file` answer for. `realpath` is the identity.
- `require` under output buffering is an `Exec` function passed in. It maps
  a file, the variables in scope and the current `$this->views` to the text
  printed.
- The debug closure is modelled by a flag (`observing`) and the log of the
  errors it was handed (`notified`).

`render()` ends with `reset(true)` (dist/Render.php:320), which empties the
error list, so only the debug closure ever sees a missing-layout error
(`NativeRender.RenderWithoutLayout`).

## Model

| member | source | states |
|---|---|---|
| Php.StripSpaces | dist/Render.php:54 | the result has no space, is no longer than the input, keeps every other character's count, and is the input itself when it had no space |
| Php.StripSpacesAppend | dist/Render.php:54 | removing the spaces of a concatenation removes them from each part, so every kept character keeps its order |
| Php.StripSpacesChar | dist/Render.php:54 | one character: a space is removed, any other character is kept |
| Php.TrimLeft | dist/Render.php:54 | the result is a suffix of the input, everything dropped is the trimmed character, and the result does not start with it |
| Php.TrimRight | dist/Render.php:115 | the result is a prefix of the input, everything dropped is the trimmed character, and the result does not end with it |
| Php.Trim | dist/Render.php:54 | the result is no longer than the input and neither starts nor ends with the trimmed character (what it keeps: `Php.TrimIsSlice`) |
| Php.TrimIsSlice | dist/Render.php:54 | what `trim` keeps is one contiguous slice of its input, with only the trimmed character before and after it; with `Php.Trim` this pins `trim` down completely (also `forceTemplate`, dist/Render.php:238) |
| Php.TrimIdentity | dist/Render.php:54 | a string that neither starts nor ends with the character comes out of `ltrim`, `rtrim` and `trim` unchanged |
| Php.SlashTerminated | dist/Render.php:115 | the result ends in exactly one `/`, and before it is the input up to its trailing slashes |
| Php.SlashTerminatedIdempotent | dist/RenderTwig.php:102 | normalising a directory twice is normalising it once |
| Php.Falsy | dist/Render.php:55 | PHP truthiness of a string: only `""` and `"0"` are false (used at dist/Render.php:55, 62, 73-74, 79, 295, 304, 335 and dist/RenderTwig.php:255) |
| Php.ArrayMerge | dist/Render.php:148 | the keys are those of either array; incoming keys take the incoming value, the other keys keep theirs |
| Php.Lower | dist/Render.php:73 | same length, no ASCII capital left, other characters kept, capitals moved down by 32 |
| Php.StrPosFrom | dist/RenderTwig.php:255 | the answer is an occurrence at or after `from` with none before it; no answer means no occurrence from `from` on |
| Php.StrPos | dist/RenderTwig.php:255 | the answer is the first occurrence; no answer exactly when the needle occurs nowhere |
| ViewPaths.Normalise | dist/Render.php:54 | the cleaned path has no space and neither starts nor ends with `/` |
| ViewPaths.NormaliseKeeps | dist/Render.php:54 | the cleaned path is the space-free text between its leading and trailing runs of `/`: nothing else is dropped |
| ViewPaths.LeadingName | dist/Render.php:61 | the longest prefix of name characters `[a-z0-9_-]` (either case) |
| ViewPaths.LeadingNameUnique | dist/Render.php:61 | a name-character prefix followed by a non-name character is that longest prefix |
| ViewPaths.TrailingAlnum | dist/Render.php:72 | the longest suffix of letters and digits |
| ViewPaths.TrailingAlnumUnique | dist/Render.php:72 | an alphanumeric suffix preceded by another character is that longest suffix |
| ViewPaths.DetectTemplate | dist/Render.php:61 | the `template` group: the leading run of name characters, when a `/` follows it, else no match |
| ViewPaths.ExtensionSubject | dist/Render.php:72 | the text the `$` anchor may close on: the path without one final newline |
| ViewPaths.DetectExtension | dist/Render.php:72 | the `extension` group: the non-empty trailing alphanumeric run of that text, when a `.` precedes it, else no match |
| ViewPaths.AcceptedTemplate | dist/Render.php:62 | the captured template when it is truthy and names an existing directory under the root, else none |
| ViewPaths.KeptExtension | dist/Render.php:73-74 | the captured extension when it is truthy, else none |
| ViewPaths.AddedExtension | dist/Render.php:74 | `.php` when no extension is kept, else nothing |
| ViewPaths.Target | dist/Render.php:77 | the root, the cleaned path and the added extension, in that order |
| ViewPaths.ResolveClean | dist/Render.php:55-90 | the view `file()` returns for a cleaned path (found target or `""`, accepted template or `default`, lower-cased extension or `php`) and the errors it records, in order |
| ViewPaths.Resolve | dist/Render.php:51-91 | `file()` as a whole: the cleaning, then `ResolveClean` |
| ViewPaths.TemplateAccepted | dist/Render.php:61-69 | a path naming an existing, truthy template folder before its first `/` resolves to that template with no template error |
| ViewPaths.TemplateFound | dist/Render.php:61-69 | when no template error is recorded, the template is a truthy name-character prefix of the path, followed by `/`, naming an existing folder |
| ViewPaths.TemplateFallback | dist/Render.php:62-66 | when the template error is recorded, it is recorded once and the template is `default` |
| ViewPaths.NoSlashFallsBack | dist/Render.php:61-66 | a cleaned path without `/` always records the template error and gets `default` |
| ViewPaths.NamedTemplateAccepted | dist/Render.php:61-62 | the template a path names is the one `file()` accepts |
| ViewPaths.ExtensionAtKept | dist/Render.php:72-73 | a final dot followed only by alphanumerics (other than `0`) yields exactly that extension |
| ViewPaths.KeptExtensionIsAt | dist/Render.php:72-73 | every kept extension sits after a final dot and is made of alphanumerics |
| ViewPaths.NoExtensionAtKeepsNone | dist/Render.php:72-74 | without a final dot and extension, no extension is kept |
| ViewPaths.ExtensionFound | dist/Render.php:72-77 | with a final extension, the target is the directory and the path alone, and the view's extension is the lower-cased extension |
| ViewPaths.ExtensionDefaulted | dist/Render.php:72-77 | without one, the target gets `.php` appended and the view's extension is `php` |
| ViewPaths.DotlessPathDefaulted | dist/Render.php:72-74 | a path with no dot keeps no extension and gets `.php` appended |
| ViewPaths.ViewFileResolution | dist/Render.php:77-83 | the view's path is empty exactly when the target is not an existing file, is the target otherwise, and the missing-view error is recorded exactly then |
| ViewPaths.TargetTruthy | dist/Render.php:77 | a target is never a falsy string, so a found view is always required |
| ViewPaths.ErrorCount | dist/Render.php:51-91 | resolution records one error per failed step (empty path, template, view file) and no other |
| ViewPaths.ErrorFreeIff | dist/Render.php:51-91 | no error exactly when the path is truthy, the template accepted and the view file found |
| ViewPaths.EmptyPathRecorded | dist/Render.php:55-58 | an empty or `"0"` cleaned path records the empty-path error exactly once, and resolution goes on to the default template |
| ViewPaths.CleanPathIsNormal | dist/Render.php:54 | a path with no space and no slash at either end is unchanged by the cleaning |
| ViewPaths.CleanResolution | dist/Render.php:51-91 | a truthy path with an accepted template and an existing target resolves to that target, template and extension with no error |
| ViewPaths.WellFormedPathResolves | dist/Render.php:51-91 | a clean `template/.../name.ext` path whose folder and file exist resolves to that file, that template and the lower-cased extension, with no error |
| ViewPaths.ExtensionlessPathResolves | dist/Render.php:51-91 | a clean `template/...` path without a dot, whose folder and `.php` file exist, resolves to that file with extension `php` and no error |
| NativeRender.LayoutPath | dist/Render.php:304-305 | the layout is `layout/layout.php` under the forced template when it is truthy; under the detected one when the forced template is `""` or `"0"` |
| NativeRender.EffectiveTemplate | dist/Render.php:304 | `forceTemplate ?: template`: a truthy forced template is chosen, and a falsy one (`""` or `"0"`) gives way to the detected template |
| NativeRender.ViewOutput | dist/Render.php:295-297 | what one queued view prints: nothing when its path is falsy, else its file run under the merged variables |
| NativeRender.ViewsOutput | dist/Render.php:292-301 | what the buffered queue prints: the views' outputs concatenated in queue order |
| NativeRender.PageOutput | dist/Render.php:304-317 | what `render()` prints with no error pending: the effective layout run with the buffered views when it exists, else nothing |
| NativeRender.Resolved | dist/Render.php:294-297 | the entries kept are resolved ones taken from the queue |
| NativeRender.ResolvedAppend | dist/Render.php:294-297 | filtering a concatenation filters each part: entries keep their queue order |
| NativeRender.ResolvedSingle | dist/Render.php:295 | one entry is kept exactly when its path is truthy |
| NativeRender.ViewsOutputAppend | dist/Render.php:294-298 | buffering two queues in a row prints the first queue's output, then the second's |
| NativeRender.ViewsOutputSkipsUnresolved | dist/Render.php:295-297 | unresolved entries print nothing: the output is that of the resolved entries alone |
| NativeRender.BufferViews | dist/Render.php:292-301 | the loop's output is the in-order concatenation of the resolved views' outputs |
| NativeRender.ForcedTemplateDecides | dist/Render.php:304 | a truthy forced template fixes the page whatever template was detected |
| NativeRender.CleanViewOutput | dist/Render.php:294-298 | a path that resolves without error is required when queued |
| NativeRender.OnePageOutput | dist/Render.php:270-321 | one cleanly resolved path, queued alone: the page is its template's layout run with that view's output, or nothing without a layout |
| NativeRender.Render.constructor | dist/Render.php:113-116 | the directory ends in exactly one slash; everything else starts empty and unobserved |
| NativeRender.Render.AddException | dist/Render.php:99-106 | one error is appended, and handed to the observer once if one is set |
| NativeRender.Render.AddExceptionIf | dist/Render.php:55-83 | a failed step of `file()` extends the recorded (and observed) errors by its error, a successful one by nothing |
| NativeRender.Render.File | dist/Render.php:51-91 | returns the resolved view, leaves its template in `template`, and appends exactly the resolution's errors (also to the observer) |
| NativeRender.Render.GetViews | dist/Render.php:123-126 | returns the buffered views |
| NativeRender.Render.SetGlobalDatas | dist/Render.php:134-138 | the globals become the given array |
| NativeRender.Render.AddGlobalDatas | dist/Render.php:146-150 | the globals become their merge with the given array, the given values winning |
| NativeRender.Render.SetDatas | dist/Render.php:158-162 | the call variables become the given array |
| NativeRender.Render.AddDatas | dist/Render.php:170-174 | the call variables become their merge with the given array, the given values winning |
| NativeRender.Render.SetPath | dist/Render.php:182-186 | the queue is exactly the one resolved view, with `file()`'s effects on template and errors |
| NativeRender.Render.AddPath | dist/Render.php:194-198 | the resolved view joins the end of the queue, earlier entries unchanged, with `file()`'s effects |
| NativeRender.Render.GetExceptions | dist/Render.php:205-208 | returns the recorded errors |
| NativeRender.Render.Debug | dist/Render.php:221-225 | sets or removes the observer |
| NativeRender.Render.ForceTemplate | dist/Render.php:236-240 | the forced template is the given one with slashes trimmed at both ends |
| NativeRender.Render.Reset | dist/Render.php:249-263 | errors, queue, template, views and forced template are emptied; call variables and globals are cleared only on request, else unchanged |
| NativeRender.Render.Render | dist/Render.php:270-322 | with errors pending: prints nothing and changes nothing but clearing views and layout. Otherwise: prints the page under globals overlaid by call variables, records (and observes) a missing layout, then resets keeping only the globals |
| NativeRender.Render.View | dist/Render.php:331-355 | prints the resolved view under the globals overlaid by the given variables, nothing when unresolved; the queue is untouched, template and errors change as by `file()` |
| NativeRender.RenderUnresolvedPage | dist/Render.php:276-279 | a fresh renderer whose path fails prints nothing, and its queue and errors survive `render()` |
| NativeRender.RenderWithoutLayout | dist/Render.php:313-320 | a clean page without a layout prints nothing; the observer sees the missing layout, and the final reset leaves no error |
| TwigConfig.DirectoryEntries | dist/RenderTwig.php:73-79 | one entry per directory, in order, each trimmed of trailing separators and given one back |
| TwigConfig.DirectoryEntriesIdempotent | dist/RenderTwig.php:102 | adding already-normalised directories stores them unchanged |
| TwigConfig.AutoExtend | dist/RenderTwig.php:255-257 | the extension is appended exactly when it is truthy and either starts the view or occurs at no later index |
| TwigConfig.AutoExtendStable | dist/RenderTwig.php:255-260 | setting the stored view again changes nothing, unless the extension starts it |
| TwigConfig.AutoExtendRepeats | dist/RenderTwig.php:255-257 | a view that is exactly the extension gets it appended on every `setPath` |
| TwigConfig.Overlay | dist/RenderTwig.php:216-218 | assigning entries never loses a key |
| TwigConfig.OverlayUntouched | dist/RenderTwig.php:216-218 | a key no entry names keeps its presence and value |
| TwigConfig.OverlayLastWins | dist/RenderTwig.php:216-218 | a key entries name is present with the value of its last occurrence |
| TwigConfig.OverlayIsMerge | dist/RenderTwig.php:214-220 | assigning the entries one by one is merging the scope with the array the entries make |
| TwigConfig.RenderTwig.constructor | dist/RenderTwig.php:26-65 | the root is the given one; every other field holds its declared default, options included |
| TwigConfig.RenderTwig.AddDirectories | dist/RenderTwig.php:73-79 | the list grows by the normalised directories, in order |
| TwigConfig.RenderTwig.SetDirectories | dist/RenderTwig.php:87-92 | the list is exactly the normalised directories |
| TwigConfig.RenderTwig.AddDirectory | dist/RenderTwig.php:100-104 | one normalised entry joins the end |
| TwigConfig.RenderTwig.SetDirectory | dist/RenderTwig.php:112-117 | the list is exactly the one normalised directory |
| TwigConfig.RenderTwig.ClearsDirectories | dist/RenderTwig.php:124-128 | the list is empty |
| TwigConfig.RenderTwig.AddFilter | dist/RenderTwig.php:138-142 | the filter is registered under its name, replacing an earlier one; other names unchanged |
| TwigConfig.RenderTwig.AddFunction | dist/RenderTwig.php:152-156 | the same for functions |
| TwigConfig.RenderTwig.AddTest | dist/RenderTwig.php:166-170 | the same for tests |
| TwigConfig.RenderTwig.AddTokenParser | dist/RenderTwig.php:178-182 | the parser is appended, duplicates kept |
| TwigConfig.RenderTwig.AddNodeVisitor | dist/RenderTwig.php:190-194 | the visitor is appended, duplicates kept |
| TwigConfig.RenderTwig.AddExtension | dist/RenderTwig.php:202-206 | the extension object is appended, duplicates kept |
| TwigConfig.RenderTwig.AddGlobals | dist/RenderTwig.php:214-220 | the globals are the old ones with the entries assigned in turn |
| TwigConfig.RenderTwig.SetDatas | dist/RenderTwig.php:228-232 | the render variables are replaced wholesale |
| TwigConfig.RenderTwig.SetFileExtension | dist/RenderTwig.php:240-244 | the automatic extension becomes the given one |
| TwigConfig.RenderTwig.SetPath | dist/RenderTwig.php:252-262 | the stored view is the given one, extended by the automatic-extension rule |
| TwigConfig.RenderTwig.SetOptions | dist/RenderTwig.php:270-274 | the option map is replaced wholesale |
| TwigConfig.RenderTwig.SetDebug | dist/RenderTwig.php:282-286 | sets `debug`, every other option unchanged |
| TwigConfig.RenderTwig.SetCharset | dist/RenderTwig.php:294-298 | sets `charset`, every other option unchanged |
| TwigConfig.RenderTwig.SetStrictVariables | dist/RenderTwig.php:345-349 | sets `strict_variables`, every other option unchanged |
| TwigConfig.RenderTwig.SetAutoescape | dist/RenderTwig.php:357-361 | sets `autoescape`, every other option unchanged |

## Left out

- Running PHP. `require`, `extract` and output buffering are the `Exec` oracle: a view's output depends only on the file, the merged variables and `$this->views`. Not modelled:
  - variables one view defines leaking into the next;
  - renderer locals (`$file`, `$template`, `$layoutPath`, `$layout`) visible to the required files;
  - `extract` refusing invalid names;
  - required files changing the renderer through `$this`;
  - required files that throw or call `exit`. `Exec` always returns, so the model never stops in the middle of a render. In PHP, a view or layout that throws stops `render()` at dist/Render.php:296 or 309, and a view that throws stops `view()` at line 351. At that point the output buffer is still open, and `views` and `layout` already hold `''`. `reset(true)` at line 320 never runs, so the queue, the call variables and the errors are kept. `NativeRender.Render.Render` promises the reset on every error-free path only because `Exec` is total;
  - in `view()`, `$path` and `$datas` being assigned before the two `extract` calls (dist/Render.php:334-347). A global or data key `path` therefore replaces the file that `require($path)` loads (line 351), and a global key `datas` replaces the call variables. The model always requires the resolved file under the globals merged with the given variables.
- Filesystem probes. `is_dir` and `is_file` are sets passed in, and `realpath` is the identity. No `..`, symlinks or permissions. Since PHP 8, `realpath` throws on a path containing a NUL byte. `str_replace` and `trim` keep `"\0"`, so `file()` can throw at dist/Render.php:78. The model's `File` never throws.
- Value kinds. `Php.Value` has only a few kinds of PHP value (no arrays or floats). Neither renderer looks inside a value; values are only stored, merged and handed to `extract` or Twig, so the choice of kinds does not affect anything the model states.
- Regular expressions. The two patterns of `file()` are hand-written scanners (`LeadingName`, `TrailingAlnum` and `ExtensionSubject`, which models `$` also matching before a final newline).
- Exception objects. Errors are the `Error` datatype; each constructor carries what the message interpolates.
- The debug closure. It is arbitrary code in PHP; here it is a flag and a log of the errors it receives.
- `array_merge` renumbering of integer keys. Scopes are string-keyed maps.
- `DIRECTORY_SEPARATOR`, which is `/` here.
- Default arguments (`reset()`, `view()`, `setFileExtension()`, `addFilter()` and the like). The model's callers always pass them.
- Twig itself. `RenderTwig::render` hands the configuration to Twig and is not modelled. Filters, functions, tests, token parsers, node visitors and extensions are opaque `Value` handles. A registration records the name, callable and options it was built with.
- `RenderTwig::setCache` and `RenderTwig::clearCache`: they call `mkdir`, `realpath` and a shell `rm -rf`.
- TwigConfig.RenderTwig.AddGlobals: the PHP array is a sequence of key/value pairs. PHP keys are distinct, so the later-occurrence rule only matters for sequences PHP could not build.
- NativeRender.Render.File: the pure steps are computed before the errors are appended. PHP interleaves them, but nothing can observe the difference.
