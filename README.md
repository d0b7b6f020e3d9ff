# handlebars-wax core, modelled in Dafny

handlebars-wax wires files full of partials, helpers, decorators and data
into a Handlebars instance. It then compiles templates into render functions
that merge a shared data context with each call's data. This project models
the core of `index.js`:

- **Key generation** (`keygenPartial`, `keygenHelper`, `keygenDecorator`),
  in module `Keygen`. A file's key is derived from its resolved path and base
  directory:
  - separators are normalised to `/`;
  - the base directory is stripped case-insensitively;
  - the extension is dropped, as Node's POSIX `path.extname` defines it;
  - whitespace runs become `-`;
  - for helpers and decorators, every run of non-word characters also
    becomes `-`.

  `partials` names a file by its base name up to the first dot, also in
  `Keygen` (`PartialName`). Module `KeygenProperties` proves:
  - collapsing keeps every visible character in order, and is idempotent;
  - helper keys are flat (no `/`, no `--`);
  - for a path that does not end in `/`, stripping the extension and
    appending it again gives the path back;
  - the partial key of a file inside its base directory, whose relative
    path holds no whitespace and no backslash, is that relative path
    without the extension.
- **The reducer and the resolver** (`reducer`, `resolveValue`), in module
  `Reduce`, with JavaScript values and `Object.assign` in module `Values`:
  - each loaded export shape becomes flat name/value registrations: a falsy
    value, a registration hook, a plain object, or a leaf under its
    generated key;
  - the reducer's in-place accumulator is the class `Reduce.Accumulator`.

  Module `ReduceProperties` proves:
  - each step is the shallow merge of one contribution;
  - the last writer wins across a batch;
  - exactly which batches fail;
  - decorators register exactly as helpers do;
  - resolution fails only through the glob branch.
- **The facade** (`HandlebarsWax`), as the class `Wax.HandlebarsWax`:
  - `data` grows the shared context in place;
  - `compile` builds the render closure. Calling that closure (`Render`)
    reads the context as it is at call time, and builds the top-level data
    and the `@global`/`@local` private data around the `_parent`
    back-reference;
  - `engine` keeps a per-file cache of compiled templates, which
    `bustCache` bypasses;
  - `partials` compiles every file of a batch.

  Module `WaxProperties` proves properties of the partial batch and of
  callers that use one or two facade instances across calls.

JavaScript values are reduced to the four shapes the code tells apart
(`Values.Value`):
- falsy;
- a function, whose `Object.prototype.toString` tag is `Function`;
- a plain object (`[object Object]`);
- any other truthy leaf.

Calling a user function (a factory, a `register` hook) is foreign code. It
is a parameter `invoke` that says what each function returns. The name
generator in `options.keygen` is also a parameter (`Reduce.Namer`): it is
`null` for `data`, `keygenHelper` for `helpers` and `keygenDecorator` for
`decorators`. Handlebars itself is foreign too:
- a compiled template is represented by what it was compiled from;
- running one is a parameter `execute`;
- a render call is modelled as the `Invocation` it makes of the compiled
  template.

Two details of the code shape the model:
- **`_parent` can be overridden.** `_parent` is the first argument of each `Object.assign` (index.js:202, 208, 214), so
  a context, call data, `@global` or `@local` object with its own `_parent`
  key replaces it. `Wax.TopLevelData` and `Wax.ParentView` promise the
  back-reference only when no layer defines `_parent`.
- **`keygenPartial` never names a partial.** `partials` sets
  `options.keygen = options.parsePartialName`, but it names each partial by
  its base name up to the first dot (index.js:145-146). So `keygenPartial`
  only reaches the registries through `keygenHelper`.

## Model

| member | source | states |
|---|---|---|
| Values.Or | index.js:203 | `a \|\| b`: the left value when it is truthy, the right one otherwise |
| Values.Truthy | index.js:67 | JavaScript truthiness, as `!value` tests it: every value but the falsy one is truthy, including every function and every plain object, even an empty one |
| Values.Props | index.js:177 | `Object.assign` copies a plain object's own properties, and nothing from a falsy value, a function or another leaf |
| Values.Get | index.js:198-209 | reading a property gives its value, or `undefined` (falsy) when it is missing |
| Values.MergedIntoIsUnion | index.js:177 | a result described as `Object.assign(target, src)` (every key of both, the source's value where it has one, the target's elsewhere) is exactly the map union, and the union is described so |
| Keygen.IsPathSeparator | index.js:13 | `[\\/]`: a path separator is neither a word character, nor whitespace, nor `-` |
| Keygen.IsWhitespace | index.js:14 | `\s`, ECMAScript's WhiteSpace and LineTerminator code points: none is a word character, `-` or `.` |
| Keygen.IsWordChar | index.js:11 | `\w`, `[A-Za-z0-9_]`: no word character is `-`, `/` or `.` |
| Keygen.IsNonWord | index.js:11 | `\W`: whitespace, path separators, `-` and `.` are all non-word characters |
| Keygen.Fold | index.js:43 | the `i` flag's case folding on ASCII: an upper-case letter becomes its lower-case letter, every other character is kept, and the result is never upper-case |
| Keygen.StartsWithIgnoringCase | index.js:42-43 | `new RegExp('^' + escapeRx(base), 'i')` matches: the escaped base is a literal, so a match needs the base to be no longer than the path, and an exact prefix always matches |
| Keygen.NormalizeSeparators | index.js:38 | same length; each `\` or `/` becomes `/`, every other character is kept |
| Keygen.ShortPath | index.js:38-45 | the normalised base plus `/` is stripped when it is a case-insensitive prefix of the normalised path, which is otherwise kept whole; the result is shorter exactly when something was stripped; no backslash survives |
| Keygen.LastIndexOf | index.js:46 | -1 or an index holding the character, with no occurrence after it |
| Keygen.TrimTrailingSlashes | index.js:145 | the part of `path.basename` that ignores trailing separators: a prefix of the path not ending in `/`, with only `/` after it |
| Keygen.LastComponent | index.js:145 | the whole text after the last `/`: free of `/`, and either the whole string or preceded by a `/` (a tail, by `KeygenProperties.LastComponentIsSuffix`) |
| Keygen.BaseName | index.js:145 | `path.basename`: the whole last component of the path once trailing `/` are trimmed: free of `/`, and either the whole trimmed path or preceded there by a `/` (a tail, by `KeygenProperties.BaseNameIsSuffix`) |
| Keygen.ComponentExtension | index.js:46 | empty, or a `.` with no other dot after it, shorter than the component; a component without `/` gives an extension without `/`; non-empty exactly when the component is not `..` and has a dot after its first character |
| Keygen.ExtName | index.js:46 | `path.extname`: empty, or a `.` followed by no `/` and no other `.`; a non-empty extension is shorter than the base name; non-empty exactly when the base name is not `..` and has a dot after its first character |
| Keygen.StripExtension | index.js:48-49 | the stem is a prefix of the path, shorter by exactly the extension's length |
| Keygen.SkipRun | index.js:50 | drops exactly the leading run of class characters: the rest is a suffix starting outside the class |
| Keygen.CollapseRuns | index.js:50 | `replace(/X+/g, '-')`: no longer than the input, empty exactly when it is, every character is `-` or an input character outside the class; the result starts with `-` when the input starts inside the class, and with the input's first character otherwise |
| Keygen.KeygenPartial | index.js:34-51 | the partial key holds no whitespace and no backslash |
| Keygen.KeygenHelper | index.js:53-58 | the helper key holds only word characters and `-` |
| Keygen.KeygenDecorator | index.js:60-62 | the decorator key is the helper key, so it too holds only word characters and `-` |
| Keygen.BeforeFirstDot | index.js:146 | `split('.')[0]`: a prefix with no dot, followed by a dot whenever it is shorter |
| Keygen.PartialName | index.js:145-146 | a partial's name is a prefix of the file's base name with no dot and no `/`, followed by a dot whenever it is shorter |
| KeygenProperties.CollapseKeepsVisible | index.js:50 | collapsing runs keeps every character outside the class other than `-`, in order |
| KeygenProperties.CollapseNoDoubleSeparator | index.js:54-57 | when `-` is in the collapsed class (as with `\W`), the result never has two `-` in a row |
| KeygenProperties.CollapseFixpoint | index.js:50 | a string whose class characters are isolated `-` is left unchanged |
| KeygenProperties.CollapseIdempotent | index.js:50 | collapsing twice is collapsing once |
| KeygenProperties.CollapseWholeRun | index.js:50 | a non-empty string made only of class characters becomes a single `-` |
| KeygenProperties.CollapseAppend | index.js:50 | collapsing two strings joined where no run is split is collapsing each and joining the results; with CollapseWholeRun and the single-character cases this fixes the result of every input |
| KeygenProperties.NormalizeIdempotent | index.js:38 | normalised paths have no backslash and are their own normal form |
| KeygenProperties.NormalizeAppend | index.js:38 | separators are normalised character by character across a concatenation |
| KeygenProperties.ShortPathInsideBase | index.js:38-45 | for a file under its base, whatever its separators and letter case in the directory part, the short path is the relative path with `/` separators |
| KeygenProperties.LastComponentIsSuffix | index.js:46 | the last component of a path is its tail |
| KeygenProperties.ExtensionIsSuffix | index.js:46 | the extension of a path not ending in `/` is its tail |
| KeygenProperties.StemAndExtension | index.js:46-49 | the stem followed by the extension is the path again, for a path not ending in `/` |
| KeygenProperties.NoExtensionNoTruncation | index.js:48-49 | a path without an extension is kept whole |
| KeygenProperties.PartialKeyKeepsPath | index.js:34-51 | the partial key keeps every visible character of the extension-less short path, `/` included, in order |
| KeygenProperties.HelperKeyIsFlat | index.js:53-58 | a helper key has no `/` and never two `-` in a row |
| KeygenProperties.HelperKeyKeepsWords | index.js:53-58 | the helper key keeps the partial key's word characters in order |
| KeygenProperties.PartialKeyOfFileInsideBase | index.js:34-51 | the partial key of a file inside its base, with a relative path free of whitespace and backslashes, is that relative path without its extension |
| Reduce.HelperKey | index.js:53-58 | the helper name generator keys a file record by `keygenHelper`, and throws for a record without a path |
| Reduce.DecoratorKey | index.js:60-62 | the decorator name generator keys a file record by `keygenDecorator`, and throws for a record without a path |
| Reduce.HasRegister | index.js:71 | an export carries a hook exactly when reading its `register` property gives a function |
| Reduce.IsLeaf | index.js:85 | the exports that reach `obj[options.keygen(fileObj)] = value`: exactly the truthy values that are not plain objects, none of which carries a hook |
| Reduce.GenerateKey | index.js:85 | calling a `null` name generator throws; otherwise the generator's key or exception |
| Reduce.ReduceStep | index.js:64-88 | falsy exports leave the accumulator alone; a hook's object result is merged in and any other result ignored; a plain object is merged in; a leaf is stored under its key with every other entry kept; the step throws only when a leaf's key generator throws |
| Reduce.ReduceAll | index.js:64-88 | folding the reducer over a batch never loses a key it started with, and a failure is the exception of the name generator on some leaf export of the batch |
| Reduce.ResolveValue | index.js:90-110 | falsy gives `{}`; a factory gives its result when that is a plain object, else `{}`; a plain object gives itself, or a hook's result; any other value gives what the glob expansion gives |
| Reduce.HelperRegistrations | index.js:153-161 | what `helpers` registers fails only for a glob source, and then only with the no-path exception for a pathless record holding a leaf |
| Reduce.DecoratorRegistrations | index.js:163-171 | what `decorators` registers fails only for a glob source, and then only with the no-path exception for a pathless record holding a leaf |
| Reduce.Accumulator.Add | index.js:64-88 | the accumulator becomes the reducer step's result, or is left unchanged with the exception reported |
| ReduceProperties.ReduceStepMergesContribution | index.js:64-88 | a successful step is exactly the shallow merge of the file's contribution, defined per export shape |
| ReduceProperties.ReduceAllAppend | index.js:64-88 | folding the reducer over two batches in a row is folding it over their concatenation |
| ReduceProperties.ReduceAllFailsOnlyOnUnnamedLeaves | index.js:85 | a batch fails if and only if one of its leaf exports has no key |
| ReduceProperties.ReduceAllUntouched | index.js:64-88 | a key no file of the batch writes keeps its presence and value |
| ReduceProperties.LastWriterWins | index.js:64-88 | a key ends up with the value contributed by the last file of the batch that writes it |
| ReduceProperties.ReduceAllSameKeys | index.js:64-88 | two name generators that agree on every record reduce every batch alike |
| ReduceProperties.DecoratorsRegisterLikeHelpers | index.js:153-171 | `decorators` registers exactly the names and values `helpers` would for the same source |
| ReduceProperties.ResolveFailsOnlyThroughGlob | index.js:90-110 | resolution throws only for a source that goes to the glob branch, and only when that expansion throws |
| ReduceProperties.RegisterHookIgnoresFileName | index.js:71-80 | a record exposing a `register` hook contributes what the hook returns, whatever key its file would have had |
| Wax.WithParent | index.js:207-210 | `Object.assign({_parent: context}, view)` has the view's keys plus `_parent`, the view's values, and the context under `_parent` unless the view overrides it |
| Wax.TopLevelData | index.js:212-214 | the data a template renders with has the keys of the call's data, the context and `_parent`; the call's data wins over the context, and `_parent` is the context unless a layer overrides it |
| Wax.PrivateData | index.js:198-210 | `@global` is the given global data, or else the context, over the back-reference; `@local` is the given local data, or else the call's data, over the back-reference; every other key of the given data is kept |
| Wax.RenderOptions | index.js:193-210 | template options are the call's over the configured ones, with `data` rebuilt as `PrivateData` |
| Wax.Compose | index.js:192-217 | the render call runs the compiled template on data with the keys of `_parent`, the context and the call's data, where the call's data wins over the context and `_parent` is the context unless a layer overrides it; its options carry `@global` and `@local` objects |
| Wax.CompileNamed | index.js:142-147 | every registered template is the compiled text of a readable file of the batch that bears its name, with no options; a failure names a file of the batch that cannot be read |
| Wax.PartialsOf | index.js:142-147 | no registered partial name holds a `.` or a `/` |
| Wax.CompileNamedErrorSticks | index.js:142-143 | once a file of the batch cannot be read, the batch fails with that error |
| Wax.CompileNamedStep | index.js:142-146 | the batch over one more file adds that file's template under its name, or fails if it cannot be read |
| Wax.HandlebarsWax.constructor | index.js:114-133 | the configuration is stored, and the context and the cache start empty |
| Wax.HandlebarsWax.Data | index.js:173-180 | the resolved source, resolved with a `null` name generator, is merged into the context; if resolving throws, the context is unchanged |
| Wax.HandlebarsWax.Compile | index.js:182-190 | text is compiled with the call's compile options over the configured ones; an already compiled template is used as it is |
| Wax.HandlebarsWax.Render | index.js:192-217 | a render function renders the template it was compiled from, on the call's data over the context the instance holds at call time |
| Wax.HandlebarsWax.Engine | index.js:220-240 | a cached template is reused when cache busting is off; otherwise the file is read and compiled, and the cache updated, before rendering; a file that cannot be read is reported with the cache unchanged; the outcome is the render's result or exception |
| Wax.HandlebarsWax.Partials | index.js:135-151 | the loop registers exactly what the batch specification `PartialsOf` gives |
| WaxProperties.CompileNamedSucceedsIffReadable | index.js:142-146 | a batch succeeds if and only if every file can be read |
| WaxProperties.PartialsSucceedIffReadable | index.js:135-151 | `partials` succeeds if and only if every file the pattern expanded to can be read |
| WaxProperties.CompileNamedReportsFirstMissing | index.js:142-143 | a failed batch reports the first file that cannot be read |
| WaxProperties.NamesSnoc | index.js:146 | the names of a sequence of files are those of all but the last, plus the last one's |
| WaxProperties.CompileNamedKeys | index.js:142-146 | a successful batch registers exactly one template per distinct name of its files |
| WaxProperties.PartialsNames | index.js:135-151 | the registered partial names are exactly the files' base names up to the first dot |
| WaxProperties.CompileNamedLastWins | index.js:142-146 | of two files with one name, the later one's template is registered |
| WaxProperties.PartialsLastWins | index.js:145-146 | of two partial files with one base name, the later one's template is registered |
| WaxProperties.CachedTemplateSurvivesEdit | index.js:225-233 | with cache busting off, a second render of a file uses the template compiled first, even after the file changed |
| WaxProperties.BustedCacheRereads | index.js:228-233 | with cache busting on, each render reads and compiles the file afresh |
| WaxProperties.MissingTemplateIsReported | index.js:224-237 | a file that cannot be read is reported as an error and leaves nothing in the cache |
| WaxProperties.RenderSeesLaterData | index.js:184-214 | a render function compiled before a `data` call sees what that call added, below the call's own data |
| WaxProperties.InstancesAreIndependent | index.js:130 | each facade has its own context: data given to one is not seen by another |

## Left out

- `fs.realpathSync` (index.js:35-36) is file-system I/O: paths are taken as already resolved.
- Glob expansion (`glob.sync`, `requireGlob.sync`) and module loading are I/O. `partials` takes the expanded file list and the readable files' contents (`disk`). `ResolveValue` takes the outcome of the glob branch (`globbed`). For helpers and decorators, that outcome is this module's reducer folded from `{}` over the loaded records (`Reduce.ReduceAll`).
- `data` with a glob pattern does not set `options.reducer`, so require-glob's own default reducer applies. That reducer is not part of this model, and `Data` takes its outcome as given.
- A caller-supplied `options.reducer` or `parse*Name` function, and per-call option overrides, are not modelled. Only the defaults are, with `bustCache`, `compileOptions` and `templateOptions` fixed per instance.
- `registerPartial`, `registerHelper` and `registerDecorator` are Handlebars calls. The model returns the map each would be handed.
- `Object.assign` copies only a plain object's properties here. The indexed properties of strings and arrays, and a function's own properties (including a `register` property on a function), are not modelled.
- Values.Value: an async or generator function's tag is not `Function`, so such values fall under `Other` and go to the glob branch, as in the code.
- Keygen.Fold: the case-insensitive match folds only ASCII letters. Unicode case folding is not modelled.
- Handlebars compilation and execution are foreign: a compiled template stands for its source text and options. Compilation is total, and every template failure surfaces when `execute` runs it. Non-string, non-function template sources are not modelled.
- Reduce.Invoker: hooks and factories are pure functions of their identity here. Their side effects, and any exception they throw, are not modelled.
- Wax.HandlebarsWax.Engine: an exception thrown by the callback itself, which the code catches and passes back to the same callback, is not modelled. The lazily created cache object is modelled as a cache that starts empty.
- Wax.HandlebarsWax.Engine: the outcome is returned rather than passed to a callback. `Ok(output)` stands for `callback(null, output)` and `Err(e)` for `callback(e)`.
- Wax.HandlebarsWax.Engine: the cache is modelled as a map that starts empty, but `this.cache = {}` (index.js:222) inherits from `Object.prototype`, so `cache[file]` (index.js:225) finds inherited members such as `toString` for a file of that name, which the code would then run as a template without reading the file. Keys inherited from `Object.prototype` are not modelled.
- Reduce.ReduceStep: `obj[key] = value` (index.js:85) is modelled as storing an entry under any key, but the key `__proto__` replaces the accumulator's prototype instead of adding an entry. Keys special to `Object.prototype` are not modelled.
- Reduce.HasRegister: `Obj(fields)` holds only an object's own enumerable properties, but `value.register` (index.js:71) also finds inherited ones, so an export that is a class instance with a `register` method is a hook in the code and is merged as a plain object here. An own `__proto__` key that `Object.assign` copies into an ordinary object (index.js:75, 82, 202-214) sets that object's prototype rather than adding a key; this is not modelled either. The context at index.js:177 is `Object.create(null)`, so `data` is not affected.
- Wax.HandlebarsWax.Data: the `options` argument is not modelled. Its only effect would be a per-call overlay of the configuration.
