/** The module-shape reducer and the value resolver (index.js:64-110): how a
    loaded export, whatever its shape, becomes flat name/value registrations. */
module Reduce {
  import opened Values
  import opened Keygen

  /** One loaded file: its resolved path and base directory and its exports.
      `Synthetic` is the record `{exports: value}` that `resolveValue` builds
      around an object source, which has no path at all. */
  datatype FileRecord =
    | FileRecord(path: string, base: string, exports: Value)
    | Synthetic(exports: Value)

  /** A name generator, `options.keygen(fileObj)`: a key, or the exception it throws. */
  type KeyGenerator = FileRecord -> Result<string>

  /** What `options.keygen` holds: a name generator, or `null`. */
  type Namer = Option<KeyGenerator>

  /** Calling a user-supplied function, `f(handlebars, options)`, is foreign
      code: the caller supplies what each function returns. */
  type Invoker = nat -> Value

  /** `parseDataName` defaults to `null` (index.js:125). */
  const NoNamer: Namer := None

  /** `keygenHelper` as a name generator (index.js:53-58): asking it for the
      path of a record that has none throws. */
  function HelperKey(file: FileRecord): (r: Result<string>)
    ensures file.Synthetic? ==> r == Err(InvalidPath)
    ensures file.FileRecord? ==> r == Ok(KeygenHelper(file.path, file.base))
  {
    match file
    case Synthetic(_) => Err(InvalidPath)
    case FileRecord(path, base, _) => Ok(KeygenHelper(path, base))
  }

  /** `keygenDecorator` as a name generator (index.js:60-62). */
  function DecoratorKey(file: FileRecord): (r: Result<string>)
    ensures file.Synthetic? ==> r == Err(InvalidPath)
    ensures file.FileRecord? ==> r == Ok(KeygenDecorator(file.path, file.base))
  {
    match file
    case Synthetic(_) => Err(InvalidPath)
    case FileRecord(path, base, _) => Ok(KeygenDecorator(path, base))
  }

  /** The defaults `parseHelperName` and `parseDecoratorName` (index.js:123-124). */
  const HelperNamer: Namer := Some(HelperKey)
  const DecoratorNamer: Namer := Some(DecoratorKey)

  /** `options.keygen(fileObj)`; calling `null` throws. */
  function GenerateKey(namer: Namer, file: FileRecord): (r: Result<string>)
    ensures namer.None? ==> r == Err(KeygenNotAFunction)
    ensures namer.Some? ==> r == namer.value(file)
  {
    match namer
    case None => Err(KeygenNotAFunction)
    case Some(keygen) => keygen(file)
  }

  /** `getTypeOf(value.register) === 'fun'` */
  predicate HasRegister(v: Value)
    ensures HasRegister(v) <==> Get(Props(v), "register").Func?
  {
    v.Obj? && "register" in v.fields && v.fields["register"].Func?
  }

  /** A truthy export that is neither a plain object nor carries a hook: it is
      registered under its file's key. */
  predicate IsLeaf(v: Value)
    ensures IsLeaf(v) <==> Truthy(v) && !v.Obj?
    ensures IsLeaf(v) ==> !HasRegister(v)
  {
    v.Func? || v.Other?
  }

  /** One reducer step (index.js:64-88): the accumulator after folding in `file`. */
  function ReduceStep(namer: Namer, acc: map<string, Value>, file: FileRecord, invoke: Invoker): (r: Result<map<string, Value>>)
    ensures file.exports.Falsy? ==> r == Ok(acc)
    ensures HasRegister(file.exports) ==>
              var hooked := invoke(file.exports.fields["register"].id);
              && r.Ok?
              && (hooked.Obj? ==> MergedInto(acc, hooked.fields, r.value))
              && (!hooked.Obj? ==> r.value == acc)
    ensures file.exports.Obj? && !HasRegister(file.exports) ==>
              r.Ok? && MergedInto(acc, file.exports.fields, r.value)
    ensures IsLeaf(file.exports) ==>
              && (r.Ok? <==> GenerateKey(namer, file).Ok?)
              && (r.Ok? ==> var key := GenerateKey(namer, file).value;
                            && r.value.Keys == acc.Keys + {key}
                            && r.value[key] == file.exports
                            && forall k :: k in acc && k != key ==> r.value[k] == acc[k])
    ensures r.Err? ==> IsLeaf(file.exports) && r == Err(GenerateKey(namer, file).error)
  {
    var value := file.exports;
    if value.Falsy? then Ok(acc)
    else if HasRegister(value) then
      var hooked := invoke(value.fields["register"].id);
      if hooked.Obj? then Ok(acc + hooked.fields) else Ok(acc)
    else if value.Obj? then Ok(acc + value.fields)
    else
      match GenerateKey(namer, file)
      case Err(e) => Err(e)
      case Ok(key) => Ok(acc[key := value])
  }

  /** What `require-glob` does with the reducer over the files a pattern
      expands to: a left fold from `{}`, stopped by the first exception. */
  function ReduceAll(namer: Namer, acc: map<string, Value>, files: seq<FileRecord>, invoke: Invoker): (r: Result<map<string, Value>>)
    ensures r.Ok? ==> acc.Keys <= r.value.Keys
    ensures r.Err? ==> exists i :: 0 <= i < |files| && IsLeaf(files[i].exports) && GenerateKey(namer, files[i]) == Err(r.error)
    decreases |files|
  {
    if files == [] then Ok(acc)
    else
      match ReduceStep(namer, acc, files[0], invoke)
      case Err(e) => Err(e)
      case Ok(next) => ReduceAll(namer, next, files[1..], invoke)
  }

  /** `resolveValue` (index.js:90-110). The glob branch expands and loads
      files outside this model; its outcome is the parameter `globbed`. */
  function ResolveValue(namer: Namer, source: Value, invoke: Invoker, globbed: Result<map<string, Value>>): (r: Result<map<string, Value>>)
    ensures source.Falsy? ==> r == Ok(map[])
    ensures source.Func? ==>
              var made := invoke(source.id);
              r == Ok(if made.Obj? then made.fields else map[])
    ensures source.Obj? && !HasRegister(source) ==> r == Ok(source.fields)
    ensures HasRegister(source) ==>
              var hooked := invoke(source.fields["register"].id);
              r == Ok(if hooked.Obj? then hooked.fields else map[])
    ensures source.Other? ==> r == globbed
  {
    if source.Falsy? then Ok(map[])
    else if source.Func? then
      var made := invoke(source.id);
      if made.Obj? then Ok(made.fields) else Ok(map[])
    else if source.Obj? then
      MergeIntoEmpty<Value>();
      ReduceStep(namer, map[], Synthetic(source), invoke)
    else globbed
  }

  /** What `helpers` hands to `registerHelper` (index.js:153-161): the source
      resolved with the helper key generator; a glob source is reduced file by
      file with this module's reducer. */
  function HelperRegistrations(source: Value, invoke: Invoker, files: seq<FileRecord>): (r: Result<map<string, Value>>)
    ensures r.Err? ==> source.Other? && r == Err(InvalidPath)
                       && exists i :: 0 <= i < |files| && files[i].Synthetic? && IsLeaf(files[i].exports)
  {
    ResolveValue(HelperNamer, source, invoke, ReduceAll(HelperNamer, map[], files, invoke))
  }

  /** What `decorators` hands to `registerDecorator` (index.js:163-171). */
  function DecoratorRegistrations(source: Value, invoke: Invoker, files: seq<FileRecord>): (r: Result<map<string, Value>>)
    ensures r.Err? ==> source.Other? && r == Err(InvalidPath)
                       && exists i :: 0 <= i < |files| && files[i].Synthetic? && IsLeaf(files[i].exports)
  {
    ResolveValue(DecoratorNamer, source, invoke, ReduceAll(DecoratorNamer, map[], files, invoke))
  }

  /** The reducer's accumulator object, which `Object.assign(obj, ...)` and
      `obj[key] = value` update in place. */
  class Accumulator {
    var entries: map<string, Value>

    constructor ()
      ensures entries == map[]
    {
      entries := map[];
    }

    /** `reducer(options, this, file)`: on success the entries become the
        reducer's result; when the key generator throws nothing changes. */
    method Add(namer: Namer, file: FileRecord, invoke: Invoker) returns (err: Option<Error>)
      modifies this
      ensures ReduceStep(namer, old(entries), file, invoke).Ok? ==>
                err == None && entries == ReduceStep(namer, old(entries), file, invoke).value
      ensures ReduceStep(namer, old(entries), file, invoke).Err? ==>
                err == Some(ReduceStep(namer, old(entries), file, invoke).error) && entries == old(entries)
    {
      var value := file.exports;
      err := None;
      if value.Falsy? {
        return;
      }
      if HasRegister(value) {
        var hooked := invoke(value.fields["register"].id);
        if hooked.Obj? {
          entries := entries + hooked.fields;
        }
        return;
      }
      if value.Obj? {
        entries := entries + value.fields;
        return;
      }
      var key := GenerateKey(namer, file);
      if key.Err? {
        err := Some(key.error);
        return;
      }
      entries := entries[key.value := value];
    }
  }
}
