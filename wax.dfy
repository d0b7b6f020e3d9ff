/** The facade (index.js:114-240): a shared data context that `data` grows,
    render functions that compose each call's data with that context, the
    compiled-template cache behind `engine`, and the partial loader. The
    template compiler and compiled templates are foreign: a compiled template
    is represented by what it was compiled from, and running one is a
    parameter. */
module Wax {
  import opened Values
  import opened Keygen
  import opened Reduce

  /** The reserved key under which templates see the shared context. */
  const Parent: string := "_parent"

  /** `bustCache` unless the configuration says otherwise (index.js:117). */
  const DefaultBustCache: bool := true

  /** What `compile` is given: template text, or an already compiled template. */
  datatype TemplateSource = Text(text: string) | Function(id: nat)

  /** A compiled template, known by what it was compiled from. */
  datatype Template = Precompiled(id: nat) | Compiled(text: string, options: map<string, Value>)

  /** The call `template(data, templateOptions)` a render function ends in. */
  datatype Invocation = Invocation(template: Template, data: map<string, Value>, options: map<string, Value>)

  /** Running a compiled template: foreign code that yields output or throws. */
  type Executor = Invocation -> Result<string>

  /** `out` is `Object.assign({_parent: context}, view)`. */
  ghost predicate ParentView(context: map<string, Value>, view: map<string, Value>, out: Value) {
    && out.Obj?
    && out.fields.Keys == {Parent} + view.Keys
    && (forall k :: k in view ==> out.fields[k] == view[k])
    && (Parent !in view ==> out.fields[Parent] == Obj(context))
  }

  /** `Object.assign({_parent: context}, view)` */
  function WithParent(context: map<string, Value>, view: map<string, Value>): (out: Value)
    ensures ParentView(context, view, out)
  {
    Obj(map[Parent := Obj(context)] + view)
  }

  /** The top-level data a template renders with, `{{foo}}` and
      `{{_parent.foo}}` (index.js:212-214): the call's data over the context
      over the back-reference to the context. */
  function TopLevelData(context: map<string, Value>, data: Value): (top: map<string, Value>)
    ensures top.Keys == {Parent} + context.Keys + Props(data).Keys
    ensures forall k :: k in Props(data) ==> top[k] == Props(data)[k]
    ensures forall k :: k in context && k !in Props(data) ==> top[k] == context[k]
    ensures Parent !in context && Parent !in Props(data) ==> top[Parent] == Obj(context)
  {
    map[Parent := Obj(context)] + context + Props(data)
  }

  /** The `data` template option (index.js:198-210): a copy of the given one
      with `@global` set from the given global data or else the context, and
      `@local` from the given local data or else the call's data, each over
      the back-reference to the context. */
  function PrivateData(context: map<string, Value>, given: map<string, Value>, data: Value): (d: map<string, Value>)
    ensures d.Keys == given.Keys + {"global", "local"}
    ensures forall k :: k in given && k != "global" && k != "local" ==> d[k] == given[k]
    ensures ParentView(context, if Truthy(Get(given, "global")) then Props(Get(given, "global")) else context, d["global"])
    ensures ParentView(context, if Truthy(Get(given, "local")) then Props(Get(given, "local")) else Props(data), d["local"])
  {
    var global := WithParent(context, Props(Or(Get(given, "global"), Obj(context))));
    var local := WithParent(context, Props(Or(Get(given, "local"), data)));
    given["global" := global]["local" := local]
  }

  /** The template options a render call passes on (index.js:193-210): the
      call's over the configured ones, with `data` rebuilt. */
  function RenderOptions(context: map<string, Value>, configOptions: map<string, Value>, data: Value, callOptions: Value): (opts: map<string, Value>)
    ensures opts.Keys == configOptions.Keys + Props(callOptions).Keys + {"data"}
    ensures forall k :: k != "data" && k in Props(callOptions) ==> opts[k] == Props(callOptions)[k]
    ensures forall k :: k != "data" && k !in Props(callOptions) && k in configOptions ==> opts[k] == configOptions[k]
    ensures opts["data"] == Obj(PrivateData(context, Props(Get(configOptions + Props(callOptions), "data")), data))
  {
    var options := configOptions + Props(callOptions);
    options["data" := Obj(PrivateData(context, Props(Get(options, "data")), data))]
  }

  /** The body of the render function (index.js:192-217), given the shared
      context and the configured template options. */
  function Compose(template: Template, context: map<string, Value>, configOptions: map<string, Value>,
                   data: Value, callOptions: Value): (inv: Invocation)
    ensures inv.template == template
    ensures inv.data.Keys == {Parent} + context.Keys + Props(data).Keys
    ensures forall k :: k in Props(data) ==> inv.data[k] == Props(data)[k]
    ensures forall k :: k in context && k !in Props(data) ==> inv.data[k] == context[k]
    ensures Parent !in context && Parent !in Props(data) ==> inv.data[Parent] == Obj(context)
    ensures "data" in inv.options && inv.options["data"].Obj?
    ensures var d := inv.options["data"].fields;
            "global" in d && "local" in d && d["global"].Obj? && d["local"].Obj?
  {
    Invocation(template, TopLevelData(context, data), RenderOptions(context, configOptions, data, callOptions))
  }

  /** The templates a partial batch registers when each file's template is
      keyed by `name` of its path: the files in order, reading a file that is
      not on `disk` throws, and a later file overwrites an earlier one of the
      same name. */
  function CompileNamed(files: seq<string>, disk: map<string, string>, name: string -> string): (r: Result<map<string, Template>>)
    ensures r.Ok? ==> forall n :: n in r.value ==>
              && r.value[n].Compiled? && r.value[n].options == map[]
              && exists f :: f in files && f in disk && name(f) == n && r.value[n].text == disk[f]
    ensures r.Err? ==> exists f :: f in files && f !in disk && r.error == NotFound(f)
    decreases |files|
  {
    if files == [] then Ok(map[])
    else
      match CompileNamed(files[..|files| - 1], disk, name)
      case Err(e) => Err(e)
      case Ok(compiled) =>
        var file := files[|files| - 1];
        if file in disk then Ok(compiled[name(file) := Compiled(disk[file], map[])])
        else Err(NotFound(file))
  }

  /** The compiled partials `partials` registers (index.js:135-151) for the
      files a pattern expanded to: each under the base name up to its first dot. */
  function PartialsOf(files: seq<string>, disk: map<string, string>): (r: Result<map<string, Template>>)
    ensures r.Ok? ==> forall n :: n in r.value ==> '.' !in n && '/' !in n
  {
    CompileNamed(files, disk, PartialName)
  }

  /** Once a prefix of the files has failed, the whole batch fails the same way. */
  lemma {:induction false} CompileNamedErrorSticks(files: seq<string>, disk: map<string, string>, name: string -> string, n: nat)
    requires n <= |files| && CompileNamed(files[..n], disk, name).Err?
    ensures CompileNamed(files, disk, name) == CompileNamed(files[..n], disk, name)
    decreases |files| - n
  {
    if n < |files| {
      assert files[..n + 1][..n] == files[..n];
      CompileNamedErrorSticks(files, disk, name, n + 1);
    } else {
      assert files[..n] == files;
    }
  }

  /** One more file: the batch over the first `i + 1` files from the batch
      over the first `i`. */
  lemma CompileNamedStep(files: seq<string>, disk: map<string, string>, name: string -> string, i: nat, compiled: map<string, Template>)
    requires i < |files| && CompileNamed(files[..i], disk, name) == Ok(compiled)
    ensures files[i] in disk ==>
              CompileNamed(files[..i + 1], disk, name) == Ok(compiled[name(files[i]) := Compiled(disk[files[i]], map[])])
    ensures files[i] !in disk ==> CompileNamed(files[..i + 1], disk, name) == Err(NotFound(files[i]))
  {
    assert files[..i + 1][..i] == files[..i];
  }

  class HandlebarsWax {
    const bustCache: bool
    const compileOptions: map<string, Value>
    const templateOptions: map<string, Value>
    /** The shared context; render functions read it when they are called. */
    var context: map<string, Value>
    /** Compiled templates by file path. */
    var cache: map<string, Template>

    /** `new HandlebarsWax(handlebars, options)` (index.js:114-133); a `null`
        option overlay is the empty map. */
    constructor (bustCache: bool, compileOptions: map<string, Value>, templateOptions: map<string, Value>)
      ensures this.bustCache == bustCache
      ensures this.compileOptions == compileOptions && this.templateOptions == templateOptions
      ensures context == map[] && cache == map[]
    {
      this.bustCache := bustCache;
      this.compileOptions := compileOptions;
      this.templateOptions := templateOptions;
      context := map[];
      cache := map[];
    }

    /** `data(source)` (index.js:173-180): the source resolved without a name
        generator is merged into the context; if resolving throws, the context
        is left as it was. */
    method Data(source: Value, invoke: Invoker, globbed: Result<map<string, Value>>) returns (err: Option<Error>)
      modifies this`context
      ensures var resolved := ResolveValue(NoNamer, source, invoke, globbed);
              && (resolved.Ok? ==> err == None && MergedInto(old(context), resolved.value, context))
              && (resolved.Err? ==> err == Some(resolved.error) && context == old(context))
    {
      var resolved := ResolveValue(NoNamer, source, invoke, globbed);
      if resolved.Err? {
        return Some(resolved.error);
      }
      context := context + resolved.value;
      err := None;
    }

    /** `compile(template, compileOptions)` up to the returned closure
        (index.js:182-190): text is compiled with the call's options over the
        configured ones; a compiled template is used as it is. */
    function Compile(source: TemplateSource, options: map<string, Value>): (t: Template)
      ensures source.Function? ==> t == Precompiled(source.id)
      ensures source.Text? ==> t.Compiled? && t.text == source.text && MergedInto(compileOptions, options, t.options)
    {
      match source
      case Function(id) => Precompiled(id)
      case Text(text) => Compiled(text, compileOptions + options)
    }

    /** Calling the render function `compile` returned: it closes over the
        context object itself, so it sees the context as it is now. */
    function Render(template: Template, data: Value, options: Value): (inv: Invocation)
      reads this
      ensures inv.template == template
      ensures inv.data.Keys == {Parent} + context.Keys + Props(data).Keys
      ensures forall k :: k in Props(data) ==> inv.data[k] == Props(data)[k]
      ensures forall k :: k in context && k !in Props(data) ==> inv.data[k] == context[k]
    {
      Compose(template, context, templateOptions, data, options)
    }

    /** `engine(file, data, callback)` (index.js:220-240), with the callback's
        arguments as the result: `Ok(output)` for `callback(null, output)`,
        `Err(e)` for `callback(e)`. */
    method Engine(file: string, data: Value, disk: map<string, string>, execute: Executor) returns (outcome: Result<string>)
      modifies this`cache
      ensures file in old(cache) && !bustCache ==>
                cache == old(cache) && outcome == execute(Render(old(cache)[file], data, Falsy))
      ensures !(file in old(cache) && !bustCache) && file !in disk ==>
                cache == old(cache) && outcome == Err(NotFound(file))
      ensures !(file in old(cache) && !bustCache) && file in disk ==>
                && cache == old(cache)[file := Compile(Text(disk[file]), map[])]
                && outcome == execute(Render(cache[file], data, Falsy))
    {
      var template: Template;
      if file in cache && !bustCache {
        template := cache[file];
      } else {
        if file !in disk {
          return Err(NotFound(file));
        }
        template := Compile(Text(disk[file]), map[]);
        cache := cache[file := template];
      }
      outcome := execute(Render(template, data, Falsy));
    }

    /** `partials(pattern)` (index.js:135-151) over the files the pattern
        expanded to: what it hands to `registerPartial`, or the error that
        stopped it. */
    method Partials(files: seq<string>, disk: map<string, string>) returns (r: Result<map<string, Template>>)
      ensures r == PartialsOf(files, disk)
    {
      var compiled: map<string, Template> := map[];
      var i := 0;
      while i < |files|
        invariant 0 <= i <= |files|
        invariant PartialsOf(files[..i], disk) == Ok(compiled)
      {
        var file := files[i];
        CompileNamedStep(files, disk, PartialName, i, compiled);
        if file !in disk {
          CompileNamedErrorSticks(files, disk, PartialName, i + 1);
          return Err(NotFound(file));
        }
        compiled := compiled[PartialName(file) := Compiled(disk[file], map[])];
        i := i + 1;
      }
      assert files[..i] == files;
      r := Ok(compiled);
    }
  }
}
