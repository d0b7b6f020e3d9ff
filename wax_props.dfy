/** Properties of the facade: the partial batch, and what callers of one or
    two facade instances can rely on across calls. */
module WaxProperties {
  import opened Values
  import opened Keygen
  import opened Reduce
  import opened Wax

  /** The batch over all but the last file, and the step that adds the last one. */
  lemma CompileNamedSnoc(files: seq<string>, disk: map<string, string>, name: string -> string)
    requires files != []
    ensures var init, last := files[..|files| - 1], files[|files| - 1];
            CompileNamed(files, disk, name) ==
              match CompileNamed(init, disk, name)
              case Err(e) => Err(e)
              case Ok(compiled) =>
                if last in disk then Ok(compiled[name(last) := Compiled(disk[last], map[])])
                else Err(NotFound(last))
  {
  }

  /** Every file of a sequence is on disk exactly when every file but the last
      is, and the last one is. */
  lemma AllReadableSnoc(files: seq<string>, disk: map<string, string>)
    requires files != []
    ensures var init := files[..|files| - 1];
            (forall i :: 0 <= i < |files| ==> files[i] in disk) <==>
            (forall i :: 0 <= i < |init| ==> init[i] in disk) && files[|files| - 1] in disk
  {
    var init := files[..|files| - 1];
    if forall i :: 0 <= i < |init| ==> init[i] in disk {
      if files[|files| - 1] in disk {
        forall i | 0 <= i < |files|
          ensures files[i] in disk
        {
          if i < |init| {
            assert files[i] == init[i];
          }
        }
      }
    }
  }

  /** A batch succeeds exactly when every file can be read, whatever the names. */
  lemma {:induction false} CompileNamedSucceedsIffReadable(files: seq<string>, disk: map<string, string>, name: string -> string)
    ensures CompileNamed(files, disk, name).Ok? <==> forall i :: 0 <= i < |files| ==> files[i] in disk
    decreases |files|
  {
    if files != [] {
      var init := files[..|files| - 1];
      CompileNamedSucceedsIffReadable(init, disk, name);
      CompileNamedSnoc(files, disk, name);
      AllReadableSnoc(files, disk);
    }
  }

  /** A partial batch succeeds exactly when every file it expanded to can be read. */
  lemma PartialsSucceedIffReadable(files: seq<string>, disk: map<string, string>)
    ensures PartialsOf(files, disk).Ok? <==> forall i :: 0 <= i < |files| ==> files[i] in disk
  {
    CompileNamedSucceedsIffReadable(files, disk, PartialName);
  }

  /** A failed batch reports the first file that cannot be read. */
  lemma {:induction false} CompileNamedReportsFirstMissing(files: seq<string>, disk: map<string, string>, name: string -> string)
    requires CompileNamed(files, disk, name).Err?
    ensures exists i :: && 0 <= i < |files| && files[i] !in disk
                        && CompileNamed(files, disk, name).error == NotFound(files[i])
                        && forall j :: 0 <= j < i ==> files[j] in disk
    decreases |files|
  {
    var init := files[..|files| - 1];
    CompileNamedSnoc(files, disk, name);
    if CompileNamed(init, disk, name).Err? {
      CompileNamedReportsFirstMissing(init, disk, name);
      var i :| && 0 <= i < |init| && init[i] !in disk
               && CompileNamed(init, disk, name).error == NotFound(init[i])
               && forall j :: 0 <= j < i ==> init[j] in disk;
      assert forall j :: 0 <= j <= i ==> files[j] == init[j];
    } else {
      CompileNamedSucceedsIffReadable(init, disk, name);
      var i := |files| - 1;
      assert forall j :: 0 <= j < i ==> files[j] == init[j];
      assert files[i] !in disk;
    }
  }

  /** The names of a sequence of files are those of all but the last, and the last one's. */
  lemma NamesSnoc(files: seq<string>, name: string -> string)
    requires files != []
    ensures var init := files[..|files| - 1];
            (set i | 0 <= i < |files| :: name(files[i]))
              == (set i | 0 <= i < |init| :: name(init[i])) + {name(files[|files| - 1])}
  {
    var init := files[..|files| - 1];
    var all := set i | 0 <= i < |files| :: name(files[i]);
    var front := set i | 0 <= i < |init| :: name(init[i]);
    forall n | n in all
      ensures n in front || n == name(files[|files| - 1])
    {
      var i :| 0 <= i < |files| && n == name(files[i]);
      if i < |init| {
        assert files[i] == init[i];
      }
    }
    forall n | n in front
      ensures n in all
    {
      var i :| 0 <= i < |init| && n == name(init[i]);
      assert files[i] == init[i];
    }
    assert name(files[|files| - 1]) in all;
  }

  /** A successful batch registers one template per distinct name of its files. */
  lemma {:induction false} CompileNamedKeys(files: seq<string>, disk: map<string, string>, name: string -> string)
    requires CompileNamed(files, disk, name).Ok?
    ensures CompileNamed(files, disk, name).value.Keys == set i | 0 <= i < |files| :: name(files[i])
    decreases |files|
  {
    if files != [] {
      var init := files[..|files| - 1];
      CompileNamedSnoc(files, disk, name);
      CompileNamedKeys(init, disk, name);
      NamesSnoc(files, name);
    }
  }

  /** A successful partial batch registers one partial per distinct base name. */
  lemma PartialsNames(files: seq<string>, disk: map<string, string>)
    requires PartialsOf(files, disk).Ok?
    ensures PartialsOf(files, disk).value.Keys == set i | 0 <= i < |files| :: PartialName(files[i])
  {
    CompileNamedKeys(files, disk, PartialName);
  }

  /** Two files of one name: the later one's template wins. */
  lemma {:induction false} CompileNamedLastWins(files: seq<string>, disk: map<string, string>, name: string -> string, i: nat)
    requires CompileNamed(files, disk, name).Ok?
    requires i < |files|
    requires forall j :: i < j < |files| ==> name(files[j]) != name(files[i])
    ensures files[i] in disk
    ensures name(files[i]) in CompileNamed(files, disk, name).value
    ensures CompileNamed(files, disk, name).value[name(files[i])] == Compiled(disk[files[i]], map[])
    decreases |files|
  {
    var init := files[..|files| - 1];
    CompileNamedSnoc(files, disk, name);
    if i < |files| - 1 {
      assert init[i] == files[i];
      assert forall j :: i < j < |init| ==> init[j] == files[j];
      CompileNamedLastWins(init, disk, name, i);
      assert name(files[|files| - 1]) != name(files[i]);
    }
  }

  /** Two partial files with the same base name: the later one's template wins. */
  lemma PartialsLastWins(files: seq<string>, disk: map<string, string>, i: nat)
    requires PartialsOf(files, disk).Ok?
    requires i < |files|
    requires forall j :: i < j < |files| ==> PartialName(files[j]) != PartialName(files[i])
    ensures files[i] in disk
    ensures PartialName(files[i]) in PartialsOf(files, disk).value
    ensures PartialsOf(files, disk).value[PartialName(files[i])] == Compiled(disk[files[i]], map[])
  {
    CompileNamedLastWins(files, disk, PartialName, i);
  }

  /** With cache busting off, a second render of the same file uses the
      template compiled the first time, even after the file changed on disk. */
  method CachedTemplateSurvivesEdit(file: string, first: string, second: string, data: Value, execute: Executor)
    returns (before: Result<string>, after: Result<string>)
    ensures before == execute(Compose(Compiled(first, map[]), map[], map[], data, Falsy))
    ensures after == before
  {
    var wax := new HandlebarsWax(false, map[], map[]);
    MergeIntoEmpty<Value>();
    before := wax.Engine(file, data, map[file := first], execute);
    after := wax.Engine(file, data, map[file := second], execute);
  }

  /** With cache busting on, every render reads and compiles the file afresh. */
  method BustedCacheRereads(file: string, first: string, second: string, data: Value, execute: Executor)
    returns (before: Result<string>, after: Result<string>)
    ensures before == execute(Compose(Compiled(first, map[]), map[], map[], data, Falsy))
    ensures after == execute(Compose(Compiled(second, map[]), map[], map[], data, Falsy))
  {
    var wax := new HandlebarsWax(DefaultBustCache, map[], map[]);
    MergeIntoEmpty<Value>();
    before := wax.Engine(file, data, map[file := first], execute);
    after := wax.Engine(file, data, map[file := second], execute);
  }

  /** A file that cannot be read is reported once, as an error with no output,
      and leaves nothing in the cache. */
  method MissingTemplateIsReported(file: string, data: Value, execute: Executor, bustCache: bool)
    returns (outcome: Result<string>, cached: bool)
    ensures outcome == Err(NotFound(file))
    ensures !cached
  {
    var wax := new HandlebarsWax(bustCache, map[], map[]);
    outcome := wax.Engine(file, data, map[], execute);
    cached := file in wax.cache;
  }

  /** A render function compiled before a `data` call still sees what that
      call added: it reads the shared context when it runs. */
  method RenderSeesLaterData(key: string, value: Value, text: string, data: Value)
    returns (inv: Invocation)
    requires !HasRegister(Obj(map[key := value]))
    ensures key != Parent && key !in Props(data) ==> key in inv.data && inv.data[key] == value
    ensures forall k :: k in Props(data) ==> k in inv.data && inv.data[k] == Props(data)[k]
  {
    var wax := new HandlebarsWax(DefaultBustCache, map[], map[]);
    var template := wax.Compile(Text(text), map[]);
    var err := wax.Data(Obj(map[key := value]), _ => Falsy, Ok(map[]));
    inv := wax.Render(template, data, Falsy);
  }

  /** Two facade instances do not share a context. */
  method InstancesAreIndependent(source: Value, invoke: Invoker, globbed: Result<map<string, Value>>)
    returns (first: map<string, Value>, second: map<string, Value>)
    ensures ResolveValue(NoNamer, source, invoke, globbed).Ok? ==> first == ResolveValue(NoNamer, source, invoke, globbed).value
    ensures second == map[]
  {
    var one := new HandlebarsWax(DefaultBustCache, map[], map[]);
    var two := new HandlebarsWax(DefaultBustCache, map[], map[]);
    var err := one.Data(source, invoke, globbed);
    first, second := one.context, two.context;
  }
}
