/** Properties of the reducer and the resolver: what each file contributes,
    last-write-wins across a batch, and when a batch fails. */
module ReduceProperties {
  import opened Values
  import opened Keygen
  import opened Reduce

  /** What one file writes into the accumulator, stated per export shape
      independently of the reducer: nothing for a falsy export, the hook's
      result for a registration hook, the object for a plain object, and the
      export under its key for a leaf. */
  function Contribution(namer: Namer, file: FileRecord, invoke: Invoker): map<string, Value> {
    match file.exports
    case Falsy => map[]
    case Obj(fields) =>
      if HasRegister(file.exports) then Props(invoke(fields["register"].id)) else fields
    case _ =>
      match GenerateKey(namer, file)
      case Ok(key) => map[key := file.exports]
      case Err(_) => map[]
  }

  /** A successful reducer step is exactly the shallow merge of the file's
      contribution. */
  lemma ReduceStepMergesContribution(namer: Namer, acc: map<string, Value>, file: FileRecord, invoke: Invoker)
    requires ReduceStep(namer, acc, file, invoke).Ok?
    ensures MergedInto(acc, Contribution(namer, file, invoke), ReduceStep(namer, acc, file, invoke).value)
  {
    if IsLeaf(file.exports) {
      LeafMergesContribution(namer, acc, file, invoke);
    } else {
      ShapeMergesContribution(namer, acc, file, invoke);
    }
  }

  lemma LeafMergesContribution(namer: Namer, acc: map<string, Value>, file: FileRecord, invoke: Invoker)
    requires ReduceStep(namer, acc, file, invoke).Ok? && IsLeaf(file.exports)
    ensures MergedInto(acc, Contribution(namer, file, invoke), ReduceStep(namer, acc, file, invoke).value)
  {
    var key := GenerateKey(namer, file).value;
    assert ReduceStep(namer, acc, file, invoke).value == acc[key := file.exports];
    assert Contribution(namer, file, invoke) == map[key := file.exports];
    MergeOneKey(acc, key, file.exports);
  }

  lemma ShapeMergesContribution(namer: Namer, acc: map<string, Value>, file: FileRecord, invoke: Invoker)
    requires ReduceStep(namer, acc, file, invoke).Ok? && !IsLeaf(file.exports)
    ensures MergedInto(acc, Contribution(namer, file, invoke), ReduceStep(namer, acc, file, invoke).value)
  {
  }

  /** Folding over two batches in a row is folding over their concatenation. */
  lemma {:induction false} ReduceAllAppend(namer: Namer, acc: map<string, Value>, xs: seq<FileRecord>, ys: seq<FileRecord>, invoke: Invoker)
    ensures ReduceAll(namer, acc, xs + ys, invoke) ==
            match ReduceAll(namer, acc, xs, invoke)
            case Err(e) => Err(e)
            case Ok(mid) => ReduceAll(namer, mid, ys, invoke)
    decreases |xs|
  {
    if xs == [] {
      assert xs + ys == ys;
    } else {
      assert (xs + ys)[0] == xs[0] && (xs + ys)[1..] == xs[1..] + ys;
      match ReduceStep(namer, acc, xs[0], invoke)
      case Err(e) =>
      case Ok(next) => ReduceAllAppend(namer, next, xs[1..], ys, invoke);
    }
  }

  /** A batch fails exactly when one of its leaf exports has no key: with no
      name generator (data) any leaf fails, with one only a path-less record. */
  lemma {:induction false} ReduceAllFailsOnlyOnUnnamedLeaves(namer: Namer, acc: map<string, Value>, files: seq<FileRecord>, invoke: Invoker)
    ensures ReduceAll(namer, acc, files, invoke).Ok? <==>
            forall i :: 0 <= i < |files| && IsLeaf(files[i].exports) ==> GenerateKey(namer, files[i]).Ok?
    decreases |files|
  {
    if files != [] {
      match ReduceStep(namer, acc, files[0], invoke)
      case Err(e) =>
      case Ok(next) =>
        ReduceAllFailsOnlyOnUnnamedLeaves(namer, next, files[1..], invoke);
        assert forall i :: 1 <= i < |files| ==> files[i] == files[1..][i - 1];
    }
  }

  /** A key that no file of the batch writes keeps its value and its presence. */
  lemma {:induction false} ReduceAllUntouched(namer: Namer, acc: map<string, Value>, files: seq<FileRecord>, invoke: Invoker, k: string)
    requires ReduceAll(namer, acc, files, invoke).Ok?
    requires forall i :: 0 <= i < |files| ==> k !in Contribution(namer, files[i], invoke)
    ensures k in ReduceAll(namer, acc, files, invoke).value <==> k in acc
    ensures k in acc ==> ReduceAll(namer, acc, files, invoke).value[k] == acc[k]
    decreases |files|
  {
    if files != [] {
      var next := ReduceStep(namer, acc, files[0], invoke).value;
      ReduceStepMergesContribution(namer, acc, files[0], invoke);
      assert forall i :: 0 <= i < |files| - 1 ==> files[1..][i] == files[i + 1];
      ReduceAllUntouched(namer, next, files[1..], invoke, k);
    }
  }

  /** Last write wins: a key takes the value contributed by the last file of
      the batch that writes it. */
  lemma LastWriterWins(namer: Namer, acc: map<string, Value>, files: seq<FileRecord>, invoke: Invoker, i: nat, k: string)
    requires ReduceAll(namer, acc, files, invoke).Ok?
    requires i < |files| && k in Contribution(namer, files[i], invoke)
    requires forall j :: i < j < |files| ==> k !in Contribution(namer, files[j], invoke)
    ensures k in ReduceAll(namer, acc, files, invoke).value
    ensures ReduceAll(namer, acc, files, invoke).value[k] == Contribution(namer, files[i], invoke)[k]
  {
    var before, here, after := files[..i], files[i], files[i + 1..];
    assert files == before + ([here] + after);
    ReduceAllAppend(namer, acc, before, [here] + after, invoke);
    var mid := ReduceAll(namer, acc, before, invoke).value;
    assert ([here] + after)[0] == here && ([here] + after)[1..] == after;
    var next := ReduceStep(namer, mid, here, invoke).value;
    ReduceStepMergesContribution(namer, mid, here, invoke);
    assert forall j :: 0 <= j < |after| ==> after[j] == files[i + 1 + j];
    ReduceAllUntouched(namer, next, after, invoke, k);
  }

  /** The helper and decorator key generators agree on every record. */
  lemma SameKeysForHelpersAndDecorators()
    ensures forall file :: HelperKey(file) == DecoratorKey(file)
  {
  }

  /** Two name generators that agree on every record reduce every batch alike. */
  lemma {:induction false} ReduceAllSameKeys(k1: KeyGenerator, k2: KeyGenerator, acc: map<string, Value>, files: seq<FileRecord>, invoke: Invoker)
    requires forall file :: k1(file) == k2(file)
    ensures ReduceAll(Some(k1), acc, files, invoke) == ReduceAll(Some(k2), acc, files, invoke)
    decreases |files|
  {
    if files != [] {
      assert GenerateKey(Some(k1), files[0]) == GenerateKey(Some(k2), files[0]);
      match ReduceStep(Some(k1), acc, files[0], invoke)
      case Err(e) =>
      case Ok(next) => ReduceAllSameKeys(k1, k2, next, files[1..], invoke);
    }
  }

  /** Decorators are registered under exactly the names and values helpers
      would be, from the same source. */
  lemma DecoratorsRegisterLikeHelpers(source: Value, invoke: Invoker, files: seq<FileRecord>)
    ensures DecoratorRegistrations(source, invoke, files) == HelperRegistrations(source, invoke, files)
  {
    SameKeysForHelpersAndDecorators();
    ReduceAllSameKeys(HelperKey, DecoratorKey, map[], files, invoke);
  }

  /** Resolution never fails except through the glob branch. */
  lemma ResolveFailsOnlyThroughGlob(namer: Namer, source: Value, invoke: Invoker, globbed: Result<map<string, Value>>)
    ensures ResolveValue(namer, source, invoke, globbed).Err? ==> source.Other? && globbed.Err?
  {
  }

  /** A hook's result is what a record contributes, whatever key its file
      would have had: the hook takes precedence over the object carrying it. */
  lemma RegisterHookIgnoresFileName(namer: Namer, path: string, base: string, fields: map<string, Value>, invoke: Invoker)
    requires HasRegister(Obj(fields))
    ensures Contribution(namer, FileRecord(path, base, Obj(fields)), invoke) == Props(invoke(fields["register"].id))
  {
  }
}
