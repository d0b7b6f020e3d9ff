/** JavaScript values as the wax layer sees them, errors it can raise, and
    the shallow merge performed by `Object.assign`. */
module Values {

  /** A JavaScript value, reduced to the four shapes the reducer and the
      resolver tell apart. A function is known only by an identity; calling it
      is a parameter of the operations that do so. */
  datatype Value =
    | Falsy                                // undefined, null, false, 0, '', NaN
    | Func(id: nat)                        // a callable value
    | Obj(fields: map<string, Value>)      // a plain object: '[object Object]'
    | Other(id: nat)                       // any other truthy leaf: string, number, array, ...

  /** The exceptions raised by the modelled code or by the collaborators it calls. */
  datatype Error =
    | KeygenNotAFunction         // `options.keygen(...)` when no name generator is configured
    | InvalidPath                // a name generator handed a file record without a path
    | NotFound(path: string)     // `fs.readFileSync` of a file that cannot be read
    | TemplateFailed(why: nat)   // a compiled template that throws while rendering

  datatype Result<+T> = Ok(value: T) | Err(error: Error)

  datatype Option<+T> = None | Some(value: T)

  /** JavaScript truthiness. */
  predicate Truthy(v: Value)
    ensures v.Obj? || v.Func? ==> Truthy(v)
    ensures Truthy(v) <==> v != Falsy
  {
    !v.Falsy?
  }

  /** `a || b` */
  function Or(a: Value, b: Value): (r: Value)
    ensures Truthy(a) ==> r == a
    ensures !Truthy(a) ==> r == b
  {
    if a.Falsy? then b else a
  }

  /** The own enumerable properties `Object.assign` copies out of a source:
      those of a plain object; nothing from a falsy value, a function or a leaf. */
  function Props(v: Value): (m: map<string, Value>)
    ensures v.Obj? ==> m == v.fields
    ensures !v.Obj? ==> m == map[]
  {
    if v.Obj? then v.fields else map[]
  }

  /** Property lookup: a missing key reads as `undefined`. */
  function Get(m: map<string, Value>, k: string): (v: Value)
    ensures k in m ==> v == m[k]
    ensures k !in m ==> v == Falsy
  {
    if k in m then m[k] else Falsy
  }

  /** `out` is `Object.assign(target, src)`: every key of both, the source's
      value wherever it has the key, the target's value elsewhere. */
  ghost predicate MergedInto<V>(target: map<string, V>, src: map<string, V>, out: map<string, V>) {
    && out.Keys == target.Keys + src.Keys
    && (forall k :: k in src ==> out[k] == src[k])
    && (forall k :: k in target && k !in src ==> out[k] == target[k])
  }

  /** Map union in Dafny is exactly `Object.assign` on plain objects: a
      result described by MergedInto is the union and nothing else, so every
      contract stated with MergedInto fixes its result. */
  lemma MergedIntoIsUnion<V>(target: map<string, V>, src: map<string, V>, out: map<string, V>)
    ensures MergedInto(target, src, out) <==> out == target + src
  {
  }

  /** Setting one property is merging a one-key object. */
  lemma MergeOneKey<V>(target: map<string, V>, key: string, v: V)
    ensures MergedInto(target, map[key := v], target[key := v])
  {
  }

  /** Merging into a fresh `{}` copies the source. */
  lemma MergeIntoEmpty<V>()
    ensures forall src: map<string, V> :: map[] + src == src
  {
  }
}
