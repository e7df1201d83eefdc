/** The constructor's configuration: `Object.assign` of the caller's object
    over the defaults `{lineWidth: 6, color: '#black'}`. Keys are property
    names; values are the strings and numbers the `config` interface allows. */
module Config {

  datatype Value = Num(n: int) | Str(s: string)

  type Config = map<string, Value>

  /** The defaults `{lineWidth: 6, color: '#black'}`; `'#black'` is not a
      valid CSS colour. */
  const Defaults: Config := map["lineWidth" := Num(6), "color" := Str("#black")]

  /** Copy every caller key over the defaults. */
  function Merge(caller: Config): (r: Config)
    ensures r.Keys == caller.Keys + {"lineWidth", "color"}
    ensures forall k :: k in caller ==> r[k] == caller[k]
    ensures "lineWidth" !in caller ==> r["lineWidth"] == Num(6)
    ensures "color" !in caller ==> r["color"] == Str("#black")
  {
    Defaults + caller
  }

  /** Merging is a closure: defaults applied to an already merged
      configuration change nothing, and merging nothing yields the defaults. */
  lemma MergeIdempotent(caller: Config)
    ensures Merge(Merge(caller)) == Merge(caller)
    ensures Merge(map[]) == Defaults
  {
  }

  /** The merge is determined key by key: a merged configuration agrees
      with any map that keeps the caller's keys and defaults the rest. */
  lemma MergeUnique(caller: Config, m: Config)
    requires m.Keys == caller.Keys + Defaults.Keys
    requires forall k :: k in caller ==> m[k] == caller[k]
    requires forall k :: k in Defaults && k !in caller ==> m[k] == Defaults[k]
    ensures m == Merge(caller)
  {
  }
}
