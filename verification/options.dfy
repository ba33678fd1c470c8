/**
 * The router factory's option defaulting: the caller's options bag is copied
 * over a fresh object holding the two defaults, `Object.assign`-style.
 */
module RouterOptions {
  import opened JsValues

  /** An options bag: its own enumerable properties. A missing bag (`undefined`) is the empty map. */
  type Options = map<string, JsValue>

  const ForeignKeySuffixKey: string := "foreignKeySuffix"
  const IsFakeKey: string := "_isFake"

  /** The bag holding only the defaults. */
  const Defaults: Options := map[ForeignKeySuffixKey := Str("Id"), IsFakeKey := Bool(false)]

  /**
   * `Object.assign({ foreignKeySuffix: 'Id', _isFake: false }, opts)`: every
   * caller-supplied property wins, even one whose value is `undefined`; the
   * two defaults fill in only the keys the caller left out.
   */
  function WithDefaults(opts: Options): (r: Options)
    ensures r.Keys == opts.Keys + {ForeignKeySuffixKey, IsFakeKey}
    ensures forall k :: k in opts ==> r[k] == opts[k]
    ensures ForeignKeySuffixKey !in opts ==> r[ForeignKeySuffixKey] == Str("Id")
    ensures IsFakeKey !in opts ==> r[IsFakeKey] == Bool(false)
  {
    Defaults + opts
  }

  /** Defaulting an already defaulted bag changes nothing. */
  lemma WithDefaultsIdempotent(opts: Options)
    ensures WithDefaults(WithDefaults(opts)) == WithDefaults(opts)
  {
  }
}
