/** The three lodash object helpers the adapter combines documents with,
    as pure functions on maps. Where the adapter mutates its first argument
    (`_.defaults(opts, …)`, `_.extend(opts, …)`), the caller takes the
    returned map as the new `opts`. */
module Lodash {
  import opened Values

  /** `_.defaults(target, source)`: a key of `source` is copied only where
      `target[key]` is `undefined`; every other key keeps its value. */
  function Defaults(target: Doc, source: Doc): (r: Doc)
    ensures r.Keys == target.Keys + source.Keys
    ensures forall k :: k in target && !target[k].Undefined? ==> r[k] == target[k]
    ensures forall k :: k in source && Get(target, k).Undefined? ==> r[k] == source[k]
    ensures forall k :: k in target && k !in source ==> r[k] == target[k]
  {
    map k | k in target.Keys + source.Keys ::
      if k in source && Get(target, k).Undefined? then source[k] else target[k]
  }

  /** `_.extend(target, source)` (`assignIn`): every key of `source` is
      written, so the later source wins on a shared key. */
  function Extend(target: Doc, source: Doc): (r: Doc)
    ensures forall k :: k in r <==> k in target || k in source
    ensures forall k :: k in r ==> r[k] == if k in source then source[k] else target[k]
  {
    target + source
  }

  /** `_.omit(d, key)`, and equally `delete d[key]`: exactly `key` goes. */
  function Omit(d: Doc, key: string): (r: Doc)
    ensures r.Keys == d.Keys - {key}
    ensures forall k :: k in r ==> r[k] == d[k]
  {
    d - {key}
  }

  /** Applying the same defaults twice changes nothing the first did not. */
  lemma DefaultsIdempotent(target: Doc, source: Doc)
    ensures Defaults(Defaults(target, source), source) == Defaults(target, source)
  {
  }

  /** On a target with no `undefined` values, defaults is extend with the
      roles swapped: the target's own values win. */
  lemma DefaultsIsReversedExtend(target: Doc, source: Doc)
    requires forall k :: k in target ==> !target[k].Undefined?
    ensures Defaults(target, source) == Extend(source, target)
  {
  }

  /** Extending again by the same source is a no-op. */
  lemma ExtendIdempotent(target: Doc, source: Doc)
    ensures Extend(Extend(target, source), source) == Extend(target, source)
  {
  }
}
