/** Result shaping: the zero/one/many classifier every `find` callback
    applies, and the flattening of a certificate record's `certs` bundle. */
module Results {
  import opened Values
  import opened Lodash
  import opened Store

  /** What a `find` callback must pass on, read from the outcome's side:
      an error exactly when the store reported one; `null` exactly when
      there is no list or an empty one; a single value exactly when there is
      one match, and then it is that match's projection; otherwise the raw
      list of two or more matches. Nothing is ever thrown. */
  ghost predicate TriState<T>(reply: FindReply, project: Doc -> T, out: Completion<Lookup<T>>) {
    && !out.Threw?
    && (out.Failed? <==> reply.err.Some?)
    && (out.Failed? ==> out.error == reply.err.value)
    && (out.Done? && out.value.NotFound? <==>
          reply.err.None? && (reply.results.None? || |reply.results.value| == 0))
    && (out.Done? && out.value.Found? <==>
          reply.err.None? && reply.results.Some? && |reply.results.value| == 1)
    && (out.Done? && out.value.Found? ==> out.value.value == project(reply.results.value[0]))
    && (out.Done? && out.value.Ambiguous? ==>
          reply.results == Some(out.value.matches) && |out.value.matches| >= 2)
  }

  /** The callback `(err, results) => …` of every lookup, with `project`
      applied to a single match. */
  function Classify<T>(reply: FindReply, project: Doc -> T): (out: Completion<Lookup<T>>)
    ensures TriState(reply, project, out)
  {
    if reply.err.Some? then Failed(reply.err.value)
    else if reply.results.Some? && |reply.results.value| == 1 then Done(Found(project(reply.results.value[0])))
    else if reply.results.Some? && |reply.results.value| > 1 then Done(Ambiguous(reply.results.value))
    else Done(NotFound)
  }

  /** The fields a record's `certs` value contributes when hoisted. */
  function Hoisted(d: Doc): (h: Doc)
    ensures Get(d, "certs").Obj? ==> h == d["certs"].fields
    ensures !Truthy(Get(d, "certs")) ==> h == map[]
  {
    OwnEnumerable(Get(d, "certs"))
  }

  /** `_.omit(_.extend({}, d, d.certs), "certs")`: the fields of `certs`
      move to the top level, overriding same-named fields, and `certs`
      itself goes. */
  function Flatten(d: Doc): (f: Doc)
    ensures "certs" !in f
    ensures forall k :: k in Hoisted(d) && k != "certs" ==> k in f && f[k] == Hoisted(d)[k]
    ensures forall k :: k !in Hoisted(d) && k != "certs" ==>
              (k in f <==> k in d) && (k in f ==> f[k] == d[k])
  {
    Omit(Extend(Extend(map[], d), Hoisted(d)), "certs")
  }

  /** Puts the fields named in `certKeys` back under `certs`. */
  function Nest(f: Doc, certKeys: set<string>): Doc {
    (f - certKeys)["certs" := Obj(map k | k in certKeys && k in f :: f[k])]
  }

  /** Flattening loses nothing when the bundle is an object whose field
      names clash neither with the record's fields nor with "certs":
      nesting the hoisted fields again gives back the record. */
  lemma NestFlatten(d: Doc, c: Doc)
    requires "certs" in d && d["certs"] == Obj(c)
    requires "certs" !in c
    requires forall k :: k in c ==> k !in d
    ensures Nest(Flatten(d), c.Keys) == d
  {
    var f := Flatten(d);
    assert Hoisted(d) == c;
    var inner := map k | k in c.Keys && k in f :: f[k];
    assert inner == c;
    var n := Nest(f, c.Keys);
    assert n.Keys == d.Keys;
    forall k | k in d
      ensures n[k] == d[k]
    {
    }
  }
}
