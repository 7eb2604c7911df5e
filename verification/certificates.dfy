/** The certificate repository: the four operations on the "certificates"
    collection, in the same shape as the account repository. */
module Certificates {
  import opened Values
  import opened Lodash
  import opened Store
  import opened Query
  import opened Results

  /** `opts.domains[0]` evaluated eagerly by `setKeypair`; it throws when
      `opts.domains` is null or undefined. */
  function DomainZeroQuery(opts: Doc): (q: Option<Doc>)
    ensures q.None? <==> Nullish(Get(opts, "domains"))
    ensures q.Some? ==> q.value == map["domains.0" := ElementZero(Get(opts, "domains")).value]
  {
    match ElementZero(Get(opts, "domains"))
    case None => None
    case Some(first) => Some(map["domains.0" := first])
  }

  /** `_.defaults(opts, {certs: bundle})`: a bundle already in `opts` stays. */
  function WithCerts(opts: Doc, bundle: Value): (doc: Doc)
    ensures doc.Keys == opts.Keys + {"certs"}
    ensures doc["certs"] == (if Get(opts, "certs").Undefined? then bundle else opts["certs"])
    ensures forall k :: k in opts && k != "certs" ==> doc[k] == opts[k]
  {
    Defaults(opts, map["certs" := bundle])
  }

  /** `certificates.setKeypair(opts, keypair, cb)` as written: the update's
      completion callback declares no parameter yet reads `err`; no
      enclosing scope binds `err`, so the read throws a ReferenceError
      instead of returning. */
  function SetKeypairAsWritten(opts: Doc, keypair: Value, err: Option<StoreError>): (r: UpdateCall<Value>)
    ensures r.write.None? <==> Nullish(Get(opts, "domains"))
    ensures r.write.None? ==> r.outcome == Threw(TypeError) && r.opts == opts
    ensures r.write.Some? ==> r.outcome == Threw(ReferenceError("err"))
  {
    match DomainZeroQuery(opts)
    case None => UpdateCall(None, opts, Threw(TypeError))
    case Some(_) =>
      var doc := WithCerts(opts, keypair);
      UpdateCall(Some(Write(Match(doc), doc, Upsert)), doc, Threw(ReferenceError("err")))
  }

  /** As written, `setKeypair({domains: ["a.com"]}, keypair)` never hands
      the keypair back, even when the store succeeds; the corrected
      operation does. */
  lemma SetKeypairAsWrittenNeverReturns(keypair: Value)
    ensures var opts := map["domains" := Arr([Str("a.com")])];
      && SetKeypairAsWritten(opts, keypair, None).outcome == Threw(ReferenceError("err"))
      && SetKeypair(opts, keypair, None).outcome == Done(keypair)
  {
  }

  /** `certificates.setKeypair(opts, keypair, cb)` with the callback taking
      the `err` it reads. The "domains.0" query is still only evaluated (and
      throws on missing domains); the predicate and the document are the
      same object, `opts` after the defaults. */
  function SetKeypair(opts: Doc, keypair: Value, err: Option<StoreError>): (r: UpdateCall<Value>)
    ensures r.write.None? <==> Nullish(Get(opts, "domains"))
    ensures r.write.None? ==> r.outcome == Threw(TypeError) && r.opts == opts
    ensures r.write.Some? ==>
      && r.write.value.doc == WithCerts(opts, keypair)
      && r.write.value.query == Match(r.write.value.doc)
      && r.write.value.mode == Upsert
      && r.opts == r.write.value.doc
      && (r.outcome.Failed? <==> err.Some?)
      && (!r.outcome.Failed? ==> r.outcome == Done(keypair))
  {
    match DomainZeroQuery(opts)
    case None => UpdateCall(None, opts, Threw(TypeError))
    case Some(_) =>
      var doc := WithCerts(opts, keypair);
      UpdateCall(Some(Write(Match(doc), doc, Upsert)), doc, Settle(err, keypair))
  }

  /** The two versions agree on everything but the completion. */
  lemma SetKeypairFixOnlyTouchesCompletion(opts: Doc, keypair: Value, err: Option<StoreError>)
    ensures SetKeypairAsWritten(opts, keypair, err).write == SetKeypair(opts, keypair, err).write
    ensures SetKeypairAsWritten(opts, keypair, err).opts == SetKeypair(opts, keypair, err).opts
  {
  }

  /** The "domains.0" query `setKeypair` builds is never the predicate it
      writes under: that predicate is the whole document, which always
      carries `certs`. */
  lemma SetKeypairIgnoresDomainQuery(opts: Doc, keypair: Value, err: Option<StoreError>)
    requires !Nullish(Get(opts, "domains"))
    ensures SetKeypair(opts, keypair, err).write.value.query != Match(DomainZeroQuery(opts).value)
  {
  }

  /** `certificates.checkKeypair(opts, cb)`: the domain-first search on a
      clone; a single match comes back flattened. */
  function CheckKeypair(opts: Doc, reply: FindReply): (r: FindCall<Doc>)
    ensures r.query.Match? && IsFirstDomainSearch(opts, "domains.0", r.query.fields)
    ensures r.opts == opts
    ensures TriState(reply, Flatten, r.outcome)
  {
    FindCall(Match(RewriteFirstDomain(opts, "domains.0")), opts, Classify(reply, Flatten))
  }

  /** `certificates.check(opts, cb)`: like `checkKeypair`, except that the
      first domain is bound to the key "domains" instead of "domains.0". */
  function Check(opts: Doc, reply: FindReply): (r: FindCall<Doc>)
    ensures r.query.Match? && IsFirstDomainSearch(opts, "domains", r.query.fields)
    ensures r.opts == opts
    ensures TriState(reply, Flatten, r.outcome)
  {
    FindCall(Match(RewriteFirstDomain(opts, "domains")), opts, Classify(reply, Flatten))
  }

  /** `certificates.set(opts, pems, cb)`: the domain-first search is taken
      from a clone before `_.defaults(opts, {certs: pems})` mutates `opts`,
      and the merged document is written with an upsert and returned. */
  function Set(opts: Doc, pems: Value, err: Option<StoreError>): (r: UpdateCall<Doc>)
    ensures r.write.Some?
    ensures r.write.value.query.Match? && IsFirstDomainSearch(opts, "domains.0", r.write.value.query.fields)
    ensures r.write.value.doc == WithCerts(opts, pems)
    ensures r.write.value.mode == Upsert
    ensures r.opts == r.write.value.doc
    ensures r.outcome.Failed? <==> err.Some?
    ensures !r.outcome.Failed? ==> r.outcome == Done(r.write.value.doc)
  {
    var search := RewriteFirstDomain(opts, "domains.0");
    var doc := WithCerts(opts, pems);
    UpdateCall(Some(Write(Match(search), doc, Upsert)), doc, Settle(err, doc))
  }

  /** The search of `set` gains no `certs` from `pems`: it carries `certs`
      only when the caller's `opts` already did. */
  lemma SetSearchHasNoNewCerts(opts: Doc, pems: Value, err: Option<StoreError>)
    ensures "certs" in Set(opts, pems, err).write.value.query.fields <==> "certs" in opts
  {
  }

  /** Because `set` mutates `opts`, calling it again with the same object
      searches on the bundle of the first call as well. */
  lemma SetReusedOptsNarrowsSearch(opts: Doc, pems1: Value, pems2: Value, err1: Option<StoreError>, err2: Option<StoreError>)
    requires "certs" !in opts
    ensures var r1 := Set(opts, pems1, err1);
      var search2 := Set(r1.opts, pems2, err2).write.value.query.fields;
      "certs" in search2 && search2["certs"] == pems1
  {
  }

  /** A record stored by `set` for a request without a bundle of its own,
      when it is the one match of a later lookup, comes back with the
      fields of `pems` at the top level and every other field of `opts`. */
  lemma SetThenLookupFlattens(opts: Doc, pems: Doc, err: Option<StoreError>, lookup: Doc)
    requires "certs" !in opts
    ensures var doc := Set(opts, Obj(pems), err).write.value.doc;
      var out := CheckKeypair(lookup, FindReply(None, Some([doc]))).outcome;
      && out.Done? && out.value.Found?
      && "certs" !in out.value.value
      && (forall k :: k in pems && k != "certs" ==> out.value.value[k] == pems[k])
      && (forall k :: k in opts && k !in pems ==> out.value.value[k] == opts[k])
  {
  }

  /** A request naming the domains [a, b] writes under the same predicate a
      later `checkKeypair` for [a] looks up with, while `check` for [a]
      binds `a` to "domains" instead. */
  lemma DomainListLookups(a: string, b: string, pems: Value, err: Option<StoreError>, reply: FindReply)
    requires a != ""
    ensures Set(map["domains" := Arr([Str(a), Str(b)])], pems, err).write.value.query
         == CheckKeypair(map["domains" := Arr([Str(a)])], reply).query
         == Match(map["domains.0" := Str(a)])
    ensures Check(map["domains" := Arr([Str(a)])], reply).query == Match(map["domains" := Str(a)])
  {
  }
}
