/** The account repository: the four operations on the "accounts"
    collection. Each one is a pure function from the caller's arguments and
    the store's answer to the request issued, the caller's `opts` as the
    operation leaves it (the source mutates it), and the callback outcome. */
module Accounts {
  import opened Values
  import opened Lodash
  import opened Store
  import opened Query
  import opened Results

  /** The projection `results[0].keypair` of `checkKeypair`: a record
      without a keypair yields `undefined`, which is passed on as is. */
  function KeypairOf(d: Doc): (kp: Value)
    ensures "keypair" in d ==> kp == d["keypair"]
    ensures "keypair" !in d ==> kp.Undefined?
  {
    Get(d, "keypair")
  }

  /** `accounts.setKeypair(opts, keypair, cb)`: `_.defaults(opts, {keypair})`
      is written with an upsert under the `$or` predicate. */
  function SetKeypair(opts: Doc, keypair: Value, err: Option<StoreError>): (r: UpdateCall<Value>)
    ensures r.write.Some? && r.write.value.mode == Upsert
    ensures r.write.value.query == AnyOf(AccountAlternatives(opts))
    ensures var doc := r.write.value.doc;
      && doc.Keys == opts.Keys + {"keypair"}
      && doc["keypair"] == (if Get(opts, "keypair").Undefined? then keypair else opts["keypair"])
      && (forall k :: k in opts && k != "keypair" ==> doc[k] == opts[k])
      && r.opts == doc
    ensures r.outcome.Failed? <==> err.Some?
    ensures !r.outcome.Failed? ==> r.outcome == Done(keypair)
  {
    var doc := Defaults(opts, map["keypair" := keypair]);
    UpdateCall(Some(Write(AnyOf(AccountAlternatives(doc)), doc, Upsert)), doc, Settle(err, keypair))
  }

  /** `accounts.checkKeypair(opts, cb)`: `opts` itself is the predicate and
      a single match yields its `keypair`. */
  function CheckKeypair(opts: Doc, reply: FindReply): (r: FindCall<Value>)
    ensures r.query == Match(opts) && r.opts == opts
    ensures TriState(reply, KeypairOf, r.outcome)
  {
    FindCall(Match(opts), opts, Classify(reply, KeypairOf))
  }

  /** `accounts.check(opts, cb)`: the domain-first search on a clone, and a
      single match is returned whole. */
  function Check(opts: Doc, reply: FindReply): (r: FindCall<Doc>)
    ensures r.query.Match? && IsFirstDomainSearch(opts, "domains.0", r.query.fields)
    ensures r.opts == opts
    ensures TriState(reply, (d: Doc) => d, r.outcome)
  {
    FindCall(Match(RewriteFirstDomain(opts, "domains.0")), opts, Classify(reply, (d: Doc) => d))
  }

  /** The text `reg.keypair.publicKeyPem` handed to the hash; `None` when
      reading it throws (`reg.keypair` is null or undefined) or the hash
      rejects it (it is not a string). */
  function PublicKeyPem(reg: Doc): (pem: Option<string>)
    ensures pem.Some? <==> Get(reg, "keypair").Obj? && Get(Get(reg, "keypair").fields, "publicKeyPem").Str?
    ensures pem.Some? ==> Get(Get(reg, "keypair").fields, "publicKeyPem") == Str(pem.value)
  {
    match Member(Get(reg, "keypair"), "publicKeyPem")
    case Some(Str(s)) => Some(s)
    case _ => None
  }

  /** `opts` after `delete opts.id; delete opts.accountId`. */
  function WithoutIdentity(opts: Doc): (o: Doc)
    ensures o.Keys == opts.Keys - {"id", "accountId"}
    ensures forall k :: k in o ==> o[k] == opts[k]
  {
    Omit(Omit(opts, "id"), "accountId")
  }

  /** The merged account document `_.extend(opts, reg, {id, accountId})`
      after the identity fields were deleted from `opts`: fields of `reg`
      override those of `opts`, and the derived `id` overrides both. */
  function Registered(opts: Doc, reg: Doc, id: Value): (doc: Doc)
    ensures doc.Keys == opts.Keys + reg.Keys + {"id", "accountId"}
    ensures doc["id"] == id && doc["accountId"] == id
    ensures forall k :: k in reg && k != "id" && k != "accountId" ==> doc[k] == reg[k]
    ensures forall k :: k in opts && k !in reg && k != "id" && k != "accountId" ==> doc[k] == opts[k]
  {
    Extend(Extend(WithoutIdentity(opts), reg), map["id" := id, "accountId" := id])
  }

  /** `accounts.set(opts, reg, cb)`: the identity `id == accountId ==
      digest(reg.keypair.publicKeyPem)`, the merged document, and an
      overriding write keyed by the email. The hash is the parameter
      `digest`; a key that cannot be hashed throws before any write. */
  function Set(opts: Doc, reg: Doc, digest: string -> string, err: Option<StoreError>): (r: UpdateCall<Doc>)
    ensures r.write.None? <==> PublicKeyPem(reg).None?
    ensures r.write.None? ==> r.outcome == Threw(TypeError) && r.opts == WithoutIdentity(opts)
    ensures r.write.Some? ==>
      && r.write.value.doc == Registered(opts, reg, Str(digest(PublicKeyPem(reg).value)))
      && r.write.value.query == Match(map["email" := Get(r.write.value.doc, "email")])
      && r.write.value.mode == Override
      && r.opts == r.write.value.doc
      && (r.outcome.Failed? <==> err.Some?)
      && (!r.outcome.Failed? ==> r.outcome == Done(r.write.value.doc))
  {
    match PublicKeyPem(reg)
    case None => UpdateCall(None, WithoutIdentity(opts), Threw(TypeError))
    case Some(pem) =>
      var doc := Registered(opts, reg, Str(digest(pem)));
      UpdateCall(Some(Write(Match(map["email" := Get(doc, "email")]), doc, Override)), doc, Settle(err, doc))
  }

  /** Identity is a function of the public key text alone: whatever else
      the two calls carry, equal key text gives equal ids. */
  lemma SetIdentityDeterministic(opts1: Doc, reg1: Doc, opts2: Doc, reg2: Doc,
                                 digest: string -> string, err1: Option<StoreError>, err2: Option<StoreError>)
    requires PublicKeyPem(reg1).Some? && PublicKeyPem(reg1) == PublicKeyPem(reg2)
    ensures var r1, r2 := Set(opts1, reg1, digest, err1), Set(opts2, reg2, digest, err2);
      r1.write.value.doc["id"] == r2.write.value.doc["id"] == r1.write.value.doc["accountId"]
  {
  }

  /** Merging the same registration into an already merged document
      changes nothing. */
  lemma RegisteredIdempotent(opts: Doc, reg: Doc, id: Value)
    ensures Registered(Registered(opts, reg, id), reg, id) == Registered(opts, reg, id)
  {
  }

  /** Setting again with the same registration, on the `opts` the first call
      left behind, issues the same write: the re-derived identity matches
      the stored one. */
  lemma SetIdempotent(opts: Doc, reg: Doc, digest: string -> string, err1: Option<StoreError>, err2: Option<StoreError>)
    requires PublicKeyPem(reg).Some?
    ensures var r1 := Set(opts, reg, digest, err1);
      Set(r1.opts, reg, digest, err2).write == r1.write
  {
    RegisteredIdempotent(opts, reg, Str(digest(PublicKeyPem(reg).value)));
  }

  /** The write of `set` and a later `check({email})` use one predicate. */
  lemma SetThenCheckSamePredicate(opts: Doc, reg: Doc, digest: string -> string,
                                  err: Option<StoreError>, reply: FindReply)
    requires PublicKeyPem(reg).Some?
    ensures var w := Set(opts, reg, digest, err).write.value;
      Check(map["email" := Get(w.doc, "email")], reply).query == w.query
  {
  }

  /** The account id is looked up in the `email` field: writing a keypair
      under `{accountId: x}` uses the single alternative `{email: x}`, which
      is exactly the predicate of `checkKeypair({email: x})`. */
  lemma AccountIdMatchedAsEmail(x: Value, keypair: Value, err: Option<StoreError>, reply: FindReply)
    requires Truthy(x)
    ensures SetKeypair(map["accountId" := x], keypair, err).write.value.query
         == AnyOf([CheckKeypair(map["email" := x], reply).query.fields])
  {
  }

  /** Once `opts` holds a keypair, another `setKeypair` on it keeps that
      keypair: defaults never replace a defined value. */
  lemma SetKeypairKeepsStored(opts: Doc, kp1: Value, kp2: Value, err1: Option<StoreError>, err2: Option<StoreError>)
    requires !kp1.Undefined?
    ensures var r1 := SetKeypair(opts, kp1, err1);
      SetKeypair(r1.opts, kp2, err2).write.value.doc == r1.opts
  {
  }
}
