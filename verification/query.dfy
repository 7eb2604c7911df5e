/** The query normaliser: how a loose `opts` object becomes the predicate
    handed to the store. */
module Query {
  import opened Values
  import opened Lodash

  /** `opts.domains && opts.domains[0]`: the request names a first domain. */
  function HasFirstDomain(opts: Doc): (h: bool)
    ensures h ==> !Nullish(Get(opts, "domains")) && Truthy(FirstDomain(opts))
    ensures Get(opts, "domains").Arr? ==>
      (h <==> |Get(opts, "domains").items| > 0 && Truthy(Get(opts, "domains").items[0]))
    ensures !Truthy(Get(opts, "domains")) ==> !h
  {
    var d := Get(opts, "domains");
    Truthy(d) && ElementZero(d).Some? && Truthy(ElementZero(d).value)
  }

  /** `opts.domains[0]`, where `HasFirstDomain` holds. */
  function FirstDomain(opts: Doc): Value {
    match ElementZero(Get(opts, "domains"))
    case Some(x) => x
    case None => Undefined
  }

  /** What the rewritten search must look like: with a first domain, the
      `domains` field is replaced by `key` bound to that first domain and
      every other field is untouched; without one, the search is `opts`. */
  ghost predicate IsFirstDomainSearch(opts: Doc, key: string, search: Doc) {
    if HasFirstDomain(opts) then
      && key in search && search[key] == FirstDomain(opts)
      && (key != "domains" ==> "domains" !in search)
      && forall k :: k != key && k != "domains" ==>
           (k in search <==> k in opts) && (k in search ==> search[k] == opts[k])
    else
      search == opts
  }

  /** The rewrite every lookup but `accounts.checkKeypair` performs, on a
      clone of `opts`: `delete search.domains; search[key] = opts.domains[0]`. */
  function RewriteFirstDomain(opts: Doc, key: string): (search: Doc)
    ensures IsFirstDomainSearch(opts, key, search)
  {
    if HasFirstDomain(opts) then Omit(opts, "domains")[key := FirstDomain(opts)] else opts
  }

  /** The description above leaves no freedom: it fixes the search. */
  lemma FirstDomainSearchUnique(opts: Doc, key: string, s1: Doc, s2: Doc)
    requires IsFirstDomainSearch(opts, key, s1) && IsFirstDomainSearch(opts, key, s2)
    ensures s1 == s2
  {
  }

  /** Only the first domain is discriminating: two requests that differ
      only in the rest of their domain list give the same search. */
  lemma FirstDomainOnly(opts: Doc, key: string, d1: Value, d2: Value, first: Value)
    requires ElementZero(d1) == Some(first) && ElementZero(d2) == Some(first)
    requires Truthy(first)
    ensures RewriteFirstDomain(opts["domains" := d1], key) == RewriteFirstDomain(opts["domains" := d2], key)
  {
  }

  /** The "domains.0" search and the `certificates.check` search (key
      "domains") differ exactly when the request names a first domain. */
  lemma SearchKeysDiffer(opts: Doc)
    ensures HasFirstDomain(opts) <==> RewriteFirstDomain(opts, "domains.0") != RewriteFirstDomain(opts, "domains")
  {
  }

  /** The `$or` alternatives of `accounts.setKeypair`: `{email: opts.email}`
      when the email is truthy, then `{email: opts.accountId}` when the
      account id is truthy. Both compare against the stored `email`. */
  function AccountAlternatives(opts: Doc): (alts: seq<Doc>)
    ensures |alts| == (if Truthy(Get(opts, "email")) then 1 else 0) + (if Truthy(Get(opts, "accountId")) then 1 else 0)
    ensures forall i :: 0 <= i < |alts| ==> alts[i].Keys == {"email"} && Truthy(alts[i]["email"])
    ensures Truthy(Get(opts, "email")) ==> alts[0] == map["email" := Get(opts, "email")]
    ensures Truthy(Get(opts, "accountId")) ==> alts[|alts| - 1] == map["email" := Get(opts, "accountId")]
  {
    var email := Get(opts, "email");
    var accountId := Get(opts, "accountId");
    (if Truthy(email) then [map["email" := email]] else [])
      + (if Truthy(accountId) then [map["email" := accountId]] else [])
  }
}
