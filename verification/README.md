# le-store-simple-fs: request and result shaping

A Dafny model of the persistence adapter in `index.js`. The adapter sits
between an ACME client and a document store (mongo-portable) and exposes two
repositories, `accounts` and `certificates`. Each has four operations:
`setKeypair`, `checkKeypair`, `check` and `set`. The model covers what the
adapter itself decides:

- how a loose `opts` object becomes the predicate handed to `find`/`update`
  (the domain-first rewrite, the account `$or` list);
- how documents are merged with lodash `defaults`, `extend` and `omit`;
- how the account identity `id == accountId == H(publicKeyPem)` is derived;
- how a `find` answer becomes `null`, one value, or the raw list, and how a
  certificate record's `certs` bundle is flattened.

Every operation is a pure function. It takes the caller's arguments plus the
store's answer: a `FindReply` of `err` and `results`, or the `err` of an
update. It returns three things: the request it issued, the caller's `opts`
as the operation leaves it (`setKeypair` and `set` mutate it), and what
reaches the callback (`Done`, `Failed`, or `Threw` for an exception that
never reaches `cb`).

Files, one module each:

- `values.dfy` (`Values`): the JavaScript value datatype (with
  `undefined`), truthiness, property reads, and the keys lodash copies
  from a value.
- `lodash.dfy` (`Lodash`): `Defaults`, `Extend`, `Omit`, with lemmas.
- `store.dfy` (`Store`): the types at the store boundary: predicates,
  writes, replies, and the tri-state `Lookup`.
- `query.dfy` (`Query`): the query normaliser.
- `results.dfy` (`Results`): the zero/one/many classifier and the
  certificate flattener.
- `accounts.dfy` (`Accounts`), `certificates.dfy` (`Certificates`): the
  eight repository operations and their properties.

The hash is the parameter `digest: string -> string` of `Accounts.Set`.
Any such function is deterministic, and no property relies on more than
that.

In several places the adapter's intended behaviour, as its comments and
documentation describe it, differs from the code. The model follows the
code:

- `certificates.setKeypair` writes under the whole merged `opts`. It does
  not write under a first-domain predicate: the `"domains.0"` query at
  index.js:133-135 is evaluated but never used. The evaluation still throws
  when `opts.domains` is null or undefined.
- `certificates.check` binds the first domain to the key `"domains"`.
  `accounts.check`, `certificates.checkKeypair` and the search of
  `certificates.set` bind it to `"domains.0"`. `accounts.checkKeypair`
  does no rewrite at all: it hands `opts` to `find` as is.
- `accounts.setKeypair` returns its `keypair` argument. That is not the
  stored keypair when `opts` already held one.
- `setKeypair` and `set` of both repositories mutate the caller's `opts`.
  The three rewriting lookups and the search of `certificates.set` work on
  a clone; `accounts.checkKeypair` clones nothing and simply leaves `opts`
  alone. `accounts.set` deletes `id`/`accountId` from `opts` even when it then
  throws.
- `certificates.setKeypair` and `certificates.set` merge with `defaults`
  semantics for `certs`: a bundle already in `opts` wins over the new one.
  `accounts.set` merges with `extend` semantics instead: every field of
  `reg` wins over the same field of `opts`.

## Model

| member | source | states |
|---|---|---|
| Values.Truthy | index.js:43-47 | null and undefined are falsy, arrays and objects truthy, a string truthy exactly when non-empty |
| Values.Member | index.js:111 | reading a named property throws exactly on null or undefined |
| Values.ElementZero | index.js:83 | `opts.domains[0]` throws exactly on null/undefined; gives an array's first element or undefined when empty, a string's first character or undefined when empty |
| Values.IndexKey | index.js:160 | the property name of an array index is a non-empty numeral, at least two characters from index 10 on |
| Values.Indexed | index.js:160 | an array-like source contributes each element under its index key and no other key |
| Values.IndexKeyInjective | index.js:160 | distinct array indices give distinct property names, so hoisting an array or string bundle keeps every element |
| Values.OwnEnumerable | index.js:160 | an object bundle contributes exactly its own fields; numbers, booleans, null and undefined contribute none |
| Lodash.Defaults | index.js:38-40 | a source key is copied only where the target's value is undefined; defined target values and target-only keys are kept |
| Lodash.Extend | index.js:113-116 | the later source wins on every shared key; other keys of the target are kept |
| Lodash.Omit | index.js:160 | exactly the named key is removed and every other value is unchanged |
| Lodash.DefaultsIdempotent | index.js:219 | applying the same defaults a second time changes nothing |
| Lodash.DefaultsIsReversedExtend | index.js:38-40 | on a target without undefined values, defaults equals extend with the target as the later source |
| Lodash.ExtendIdempotent | index.js:113-116 | extending again by the same source changes nothing |
| Query.HasFirstDomain | index.js:83 | the guard `opts.domains && opts.domains[0]` implies a non-nullish list with a truthy first domain; for an array it holds exactly when the first element is truthy; a falsy `domains` fails it |
| Query.RewriteFirstDomain | index.js:81-86 | with a truthy first domain the search drops `domains`, binds the key to `domains[0]` and keeps every other field; otherwise the search is `opts` |
| Query.FirstDomainSearchUnique | index.js:148-153 | the description of the rewritten search determines it completely |
| Query.FirstDomainOnly | index.js:210-215 | requests that differ only after the first domain give the same search |
| Query.SearchKeysDiffer | index.js:177-182 | the `certificates.check` search differs from the `"domains.0"` search exactly when a first domain is present |
| Query.AccountAlternatives | index.js:42-48 | the `$or` list has one entry per truthy `email`/`accountId`, email first; every entry matches only the `email` field |
| Store.Settle | index.js:52-55 | an update callback reports the store error when there is one and otherwise returns the given value |
| Results.Classify | index.js:66-71 | error iff the store erred; null iff no or an empty list; one projected value iff exactly one match; otherwise the raw list of two or more; never throws |
| Results.Hoisted | index.js:160 | an object `certs` contributes exactly its fields; a falsy `certs` contributes nothing |
| Results.Flatten | index.js:160 | no `certs` key remains; every bundle field appears with the bundle's value, overriding; every other field keeps its value |
| Results.NestFlatten | index.js:189 | flattening an object bundle whose names clash with nothing is undone by nesting those names under `certs` again |
| Accounts.SetKeypair | index.js:32-56 | upsert under the `$or` list; the document keeps an existing keypair and otherwise gains the argument; `opts` becomes the document; success returns the keypair argument |
| Accounts.KeypairOf | index.js:68 | a single match yields its `keypair` field, or undefined when the record has none |
| Accounts.CheckKeypair | index.js:58-73 | `opts` is the predicate unchanged and a single match yields its `keypair` under the tri-state rule |
| Accounts.Check | index.js:76-99 | domain-first search under `"domains.0"`, caller's `opts` untouched, a single match returned whole |
| Accounts.PublicKeyPem | index.js:111 | the hash input exists exactly when `reg.keypair` is an object whose `publicKeyPem` is a string |
| Accounts.WithoutIdentity | index.js:109-110 | exactly `id` and `accountId` are removed from `opts` |
| Accounts.Registered | index.js:113-116 | `reg` fields override `opts` fields, the derived id overrides both as `id` and `accountId`, no key is lost |
| Accounts.Set | index.js:101-124 | a key that cannot be hashed throws before any write with identity fields already deleted; otherwise the merged document with `id == accountId == digest(pem)` is written with override under `{email: doc.email}` and returned |
| Accounts.SetIdentityDeterministic | index.js:111 | equal public-key text gives equal ids, whatever else `opts` and `reg` carry |
| Accounts.RegisteredIdempotent | index.js:113-116 | merging the same registration into an already merged document changes nothing |
| Accounts.SetIdempotent | index.js:109-119 | setting again with the same registration on the mutated `opts` issues the same write |
| Accounts.SetThenCheckSamePredicate | index.js:119 | `check({email})` on the stored email uses exactly the predicate `set` wrote under |
| Accounts.AccountIdMatchedAsEmail | index.js:46-48 | `setKeypair({accountId: x})` writes under the single alternative that `checkKeypair({email: x})` looks up |
| Accounts.SetKeypairKeepsStored | index.js:38-40 | once `opts` holds a keypair, another `setKeypair` on it leaves the document unchanged |
| Certificates.DomainZeroQuery | index.js:133-135 | the `"domains.0"` query is built from `opts.domains[0]` and throws exactly when `domains` is null or undefined |
| Certificates.WithCerts | index.js:219 | the document's `certs` is the existing bundle if defined, else the new one; every other field is kept |
| Certificates.SetKeypairAsWritten | index.js:138-141 | as written, a write that is issued always ends in a ReferenceError for `err` |
| Certificates.SetKeypairAsWrittenNeverReturns | index.js:139 | for `{domains: ["a.com"]}` and a successful store, the as-written version throws a ReferenceError while the corrected one returns the keypair |
| Certificates.SetKeypair | index.js:130-143 | the corrected half of the finding below (the callback takes `err`); otherwise as the source: throws on missing domains; predicate and document are both `opts` after the defaults; `opts` becomes that; on store success the corrected version returns the keypair, which the source never does |
| Certificates.SetKeypairFixOnlyTouchesCompletion | index.js:138 | the corrected and as-written versions issue the same write and leave the same `opts` |
| Certificates.SetKeypairIgnoresDomainQuery | index.js:133-138 | the predicate written under is never the `"domains.0"` query |
| Certificates.CheckKeypair | index.js:145-168 | domain-first search under `"domains.0"`, caller's `opts` untouched, a single match flattened |
| Certificates.Check | index.js:171-199 | the search binds the first domain to `"domains"`, caller's `opts` untouched, a single match flattened |
| Certificates.Set | index.js:201-229 | search from the clone before the merge under `"domains.0"`; document is `opts` with defaults for `certs`; upsert; `opts` becomes the document; success returns it |
| Certificates.SetSearchHasNoNewCerts | index.js:210-219 | the search carries `certs` only when the caller's `opts` did |
| Certificates.SetReusedOptsNarrowsSearch | index.js:210-219 | calling `set` again with the mutated `opts` searches on the first call's bundle too |
| Certificates.SetThenLookupFlattens | index.js:157-163 | the stored record as the single match comes back with the `pems` fields hoisted and the other `opts` fields kept |
| Certificates.DomainListLookups | index.js:177-182 | `set` for domains [a, b] and `checkKeypair` for [a] share the predicate `{"domains.0": a}`, while `check` for [a] uses `{"domains": a}` |

## Findings

| source | as written | input that shows it | evidently intended | confidence | as-written member | corrected member |
|---|---|---|---|---|---|---|
| index.js:138-141 | the update callback `() => { if (err) … }` declares no parameter and reads `err`, which is not bound anywhere in scope; `err` is unbound, so reading it throws a ReferenceError and `cb` is never called | `certificates.setKeypair({domains: ["a.com"]}, kp, cb)` with an update that succeeds | `(err) => { if (err) return cb(err); cb(null, keypair); }`, as in every other update callback | high; not executed | Certificates.SetKeypairAsWritten | Certificates.SetKeypair |

## Left out

- The `create` factory, `getOptions`, the home-directory default path and the `FileSystemStore` setup (index.js:14-27, 233-240). They are configuration and storage location only.
- How mongo-portable evaluates predicates and writes. This covers dotted paths, array containment for `"domains"`, `$or`, and upsert versus `override` (index.js:119). The store is abstract: its answers are inputs.
- SHA-256 and hex encoding (index.js:111). The hash is a parameter.
- Accounts.Set: states that the id is `digest(pem)` for the digest parameter, not that it is 64 lowercase hex characters, because SHA-256 is not modelled.
- Callbacks and asynchronous completion. The model does not cover the timing of error propagation, concurrent last-write-wins behaviour, or the `console.log` at index.js:136.
- `opts` and `reg` are always objects. A caller passing `null` or a primitive for them is not modelled.
- JavaScript numbers are modelled as reals. `NaN` and `-0` do not exist in the model. Strings are sequences of Unicode scalar values, not UTF-16 code units. That matters only for `domains[0]` on a string, or for a string bundle, with characters outside the Basic Multilingual Plane.
- Inherited and prototype properties are left out. That includes lodash's special case in `defaults` for keys whose value equals an `Object.prototype` member.
