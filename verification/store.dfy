/** The boundary between the adapter and the document store (mongo-portable).
    The store itself is abstract: what a `find` hands back and whether an
    `update` failed are inputs to the repository operations, and an
    operation's result records the request it issued together with what
    it passes to its completion callback. */
module Store {
  import opened Values

  /** The error a store call reports through its callback. */
  datatype StoreError = StoreError(message: string)

  /** The two arguments of a `find` callback: `err` and `results`. */
  datatype FindReply = FindReply(err: Option<StoreError>, results: Option<seq<Doc>>)

  /** A match predicate: a document of exact-match fields, or the
      `{$or: [...]}` form whose alternatives each match on their own. */
  datatype Predicate = Match(fields: Doc) | AnyOf(alternatives: seq<Doc>)

  /** The options object of an `update`: `{upsert: true}`, or
      `{updateAsMongo: false, override: true}`. */
  datatype WriteMode = Upsert | Override

  /** One `update(query, doc, options)` request. */
  datatype Write = Write(query: Predicate, doc: Doc, mode: WriteMode)

  /** Exceptions the adapter's own code throws. */
  datatype Exception = TypeError | ReferenceError(name: string)

  /** The tri-state lookup outcome: no match, the one match (projected),
      or every match, unprojected, when there are several. */
  datatype Lookup<T> = NotFound | Found(value: T) | Ambiguous(matches: seq<Doc>)

  /** How an operation ends: `cb(null, value)`, `cb(err)`, or a throw that
      never reaches `cb`. */
  datatype Completion<T> = Done(value: T) | Failed(error: StoreError) | Threw(exception: Exception)

  /** A lookup: the predicate handed to `find`, the caller's `opts` as the
      operation leaves it, and the callback outcome. */
  datatype FindCall<T> = FindCall(query: Predicate, opts: Doc, outcome: Completion<Lookup<T>>)

  /** A write: the `update` request if one was issued (`None` when the
      operation threw first), the caller's `opts` as the operation leaves it,
      and the callback outcome. */
  datatype UpdateCall<T> = UpdateCall(write: Option<Write>, opts: Doc, outcome: Completion<T>)

  /** The `(err) => { if (err) return cb(err); cb(null, value); }` callback
      of every update. */
  function Settle<T>(err: Option<StoreError>, value: T): (c: Completion<T>)
    ensures c.Failed? <==> err.Some?
    ensures c.Failed? ==> c.error == err.value
    ensures !c.Failed? ==> c == Done(value)
  {
    match err
    case Some(e) => Failed(e)
    case None => Done(value)
  }
}
