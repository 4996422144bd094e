/** The JavaScript document functions of a collection (`insert`, `document`,
    `exists`, `replace`, `update`, `remove`, `truncate`) and of the database
    object (`db._document`, `db._exists`, `db._replace`, `db._update`,
    `db._remove`): argument checks, the choice between the local engine and
    the coordinator, and the mapping of the engine's result code to the value
    or exception JavaScript sees. The engine and the cluster transport are
    parameters. */
module Operations {
  import opened V8Values
  import opened Errors
  import opened Options
  import opened Handles
  import opened Coordinator

  /** A vertex as TRI_ParseVertex reads it: its error number, the collection
      id and the key. */
  datatype Vertex = Vertex(code: ErrorCode, cid: nat, key: string)

  datatype Edge = Edge(from: Vertex, to: Vertex)

  /** The calls the bridge makes into the document engine. A missing key on
      insert asks the engine to generate one. */
  datatype EngineCall =
    | ReadDocument(collection: Collection, key: string, rid: nat)
    | InsertDocument(collection: Collection, newKey: Option<string>, document: Value, edge: Option<Edge>, options: OptionSet)
    | ReplaceDocument(collection: Collection, key: string, rid: nat, document: Value, options: OptionSet)
    | UpdateDocument(collection: Collection, key: string, rid: nat, document: Value, options: OptionSet)
    | RemoveDocument(collection: Collection, key: string, rid: nat, options: OptionSet)
    | TruncateCollection(collection: Collection, options: OptionSet)

  /** What the engine reports: the error number, the key and revision of the
      document touched, the revision it replaced and the document read. */
  datatype EngineResult = EngineResult(code: ErrorCode, key: string, rid: nat, actualRevision: nat, document: Value)

  /** Everything a call depends on besides its arguments: whether the server
      is a coordinator, the collection `this` is bound to (none when it cannot
      be unwrapped), whether the context has a current database, the
      collection name resolver, the handle and vertex parsers, whether the
      transaction scope opened a transaction of its own, the engine and the
      cluster transport. */
  datatype Env = Env(
    isCoordinator: bool,
    holder: Option<Collection>,
    hasDatabase: bool,
    resolver: Resolver,
    parseHandle: Value -> Option<DocumentHandle>,
    parseVertex: Value -> Vertex,
    startedTransaction: bool,
    engine: EngineCall -> EngineResult,
    cluster: Transport)

  /** The exception thrown when `this` is no collection. */
  function NoCollection(): Outcome {
    Throws(Internal, "cannot extract collection")
  }

  // ---------------------------------------------------------------------------
  // Collection binding
  // ---------------------------------------------------------------------------

  /** How a call starts: it fails, or it is bound to a collection (the
      collection functions) or to none (the database functions). */
  datatype Binding = Failed(outcome: Outcome) | Bound(collection: Option<Collection>)

  /** MVCC_COLLECTION_INIT: a collection function needs the collection behind
      `this`, a database function needs a current database. */
  function CollectionInit(useCollection: bool, env: Env): (b: Binding)
    ensures useCollection ==> (b.Failed? <==> env.holder.None?)
    ensures useCollection && b.Failed? ==> b.outcome == NoCollection()
    ensures !useCollection ==> (b.Failed? <==> !env.hasDatabase)
    ensures !useCollection && b.Failed? ==> b.outcome == Fail(DatabaseNotFound)
    ensures b.Bound? ==> (b.collection.Some? <==> useCollection) && (useCollection ==> b.collection == env.holder)
  {
    if useCollection then
      match env.holder
      case None => Failed(NoCollection())
      case Some(c) => Bound(Some(c))
    else if !env.hasDatabase then Failed(Fail(DatabaseNotFound))
    else Bound(None)
  }

  /** The options handed to the engine: stand-alone when the transaction
      scope started the transaction. */
  function Scoped(options: OptionSet, env: Env): OptionSet {
    WithScope(options, env.startedTransaction)
  }

  // ---------------------------------------------------------------------------
  // Engine result codes to outcomes
  // ---------------------------------------------------------------------------

  /** The local `exists`: a found document is true, a missing document or a
      revision mismatch false, every other error is thrown. */
  function ExistsOutcome(code: ErrorCode): (r: Outcome)
    ensures r == Returns(Bool(true)) <==> code == NoError
    ensures r == Returns(Bool(false)) <==> code == DocumentNotFound || code == Conflict
    ensures r.Throws? ==> r == Fail(code)
  {
    if code == NoError then Returns(Bool(true))
    else if code == DocumentNotFound || code == Conflict then Returns(Bool(false))
    else Fail(code)
  }

  /** The local `remove`: success is true, a missing document under the
      last-write policy false, every other error is thrown. */
  function RemoveOutcome(code: ErrorCode, policy: UpdatePolicy): (r: Outcome)
    ensures r == Returns(Bool(true)) <==> code == NoError
    ensures r == Returns(Bool(false)) <==> code == DocumentNotFound && policy == PolicyLastWrite
    ensures r.Throws? ==> r == Fail(code)
  {
    if code == DocumentNotFound && policy == PolicyLastWrite then Returns(Bool(false))
    else if code != NoError then Fail(code)
    else Returns(Bool(true))
  }

  /** Local insert, replace and update: an error is thrown; a silent call
      returns true; any other returns the handle of the written document
      (with the replaced revision for replace and update). */
  function WriteOutcome(result: EngineResult, options: OptionSet, c: Collection, withOldRev: bool): (r: Outcome)
    ensures r.Throws? <==> result.code != NoError
    ensures r.Throws? ==> r == Fail(result.code)
    ensures r.Returns? && options.silent ==> r.value == Bool(true)
    ensures r.Returns? && !options.silent ==>
      && CoordinatorKey(r.value) == KeyRevision(NoError, AfterFirstSlash(result.key), result.rid)
      && ExtractDocumentId(r.value) == c.name + "/" + result.key
      && (withOldRev <==> Has(r.value, "_oldRev"))
      && Get(r.value, "_rev") == Some(Str(NatToString(result.rid)))
      && Get(r.value, "_key") == Some(Str(result.key))
      && (withOldRev ==> Get(r.value, "_oldRev") == Some(Str(NatToString(result.actualRevision))))
  {
    if result.code != NoError then Fail(result.code)
    else if options.silent then Returns(Bool(true))
    else
      var oldRev := if withOldRev then Some(result.actualRevision) else None;
      WrittenDocumentRoundTrip(c, result.key, result.rid, oldRev);
      Returns(WrittenDocument(c, result.key, result.rid, oldRev))
  }

  /** The local `document`: the document read, or the engine's error. */
  function DocumentOutcome(result: EngineResult): (r: Outcome)
    ensures r.Throws? <==> result.code != NoError
    ensures r.Throws? ==> r == Fail(result.code)
    ensures r.Returns? ==> r.value == result.document
  {
    if result.code != NoError then Fail(result.code) else Returns(result.document)
  }

  // ---------------------------------------------------------------------------
  // The coordinator collection of the database functions
  // ---------------------------------------------------------------------------

  /** The collection the source hands to the coordinator helpers: the bound
      collection, which the database functions do not have. */
  function CoordinatorCollectionAsWritten(bound: Option<Collection>): Option<Collection> {
    bound
  }

  /** On a coordinator the database functions (`db._document` and the rest)
      reach the coordinator helpers without a collection; the helpers read
      its database and name unconditionally. */
  lemma DatabaseFunctionsReachCoordinatorWithoutCollection(env: Env)
    requires env.isCoordinator && env.hasDatabase
    ensures CollectionInit(false, env).Bound?
    ensures CoordinatorCollectionAsWritten(CollectionInit(false, env).collection).None?
  {
  }

  /** The collection a coordinator call addresses: the bound collection, or
      for a database function the collection named by the handle. */
  function CoordinatorTarget(bound: Option<Collection>, args: seq<Value>, env: Env): (r: Resolution)
    ensures bound.Some? ==> r.code == NoError && r.collection == bound
    ensures r.code == NoError ==> r.collection.Some?
    ensures bound.None? ==> r == ResolveHandle(env.resolver, None, env.parseHandle(Arg(args, 0)))
  {
    match bound
    case Some(c) => Resolution(NoError, bound, "", 0)
    case None => ResolveHandle(env.resolver, None, env.parseHandle(Arg(args, 0)))
  }

  /** With the correction, `db._exists` and `db._document` on a coordinator
      first resolve the collection their handle names: a handle the local
      server refuses is refused with the same error, and any other reaches
      the coordinator helper with the collection the handle names. */
  lemma CoordinatorDatabaseFunctionsResolveHandle(args: seq<Value>, env: Env)
    requires env.isCoordinator && env.hasDatabase && |args| == 1
    ensures var t := ResolveHandle(env.resolver, None, env.parseHandle(args[0]));
      var local := env.(isCoordinator := false);
      && (t.code != NoError ==>
            && MvccExists(false, args, env) == Fail(t.code) == MvccExists(false, args, local)
            && MvccDocument(false, args, env) == Fail(t.code) == MvccDocument(false, args, local))
      && (t.code == NoError ==>
            && env.parseHandle(args[0]).Some?
            && env.parseHandle(args[0]).value.collectionName in env.resolver
            && t.collection == Some(env.resolver[env.parseHandle(args[0]).value.collectionName])
            && MvccExists(false, args, env) == DocumentCoordinator(t.collection.value, args, false, env.cluster)
            && MvccDocument(false, args, env) == DocumentCoordinator(t.collection.value, args, true, env.cluster))
  {
  }

  // ---------------------------------------------------------------------------
  // The document functions
  // ---------------------------------------------------------------------------

  /** MvccExists: `exists(<document-handle>)`. */
  function MvccExists(useCollection: bool, args: seq<Value>, env: Env): (r: Outcome)
    ensures |args| != 1 ==> r == Usage("exists(<document-handle>)")
    ensures r.Returns? ==> r.value.Bool?
    ensures |args| == 1 && !env.isCoordinator && r.Throws? ==> r.code != DocumentNotFound && r.code != Conflict
    ensures |args| == 1 && CollectionInit(useCollection, env).Failed? ==> r == CollectionInit(useCollection, env).outcome
    ensures |args| == 1 && !env.isCoordinator && CollectionInit(useCollection, env).Bound? ==>
      var t := ResolveHandle(env.resolver, CollectionInit(useCollection, env).collection, env.parseHandle(args[0]));
      (t.code != NoError ==> r == Fail(t.code)) &&
      (t.code == NoError ==> r == ExistsOutcome(env.engine(ReadDocument(t.collection.value, t.key, t.rid)).code))
    ensures |args| == 1 && env.isCoordinator && CollectionInit(useCollection, env).Bound? ==>
      var t := CoordinatorTarget(CollectionInit(useCollection, env).collection, args, env);
      (t.code != NoError ==> r == Fail(t.code)) &&
      (t.code == NoError ==> r == DocumentCoordinator(t.collection.value, args, false, env.cluster))
  {
    if |args| != 1 then Usage("exists(<document-handle>)")
    else
      match CollectionInit(useCollection, env)
      case Failed(o) => o
      case Bound(bound) =>
        if env.isCoordinator then
          var t := CoordinatorTarget(bound, args, env);
          if t.code != NoError then Fail(t.code)
          else DocumentCoordinator(t.collection.value, args, false, env.cluster)
        else
          var t := ResolveHandle(env.resolver, bound, env.parseHandle(args[0]));
          if t.code != NoError then Fail(t.code)
          else ExistsOutcome(env.engine(ReadDocument(t.collection.value, t.key, t.rid)).code)
  }

  /** MvccDocument: `document(<document-handle>)`. */
  function MvccDocument(useCollection: bool, args: seq<Value>, env: Env): (r: Outcome)
    ensures |args| != 1 ==> r == Usage("document(<document-handle>)")
    ensures |args| == 1 && CollectionInit(useCollection, env).Failed? ==> r == CollectionInit(useCollection, env).outcome
    ensures |args| == 1 && !env.isCoordinator && CollectionInit(useCollection, env).Bound? ==>
      var t := ResolveHandle(env.resolver, CollectionInit(useCollection, env).collection, env.parseHandle(args[0]));
      (t.code != NoError ==> r == Fail(t.code)) &&
      (t.code == NoError ==> r == DocumentOutcome(env.engine(ReadDocument(t.collection.value, t.key, t.rid))))
    ensures |args| == 1 && env.isCoordinator && CollectionInit(useCollection, env).Bound? ==>
      var t := CoordinatorTarget(CollectionInit(useCollection, env).collection, args, env);
      (t.code != NoError ==> r == Fail(t.code)) &&
      (t.code == NoError ==> r == DocumentCoordinator(t.collection.value, args, true, env.cluster))
  {
    if |args| != 1 then Usage("document(<document-handle>)")
    else
      match CollectionInit(useCollection, env)
      case Failed(o) => o
      case Bound(bound) =>
        if env.isCoordinator then
          var t := CoordinatorTarget(bound, args, env);
          if t.code != NoError then Fail(t.code)
          else DocumentCoordinator(t.collection.value, args, true, env.cluster)
        else
          var t := ResolveHandle(env.resolver, bound, env.parseHandle(args[0]));
          if t.code != NoError then Fail(t.code)
          else DocumentOutcome(env.engine(ReadDocument(t.collection.value, t.key, t.rid)))
  }

  /** MvccRemove: `remove(<document-handle>, <options>)`. */
  function MvccRemove(useCollection: bool, args: seq<Value>, env: Env): (r: Outcome)
    ensures !(1 <= |args| <= 3) ==> r == Usage("remove(<document-handle>, <options>)")
    ensures r.Returns? ==> r.value.Bool?
    ensures r == Returns(Bool(false)) ==> RemoveOptions(Defaults(), args).policy == PolicyLastWrite
    ensures 1 <= |args| <= 3 && !env.isCoordinator && CollectionInit(useCollection, env).Bound? ==>
      var t := ResolveHandle(env.resolver, CollectionInit(useCollection, env).collection, env.parseHandle(args[0]));
      var options := Scoped(RemoveOptions(Defaults(), args), env);
      (t.code != NoError ==> r == Fail(t.code)) &&
      (t.code == NoError ==>
        r == RemoveOutcome(env.engine(RemoveDocument(t.collection.value, t.key, t.rid, options)).code, options.policy))
    ensures 1 <= |args| <= 3 && env.isCoordinator && CollectionInit(useCollection, env).Bound? ==>
      var t := CoordinatorTarget(CollectionInit(useCollection, env).collection, args, env);
      (t.code != NoError ==> r == Fail(t.code)) &&
      (t.code == NoError ==> r == RemoveCoordinator(RemoveOptions(Defaults(), args), t.collection.value, args, env.cluster))
  {
    if !(1 <= |args| <= 3) then Usage("remove(<document-handle>, <options>)")
    else
      match CollectionInit(useCollection, env)
      case Failed(o) => o
      case Bound(bound) =>
        var options := RemoveOptions(Defaults(), args);
        if env.isCoordinator then
          var t := CoordinatorTarget(bound, args, env);
          if t.code != NoError then Fail(t.code)
          else RemoveCoordinator(options, t.collection.value, args, env.cluster)
        else
          var t := ResolveHandle(env.resolver, bound, env.parseHandle(args[0]));
          if t.code != NoError then Fail(t.code)
          else
            var scoped := Scoped(options, env);
            RemoveOutcome(env.engine(RemoveDocument(t.collection.value, t.key, t.rid, scoped)).code, scoped.policy)
  }

  /** MvccInsert: the local insert of a document (docArg 0) or an edge
      (docArg 2). The document must be an object that is no array; a
      missing `_key` lets the engine generate one, a bad `_key` is thrown. */
  function LocalInsert(options: OptionSet, c: Collection, args: seq<Value>, docArg: nat, edge: Option<Edge>, env: Env): (r: Outcome)
    ensures !Arg(args, docArg).Obj? ==> r == Fail(DocumentTypeInvalid)
    ensures Arg(args, docArg).Obj? && DocumentKey(Arg(args, docArg).props).code == DocumentKeyBad ==>
      r == Fail(DocumentKeyBad)
    ensures Arg(args, docArg).Obj? && DocumentKey(Arg(args, docArg).props).code != DocumentKeyBad ==>
      var document := Arg(args, docArg);
      var call := InsertDocument(c, DocumentKey(document.props).key, document, edge, Scoped(options, env));
      r == WriteOutcome(env.engine(call), Scoped(options, env), c, false)
  {
    var document := Arg(args, docArg);
    if !document.Obj? then Fail(DocumentTypeInvalid)
    else
      var k := DocumentKey(document.props);
      if k.code != NoError && k.code != DocumentKeyMissing then Fail(k.code)
      else
        var scoped := Scoped(options, env);
        WriteOutcome(env.engine(InsertDocument(c, k.key, document, edge, scoped)), scoped, c, false)
  }

  /** JS_MvccInsert: `insert(<document>, <options>)` on a document collection,
      `insert(<from>, <to>, <document>, <options>)` on an edge collection. */
  function MvccInsert(args: seq<Value>, env: Env): (r: Outcome)
    ensures env.holder.None? ==> r == NoCollection()
    ensures env.holder.Some? && !env.holder.value.isEdge && !(1 <= |args| <= 2) ==>
      r == Usage("insert(<document>, <options>)")
    ensures env.holder.Some? && env.holder.value.isEdge && !(2 <= |args| <= 4) ==>
      r == Usage("insert(<from>, <to>, <document>, <options>)")
    ensures env.holder.Some? && !env.holder.value.isEdge && 1 <= |args| <= 2 && !env.isCoordinator ==>
      r == LocalInsert(InsertOptions(Defaults(), args, 1), env.holder.value, args, 0, None, env)
    ensures env.holder.Some? && env.holder.value.isEdge && 2 <= |args| <= 4 && !env.isCoordinator ==>
      var from := env.parseVertex(args[0]);
      var to := env.parseVertex(args[1]);
      (from.code != NoError ==> r == Fail(from.code)) &&
      (from.code == NoError && to.code != NoError ==> r == Fail(to.code)) &&
      (from.code == NoError && to.code == NoError ==>
        r == LocalInsert(InsertOptions(Defaults(), args, 3), env.holder.value, args, 2, Some(Edge(from, to)), env))
    ensures env.holder.Some? && !env.holder.value.isEdge && 1 <= |args| <= 2 && env.isCoordinator ==>
      r == InsertDocumentCoordinator(InsertOptions(Defaults(), args, 1), env.holder.value, args, env.cluster)
    ensures env.holder.Some? && env.holder.value.isEdge && 2 <= |args| <= 4 && env.isCoordinator ==>
      r == InsertEdgeCoordinator(InsertOptions(Defaults(), args, 3), env.holder.value, args, env.cluster)
  {
    match env.holder
    case None => NoCollection()
    case Some(c) =>
      if !c.isEdge then
        if !(1 <= |args| <= 2) then Usage("insert(<document>, <options>)")
        else
          var options := InsertOptions(Defaults(), args, 1);
          if env.isCoordinator then InsertDocumentCoordinator(options, c, args, env.cluster)
          else LocalInsert(options, c, args, 0, None, env)
      else
        if !(2 <= |args| <= 4) then Usage("insert(<from>, <to>, <document>, <options>)")
        else
          var options := InsertOptions(Defaults(), args, 3);
          if env.isCoordinator then InsertEdgeCoordinator(options, c, args, env.cluster)
          else
            var from := env.parseVertex(args[0]);
            if from.code != NoError then Fail(from.code)
            else
              var to := env.parseVertex(args[1]);
              if to.code != NoError then Fail(to.code)
              else LocalInsert(options, c, args, 2, Some(Edge(from, to)), env)
  }

  /** A patch is an engine update, anything else a replace. */
  function ModifyCall(isPatch: bool, c: Collection, key: string, rid: nat, document: Value, options: OptionSet): EngineCall {
    if isPatch then UpdateDocument(c, key, rid, document, options)
    else ReplaceDocument(c, key, rid, document, options)
  }

  /** MvccReplace and MvccUpdate share their shape: usage, then the new
      document must be an object that is no array, then the options, the
      collection, and the call. */
  function Modify(useCollection: bool, args: seq<Value>, env: Env, isPatch: bool, signature: string): (r: Outcome)
    ensures !(2 <= |args| <= 5) ==> r == Usage(signature)
    ensures 2 <= |args| <= 5 && !args[1].Obj? ==> r == Fail(DocumentTypeInvalid)
    ensures 2 <= |args| <= 5 && args[1].Obj? && CollectionInit(useCollection, env).Failed? ==>
      r == CollectionInit(useCollection, env).outcome
    ensures 2 <= |args| <= 5 && args[1].Obj? && !env.isCoordinator && CollectionInit(useCollection, env).Bound? ==>
      var t := ResolveHandle(env.resolver, CollectionInit(useCollection, env).collection, env.parseHandle(args[0]));
      var options := Scoped(UpdateOptions(Defaults(), args), env);
      (t.code != NoError ==> r == Fail(t.code)) &&
      (t.code == NoError ==>
        var call := ModifyCall(isPatch, t.collection.value, t.key, t.rid, args[1], options);
        r == WriteOutcome(env.engine(call), options, t.collection.value, true))
    ensures 2 <= |args| <= 5 && args[1].Obj? && env.isCoordinator && CollectionInit(useCollection, env).Bound? ==>
      var t := CoordinatorTarget(CollectionInit(useCollection, env).collection, args, env);
      (t.code != NoError ==> r == Fail(t.code)) &&
      (t.code == NoError ==> r == UpdateCoordinator(UpdateOptions(Defaults(), args), t.collection.value, args, isPatch, env.cluster))
  {
    if !(2 <= |args| <= 5) then Usage(signature)
    else if !args[1].Obj? then Fail(DocumentTypeInvalid)
    else
      var options := UpdateOptions(Defaults(), args);
      match CollectionInit(useCollection, env)
      case Failed(o) => o
      case Bound(bound) =>
        if env.isCoordinator then
          var t := CoordinatorTarget(bound, args, env);
          if t.code != NoError then Fail(t.code)
          else UpdateCoordinator(options, t.collection.value, args, isPatch, env.cluster)
        else
          var t := ResolveHandle(env.resolver, bound, env.parseHandle(args[0]));
          if t.code != NoError then Fail(t.code)
          else
            var scoped := Scoped(options, env);
            var call := ModifyCall(isPatch, t.collection.value, t.key, t.rid, args[1], scoped);
            WriteOutcome(env.engine(call), scoped, t.collection.value, true)
  }

  /** MvccReplace: `replace(<document-handle>, <document>, <options>)`. */
  function MvccReplace(useCollection: bool, args: seq<Value>, env: Env): (r: Outcome)
    ensures !(2 <= |args| <= 5) ==> r == Usage("replace(<document-handle>, <document>, <options>)")
    ensures 2 <= |args| <= 5 && !args[1].Obj? ==> r == Fail(DocumentTypeInvalid)
    ensures r.Returns? && !env.isCoordinator && !UpdateOptions(Defaults(), args).silent ==> Has(r.value, "_oldRev")
    ensures 2 <= |args| <= 5 && args[1].Obj? && CollectionInit(useCollection, env).Failed? ==>
      r == CollectionInit(useCollection, env).outcome
    ensures 2 <= |args| <= 5 && args[1].Obj? && !env.isCoordinator && CollectionInit(useCollection, env).Bound? ==>
      var t := ResolveHandle(env.resolver, CollectionInit(useCollection, env).collection, env.parseHandle(args[0]));
      var options := Scoped(UpdateOptions(Defaults(), args), env);
      (t.code != NoError ==> r == Fail(t.code)) &&
      (t.code == NoError ==>
        r == WriteOutcome(env.engine(ReplaceDocument(t.collection.value, t.key, t.rid, args[1], options)), options, t.collection.value, true))
    ensures 2 <= |args| <= 5 && args[1].Obj? && env.isCoordinator && CollectionInit(useCollection, env).Bound? ==>
      var t := CoordinatorTarget(CollectionInit(useCollection, env).collection, args, env);
      (t.code != NoError ==> r == Fail(t.code)) &&
      (t.code == NoError ==> r == UpdateCoordinator(UpdateOptions(Defaults(), args), t.collection.value, args, false, env.cluster))
  {
    Modify(useCollection, args, env, false, "replace(<document-handle>, <document>, <options>)")
  }

  /** MvccUpdate: `update(<document-handle>, <document>, <options>)`. */
  function MvccUpdate(useCollection: bool, args: seq<Value>, env: Env): (r: Outcome)
    ensures !(2 <= |args| <= 5) ==> r == Usage("update(<document-handle>, <document>, <options>)")
    ensures 2 <= |args| <= 5 && !args[1].Obj? ==> r == Fail(DocumentTypeInvalid)
    ensures r.Returns? && !env.isCoordinator && !UpdateOptions(Defaults(), args).silent ==> Has(r.value, "_oldRev")
    ensures 2 <= |args| <= 5 && args[1].Obj? && CollectionInit(useCollection, env).Failed? ==>
      r == CollectionInit(useCollection, env).outcome
    ensures 2 <= |args| <= 5 && args[1].Obj? && !env.isCoordinator && CollectionInit(useCollection, env).Bound? ==>
      var t := ResolveHandle(env.resolver, CollectionInit(useCollection, env).collection, env.parseHandle(args[0]));
      var options := Scoped(UpdateOptions(Defaults(), args), env);
      (t.code != NoError ==> r == Fail(t.code)) &&
      (t.code == NoError ==>
        r == WriteOutcome(env.engine(UpdateDocument(t.collection.value, t.key, t.rid, args[1], options)), options, t.collection.value, true))
    ensures 2 <= |args| <= 5 && args[1].Obj? && env.isCoordinator && CollectionInit(useCollection, env).Bound? ==>
      var t := CoordinatorTarget(CollectionInit(useCollection, env).collection, args, env);
      (t.code != NoError ==> r == Fail(t.code)) &&
      (t.code == NoError ==> r == UpdateCoordinator(UpdateOptions(Defaults(), args), t.collection.value, args, true, env.cluster))
  {
    Modify(useCollection, args, env, true, "update(<document-handle>, <document>, <options>)")
  }

  /** JS_MvccTruncate: `truncate(<waitForSync>)`, local collections only. */
  function MvccTruncate(args: seq<Value>, env: Env): (r: Outcome)
    ensures env.holder.None? ==> r == NoCollection()
    ensures env.holder.Some? && !env.holder.value.isLocal ==> r == Fail(NotImplemented)
    ensures r.Returns? ==> r.value == Undefined
    ensures env.holder.Some? && env.holder.value.isLocal ==>
      var result := env.engine(TruncateCollection(env.holder.value, Defaults().(waitForSync := ExtractWaitForSync(args, 1))));
      (r.Returns? <==> result.code == NoError) && (r.Throws? ==> r == Fail(result.code))
  {
    match env.holder
    case None => NoCollection()
    case Some(c) =>
      if !c.isLocal then Fail(NotImplemented)
      else
        var options := Defaults().(waitForSync := ExtractWaitForSync(args, 1));
        var result := env.engine(TruncateCollection(c, options));
        if result.code != NoError then Fail(result.code) else Returns(Undefined)
  }

  // ---------------------------------------------------------------------------
  // Properties across the functions
  // ---------------------------------------------------------------------------

  /** A shard reply of an assumed shape for an engine result code: an empty
      object on success, otherwise an error status with the code as errorNum.
      The shard's side is outside this model, so this shape is an assumption. */
  function ShardReply(code: ErrorCode, status: nat): ClusterReply {
    if code == NoError then ClusterReply(NoError, 200, Some(Obj(map[])))
    else ClusterReply(NoError, status, Some(Obj(map["errorNum" := Num(code)])))
  }

  /** Local and coordinator `remove` agree: for a reply of the assumed shape
      for an engine code, the coordinator mapping equals the local one, including
      `false` for a missing document under the last-write policy. */
  lemma RemoveLocalAgreesWithCoordinator(code: ErrorCode, status: nat, policy: UpdatePolicy)
    requires status >= Bad
    ensures RemoveReply(ShardReply(code, status), policy, Internal) == RemoveOutcome(code, policy)
  {
    if code != NoError {
      var b := Obj(map["errorNum" := Num(code)]);
      assert Get(b, "errorNum") == Some(Num(code));
      assert StringProperty(b, "errorMessage").None?;
    }
  }

  /** `exists` differs between local and coordinator: for replies of the
      assumed shape every local `false` is a coordinator `false` too, but the
      coordinator also answers `false` where the local function throws. */
  lemma ExistsLocalAndCoordinator(code: ErrorCode, status: nat)
    requires status >= Bad
    ensures ExistsOutcome(code) == Returns(Bool(false)) ==>
      DocumentReply(ShardReply(code, status), false, Internal) == Returns(Bool(false))
    ensures ExistsOutcome(code) == Returns(Bool(true)) ==>
      DocumentReply(ShardReply(code, status), false, Internal) == Returns(Bool(true))
    ensures code != NoError ==> DocumentReply(ShardReply(code, status), false, Internal) == Returns(Bool(false))
    ensures code != NoError && code != DocumentNotFound && code != Conflict ==> ExistsOutcome(code).Throws?
  {
  }

  /** Under the error policy a local remove of a missing document throws
      DOCUMENT_NOT_FOUND; under last-write it answers false. */
  lemma RemovePolicyAsymmetry()
    ensures RemoveOutcome(DocumentNotFound, PolicyError) == Fail(DocumentNotFound)
    ensures RemoveOutcome(DocumentNotFound, PolicyLastWrite) == Returns(Bool(false))
    ensures forall code :: code != NoError && code != DocumentNotFound ==>
      RemoveOutcome(code, PolicyError) == RemoveOutcome(code, PolicyLastWrite)
  {
  }

  /** The options every write hands to the engine are stand-alone exactly
      when the transaction scope started the transaction. */
  lemma StandAloneIffStarted(args: seq<Value>, optArg: nat, env: Env)
    ensures Scoped(InsertOptions(Defaults(), args, optArg), env).standAlone <==> env.startedTransaction
    ensures Scoped(RemoveOptions(Defaults(), args), env).standAlone <==> env.startedTransaction
    ensures Scoped(UpdateOptions(Defaults(), args), env).standAlone <==> env.startedTransaction
  {
    InsertOptionsFrame(Defaults(), args, optArg);
    RemoveOptionsFrame(Defaults(), args);
  }
}
