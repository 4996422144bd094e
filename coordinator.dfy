/** The coordinator side of the document functions: on a cluster coordinator
    the bridge forwards each call to the shard that owns the document and turns
    the shard's HTTP reply back into a JavaScript value or exception. The
    transport is a parameter: it maps the request to the reply. */
module Coordinator {
  import opened V8Values
  import opened Errors
  import opened Options
  import opened Handles

  /** The first HTTP status code that signals an error (400 Bad Request). */
  const Bad: nat := 400

  /** The requests a coordinator sends to the shards. */
  datatype ClusterCall =
    | CreateDocument(collection: string, waitForSync: bool, document: Value)
    | CreateEdge(collection: string, waitForSync: bool, document: Value, from: string, to: string)
    | GetDocument(collection: string, key: string, rid: nat, generateDocument: bool)
    | DeleteDocument(collection: string, key: string, rid: nat, policy: UpdatePolicy, waitForSync: bool)
    | ModifyDocument(collection: string, key: string, rid: nat, policy: UpdatePolicy, waitForSync: bool,
                     isPatch: bool, keepNull: bool, mergeObjects: bool, document: Value)

  /** What a request comes back with: the error number of the transport
      itself, the HTTP status of the shard's reply and its body parsed as
      JSON (none when the body is not JSON). */
  datatype ClusterReply = ClusterReply(transport: ErrorCode, status: nat, body: Option<Value>)

  type Transport = ClusterCall -> ClusterReply

  /** The JSON value of a parsed reply body; an unparsable body converts to
      undefined. */
  function BodyValue(body: Option<Value>): Value {
    match body
    case Some(v) => v
    case None => Undefined
  }

  /** An error reply's `errorNum` when it is a number, `missing` otherwise. */
  function ErrorNum(body: Value, missing: ErrorCode): (code: ErrorCode)
    ensures (exists n :: Get(body, "errorNum") == Some(Num(n))) ==> code == Get(body, "errorNum").value.n
    ensures (forall n :: Get(body, "errorNum") != Some(Num(n))) ==> code == missing
  {
    match Get(body, "errorNum")
    case Some(Num(n)) => n
    case _ => missing
  }

  /** An error reply's `errorMessage` when it is a string, the standard text
      otherwise. */
  function ErrorMessage(body: Value): (m: string)
    ensures StringProperty(body, "errorMessage").Some? ==> m == StringProperty(body, "errorMessage").value
    ensures StringProperty(body, "errorMessage").None? ==> m == ""
  {
    match StringProperty(body, "errorMessage")
    case Some(m) => m
    case None => ""
  }

  /** HandleClusterErrorResponse: an error reply becomes an exception carrying
      the shard's error number (internal error when it sent none) and its
      message; a reply that is no JSON object is an internal error. */
  function ClusterError(body: Option<Value>): (r: Outcome)
    ensures r.Throws?
    ensures (body.None? || !body.value.Obj?) ==> r == Fail(Internal)
    ensures body.Some? && body.value.Obj? ==>
      r == Throws(ErrorNum(body.value, Internal), ErrorMessage(body.value))
    ensures r.code == NoError ==> body.Some? && Get(body.value, "errorNum") == Some(Num(0))
  {
    match body
    case Some(b) => if b.Obj? then Throws(ErrorNum(b, Internal), ErrorMessage(b)) else Fail(Internal)
    case None => Fail(Internal)
  }

  /** The reply of an insert, replace or update: a transport failure or an
      error status throws, a silent call returns true, any other returns the
      shard's reply body. */
  function WriteReply(reply: ClusterReply, silent: bool): (r: Outcome)
    ensures reply.transport != NoError ==> r == Fail(reply.transport)
    ensures r.Returns? <==> reply.transport == NoError && reply.status < Bad
    ensures reply.transport == NoError && reply.status >= Bad ==> r == ClusterError(reply.body)
    ensures r.Returns? ==> r.value == (if silent then Bool(true) else BodyValue(reply.body))
  {
    if reply.transport != NoError then Fail(reply.transport)
    else if reply.status >= Bad then ClusterError(reply.body)
    else if silent then Returns(Bool(true))
    else Returns(BodyValue(reply.body))
  }

  /** InsertDocumentCoordinator: the document must be a JSON object; it is
      sent to the shards with the caller's waitForSync. */
  function InsertDocumentCoordinator(options: OptionSet, c: Collection, args: seq<Value>, cluster: Transport): (r: Outcome)
    ensures !Arg(args, 0).Obj? ==> r == Fail(DocumentTypeInvalid)
    ensures Arg(args, 0).Obj? ==>
      r == WriteReply(cluster(CreateDocument(c.name, options.waitForSync, Arg(args, 0))), options.silent)
  {
    var document := Arg(args, 0);
    if !document.Obj? then Fail(DocumentTypeInvalid)
    else WriteReply(cluster(CreateDocument(c.name, options.waitForSync, document)), options.silent)
  }

  /** InsertEdgeCoordinator: the vertices are the ids of the first two
      arguments, the edge document is the third and must be a JSON object. */
  function InsertEdgeCoordinator(options: OptionSet, c: Collection, args: seq<Value>, cluster: Transport): (r: Outcome)
    ensures !Arg(args, 2).Obj? ==> r == Fail(DocumentTypeInvalid)
    ensures Arg(args, 2).Obj? ==>
      var call := CreateEdge(c.name, options.waitForSync, Arg(args, 2),
                             ExtractDocumentId(Arg(args, 0)), ExtractDocumentId(Arg(args, 1)));
      r == WriteReply(cluster(call), options.silent)
  {
    var from := ExtractDocumentId(Arg(args, 0));
    var to := ExtractDocumentId(Arg(args, 1));
    var document := Arg(args, 2);
    if !document.Obj? then Fail(DocumentTypeInvalid)
    else WriteReply(cluster(CreateEdge(c.name, options.waitForSync, document, from, to)), options.silent)
  }

  /** The reply of `document` (generateDocument) or `exists` (otherwise).
      `exists` never reads the reply body: every error status is `false`.
      `document` throws internal error for a body that is no object, and
      otherwise the shard's error number, or `missing` when it sent none. */
  function DocumentReply(reply: ClusterReply, generateDocument: bool, missing: ErrorCode): (r: Outcome)
    ensures reply.transport != NoError ==> r == Fail(reply.transport)
    ensures !generateDocument && reply.transport == NoError ==> r == Returns(Bool(reply.status < Bad))
    ensures generateDocument && r.Returns? ==> reply.status < Bad && r.value == BodyValue(reply.body)
    ensures generateDocument && reply.transport == NoError && reply.status >= Bad ==>
      r.Throws? && (reply.body.Some? && reply.body.value.Obj? ==> r.code == ErrorNum(reply.body.value, missing))
    ensures generateDocument && reply.transport == NoError && reply.status >= Bad && !(reply.body.Some? && reply.body.value.Obj?) ==>
      r == Fail(Internal)
  {
    if reply.transport != NoError then Fail(reply.transport)
    else
      var body := if generateDocument then reply.body else None;
      if reply.status >= Bad then
        if body.None? || !body.value.Obj? then
          if generateDocument then Fail(Internal) else Returns(Bool(false))
        else if generateDocument then Throws(ErrorNum(body.value, missing), ErrorMessage(body.value))
        else Returns(Bool(false))
      else if generateDocument then Returns(BodyValue(body))
      else Returns(Bool(true))
  }

  /** The reply of a remove: success is `true`; a missing document under the
      last-write policy is `false`; every other error status throws the
      shard's error number, or `missing` when it sent none. */
  function RemoveReply(reply: ClusterReply, policy: UpdatePolicy, missing: ErrorCode): (r: Outcome)
    ensures reply.transport != NoError ==> r == Fail(reply.transport)
    ensures r == Returns(Bool(true)) <==> reply.transport == NoError && reply.status < Bad
    ensures r == Returns(Bool(false)) <==>
      reply.transport == NoError && reply.status >= Bad && reply.body.Some? && reply.body.value.Obj? &&
      ErrorNum(reply.body.value, missing) == DocumentNotFound && policy == PolicyLastWrite
    ensures r.Returns? ==> r.value.Bool?
    ensures reply.transport == NoError && r.Throws? ==>
      r.code == (if reply.body.Some? && reply.body.value.Obj? then ErrorNum(reply.body.value, missing) else Internal)
  {
    if reply.transport != NoError then Fail(reply.transport)
    else if reply.status >= Bad then
      match reply.body
      case Some(b) =>
        if !b.Obj? then Fail(Internal)
        else
          var code := ErrorNum(b, missing);
          if code == DocumentNotFound && policy == PolicyLastWrite then Returns(Bool(false))
          else Throws(code, ErrorMessage(b))
      case None => Fail(Internal)
    else Returns(Bool(true))
  }

  /** DocumentCoordinator: parses the key and revision, asks the shard and
      maps its reply; a reply without an error number is an internal error. */
  function DocumentCoordinator(c: Collection, args: seq<Value>, generateDocument: bool, cluster: Transport): (r: Outcome)
    ensures CoordinatorKey(Arg(args, 0)).code != NoError ==> r == Fail(DocumentTypeInvalid)
    ensures CoordinatorKey(Arg(args, 0)).code == NoError ==>
      var k := CoordinatorKey(Arg(args, 0));
      r == DocumentReply(cluster(GetDocument(c.name, k.key, k.rid, generateDocument)), generateDocument, Internal)
    ensures !generateDocument && r.Returns? ==> r.value.Bool?
  {
    var k := CoordinatorKey(Arg(args, 0));
    if k.code != NoError then Fail(k.code)
    else DocumentReply(cluster(GetDocument(c.name, k.key, k.rid, generateDocument)), generateDocument, Internal)
  }

  /** RemoveCoordinator: parses the key and revision and forwards the policy
      and waitForSync of the options. */
  function RemoveCoordinator(options: OptionSet, c: Collection, args: seq<Value>, cluster: Transport): (r: Outcome)
    ensures CoordinatorKey(Arg(args, 0)).code != NoError ==> r == Fail(DocumentTypeInvalid)
    ensures CoordinatorKey(Arg(args, 0)).code == NoError ==>
      var k := CoordinatorKey(Arg(args, 0));
      r == RemoveReply(cluster(DeleteDocument(c.name, k.key, k.rid, options.policy, options.waitForSync)),
                       options.policy, Internal)
    ensures r == Returns(Bool(false)) ==> options.policy == PolicyLastWrite
  {
    var k := CoordinatorKey(Arg(args, 0));
    if k.code != NoError then Fail(k.code)
    else RemoveReply(cluster(DeleteDocument(c.name, k.key, k.rid, options.policy, options.waitForSync)),
                     options.policy, Internal)
  }

  /** UpdateCoordinator: parses the key and revision, demands an object as
      the new document and forwards patch mode, keepNull and mergeObjects. */
  function UpdateCoordinator(options: OptionSet, c: Collection, args: seq<Value>, isPatch: bool, cluster: Transport): (r: Outcome)
    ensures CoordinatorKey(Arg(args, 0)).code != NoError ==> r == Fail(DocumentTypeInvalid)
    ensures CoordinatorKey(Arg(args, 0)).code == NoError && !Arg(args, 1).Obj? ==> r == Fail(DocumentTypeInvalid)
    ensures CoordinatorKey(Arg(args, 0)).code == NoError && Arg(args, 1).Obj? ==>
      var k := CoordinatorKey(Arg(args, 0));
      var call := ModifyDocument(c.name, k.key, k.rid, options.policy, options.waitForSync,
                                 isPatch, options.keepNull, options.mergeObjects, Arg(args, 1));
      r == WriteReply(cluster(call), options.silent)
  {
    var k := CoordinatorKey(Arg(args, 0));
    if k.code != NoError then Fail(k.code)
    else
      var document := Arg(args, 1);
      if !document.Obj? then Fail(DocumentTypeInvalid)
      else
        var call := ModifyDocument(c.name, k.key, k.rid, options.policy, options.waitForSync,
                                   isPatch, options.keepNull, options.mergeObjects, document);
        WriteReply(cluster(call), options.silent)
  }

  // ---------------------------------------------------------------------------
  // The default error number of document and remove replies
  // ---------------------------------------------------------------------------

  /** The reply mapping of `document` as the source has it: an error reply
      without an error number throws error number 0. */
  function DocumentReplyAsWritten(reply: ClusterReply): Outcome {
    DocumentReply(reply, true, NoError)
  }

  /** The reply mapping of `remove` as the source has it, with the same
      default of 0. */
  function RemoveReplyAsWritten(reply: ClusterReply, policy: UpdatePolicy): Outcome {
    RemoveReply(reply, policy, NoError)
  }

  /** A 404 reply whose body is the empty object makes both as-written
      mappings throw an exception that reports "no error". */
  lemma AsWrittenThrowsNoError(policy: UpdatePolicy)
    ensures DocumentReplyAsWritten(ClusterReply(NoError, 404, Some(Obj(map[])))) == Throws(NoError, "")
    ensures RemoveReplyAsWritten(ClusterReply(NoError, 404, Some(Obj(map[]))), policy) == Throws(NoError, "")
  {
  }

  /** With internal error as the default, an exception of `document`,
      `remove`, insert, replace or update reports "no error" only when the
      shard itself sent errorNum 0. */
  lemma RepliesNeverThrowNoError(reply: ClusterReply, policy: UpdatePolicy, silent: bool)
    ensures DocumentReply(reply, true, Internal).Throws? && DocumentReply(reply, true, Internal).code == NoError ==>
      reply.body.Some? && Get(reply.body.value, "errorNum") == Some(Num(0))
    ensures RemoveReply(reply, policy, Internal).Throws? && RemoveReply(reply, policy, Internal).code == NoError ==>
      reply.body.Some? && Get(reply.body.value, "errorNum") == Some(Num(0))
    ensures WriteReply(reply, silent).Throws? && WriteReply(reply, silent).code == NoError ==>
      reply.body.Some? && Get(reply.body.value, "errorNum") == Some(Num(0))
  {
  }

  /** `exists` and `document` agree on the reply: when `document` returns a
      value, `exists` returns true, and when `exists` returns false,
      `document` throws. */
  lemma ExistsAgreesWithDocument(reply: ClusterReply)
    ensures DocumentReply(reply, true, Internal).Returns? ==> DocumentReply(reply, false, Internal) == Returns(Bool(true))
    ensures DocumentReply(reply, false, Internal) == Returns(Bool(false)) ==> DocumentReply(reply, true, Internal).Throws?
  {
  }

  /** Under the error policy a remove never answers `false`: a missing
      document is an exception. */
  lemma RemoveErrorPolicyNeverFalse(reply: ClusterReply, missing: ErrorCode)
    ensures RemoveReply(reply, PolicyError, missing) != Returns(Bool(false))
    ensures reply.transport == NoError && reply.status >= Bad && reply.body.Some? && reply.body.value.Obj? &&
            ErrorNum(reply.body.value, missing) == DocumentNotFound ==>
      RemoveReply(reply, PolicyError, missing).Throws? && RemoveReply(reply, PolicyError, missing).code == DocumentNotFound
  {
  }
}
