/** Reading document keys, document handles and revisions out of the
    arguments of a document operation. */
module Handles {
  import opened V8Values
  import opened Errors

  type CollectionName = s: string | |s| > 0 witness "_"

  /** A collection as the bridge sees it: its identifier, its name, whether it
      holds edges and whether it lives on this server. */
  datatype Collection = Collection(cid: nat, name: CollectionName, isEdge: bool, isLocal: bool)

  /** The collections a name resolves to (CollectionNameResolver locally,
      ClusterInfo on a coordinator). */
  type Resolver = map<string, Collection>

  /** What ExtractDocumentHandle reads from a handle string or a document:
      a collection name (empty when only a key was given), a key and a
      revision (0 for none). */
  datatype DocumentHandle = DocumentHandle(collectionName: string, key: string, rid: nat)

  // ---------------------------------------------------------------------------
  // Local insert: the `_key` of a document
  // ---------------------------------------------------------------------------

  /** The outcome of reading `_key`: an error number and, on success, the key. */
  datatype KeyExtraction = KeyExtraction(code: ErrorCode, key: Option<string>)

  /** ExtractDocumentKey, as a specification: a string `_key` is the key, a
      `_key` of any other type is a bad key, no `_key` a missing one. */
  function DocumentKey(doc: map<string, Value>): (r: KeyExtraction)
    ensures r.code == NoError <==> "_key" in doc && doc["_key"].Str?
    ensures r.code == DocumentKeyBad <==> "_key" in doc && !doc["_key"].Str?
    ensures r.code == DocumentKeyMissing <==> "_key" !in doc
    ensures r.key.Some? <==> r.code == NoError
    ensures r.key.Some? ==> doc["_key"] == Str(r.key.value)
  {
    if "_key" in doc then
      if doc["_key"].Str? then KeyExtraction(NoError, Some(doc["_key"].s))
      else KeyExtraction(DocumentKeyBad, None)
    else KeyExtraction(DocumentKeyMissing, None)
  }

  /** ExtractDocumentKey: the key of a document about to be inserted. */
  method ExtractDocumentKey(doc: map<string, Value>) returns (res: ErrorCode, key: Option<string>)
    ensures KeyExtraction(res, key) == DocumentKey(doc)
  {
    key := None;
    if "_key" in doc {
      var v := doc["_key"];
      if v.Str? {
        key := Some(v.s);
        return NoError, key;
      }
      return DocumentKeyBad, key;
    }
    return DocumentKeyMissing, key;
  }

  /** Setting `_key` to a string and reading it back yields that string. */
  lemma DocumentKeyRoundTrip(doc: map<string, Value>, key: string)
    ensures DocumentKey(doc["_key" := Str(key)]) == KeyExtraction(NoError, Some(key))
  {
  }

  // ---------------------------------------------------------------------------
  // Local operations: resolving a handle against the bound collection
  // ---------------------------------------------------------------------------

  /** The outcome of ParseDocumentOrDocumentHandle: an error number, the
      collection the operation addresses, the key and the revision. */
  datatype Resolution = Resolution(code: ErrorCode, collection: Option<Collection>, key: string, rid: nat)

  /** EqualCollection: a collection name read from a handle names the bound
      collection. */
  predicate EqualCollection(name: string, c: Collection) {
    name == c.name
  }

  /** ParseDocumentOrDocumentHandle, as a specification. `bound` is the
      collection the call is bound to (none for the db-level functions),
      `parsed` what ExtractDocumentHandle read (none when it failed). */
  function ResolveHandle(resolver: Resolver, bound: Option<Collection>, parsed: Option<DocumentHandle>): (r: Resolution)
    ensures parsed.None? ==> r == Resolution(DocumentHandleBad, bound, "", 0)
    ensures parsed.Some? && parsed.value.collectionName == "" && bound.None? ==>
              r.code == DocumentHandleBad
    ensures parsed.Some? && parsed.value.collectionName != "" && bound.Some? ==>
              (r.code == CrossCollectionRequest <==> !EqualCollection(parsed.value.collectionName, bound.value))
    ensures parsed.Some? && parsed.value.collectionName != "" && bound.None? ==>
              (r.code == CollectionNotFound <==> parsed.value.collectionName !in resolver)
    ensures r.code == NoError ==>
              && r.collection.Some?
              && parsed.Some? && r.key == parsed.value.key && r.rid == parsed.value.rid
              && (bound.Some? ==> r.collection == bound)
              && (bound.None? ==> parsed.value.collectionName in resolver
                                  && r.collection == Some(resolver[parsed.value.collectionName]))
    ensures parsed.Some? &&
            ( (parsed.value.collectionName == "" && bound.Some?)
            || (parsed.value.collectionName != "" && bound.Some? && EqualCollection(parsed.value.collectionName, bound.value))
            || (parsed.value.collectionName != "" && bound.None? && parsed.value.collectionName in resolver)) ==>
              r.code == NoError
    ensures r.code != NoError ==> r.collection == bound
    ensures r.code in {NoError, DocumentHandleBad, CrossCollectionRequest, CollectionNotFound}
  {
    match parsed
    case None => Resolution(DocumentHandleBad, bound, "", 0)
    case Some(h) =>
      if h.collectionName == "" && bound.None? then
        Resolution(DocumentHandleBad, bound, h.key, h.rid)
      else if h.collectionName != "" && bound.Some? && !EqualCollection(h.collectionName, bound.value) then
        Resolution(CrossCollectionRequest, bound, h.key, h.rid)
      else if bound.None? && h.collectionName !in resolver then
        Resolution(CollectionNotFound, bound, h.key, h.rid)
      else if bound.None? then
        Resolution(NoError, Some(resolver[h.collectionName]), h.key, h.rid)
      else
        Resolution(NoError, bound, h.key, h.rid)
  }

  /** ParseDocumentOrDocumentHandle: `collection` comes in as the bound
      collection and goes out as the one the operation addresses. */
  method ParseDocumentOrDocumentHandle(resolver: Resolver, collection: Option<Collection>, parsed: Option<DocumentHandle>)
    returns (res: ErrorCode, target: Option<Collection>, key: string, rid: nat)
    ensures Resolution(res, target, key, rid) == ResolveHandle(resolver, collection, parsed)
  {
    target := collection;
    key := "";
    rid := 0;
    if parsed.None? {
      return DocumentHandleBad, target, key, rid;
    }
    var h := parsed.value;
    key, rid := h.key, h.rid;
    var collectionName := h.collectionName;
    if collectionName == "" {
      if target.None? {
        return DocumentHandleBad, target, key, rid;
      }
      collectionName := target.value.name;
    } else if target.Some? && !EqualCollection(collectionName, target.value) {
      return CrossCollectionRequest, target, key, rid;
    }
    assert collectionName != "";
    if target.None? {
      if collectionName !in resolver {
        return CollectionNotFound, target, key, rid;
      }
      target := Some(resolver[collectionName]);
    }
    res := NoError;
  }

  // ---------------------------------------------------------------------------
  // Coordinator: key and revision from a handle string or a document
  // ---------------------------------------------------------------------------

  /** std::string::find for one character: the first position holding `c`. */
  function FirstIndexOf(s: string, c: char): (r: Option<nat>)
    ensures r.None? <==> c !in s
    ensures r.Some? ==> r.value < |s| && s[r.value] == c && c !in s[..r.value]
  {
    if |s| == 0 then None
    else if s[0] == c then Some(0)
    else
      match FirstIndexOf(s[1..], c)
      case None => None
      case Some(i) =>
        assert s[..i + 1] == [s[0]] + s[1..][..i];
        Some(i + 1)
  }

  /** The part of an identifier after its first '/', all of it when it has none. */
  function AfterFirstSlash(s: string): (k: string)
    ensures '/' !in s ==> k == s
    ensures '/' in s ==> exists i :: 0 <= i < |s| && s[i] == '/' && '/' !in s[..i] && k == s[i + 1..]
  {
    match FirstIndexOf(s, '/')
    case None => s
    case Some(i) => s[i + 1..]
  }

  /** A document identifier "collection/key" yields its key. */
  lemma AfterFirstSlashOfId(name: CollectionName, key: string)
    requires '/' !in name
    ensures AfterFirstSlash(name + "/" + key) == key
  {
    var s := name + "/" + key;
    assert s[|name|] == '/';
    assert s[..|name|] == name;
    assert s[|name| + 1..] == key;
  }

  /** The outcome of ParseKeyAndRevisionCoordinator. */
  datatype KeyRevision = KeyRevision(code: ErrorCode, key: string, rid: nat)

  /** ParseKeyAndRevisionCoordinator, as a specification: a string is a
      handle; an object gives a string `_key`, failing that a string `_id`,
      and a revision only from a string `_rev`; the key is what follows the
      first '/'. */
  function CoordinatorKey(arg: Value): (r: KeyRevision)
    ensures r.code in {NoError, DocumentTypeInvalid}
    ensures r.code == DocumentTypeInvalid <==>
              !arg.Str? && (!IsObject(arg) || (StringProperty(arg, "_key").None? && StringProperty(arg, "_id").None?))
    ensures r.code == DocumentTypeInvalid ==> r == KeyRevision(DocumentTypeInvalid, "", 0)
    ensures arg.Str? ==> r == KeyRevision(NoError, AfterFirstSlash(arg.s), 0)
    ensures StringProperty(arg, "_key").Some? ==> r.key == AfterFirstSlash(StringProperty(arg, "_key").value)
    ensures StringProperty(arg, "_key").None? && StringProperty(arg, "_id").Some? ==>
              r.key == AfterFirstSlash(StringProperty(arg, "_id").value)
    ensures r.rid != 0 ==> StringProperty(arg, "_rev").Some? && r.rid == StringToUInt64(StringProperty(arg, "_rev").value)
    ensures r.code == NoError && StringProperty(arg, "_rev").Some? ==> r.rid == StringToUInt64(StringProperty(arg, "_rev").value)
  {
    if arg.Str? then KeyRevision(NoError, AfterFirstSlash(arg.s), 0)
    else if IsObject(arg) then
      var raw := if StringProperty(arg, "_key").Some? then StringProperty(arg, "_key") else StringProperty(arg, "_id");
      match raw
      case None => KeyRevision(DocumentTypeInvalid, "", 0)
      case Some(k) =>
        var rid := match StringProperty(arg, "_rev") case Some(rev) => StringToUInt64(rev) case None => 0;
        KeyRevision(NoError, AfterFirstSlash(k), rid)
    else KeyRevision(DocumentTypeInvalid, "", 0)
  }

  /** ParseKeyAndRevisionCoordinator */
  method ParseKeyAndRevisionCoordinator(arg: Value) returns (res: ErrorCode, key: string, revisionId: nat)
    ensures KeyRevision(res, key, revisionId) == CoordinatorKey(arg)
  {
    revisionId := 0;
    key := "";
    if arg.Str? {
      key := arg.s;
    } else if IsObject(arg) {
      if StringProperty(arg, "_key").Some? {
        key := StringProperty(arg, "_key").value;
      } else if StringProperty(arg, "_id").Some? {
        key := StringProperty(arg, "_id").value;
      } else {
        return DocumentTypeInvalid, key, revisionId;
      }
      if StringProperty(arg, "_rev").Some? {
        revisionId := StringToUInt64(StringProperty(arg, "_rev").value);
      }
    } else {
      return DocumentTypeInvalid, key, revisionId;
    }
    var pos := FirstIndexOf(key, '/');
    if pos.Some? {
      key := key[pos.value + 1..];
    }
    res := NoError;
  }

  /** ExtractDocumentId: the `_id` of a (non-array) object, otherwise the
      argument's string form. */
  function ExtractDocumentId(arg: Value): (id: string)
    ensures arg.Str? ==> id == arg.s
    ensures arg.Obj? && "_id" in arg.props ==> id == ToString(arg.props["_id"])
    ensures !(arg.Obj? && "_id" in arg.props) ==> id == ToString(arg)
  {
    match Get(arg, "_id")
    case Some(v) => ToString(v)
    case None => ToString(arg)
  }

  /** The object the bridge returns for a written document:
      `_id` "collection/key", `_rev` the revision as a string, `_key`, and
      `_oldRev` for update and replace. */
  function WrittenDocument(c: Collection, key: string, rid: nat, oldRev: Option<nat>): (v: Value)
    ensures v.Obj?
    ensures Get(v, "_id") == Some(Str(c.name + "/" + key))
    ensures Get(v, "_rev") == Some(Str(NatToString(rid)))
    ensures Get(v, "_key") == Some(Str(key))
    ensures oldRev.None? <==> !Has(v, "_oldRev")
    ensures oldRev.Some? ==> Get(v, "_oldRev") == Some(Str(NatToString(oldRev.value)))
    ensures v.props.Keys <= {"_id", "_rev", "_key", "_oldRev"}
  {
    var base := map["_id" := Str(c.name + "/" + key), "_rev" := Str(NatToString(rid)), "_key" := Str(key)];
    match oldRev
    case None => Obj(base)
    case Some(previous) => Obj(base["_oldRev" := Str(NatToString(previous))])
  }

  /** The handle returned for a written document addresses that document
      again: on a coordinator it yields the key and the revision, and its
      `_id` is "collection/key". */
  lemma WrittenDocumentRoundTrip(c: Collection, key: string, rid: nat, oldRev: Option<nat>)
    ensures CoordinatorKey(WrittenDocument(c, key, rid, oldRev)) ==
            KeyRevision(NoError, AfterFirstSlash(key), rid)
    ensures ExtractDocumentId(WrittenDocument(c, key, rid, oldRev)) == c.name + "/" + key
  {
    RevisionStringRoundTrip(rid);
  }

  /** A key without '/' comes back unchanged from a written document. */
  lemma WrittenDocumentKeyRoundTrip(c: Collection, key: string, rid: nat, oldRev: Option<nat>)
    requires '/' !in key
    ensures CoordinatorKey(WrittenDocument(c, key, rid, oldRev)) == KeyRevision(NoError, key, rid)
  {
    WrittenDocumentRoundTrip(c, key, rid, oldRev);
  }

  /** A bare identifier string "collection/key" given on a coordinator yields
      the key and no revision. */
  lemma CoordinatorKeyOfId(name: CollectionName, key: string)
    requires '/' !in name
    ensures CoordinatorKey(Str(name + "/" + key)) == KeyRevision(NoError, key, 0)
  {
    AfterFirstSlashOfId(name, key);
  }
}
