# The document functions of ArangoDB's JavaScript collection bridge

ArangoDB exposes its collections to JavaScript through a V8 bridge
(`arangod/V8Server/v8-collection.cpp`). For the document functions
(`collection.insert`, `document`, `exists`, `replace`, `update`, `remove`,
`truncate` and their database-level twins `db._document`, `db._exists`,
`db._replace`, `db._update`, `db._remove`) the bridge does four things:

- it decodes the options a caller passes, as an options object or as the
  older positional booleans;
- it parses document handles and keys, both locally and in the form a
  cluster coordinator uses;
- it picks the local engine or, on a coordinator, the shard that owns the
  document;
- it turns the engine's result code or the shard's HTTP reply into the value
  or exception JavaScript sees.

The bridge also validates changes to collection properties, switches the
server's operation mode, and lists completions for the `db` object.

The project models each of these in Dafny:

- `values.dfy`: V8 values as a datatype, with the conversions the bridge
  applies (`TRI_ObjectToBoolean`, `TRI_ObjectToString`, `TRI_ObjectToUInt64`),
  plus the error numbers and the two ways a call ends, returning a value or
  throwing.
- `options.dfy`: the options record (`OperationOptions`) as a class whose
  parsers update it in place. Each parser is proved against a pure
  specification, and lemmas cover the update policy.
- `handles.dfy`: key extraction, handle resolution with the cross-collection
  check, the coordinator's key/revision parser and `ExtractDocumentId`.
  Imperative methods are proved against specification functions.
- `coordinator.dfy`: the mapping of cluster replies for insert, edge insert,
  document/exists, remove and update/replace. The transport is a function
  parameter.
- `operations.dfy`: the JavaScript entry points. They cover argument-count
  guards, collection binding, the local/coordinator choice and the mapping of
  the engine's result codes. The engine and the handle and vertex parsers
  are function parameters.
- `properties.dfy`: the validation of `collection.properties(...)`, with the
  local parameters as a class changed in place.
- `database.dfy`: `db._changeMode` with the server's mode as a class, and
  the completions loop.

## Model

| member | source | states |
|---|---|---|
| Options.ExtractUpdatePolicy | arangod/V8Server/v8-collection.cpp:156-158 | the policy is last-write exactly when overwrite is true, error exactly when it is false |
| Options.ExtractWaitForSync | arangod/V8Server/v8-collection.cpp:145-150 | true only when there are at least `index` arguments and argument `index-1` is true; false whenever there are fewer |
| Options.OperationOptions.constructor | arangod/V8Server/v8-collection.cpp:2410 | a fresh options record holds the defaults |
| Options.OperationOptions.ParseInsert | arangod/V8Server/v8-collection.cpp:315-335 | the record afterwards is the insert decoding of the arguments applied to the record before |
| Options.OperationOptions.ParseRemove | arangod/V8Server/v8-collection.cpp:341-367 | the record afterwards is the remove decoding applied to the record before |
| Options.OperationOptions.ParseUpdate | arangod/V8Server/v8-collection.cpp:373-416 | the record afterwards is the update/replace decoding applied to the record before |
| Options.OperationOptions.MarkStandAlone | arangod/V8Server/v8-collection.cpp:2579-2581 | standAlone becomes set when the scope started the transaction; no other field changes |
| Options.WithScope | arangod/V8Server/v8-collection.cpp:2351-2353 | on a record that is not yet stand-alone, standAlone ends up set exactly when the transaction was started; every other field is kept |
| Options.RemovePolicyFollowsOverwrite | arangod/V8Server/v8-collection.cpp:345-362 | remove parsing sets the policy from the overwrite value supplied (options key or positional argument 2), else leaves it at error; overwrite is the supplied value or unchanged |
| Options.UpdatePolicyFollowsOverwrite | arangod/V8Server/v8-collection.cpp:377-407 | the same for update/replace, where the supplied overwrite is options key or positional argument 3 |
| Options.RemovePolicyAgreement | arangod/V8Server/v8-collection.cpp:345-362 | after remove parsing the policy agrees with overwrite exactly when an overwrite was supplied or overwrite was false before |
| Options.UpdatePolicyAgreement | arangod/V8Server/v8-collection.cpp:377-407 | the same for update/replace parsing |
| Options.ParsedFromDefaultsAgree | arangod/V8Server/v8-collection.cpp:315-416 | starting from the defaults, every parser leaves policy and overwrite in agreement |
| Options.InsertOptionsFrame | arangod/V8Server/v8-collection.cpp:320-334 | insert parsing changes only waitForSync and silent; without an options object waitForSync is the positional flag after the document and silent is kept |
| Options.RemoveAbsentKeysUntouched | arangod/V8Server/v8-collection.cpp:347-358 | keys absent from a remove options object leave waitForSync and overwrite as they were |
| Options.UpdateAbsentKeysUntouched | arangod/V8Server/v8-collection.cpp:380-403 | keys absent from an update options object leave overwrite, keepNull, mergeObjects, silent and waitForSync as they were |
| Options.RemoveOptionsFrame | arangod/V8Server/v8-collection.cpp:341-367 | remove parsing never touches silent, keepNull, mergeObjects or standAlone |
| Handles.DocumentKey | arangod/V8Server/v8-collection.cpp:190-227 | a string `_key` gives no error and that key; a `_key` of another type gives KEY_BAD; no `_key` gives KEY_MISSING; a key is returned exactly on success |
| Handles.ExtractDocumentKey | arangod/V8Server/v8-collection.cpp:190-227 | the error number and key it assigns are those of the key extraction above |
| Handles.DocumentKeyRoundTrip | arangod/V8Server/v8-collection.cpp:190-227 | a document given a string `_key` yields exactly that key |
| Handles.ResolveHandle | arangod/V8Server/v8-collection.cpp:233-306 | an unparsable handle or a bare key without a bound collection is HANDLE_BAD; a named collection other than the bound one is CROSS_COLLECTION_REQUEST; an unknown name without a bound collection is COLLECTION_NOT_FOUND; conversely a bare key with a bound collection, the bound collection's own name, or a known name without a bound collection always succeeds; on success a collection is set (the bound one or the resolved one) and the key and revision are the handle's; on failure the collection is unchanged |
| Handles.ParseDocumentOrDocumentHandle | arangod/V8Server/v8-collection.cpp:233-306 | the error number, collection, key and revision it assigns are those of the resolution above |
| Handles.FirstIndexOf | arangod/V8Server/v8-collection.cpp:524 | none exactly when the character does not occur; otherwise an index of that character with no earlier occurrence |
| Handles.AfterFirstSlash | arangod/V8Server/v8-collection.cpp:524-527 | a string without '/' is kept; otherwise the result is what follows the first '/' |
| Handles.AfterFirstSlashOfId | arangod/V8Server/v8-collection.cpp:524-527 | for a collection name without '/', "name/key" is cut back to the key |
| Handles.CoordinatorKey | arangod/V8Server/v8-collection.cpp:490-530 | a string argument is the key; in an object a string `_key` wins over a string `_id`, neither is DOCUMENT_TYPE_INVALID, as is any other argument; the revision is 0 unless a string `_rev` gives it; the key is cut after its first '/' |
| Handles.ParseKeyAndRevisionCoordinator | arangod/V8Server/v8-collection.cpp:490-530 | the error number, key and revision it assigns are those of the coordinator parse above |
| Handles.CoordinatorKeyOfId | arangod/V8Server/v8-collection.cpp:524-527 | the identifier string "collection/key" parses to the key and revision 0 |
| Handles.ExtractDocumentId | arangod/V8Server/v8-collection.cpp:598-614 | the `_id` of an object that is no array, as a string; otherwise the string form of the argument |
| Handles.WrittenDocument | arangod/V8Server/v8-collection.cpp:2751-2760 | the returned object holds `_id` "collection/key", `_rev` the revision as a string, `_key` the key, and `_oldRev` (the replaced revision as a string) exactly when one is given, and nothing else |
| Handles.WrittenDocumentRoundTrip | arangod/V8Server/v8-collection.cpp:2379-2387 | the returned handle parses back on a coordinator to the key (after its first '/') and the same revision, and its id is "collection/key" |
| Handles.WrittenDocumentKeyRoundTrip | arangod/V8Server/v8-collection.cpp:2379-2387 | a key without '/' comes back unchanged with its revision |
| V8Values.RevisionStringRoundTrip | arangod/V8Server/v8-collection.cpp:516-518 | a revision written as a decimal string reads back as the same number |
| Coordinator.ErrorNum | arangod/V8Server/v8-collection.cpp:469-473 | the numeric errorNum of a reply body, or the given default when there is none |
| Coordinator.ErrorMessage | arangod/V8Server/v8-collection.cpp:475-480 | the string errorMessage of a reply body, or the standard text |
| Coordinator.ClusterError | arangod/V8Server/v8-collection.cpp:460-484 | always throws; a body that is no JSON object is INTERNAL; otherwise the shard's errorNum (INTERNAL when absent) and message; "no error" is thrown only when the shard sent errorNum 0 |
| Coordinator.WriteReply | arangod/V8Server/v8-collection.cpp:691-702 | a transport error is thrown; a value is returned exactly when the transport succeeded with a status below 400; an error status goes through the cluster error mapping; a silent call returns true, any other the reply body |
| Coordinator.InsertDocumentCoordinator | arangod/V8Server/v8-collection.cpp:650-704 | a document that is no object is DOCUMENT_TYPE_INVALID; otherwise the document is sent with the caller's waitForSync and the reply is mapped as a write |
| Coordinator.InsertEdgeCoordinator | arangod/V8Server/v8-collection.cpp:708-767 | the ids of the first two arguments are the vertices; an edge document that is no object is DOCUMENT_TYPE_INVALID; otherwise the reply is mapped as a write |
| Coordinator.DocumentReply | arangod/V8Server/v8-collection.cpp:819-866 | for exists: true below status 400, false at or above it, never reading the body; for document: a value only below 400 and then the body; at or above 400 it throws INTERNAL for a body that is no object, otherwise the shard's errorNum (or the default) |
| Coordinator.DocumentCoordinator | arangod/V8Server/v8-collection.cpp:772-866 | a key that does not parse is DOCUMENT_TYPE_INVALID; otherwise the shard is asked for the parsed key and revision and the reply is mapped; exists only ever returns booleans |
| Coordinator.RemoveReply | arangod/V8Server/v8-collection.cpp:919-952 | true exactly for a successful transport with status below 400; false exactly for an object reply whose errorNum is DOCUMENT_NOT_FOUND under the last-write policy; any other error throws the shard's errorNum (or the default), or INTERNAL for a body that is no object |
| Coordinator.RemoveCoordinator | arangod/V8Server/v8-collection.cpp:871-952 | a key that does not parse is DOCUMENT_TYPE_INVALID; otherwise the delete carries policy and waitForSync and the reply is mapped; false only under the last-write policy |
| Coordinator.UpdateCoordinator | arangod/V8Server/v8-collection.cpp:956-1022 | a key that does not parse, then a document that is no object, is DOCUMENT_TYPE_INVALID; otherwise the modify call carries policy, waitForSync, patch mode, keepNull and mergeObjects, and the reply is mapped as a write |
| Coordinator.AsWrittenThrowsNoError | arangod/V8Server/v8-collection.cpp:835-849 | see Findings: the as-written document and remove mappings throw error 0 for a 404 reply `{}` |
| Coordinator.RepliesNeverThrowNoError | arangod/V8Server/v8-collection.cpp:467-473 | with the INTERNAL default, no coordinator reply mapping throws "no error" unless the shard sent errorNum 0 |
| Coordinator.ExistsAgreesWithDocument | arangod/V8Server/v8-collection.cpp:825-866 | when document returns a value, exists returns true; when exists returns false, document throws |
| Coordinator.RemoveErrorPolicyNeverFalse | arangod/V8Server/v8-collection.cpp:940-949 | under the error policy a coordinator remove never returns false, and a DOCUMENT_NOT_FOUND reply is thrown as such |
| Operations.CollectionInit | arangod/V8Server/v8-collection.cpp:56-78 | a collection function without a collection behind `this` throws INTERNAL "cannot extract collection"; a database function without a current database throws DATABASE_NOT_FOUND; otherwise the call is bound to the collection (collection functions) or to none (database functions) |
| Operations.ExistsOutcome | arangod/V8Server/v8-collection.cpp:2215-2227 | true exactly for NO_ERROR, false exactly for DOCUMENT_NOT_FOUND or CONFLICT, every other code thrown |
| Operations.RemoveOutcome | arangod/V8Server/v8-collection.cpp:2590-2599 | true exactly for NO_ERROR, false exactly for DOCUMENT_NOT_FOUND under last-write, every other code thrown |
| Operations.WriteOutcome | arangod/V8Server/v8-collection.cpp:2366-2387 | it throws exactly when the engine failed; a silent call returns true; otherwise it returns a handle with `_key` the written key and `_rev` its revision, that parses back to the key and revision, with id "collection/key", and `_oldRev` exactly for replace and update, holding the engine's replaced revision |
| Operations.DocumentOutcome | arangod/V8Server/v8-collection.cpp:2123-2127 | it throws exactly when the read failed; otherwise it returns the document read |
| Operations.DatabaseFunctionsReachCoordinatorWithoutCollection | arangod/V8Server/v8-collection.cpp:2184-2187 | see Findings: on a coordinator a database function reaches the coordinator helpers with no collection |
| Operations.CoordinatorTarget | arangod/V8Server/v8-collection.cpp:278-306 | the collection a coordinator call addresses: the bound one, or for a database function the one its handle names; success always yields a collection |
| Operations.CoordinatorDatabaseFunctionsResolveHandle | arangod/V8Server/v8-collection.cpp:278-306 | on a coordinator, `db._exists` and `db._document` fail with exactly the error the local server raises for a handle it refuses; any other handle reaches the coordinator helper with the collection the handle names |
| Operations.MvccExists | arangod/V8Server/v8-collection.cpp:2173-2238 | a count other than 1 is a usage error; a binding failure is thrown; the result is always a boolean; locally a handle error is thrown and otherwise the engine's read code is mapped (true found, false missing or conflicting, others thrown); on a coordinator the target collection is resolved and the call goes to the coordinator exists |
| Operations.MvccDocument | arangod/V8Server/v8-collection.cpp:2080-2138 | a count other than 1 is a usage error; a binding failure is thrown; locally a handle error is thrown, otherwise the engine's read is returned or its error thrown; on a coordinator the target collection is resolved and the call goes to the coordinator document |
| Operations.MvccRemove | arangod/V8Server/v8-collection.cpp:2541-2610 | 1 to 3 arguments, otherwise usage; the result is a boolean; false only when the parsed policy is last-write; locally a handle error is thrown, otherwise the engine's code is mapped with the stand-alone options; on a coordinator the target collection is resolved and the call goes to the coordinator remove with the parsed options |
| Operations.LocalInsert | arangod/V8Server/v8-collection.cpp:2320-2390 | a document that is no object (or is an array) is DOCUMENT_TYPE_INVALID; a bad `_key` is thrown; a missing `_key` is tolerated and the engine generates the key; the engine's result is mapped as a write |
| Operations.MvccInsert | arangod/V8Server/v8-collection.cpp:2400-2470 | no collection is INTERNAL; document collections take 1 to 2 arguments and edge collections 2 to 4, each with its usage text; locally an edge's from and to vertices are parsed first and their errors thrown, then the local insert runs; on a coordinator the call goes to the coordinator document or edge insert with the parsed options |
| Operations.Modify | arangod/V8Server/v8-collection.cpp:2685-2773 | 2 to 5 arguments, otherwise usage; then a document that is no object is DOCUMENT_TYPE_INVALID before any collection is bound; locally a handle error is thrown, otherwise the engine's result is mapped as a write with `_oldRev`; on a coordinator the target collection is resolved and the call goes to the coordinator update |
| Operations.MvccReplace | arangod/V8Server/v8-collection.cpp:2685-2773 | the replace usage text for a wrong count, DOCUMENT_TYPE_INVALID for a non-object document; locally the engine is asked to replace the resolved document with the stand-alone update options and its result is mapped as a write with `_oldRev`; on a coordinator the call goes to the coordinator update without patch mode |
| Operations.MvccUpdate | arangod/V8Server/v8-collection.cpp:2884-2975 | the update usage text for a wrong count, DOCUMENT_TYPE_INVALID for a non-object document; locally the engine is asked to update (patch) the resolved document with the stand-alone update options and its result is mapped as a write with `_oldRev`; on a coordinator the call goes to the coordinator update in patch mode |
| Operations.MvccTruncate | arangod/V8Server/v8-collection.cpp:2987-3031 | no collection is INTERNAL; a non-local collection is NOT_IMPLEMENTED; otherwise it returns undefined exactly when the engine truncates with the positional waitForSync, and throws the engine's error otherwise |
| Operations.RemoveLocalAgreesWithCoordinator | arangod/V8Server/v8-collection.cpp:940-949 | for a shard reply of the assumed shape for an engine code, the coordinator remove mapping equals the local one under either policy |
| Operations.ExistsLocalAndCoordinator | arangod/V8Server/v8-collection.cpp:2215-2227 | for shard replies of the assumed shape every local false or true answer is the coordinator's answer too; the coordinator also answers false for error codes the local function throws |
| Operations.RemovePolicyAsymmetry | arangod/V8Server/v8-collection.cpp:2590-2599 | a missing document is thrown under the error policy and is false under last-write; for every other error code the two policies agree |
| Operations.StandAloneIffStarted | arangod/V8Server/v8-collection.cpp:2579-2581 | the options handed to the engine after any of the parsers are stand-alone exactly when the scope started the transaction |
| Properties.JournalSize | arangod/V8Server/v8-collection.cpp:1590 | a requested journal size is cut to the 32-bit width of the stored size and is unchanged when it fits |
| Properties.Requested | arangod/V8Server/v8-collection.cpp:1569-1590 | each key of the properties object replaces its parameter and each absent key keeps it; isVolatile and isSystem are never replaced |
| Properties.ValidatedChange | arangod/V8Server/v8-collection.cpp:1589-1610 | an accepted change is the requested parameters; a rejection carries one of the three messages |
| Properties.AcceptedIff | arangod/V8Server/v8-collection.cpp:1589-1610 | a change is accepted exactly when the journal size (if given) is at least the minimum, isVolatile (if given) equals the current one, and the collection is not volatile with waitForSync requested or kept |
| Properties.SmallJournalRejected | arangod/V8Server/v8-collection.cpp:1589-1596 | a journal size below the minimum is rejected with "journalSize too small", whatever else is asked |
| Properties.VolatileCannotChange | arangod/V8Server/v8-collection.cpp:1598-1604 | a different isVolatile is rejected once the journal size passed |
| Properties.VolatileSyncRejected | arangod/V8Server/v8-collection.cpp:1606-1610 | a volatile collection asked (or still set) to wait for sync is rejected once the first two checks passed |
| Properties.ChangePreservesValid | arangod/V8Server/v8-collection.cpp:1589-1610 | from valid parameters an accepted change yields valid ones (no volatile collection with waitForSync, journal at least the minimum) and keeps isVolatile and isSystem |
| Properties.Describe | arangod/V8Server/v8-collection.cpp:1657-1684 | the parameter set returned to JavaScript reports doCompact, isSystem, isVolatile, the journal size and waitForSync held |
| Properties.LocalProperties | arangod/V8Server/v8-collection.cpp:1560-1684 | without a properties object it only reports; a rejected change throws its parameter error and keeps the parameters; an accepted change whose store fails throws that error and keeps them; an accepted and stored change installs the requested parameters and reports them; isVolatile and isSystem never change |
| Properties.CoordinatorProperties | arangod/V8Server/v8-collection.cpp:1454-1547 | a rejected change throws its parameter error; any argument at all writes back, and a failing write is thrown; a written accepted change reports the requested parameters, a written non-object argument reports them unchanged; without arguments the parameters are reported |
| Properties.CoordinatorAgreesWithLocal | arangod/V8Server/v8-collection.cpp:1454-1610 | when writing succeeds, coordinator and local server answer every properties call alike |
| Properties.CollectionParameters.constructor | arangod/V8Server/v8-collection.cpp:1569-1571 | the parameters start as given |
| Properties.CollectionParameters.ReadRequested | arangod/V8Server/v8-collection.cpp:1569-1590 | the copied-then-overwritten values are the requested parameters |
| Properties.CollectionParameters.ChangeProperties | arangod/V8Server/v8-collection.cpp:1560-1684 | the outcome and the new parameters are those of the local properties call on the old ones, and valid parameters stay valid |
| Database.ParseMode | arangod/V8Server/v8-collection.cpp:3257-3264 | a mode exactly for "Normal" and "NoCreate" |
| Database.ModeRoundTrip | arangod/V8Server/v8-collection.cpp:3257-3264 | every mode's name parses back to that mode |
| Database.ParseModeInverse | arangod/V8Server/v8-collection.cpp:3257-3264 | a string that parses is the name of the mode it parses to |
| Database.ModeChange | arangod/V8Server/v8-collection.cpp:3224-3270 | a request that is neither the console nor a unix socket is FORBIDDEN; then an argument count other than 1 is a usage error; a string naming no mode is the illegal-mode usage error; an allowed call naming a mode returns true and switches to that mode; a new mode exactly when the call returns true |
| Database.Server.ChangeOperationMode | arangod/V8Server/v8-collection.cpp:3224-3270 | the outcome is the one specified above; the mode becomes the new mode when there is one and is kept otherwise |
| Database.CompletionList | arangod/V8Server/v8-collection.cpp:3442-3450 | the collection names in their order, then the 31 built-in methods, as strings |
| Database.Completions | arangod/V8Server/v8-collection.cpp:3416-3453 | without a database DATABASE_NOT_FOUND; otherwise the completion list of the local names, of the cluster's names, or of none when the cluster does not know the database |
| Database.BuiltInsCompleted | arangod/V8Server/v8-collection.cpp:102-134 | every built-in method is offered, after all collection names |

## Left out

- V8 plumbing is not modelled: handle scopes, object wrapping, shaped JSON
  and `TRI_WrapShapedJson`. Values are a datatype, and an object that is no
  array is taken to convert to a JSON object, so the failure of
  `TRI_ObjectToJson` ("<document> is no valid JSON" in update) is not
  modelled.
- `TRI_ObjectToBoolean`, `TRI_ObjectToString` and `TRI_ObjectToUInt64` are
  defined outside `v8-collection.cpp`. The model takes their usual meaning:
  only a true boolean is true; JavaScript's `String()`; a non-negative
  number or the leading decimal digits of a string. Numbers are integers:
  floating point, string objects and boolean objects are not modelled.
- The engine (`CollectionOperations`, `TransactionScope`),
  `ExtractDocumentHandle`, `TRI_ParseVertex` and the cluster transport
  (`*OnCoordinator`, `ClusterInfo`, `ServerState`) are function parameters.
  Their result codes and replies are inputs. The database name sent with a
  cluster request is left out.
- Operations.CollectionInit: the database behind a bound collection is
  taken to exist.
- Handles.ResolveHandle: the collection-name comparison (`EqualCollection`)
  is taken to be equality of names. Resolution by numeric collection id is
  not modelled.
- `count()` and `size()` are not modelled: their `static_cast<int>`
  conversions are numeric plumbing around an engine call.
- Figures, datafiles, datafile scans, rotate, rename, drop, load, unload,
  status, type, version and the collection lookups of the `db` object are
  not modelled. Neither is the write-ahead-log marker written after a local
  properties change: these are file I/O, locks and cluster state.
- Properties.LocalProperties: loading the collection (`UseCollection`) and
  the holder check are not modelled, and the returned `keyOptions` are left
  out. A failed store is taken to leave the parameters unchanged, because
  `TRI_UpdateCollectionInfo` is not part of this model. The coordinator's
  `shardKeys`, `numberOfShards` and `keyOptions` are left out too.
- Properties.JournalMinimalSize is taken as 1 MB (1024 * 1024) and the
  stored size as 32 bits wide. `TRI_JOURNAL_MINIMAL_SIZE` and
  `TRI_voc_size_t` are defined outside the files of this model.
- Operations.MvccTruncate: the definition of
  `TRI_THROW_SHARDING_COLLECTION_NOT_YET_IMPLEMENTED` is not part of this
  model. It is taken to throw NOT_IMPLEMENTED for a collection that is not
  local, as `UseCollection` does. The rollback sub-transaction is not
  modelled.
- Options.OperationOptions.constructor: the defaults (everything false
  except keepNull and mergeObjects, policy error) come from the
  `OperationOptions` header, which is not part of this model.
- Operations.ShardReply: what a shard answers for an engine result code is
  outside this model. RemoveLocalAgreesWithCoordinator and
  ExistsLocalAndCoordinator hold for an assumed reply shape: an empty object
  on success, otherwise the code as errorNum.
- Database.Server.constructor: the server is taken to start in normal mode;
  `v8-collection.cpp` does not set the initial mode.
- Exception messages are the texts the source spells out. The empty message
  stands for an error number's standard text, and the texts of the error
  table are not modelled.

## Findings

| source | as written | input that shows it | evidently intended | confidence | as-written member | corrected member |
|---|---|---|---|---|---|---|
| arangod/V8Server/v8-collection.cpp:835 | `document` and `remove` on a coordinator start errorNum at 0, so an error reply without errorNum throws error 0 ("no error"); the same happens at line 924 | a shard reply with status 404 and body `{}` | default to INTERNAL, as HandleClusterErrorResponse does at line 467 | high; not executed | Coordinator.AsWrittenThrowsNoError | Coordinator.RepliesNeverThrowNoError |
| arangod/V8Server/v8-collection.cpp:2184-2187 | the database functions (`db._document`, `db._exists`, `db._remove`, `db._replace`, `db._update`) call the coordinator helpers with the null collection left by the binding macro, and the helpers read `collection->_dbName` | `db._exists("users/123")` on a coordinator | resolve the handle's collection first, as ParseDocumentOrDocumentHandle does for the coordinator at lines 282-290 | high; not executed | Operations.DatabaseFunctionsReachCoordinatorWithoutCollection | Operations.CoordinatorDatabaseFunctionsResolveHandle |

The rest of the model uses the corrected behaviour. Coordinator replies
without an error number throw INTERNAL. A database function on a coordinator
first resolves the collection its handle names (`Operations.CoordinatorTarget`).
