/** Two functions of the `db` object: `_changeMode`, which switches the
    server between normal operation and a mode that forbids creating
    databases and collections, and the completions list the shell offers
    after `db.`. */
module Database {
  import opened V8Values
  import opened Errors

  datatype OperationMode = Normal | NoCreate

  /** The spelling of a mode `_changeMode` accepts. */
  function ModeName(m: OperationMode): string {
    match m
    case Normal => "Normal"
    case NoCreate => "NoCreate"
  }

  /** The mode a string names, none for any other string. */
  function ParseMode(s: string): (m: Option<OperationMode>)
    ensures m.Some? <==> s == "Normal" || s == "NoCreate"
  {
    if s == "NoCreate" then Some(NoCreate)
    else if s == "Normal" then Some(Normal)
    else None
  }

  lemma ModeRoundTrip(m: OperationMode)
    ensures ParseMode(ModeName(m)) == Some(m)
  {
  }

  lemma ParseModeInverse(s: string)
    ensures ParseMode(s).Some? ==> ModeName(ParseMode(s).value) == s
  {
  }

  /** The mode may be changed from the console (no current request) or over
      a unix-domain socket, never over the network. */
  predicate ModeChangeAllowed(currentRequest: Option<Value>) {
    match currentRequest
    case None => true
    case Some(request) =>
      request.Undefined? || (IsObject(request) && Has(request, "portType") && ToString(request.props["portType"]) == "unix")
  }

  const ChangeModeUsage := "_changeMode(<mode>), with modes: 'Normal', 'NoCreate'"
  const IllegalMode := "illegal mode, allowed modes are: 'Normal' and 'NoCreate'"

  /** JS_ChangeOperationModeVocbase as a specification: the new mode, or the
      exception. */
  function ModeChange(currentRequest: Option<Value>, args: seq<Value>): (r: (Outcome, Option<OperationMode>))
    ensures r.1.Some? <==> r.0 == Returns(Bool(true))
    ensures !ModeChangeAllowed(currentRequest) ==> r.0 == Fail(Forbidden)
    ensures ModeChangeAllowed(currentRequest) && |args| != 1 ==> r.0 == Usage(ChangeModeUsage)
    ensures r.1.Some? ==> ModeChangeAllowed(currentRequest) && |args| == 1 && ModeName(r.1.value) == ToString(args[0])
    ensures ModeChangeAllowed(currentRequest) && |args| == 1 && ParseMode(ToString(args[0])).None? ==>
      r.0 == Usage(IllegalMode)
    ensures ModeChangeAllowed(currentRequest) && |args| == 1 && ParseMode(ToString(args[0])).Some? ==>
      r == (Returns(Bool(true)), ParseMode(ToString(args[0])))
  {
    if !ModeChangeAllowed(currentRequest) then (Fail(Forbidden), None)
    else if |args| != 1 then (Usage(ChangeModeUsage), None)
    else
      match ParseMode(ToString(args[0]))
      case None => (Usage(IllegalMode), None)
      case Some(m) => (Returns(Bool(true)), Some(m))
  }

  /** The server-wide operation mode. */
  class Server {
    var mode: OperationMode

    constructor ()
      ensures mode == Normal
    {
      mode := Normal;
    }

    /** `db._changeMode(<mode>)`: switches the mode when allowed and the
        argument names a mode; leaves it otherwise. */
    method ChangeOperationMode(currentRequest: Option<Value>, args: seq<Value>) returns (r: Outcome)
      modifies this
      ensures r == ModeChange(currentRequest, args).0
      ensures mode == (match ModeChange(currentRequest, args).1 case Some(m) => m case None => old(mode))
    {
      var allowModeChange := false;
      if currentRequest.None? || currentRequest.value.Undefined? {
        allowModeChange := true;
      } else if IsObject(currentRequest.value) {
        var obj := currentRequest.value;
        if Has(obj, "portType") {
          var portType := ToString(obj.props["portType"]);
          if portType == "unix" {
            allowModeChange := true;
          }
        }
      }
      if !allowModeChange {
        return Fail(Forbidden);
      }
      if |args| != 1 {
        return Usage(ChangeModeUsage);
      }
      var newModeStr := ToString(args[0]);
      var newMode := Normal;
      if newModeStr == "NoCreate" {
        newMode := NoCreate;
      } else if newModeStr != "Normal" {
        return Usage(IllegalMode);
      }
      mode := newMode;
      r := Returns(Bool(true));
    }
  }

  /** The names the shell completes after `db.` besides the collections. */
  const BuiltInMethods: seq<string> := [
    "_beginTransaction()",
    "_changeMode()",
    "_collection()",
    "_collections()",
    "_commitTransaction()",
    "_create()",
    "_createDatabase()",
    "_createDocumentCollection()",
    "_createEdgeCollection()",
    "_document()",
    "_drop()",
    "_dropDatabase()",
    "_executeTransaction()",
    "_exists()",
    "_id",
    "_isSystem()",
    "_listDatabases()",
    "_listTransactions()",
    "_name()",
    "_path()",
    "_popTransaction()",
    "_pushTransaction()",
    "_query()",
    "_remove()",
    "_replace()",
    "_rollbackTransaction()",
    "_stackTransactions()",
    "_transaction()",
    "_update()",
    "_useDatabase()",
    "_version()"
  ]

  /** The completions: the collection names first, in their order, then the
      built-in methods, each as a JavaScript string. */
  function CompletionList(names: seq<string>): (l: seq<Value>)
    ensures |l| == |names| + |BuiltInMethods|
    ensures forall i :: 0 <= i < |names| ==> l[i] == Str(names[i])
    ensures forall j :: 0 <= j < |BuiltInMethods| ==> l[|names| + j] == Str(BuiltInMethods[j])
  {
    seq(|names| + |BuiltInMethods|,
        i requires 0 <= i < |names| + |BuiltInMethods| =>
          if i < |names| then Str(names[i]) else Str(BuiltInMethods[i - |names|]))
  }

  /** JS_CompletionsVocbase: needs a current database; on a coordinator the
      collection names come from the cluster, and none are listed when the
      cluster does not know the database. */
  method Completions(hasDatabase: bool, isCoordinator: bool, databaseExistsInCluster: bool,
                     localNames: seq<string>, clusterNames: seq<string>) returns (r: Outcome)
    ensures !hasDatabase ==> r == Fail(DatabaseNotFound)
    ensures hasDatabase && !isCoordinator ==> r == Returns(Arr(CompletionList(localNames)))
    ensures hasDatabase && isCoordinator && databaseExistsInCluster ==> r == Returns(Arr(CompletionList(clusterNames)))
    ensures hasDatabase && isCoordinator && !databaseExistsInCluster ==> r == Returns(Arr(CompletionList([])))
  {
    if !hasDatabase {
      return Fail(DatabaseNotFound);
    }
    var names: seq<string> := [];
    if isCoordinator {
      if databaseExistsInCluster {
        names := clusterNames;
      }
    } else {
      names := localNames;
    }
    var result: seq<Value> := [];
    var i := 0;
    while i < |names|
      invariant 0 <= i <= |names| && |result| == i
      invariant forall k :: 0 <= k < i ==> result[k] == Str(names[k])
    {
      result := result + [Str(names[i])];
      i := i + 1;
    }
    var j := 0;
    while j < |BuiltInMethods|
      invariant 0 <= j <= |BuiltInMethods| && |result| == |names| + j
      invariant forall k :: 0 <= k < |names| ==> result[k] == Str(names[k])
      invariant forall k :: 0 <= k < j ==> result[|names| + k] == Str(BuiltInMethods[k])
    {
      result := result + [Str(BuiltInMethods[j])];
      j := j + 1;
    }
    assert result == CompletionList(names);
    r := Returns(Arr(result));
  }

  /** Every built-in method is offered, after all collection names. */
  lemma BuiltInsCompleted(names: seq<string>, m: string)
    requires m in BuiltInMethods
    ensures exists j :: |names| <= j < |CompletionList(names)| && CompletionList(names)[j] == Str(m)
  {
    var k :| 0 <= k < |BuiltInMethods| && BuiltInMethods[k] == m;
    assert CompletionList(names)[|names| + k] == Str(m);
  }
}
