/** Decoding of the options a document operation is called with: either an
    options object or the older positional booleans, written into a
    caller-owned options record field by field. */
module Options {
  import opened V8Values

  /** TRI_doc_update_policy_e: what a revision mismatch leads to. */
  datatype UpdatePolicy = PolicyError | PolicyLastWrite

  /** ExtractUpdatePolicy: last-write-wins exactly when overwriting is asked for. */
  function ExtractUpdatePolicy(overwrite: bool): (p: UpdatePolicy)
    ensures p == PolicyLastWrite <==> overwrite
    ensures p == PolicyError <==> !overwrite
  {
    if overwrite then PolicyLastWrite else PolicyError
  }

  /** ExtractWaitForSync: the positional flag at 1-based position `index`;
      false when the call has fewer arguments. */
  function ExtractWaitForSync(args: seq<Value>, index: int): (r: bool)
    requires index > 0
    ensures r ==> |args| >= index
    ensures |args| >= index ==> r == ToBoolean(args[index - 1])
    ensures |args| < index ==> !r
  {
    |args| >= index && ToBoolean(args[index - 1])
  }

  /** The contents of an OperationOptions record. */
  datatype OptionSet = OptionSet(
    waitForSync: bool,
    silent: bool,
    overwrite: bool,
    policy: UpdatePolicy,
    keepNull: bool,
    mergeObjects: bool,
    standAlone: bool)

  /** A freshly constructed record: no sync, no overwrite, nulls kept,
      nested objects merged. */
  function Defaults(): OptionSet {
    OptionSet(false, false, false, PolicyError, true, true, false)
  }

  /** The record agrees with itself: its policy is the one its overwrite flag selects. */
  predicate PolicyAgrees(o: OptionSet) {
    o.policy == ExtractUpdatePolicy(o.overwrite)
  }

  /** The flag an options object gives for `key`, `current` when the key is absent. */
  function FlagOr(opts: Value, key: string, current: bool): bool {
    match Get(opts, key)
    case Some(v) => ToBoolean(v)
    case None => current
  }

  /** ParseInsertOptions, on the record's contents. */
  function InsertOptions(o: OptionSet, args: seq<Value>, optArg: nat): OptionSet {
    if optArg < |args| && IsObject(args[optArg]) then
      o.(waitForSync := FlagOr(args[optArg], "waitForSync", o.waitForSync),
         silent := FlagOr(args[optArg], "silent", o.silent))
    else
      o.(waitForSync := ExtractWaitForSync(args, optArg + 1))
  }

  /** ParseRemoveOptions, on the record's contents. */
  function RemoveOptions(o: OptionSet, args: seq<Value>): OptionSet {
    var reset := o.(policy := PolicyError);
    if |args| > 1 && IsObject(args[1]) then
      var opts := args[1];
      var afterOverwrite :=
        if Has(opts, "overwrite") then
          var ow := ToBoolean(Get(opts, "overwrite").value);
          reset.(overwrite := ow, policy := ExtractUpdatePolicy(ow))
        else reset;
      afterOverwrite.(waitForSync := FlagOr(opts, "waitForSync", afterOverwrite.waitForSync))
    else
      var ow := ToBoolean(Arg(args, 1));
      var positional := reset.(overwrite := ow, policy := ExtractUpdatePolicy(ow));
      if |args| > 2 then positional.(waitForSync := ToBoolean(args[2])) else positional
  }

  /** ParseUpdateOptions, on the record's contents (update and replace). */
  function UpdateOptions(o: OptionSet, args: seq<Value>): OptionSet {
    var reset := o.(policy := PolicyError);
    if |args| <= 2 then reset
    else if IsObject(args[2]) then
      var opts := args[2];
      var afterOverwrite :=
        if Has(opts, "overwrite") then
          var ow := ToBoolean(Get(opts, "overwrite").value);
          reset.(overwrite := ow, policy := ExtractUpdatePolicy(ow))
        else reset;
      afterOverwrite.(keepNull := FlagOr(opts, "keepNull", afterOverwrite.keepNull),
                      mergeObjects := FlagOr(opts, "mergeObjects", afterOverwrite.mergeObjects),
                      waitForSync := FlagOr(opts, "waitForSync", afterOverwrite.waitForSync),
                      silent := FlagOr(opts, "silent", afterOverwrite.silent))
    else
      var ow := ToBoolean(args[2]);
      var positional := reset.(overwrite := ow, policy := ExtractUpdatePolicy(ow));
      var withKeepNull := if |args| > 3 then positional.(keepNull := ToBoolean(args[3])) else positional;
      if |args| > 4 then withKeepNull.(waitForSync := ToBoolean(args[4])) else withKeepNull
  }

  // ---------------------------------------------------------------------------
  // Reference definitions: which argument supplies which setting
  // ---------------------------------------------------------------------------

  /** The overwrite value a remove call supplies: the options object's
      `overwrite` key, or else the second argument (undefined when absent). */
  function RemoveOverwriteSupplied(args: seq<Value>): Option<Value> {
    if |args| > 1 && IsObject(args[1]) then Get(args[1], "overwrite") else Some(Arg(args, 1))
  }

  /** The overwrite value an update or replace call supplies: the options
      object's `overwrite` key, or else a third positional argument. */
  function UpdateOverwriteSupplied(args: seq<Value>): Option<Value> {
    if |args| <= 2 then None
    else if IsObject(args[2]) then Get(args[2], "overwrite")
    else Some(args[2])
  }

  /** The policy a supplied overwrite value selects: last-write-wins only for
      a true value, error otherwise and when nothing was supplied. */
  function PolicyFor(supplied: Option<Value>): UpdatePolicy {
    if supplied.Some? && ToBoolean(supplied.value) then PolicyLastWrite else PolicyError
  }

  lemma RemovePolicyFollowsOverwrite(o: OptionSet, args: seq<Value>)
    ensures RemoveOptions(o, args).policy == PolicyFor(RemoveOverwriteSupplied(args))
    ensures RemoveOptions(o, args).overwrite ==
            (match RemoveOverwriteSupplied(args) case Some(v) => ToBoolean(v) case None => o.overwrite)
  {
  }

  lemma UpdatePolicyFollowsOverwrite(o: OptionSet, args: seq<Value>)
    ensures UpdateOptions(o, args).policy == PolicyFor(UpdateOverwriteSupplied(args))
    ensures UpdateOptions(o, args).overwrite ==
            (match UpdateOverwriteSupplied(args) case Some(v) => ToBoolean(v) case None => o.overwrite)
  {
  }

  /** After remove parsing the policy agrees with the overwrite flag exactly
      when an overwrite value was supplied or the flag was already off. */
  lemma RemovePolicyAgreement(o: OptionSet, args: seq<Value>)
    ensures PolicyAgrees(RemoveOptions(o, args)) <==>
            (RemoveOverwriteSupplied(args).Some? || !o.overwrite)
  {
    RemovePolicyFollowsOverwrite(o, args);
  }

  lemma UpdatePolicyAgreement(o: OptionSet, args: seq<Value>)
    ensures PolicyAgrees(UpdateOptions(o, args)) <==>
            (UpdateOverwriteSupplied(args).Some? || !o.overwrite)
  {
    UpdatePolicyFollowsOverwrite(o, args);
  }

  /** Starting from a fresh record, the decoded options always agree. */
  lemma ParsedFromDefaultsAgree(args: seq<Value>, optArg: nat)
    ensures PolicyAgrees(InsertOptions(Defaults(), args, optArg))
    ensures PolicyAgrees(RemoveOptions(Defaults(), args))
    ensures PolicyAgrees(UpdateOptions(Defaults(), args))
  {
    RemovePolicyAgreement(Defaults(), args);
    UpdatePolicyAgreement(Defaults(), args);
  }

  /** Insert parsing touches only waitForSync and silent; when the options
      argument is no object, waitForSync is the positional flag after the
      document and silent is left alone. */
  lemma InsertOptionsFrame(o: OptionSet, args: seq<Value>, optArg: nat)
    ensures var r := InsertOptions(o, args, optArg);
      r.overwrite == o.overwrite && r.policy == o.policy && r.keepNull == o.keepNull &&
      r.mergeObjects == o.mergeObjects && r.standAlone == o.standAlone
    ensures !(optArg < |args| && IsObject(args[optArg])) ==>
      InsertOptions(o, args, optArg).waitForSync == ExtractWaitForSync(args, optArg + 1) &&
      InsertOptions(o, args, optArg).silent == o.silent
  {
  }

  /** Keys missing from a remove call's options object leave their fields untouched. */
  lemma RemoveAbsentKeysUntouched(o: OptionSet, args: seq<Value>)
    requires |args| > 1 && IsObject(args[1])
    ensures !Has(args[1], "waitForSync") ==> RemoveOptions(o, args).waitForSync == o.waitForSync
    ensures !Has(args[1], "overwrite") ==> RemoveOptions(o, args).overwrite == o.overwrite
  {
  }

  /** Keys missing from an update call's options object leave their fields untouched. */
  lemma UpdateAbsentKeysUntouched(o: OptionSet, args: seq<Value>)
    requires |args| > 2 && IsObject(args[2])
    ensures var r := UpdateOptions(o, args);
      && (!Has(args[2], "overwrite") ==> r.overwrite == o.overwrite)
      && (!Has(args[2], "keepNull") ==> r.keepNull == o.keepNull)
      && (!Has(args[2], "mergeObjects") ==> r.mergeObjects == o.mergeObjects)
      && (!Has(args[2], "silent") ==> r.silent == o.silent)
      && (!Has(args[2], "waitForSync") ==> r.waitForSync == o.waitForSync)
  {
  }

  /** Remove parsing never changes silent, keepNull, mergeObjects or standAlone. */
  lemma RemoveOptionsFrame(o: OptionSet, args: seq<Value>)
    ensures var r := RemoveOptions(o, args);
      r.silent == o.silent && r.keepNull == o.keepNull &&
      r.mergeObjects == o.mergeObjects && r.standAlone == o.standAlone
  {
  }

  /** The caller-owned OperationOptions record the parsers fill in place. */
  class OperationOptions {
    var waitForSync: bool
    var silent: bool
    var overwrite: bool
    var policy: UpdatePolicy
    var keepNull: bool
    var mergeObjects: bool
    var standAlone: bool

    function Contents(): OptionSet
      reads this
    {
      OptionSet(waitForSync, silent, overwrite, policy, keepNull, mergeObjects, standAlone)
    }

    constructor ()
      ensures Contents() == Defaults()
    {
      waitForSync, silent, overwrite, policy := false, false, false, PolicyError;
      keepNull, mergeObjects, standAlone := true, true, false;
    }

    /** ParseInsertOptions; `optArg` is the position of the options argument. */
    method ParseInsert(args: seq<Value>, optArg: nat)
      modifies this
      ensures Contents() == InsertOptions(old(Contents()), args, optArg)
    {
      if optArg < |args| && IsObject(args[optArg]) {
        var opts := args[optArg];
        if Has(opts, "waitForSync") {
          waitForSync := ToBoolean(Get(opts, "waitForSync").value);
        }
        if Has(opts, "silent") {
          silent := ToBoolean(Get(opts, "silent").value);
        }
      } else {
        waitForSync := ExtractWaitForSync(args, optArg + 1);
      }
    }

    /** ParseRemoveOptions */
    method ParseRemove(args: seq<Value>)
      modifies this
      ensures Contents() == RemoveOptions(old(Contents()), args)
    {
      policy := PolicyError;
      if |args| > 1 && IsObject(args[1]) {
        var opts := args[1];
        if Has(opts, "overwrite") {
          overwrite := ToBoolean(Get(opts, "overwrite").value);
          policy := ExtractUpdatePolicy(overwrite);
        }
        if Has(opts, "waitForSync") {
          waitForSync := ToBoolean(Get(opts, "waitForSync").value);
        }
      } else {
        overwrite := ToBoolean(Arg(args, 1));
        policy := ExtractUpdatePolicy(overwrite);
        if |args| > 2 {
          waitForSync := ToBoolean(args[2]);
        }
      }
    }

    /** ParseUpdateOptions, shared by update and replace. */
    method ParseUpdate(args: seq<Value>)
      modifies this
      ensures Contents() == UpdateOptions(old(Contents()), args)
    {
      policy := PolicyError;
      if |args| > 2 {
        if IsObject(args[2]) {
          var opts := args[2];
          if Has(opts, "overwrite") {
            overwrite := ToBoolean(Get(opts, "overwrite").value);
            policy := ExtractUpdatePolicy(overwrite);
          }
          if Has(opts, "keepNull") {
            keepNull := ToBoolean(Get(opts, "keepNull").value);
          }
          if Has(opts, "mergeObjects") {
            mergeObjects := ToBoolean(Get(opts, "mergeObjects").value);
          }
          if Has(opts, "waitForSync") {
            waitForSync := ToBoolean(Get(opts, "waitForSync").value);
          }
          if Has(opts, "silent") {
            silent := ToBoolean(Get(opts, "silent").value);
          }
        } else {
          overwrite := ToBoolean(args[2]);
          policy := ExtractUpdatePolicy(overwrite);
          if |args| > 3 {
            keepNull := ToBoolean(args[3]);
          }
          if |args| > 4 {
            waitForSync := ToBoolean(args[4]);
          }
        }
      }
    }

    /** The operation is stand-alone when its transaction scope started the
        transaction; otherwise the flag is left as it was. */
    method MarkStandAlone(startedTransaction: bool)
      modifies this
      ensures Contents() == old(Contents()).(standAlone := old(standAlone) || startedTransaction)
    {
      if startedTransaction {
        standAlone := true;
      }
    }
  }

  /** The options a stand-alone marking leaves on a fresh record: stand-alone
      exactly when the scope started the transaction. */
  function WithScope(o: OptionSet, startedTransaction: bool): (r: OptionSet)
    ensures !o.standAlone ==> (r.standAlone <==> startedTransaction)
    ensures r.(standAlone := o.standAlone) == o
  {
    o.(standAlone := o.standAlone || startedTransaction)
  }
}
