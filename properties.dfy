/** `collection.properties(<properties>)`: reading and changing the journal
    size, compaction and sync behaviour of a collection, with the checks that
    keep a volatile collection volatile and free of waitForSync. */
module Properties {
  import opened V8Values
  import opened Errors

  /** TRI_JOURNAL_MINIMAL_SIZE: the smallest journal a collection may have (1 MB). */
  const JournalMinimalSize: nat := 1024 * 1024

  /** Sizes are stored as 32-bit unsigned numbers (TRI_voc_size_t). */
  const SizeModulus: nat := 0x1_0000_0000

  /** The parameters of a collection the properties call reads and writes. */
  datatype CollectionInfo = CollectionInfo(
    doCompact: bool,
    waitForSync: bool,
    maximalSize: nat,
    isVolatile: bool,
    isSystem: bool)

  /** A volatile collection never waits for sync, and its journal has at
      least the minimal size. */
  predicate ValidInfo(info: CollectionInfo) {
    !(info.isVolatile && info.waitForSync) && info.maximalSize >= JournalMinimalSize
  }

  /** A requested journal size, read as an unsigned number and cut to the
      width of the stored size. */
  function JournalSize(v: Value): (size: nat)
    ensures size < SizeModulus
    ensures ToUInt64(v, false) < SizeModulus ==> size == ToUInt64(v, false)
  {
    ToUInt64(v, false) % SizeModulus
  }

  /** The properties a call asks for: each key of the properties object
      replaces the current value, an absent key keeps it. */
  function Requested(info: CollectionInfo, po: Value): (n: CollectionInfo)
    ensures n.isVolatile == info.isVolatile && n.isSystem == info.isSystem
    ensures !Has(po, "doCompact") ==> n.doCompact == info.doCompact
    ensures !Has(po, "waitForSync") ==> n.waitForSync == info.waitForSync
    ensures !Has(po, "journalSize") ==> n.maximalSize == info.maximalSize
    ensures Has(po, "doCompact") ==> n.doCompact == ToBoolean(po.props["doCompact"])
    ensures Has(po, "waitForSync") ==> n.waitForSync == ToBoolean(po.props["waitForSync"])
    ensures Has(po, "journalSize") ==> n.maximalSize == JournalSize(po.props["journalSize"])
  {
    info.(
      doCompact := if Has(po, "doCompact") then ToBoolean(po.props["doCompact"]) else info.doCompact,
      waitForSync := if Has(po, "waitForSync") then ToBoolean(po.props["waitForSync"]) else info.waitForSync,
      maximalSize := if Has(po, "journalSize") then JournalSize(po.props["journalSize"]) else info.maximalSize)
  }

  /** The outcome of validating a change: rejected with a message, or the
      parameters to store. */
  datatype Change = Rejected(message: string) | Accepted(info: CollectionInfo)

  const JournalTooSmall := "<properties>.journalSize too small"
  const VolatileFixed := "isVolatile option cannot be changed at runtime"
  const VolatileNoSync := "volatile collections do not support the waitForSync option"

  /** The checks of a properties change, in their order: a journal size
      below the minimum, a different isVolatile, then a volatile collection
      asked (or still set) to wait for sync. */
  function ValidatedChange(info: CollectionInfo, po: Value): (c: Change)
    ensures c.Accepted? ==> c.info == Requested(info, po)
    ensures c.Rejected? ==> c.message in {JournalTooSmall, VolatileFixed, VolatileNoSync}
  {
    var n := Requested(info, po);
    if Has(po, "journalSize") && n.maximalSize < JournalMinimalSize then Rejected(JournalTooSmall)
    else if Has(po, "isVolatile") && ToBoolean(po.props["isVolatile"]) != info.isVolatile then Rejected(VolatileFixed)
    else if info.isVolatile && n.waitForSync then Rejected(VolatileNoSync)
    else Accepted(n)
  }

  /** A change is accepted exactly when none of the three checks fires. */
  lemma AcceptedIff(info: CollectionInfo, po: Value)
    ensures ValidatedChange(info, po).Accepted? <==>
      && !(Has(po, "journalSize") && JournalSize(po.props["journalSize"]) < JournalMinimalSize)
      && !(Has(po, "isVolatile") && ToBoolean(po.props["isVolatile"]) != info.isVolatile)
      && !(info.isVolatile && Requested(info, po).waitForSync)
  {
  }

  /** A journal size below the minimum is always refused, whatever else the
      call asks for. */
  lemma SmallJournalRejected(info: CollectionInfo, po: Value)
    requires Has(po, "journalSize") && JournalSize(po.props["journalSize"]) < JournalMinimalSize
    ensures ValidatedChange(info, po) == Rejected(JournalTooSmall)
  {
  }

  /** Asking for a different isVolatile is refused once the journal size
      passed its check. */
  lemma VolatileCannotChange(info: CollectionInfo, po: Value)
    requires Has(po, "isVolatile") && ToBoolean(po.props["isVolatile"]) != info.isVolatile
    requires !(Has(po, "journalSize") && JournalSize(po.props["journalSize"]) < JournalMinimalSize)
    ensures ValidatedChange(info, po) == Rejected(VolatileFixed)
  {
  }

  /** A volatile collection asked to wait for sync (or still set to) is
      refused once the first two checks passed. */
  lemma VolatileSyncRejected(info: CollectionInfo, po: Value)
    requires !(Has(po, "journalSize") && JournalSize(po.props["journalSize"]) < JournalMinimalSize)
    requires !(Has(po, "isVolatile") && ToBoolean(po.props["isVolatile"]) != info.isVolatile)
    requires info.isVolatile && Requested(info, po).waitForSync
    ensures ValidatedChange(info, po) == Rejected(VolatileNoSync)
  {
  }

  /** An accepted change keeps the parameters valid: it never makes a
      volatile collection wait for sync nor shrinks its journal below the
      minimum, and never changes isVolatile or isSystem. */
  lemma {:induction false} ChangePreservesValid(info: CollectionInfo, po: Value)
    requires ValidInfo(info)
    ensures ValidatedChange(info, po).Accepted? ==>
      var n := ValidatedChange(info, po).info;
      ValidInfo(n) && n.isVolatile == info.isVolatile && n.isSystem == info.isSystem
  {
    AcceptedIff(info, po);
  }

  /** The parameter set the call returns to JavaScript. */
  function Describe(info: CollectionInfo): (v: Value)
    ensures v.Obj? && Get(v, "journalSize") == Some(Num(info.maximalSize))
    ensures Get(v, "isVolatile") == Some(Bool(info.isVolatile)) && Get(v, "waitForSync") == Some(Bool(info.waitForSync))
    ensures Get(v, "doCompact") == Some(Bool(info.doCompact)) && Get(v, "isSystem") == Some(Bool(info.isSystem))
  {
    Obj(map[
      "doCompact" := Bool(info.doCompact),
      "isSystem" := Bool(info.isSystem),
      "isVolatile" := Bool(info.isVolatile),
      "journalSize" := Num(info.maximalSize),
      "waitForSync" := Bool(info.waitForSync)])
  }

  /** The outcome of a properties call and the parameters it leaves. */
  datatype PropertiesResult = PropertiesResult(outcome: Outcome, info: CollectionInfo)

  /** The local properties call: without a properties object it only
      reports; otherwise a rejected change throws a parameter error and
      leaves the collection alone, an accepted one is stored (unless storing
      fails with `storeResult`) and reported. */
  function LocalProperties(info: CollectionInfo, args: seq<Value>, storeResult: ErrorCode): (p: PropertiesResult)
    ensures p.outcome.Returns? ==> p.outcome.value == Describe(p.info)
    ensures p.outcome.Throws? ==> p.info == info
    ensures p.info != info ==> |args| > 0 && IsObject(args[0]) && storeResult == NoError
    ensures p.info.isVolatile == info.isVolatile && p.info.isSystem == info.isSystem
    ensures !(|args| > 0 && IsObject(args[0])) ==> p == PropertiesResult(Returns(Describe(info)), info)
    ensures |args| > 0 && IsObject(args[0]) && ValidatedChange(info, args[0]).Rejected? ==>
      p == PropertiesResult(ParameterError(ValidatedChange(info, args[0]).message), info)
    ensures |args| > 0 && IsObject(args[0]) && ValidatedChange(info, args[0]).Accepted? && storeResult != NoError ==>
      p == PropertiesResult(Fail(storeResult), info)
    ensures |args| > 0 && IsObject(args[0]) && ValidatedChange(info, args[0]).Accepted? && storeResult == NoError ==>
      p.outcome.Returns? && p.info == Requested(info, args[0])
  {
    if |args| > 0 && IsObject(args[0]) then
      match ValidatedChange(info, args[0])
      case Rejected(m) => PropertiesResult(ParameterError(m), info)
      case Accepted(n) =>
        if storeResult != NoError then PropertiesResult(Fail(storeResult), info)
        else PropertiesResult(Returns(Describe(n)), n)
    else PropertiesResult(Returns(Describe(info)), info)
  }

  /** The coordinator properties call: the same checks on the collection
      parameters the cluster holds; any argument at all, even one that is no
      object, writes the parameters back (`setResult` is how that ends). */
  function CoordinatorProperties(info: CollectionInfo, args: seq<Value>, setResult: ErrorCode): (r: Outcome)
    ensures |args| > 0 && IsObject(args[0]) && ValidatedChange(info, args[0]).Rejected? ==>
      r == ParameterError(ValidatedChange(info, args[0]).message)
    ensures |args| > 0 && setResult != NoError && !(IsObject(args[0]) && ValidatedChange(info, args[0]).Rejected?) ==>
      r == Fail(setResult)
    ensures |args| == 0 ==> r == Returns(Describe(info))
    ensures |args| > 0 && !IsObject(args[0]) && setResult == NoError ==> r == Returns(Describe(info))
    ensures |args| > 0 && IsObject(args[0]) && ValidatedChange(info, args[0]).Accepted? && setResult == NoError ==>
      r == Returns(Describe(Requested(info, args[0])))
  {
    if |args| > 0 then
      var change := if IsObject(args[0]) then ValidatedChange(info, args[0]) else Accepted(info);
      match change
      case Rejected(m) => ParameterError(m)
      case Accepted(n) => if setResult != NoError then Fail(setResult) else Returns(Describe(n))
    else Returns(Describe(info))
  }

  /** When writing succeeds the coordinator and the local server answer a
      properties call alike. */
  lemma CoordinatorAgreesWithLocal(info: CollectionInfo, args: seq<Value>)
    ensures CoordinatorProperties(info, args, NoError) == LocalProperties(info, args, NoError).outcome
  {
  }

  /** The parameters of one local collection, changed in place by the
      properties call. isVolatile and isSystem are fixed at creation. */
  class CollectionParameters {
    var doCompact: bool
    var waitForSync: bool
    var maximalSize: nat
    const isVolatile: bool
    const isSystem: bool

    function Info(): CollectionInfo
      reads this
    {
      CollectionInfo(doCompact, waitForSync, maximalSize, isVolatile, isSystem)
    }

    constructor (info: CollectionInfo)
      ensures Info() == info
    {
      doCompact := info.doCompact;
      waitForSync := info.waitForSync;
      maximalSize := info.maximalSize;
      isVolatile := info.isVolatile;
      isSystem := info.isSystem;
    }

    /** Copies the current values and overwrites each one the properties
        object names. */
    method ReadRequested(po: Value) returns (newCompact: bool, newSync: bool, newSize: nat)
      ensures CollectionInfo(newCompact, newSync, newSize, isVolatile, isSystem) == Requested(Info(), po)
    {
      newSize := maximalSize;
      newCompact := doCompact;
      newSync := waitForSync;
      if Has(po, "doCompact") {
        newCompact := ToBoolean(po.props["doCompact"]);
      }
      if Has(po, "waitForSync") {
        newSync := ToBoolean(po.props["waitForSync"]);
      }
      if Has(po, "journalSize") {
        newSize := JournalSize(po.props["journalSize"]);
      }
    }

    /** The local branch of JS_PropertiesVocbaseCol: reads the requested
        values, checks them and installs them when storing succeeds. */
    method ChangeProperties(args: seq<Value>, storeResult: ErrorCode) returns (r: Outcome)
      modifies this
      ensures PropertiesResult(r, Info()) == LocalProperties(old(Info()), args, storeResult)
      ensures ValidInfo(old(Info())) ==> ValidInfo(Info())
    {
      ghost var info := Info();
      if |args| > 0 && IsObject(args[0]) {
        var po := args[0];
        var newCompact, newSync, newSize := ReadRequested(po);
        if Has(po, "journalSize") && newSize < JournalMinimalSize {
          return ParameterError(JournalTooSmall);
        }
        if Has(po, "isVolatile") && ToBoolean(po.props["isVolatile"]) != isVolatile {
          return ParameterError(VolatileFixed);
        }
        if isVolatile && newSync {
          return ParameterError(VolatileNoSync);
        }
        if storeResult != NoError {
          return Fail(storeResult);
        }
        if ValidInfo(info) {
          ChangePreservesValid(info, po);
        }
        doCompact, waitForSync, maximalSize := newCompact, newSync, newSize;
      }
      r := Returns(Describe(Info()));
    }
  }
}
