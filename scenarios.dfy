/** Call sequences of the firmware, proved from the store's contracts alone. */
module Scenarios {
  import opened Types
  import opened ParamIds
  import opened Persistence
  import opened Parameters

  /** `param_default` twice leaves the same table as once, and touches
      neither the scratchpad, the runtime table nor the calibration. */
  method DefaultTwice(store: ParamStore) returns (once: seq<uint32>, twice: seq<uint32>)
    requires store.Valid()
    modifies store.sParams
    ensures once == twice == store.sDefaults
    ensures store.scratchpad == old(store.scratchpad)
    ensures store.Runtime() == old(store.Runtime())
    ensures store.calLevels[..] == old(store.calLevels[..]) && store.calLocked == old(store.calLocked)
  {
    store.Default();
    once := store.Static();
    store.Default();
    twice := store.Static();
  }

  /** A successful `param_save` followed by `param_load` (a restart)
      succeeds and restores every static slot to its value at save time. */
  method SaveThenLoad(store: ParamStore) returns (saved: seq<uint32>, ok: bool)
    requires store.Valid()
    modifies store.sParams, store`scratchpad
    ensures saved == Stamp(old(store.Static()))
    ensures ok && store.Static() == saved
  {
    store.Save(true);
    saved := store.Static();
    StampedIsAcceptable(old(store.Static()));
    ok := store.Load();
  }

  /** A value set but not saved is lost by a reload from the scratchpad. */
  method SetIsNotPersisted(store: ParamStore, id: int, value: uint32) returns (ok: bool)
    requires store.Valid()
    modifies store.sParams
    ensures store.scratchpad == old(store.scratchpad)
    ensures ok ==> store.Static() == store.scratchpad
    ensures !ok ==> store.Static() == store.sDefaults
  {
    var _ := store.SSet(id, value);
    ok := store.Load();
  }

  /** First boot with an erased scratchpad: `param_load` fails and every
      static parameter holds its compiled-in default. */
  method BootFromErasedFlash(defaults: seq<uint32>, runtimeDefaults: seq<uint32>,
                             check: (int, uint32) -> bool, runtimeCheck: (int, uint32) -> bool,
                             names: seq<Option<string>>, runtimeNames: seq<Option<string>>)
    returns (ok: bool, table: seq<uint32>)
    requires |defaults| == PARAM_S_MAX && |runtimeDefaults| == PARAM_R_MAX
    requires |names| == PARAM_S_MAX && |runtimeNames| == PARAM_R_MAX
    ensures !ok && table == defaults
  {
    var store := new ParamStore(defaults, runtimeDefaults, check, runtimeCheck,
                                names, runtimeNames, Erased(), [], false);
    ErasedIsRefused();
    ok := store.Load();
    table := store.Static();
  }

  /** After a successful `calibration_lock`, every `calibration_set` fails
      and the levels written before the lock stay readable. */
  method LockIsFinal(store: ParamStore, idx: uint8, value: uint8) returns (locked: bool, ok: bool)
    modifies store`calLocked, store.calLevels
    ensures locked ==> !ok && store.calLevels[..] == old(store.calLevels[..])
    ensures locked ==> forall i: uint8 :: store.CalibrationGet(i) == old(store.CalibrationGet(i))
  {
    locked := store.CalibrationLock(true);
    ok := store.CalibrationSet(idx, value);
  }
}
