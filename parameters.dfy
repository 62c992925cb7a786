/** The parameter storage engine: the static and runtime value tables, the
    persisted scratchpad image, the name tables, and (on boards that have
    one) the transmit-power calibration table with its lock flag.

    The firmware keeps all of this in process-wide globals; here it is the
    state of one `ParamStore` object. What parameters.c fixes and the header
    does not (the per-parameter rule of `param_check()`, the compiled-in
    defaults and the names) is given to the constructor. */
module Parameters {
  import opened Types
  import opened ParamIds
  import NameIndex
  import opened Persistence

  /** `constrain(v, min, max)`: clamp `v` into `[min, max]`, first raising it
      to `min`, then lowering it to `max`. */
  function Constrain(v: uint32, min: uint32, max: uint32): (r: uint32)
    ensures min <= max ==> min <= r <= max
    ensures min <= v <= max ==> r == v
    ensures min <= max && v < min ==> r == min
    ensures v > max ==> r == max
  {
    var raised := if v < min then min else v;
    if raised > max then max else raised
  }

  /** Constraining an already constrained value changes nothing. */
  lemma ConstrainIdempotent(v: uint32, min: uint32, max: uint32)
    ensures Constrain(Constrain(v, min, max), min, max) == Constrain(v, min, max)
  {
  }

  class ParamStore {
    /** `parameter_values[PARAM_S_MAX]`: the static, persisted table. */
    const sParams: array<uint32>
    /** The runtime table: never persisted. */
    const rParams: array<uint32>
    /** The static table as last written to the flash scratchpad. */
    var scratchpad: Image

    /** Compiled-in default of every static parameter. */
    const sDefaults: seq<uint32>
    /** `param_check()`: whether a value is valid for a static parameter. */
    const sCheck: (int, uint32) -> bool
    /** The validity rule for runtime parameters. */
    const rCheck: (int, uint32) -> bool
    /** `parameter_names[]` of each family. */
    const sNames: NameIndex.NameTable
    const rNames: NameIndex.NameTable

    /** Transmit-power calibration levels (rfd900a and rfd900p boards). */
    const calLevels: array<uint8>
    /** Once set, the calibration levels can no longer be written. */
    var calLocked: bool

    ghost predicate Valid() {
      && sParams.Length == PARAM_S_MAX
      && rParams.Length == PARAM_R_MAX
      && sParams != rParams
      && |sDefaults| == PARAM_S_MAX
      && |sNames| == PARAM_S_MAX
      && |rNames| == PARAM_R_MAX
    }

    /** The static table's contents. */
    function Static(): (s: seq<uint32>)
      reads sParams
      ensures |s| == sParams.Length
    {
      sParams[..]
    }

    /** The runtime table's contents. */
    function Runtime(): (s: seq<uint32>)
      reads rParams
      ensures |s| == rParams.Length
    {
      rParams[..]
    }

    /** Start-up state: both tables hold their defaults, the scratchpad
        holds whatever the flash contains. */
    constructor (defaults: seq<uint32>, runtimeDefaults: seq<uint32>,
                 check: (int, uint32) -> bool, runtimeCheck: (int, uint32) -> bool,
                 names: NameIndex.NameTable, runtimeNames: NameIndex.NameTable,
                 flash: Image, calibration: seq<uint8>, calibrationLocked: bool)
      requires |defaults| == PARAM_S_MAX && |runtimeDefaults| == PARAM_R_MAX
      requires |names| == PARAM_S_MAX && |runtimeNames| == PARAM_R_MAX
      ensures Valid()
      ensures fresh(sParams) && fresh(rParams) && fresh(calLevels)
      ensures Static() == defaults && Runtime() == runtimeDefaults
      ensures sDefaults == defaults && sCheck == check && rCheck == runtimeCheck
      ensures sNames == names && rNames == runtimeNames
      ensures scratchpad == flash
      ensures calLevels[..] == calibration && calLocked == calibrationLocked
    {
      sParams := new uint32[PARAM_S_MAX](i requires 0 <= i < PARAM_S_MAX => defaults[i]);
      rParams := new uint32[PARAM_R_MAX](i requires 0 <= i < PARAM_R_MAX => runtimeDefaults[i]);
      calLevels := new uint8[|calibration|](i requires 0 <= i < |calibration| => calibration[i]);
      scratchpad := flash;
      sDefaults := defaults;
      sCheck, rCheck := check, runtimeCheck;
      sNames, rNames := names, runtimeNames;
      calLocked := calibrationLocked;
    }

    /** `param_s_get`: the stored value, or zero for an invalid ID. */
    function SGet(id: int): (v: uint32)
      requires Valid()
      reads sParams
      ensures !(0 <= id < PARAM_S_MAX) ==> v == 0
      ensures 0 <= id < PARAM_S_MAX ==> v == Static()[id]
    {
      if 0 <= id < PARAM_S_MAX then sParams[id] else 0
    }

    /** `param_r_get`: the stored value, or zero for an invalid ID. */
    function RGet(id: int): (v: uint32)
      requires Valid()
      reads rParams
      ensures !(0 <= id < PARAM_R_MAX) ==> v == 0
      ensures 0 <= id < PARAM_R_MAX ==> v == Runtime()[id]
    {
      if 0 <= id < PARAM_R_MAX then rParams[id] else 0
    }

    /** `param_s_set`: succeeds exactly when `id` is a static parameter and
        the value is valid for it; only then is the slot overwritten. The
        scratchpad is not touched. */
    method SSet(id: int, value: uint32) returns (ok: bool)
      requires Valid()
      modifies sParams
      ensures ok == (0 <= id < PARAM_S_MAX && sCheck(id, value))
      ensures ok ==> SFromOrdinal(id).Some?
      ensures ok ==> Static() == old(Static())[id := value]
      ensures !ok ==> Static() == old(Static())
      ensures ok ==> SGet(id) == value
      ensures scratchpad == old(scratchpad)
    {
      if !(0 <= id < PARAM_S_MAX) || !sCheck(id, value) {
        return false;
      }
      sParams[id] := value;
      return true;
    }

    /** `param_r_set`: as `param_s_set`, on the runtime table. */
    method RSet(id: int, value: uint32) returns (ok: bool)
      requires Valid()
      modifies rParams
      ensures ok == (0 <= id < PARAM_R_MAX && rCheck(id, value))
      ensures ok ==> RFromOrdinal(id).Some?
      ensures ok ==> Runtime() == old(Runtime())[id := value]
      ensures !ok ==> Runtime() == old(Runtime())
      ensures ok ==> RGet(id) == value
      ensures scratchpad == old(scratchpad)
    {
      if !(0 <= id < PARAM_R_MAX) || !rCheck(id, value) {
        return false;
      }
      rParams[id] := value;
      return true;
    }

    /** `param_s_id`: the static ID carrying `name`, or PARAM_S_MAX. */
    function SId(name: string): (id: nat)
      requires Valid()
      ensures id <= PARAM_S_MAX
      ensures id == PARAM_S_MAX <==> Some(name) !in sNames
      ensures id < PARAM_S_MAX ==> SName(id) == Some(name)
      ensures forall j :: 0 <= j < id ==> sNames[j] != Some(name)
    {
      NameIndex.IdOf(sNames, name)
    }

    /** `param_r_id`: the runtime ID carrying `name`, or PARAM_R_MAX. */
    function RId(name: string): (id: nat)
      requires Valid()
      ensures id <= PARAM_R_MAX
      ensures id == PARAM_R_MAX <==> Some(name) !in rNames
      ensures id < PARAM_R_MAX ==> RName(id) == Some(name)
      ensures forall j :: 0 <= j < id ==> rNames[j] != Some(name)
    {
      NameIndex.IdOf(rNames, name)
    }

    /** `param_s_name`: the name of a static ID, or None (NULL). */
    function SName(id: int): (name: Option<string>)
      requires Valid()
      ensures !(0 <= id < PARAM_S_MAX) ==> name == None
      ensures name.Some? ==> sNames[id] == name
      ensures 0 <= id < PARAM_S_MAX && sNames[id].Some? ==> name == sNames[id]
    {
      NameIndex.NameOf(sNames, id)
    }

    /** `param_r_name`: the name of a runtime ID, or None (NULL). */
    function RName(id: int): (name: Option<string>)
      requires Valid()
      ensures !(0 <= id < PARAM_R_MAX) ==> name == None
      ensures name.Some? ==> rNames[id] == name
      ensures 0 <= id < PARAM_R_MAX && rNames[id].Some? ==> name == rNames[id]
    {
      NameIndex.NameOf(rNames, id)
    }

    /** `param_default`: every static slot gets its default; nothing is
        saved and the runtime table is left alone. */
    method Default()
      requires Valid()
      modifies sParams
      ensures Static() == sDefaults
      ensures scratchpad == old(scratchpad)
    {
      var i := 0;
      while i < PARAM_S_MAX
        invariant 0 <= i <= PARAM_S_MAX
        invariant forall k :: 0 <= k < i ==> sParams[k] == sDefaults[k]
      {
        sParams[i] := sDefaults[i];
        i := i + 1;
      }
      assert Static() == sDefaults;
    }

    /** `param_save`: tag the table with the current format, erase the
        scratchpad and program the whole table into it. `programmed` is
        the flash driver's outcome, taken to be all or nothing: when
        programming fails the region is left erased. */
    method Save(programmed: bool)
      requires Valid()
      modifies sParams, this`scratchpad
      ensures Static() == Stamp(old(Static()))
      ensures scratchpad == if programmed then Static() else Erased()
    {
      sParams[PARAM_FORMAT] := PARAM_FORMAT_CURRENT;
      scratchpad := Erased();
      if programmed {
        var image: Image := [];
        var i := 0;
        while i < PARAM_S_MAX
          invariant 0 <= i <= PARAM_S_MAX
          invariant image == sParams[..i]
        {
          image := image + [sParams[i]];
          i := i + 1;
        }
        scratchpad := image;
      }
    }

    /** `param_load`: copy an acceptable scratchpad image into the static
        table and report success; otherwise apply the defaults and report
        failure. The scratchpad itself is not changed. */
    method Load() returns (ok: bool)
      requires Valid()
      modifies sParams
      ensures ok == Acceptable(scratchpad)
      ensures ok ==> Static() == scratchpad
      ensures !ok ==> Static() == sDefaults
      ensures scratchpad == old(scratchpad)
    {
      if |scratchpad| != PARAM_S_MAX || scratchpad[PARAM_FORMAT] != PARAM_FORMAT_CURRENT {
        Default();
        return false;
      }
      var i := 0;
      while i < PARAM_S_MAX
        invariant 0 <= i <= PARAM_S_MAX
        invariant forall k :: 0 <= k < i ==> sParams[k] == scratchpad[k]
      {
        sParams[i] := scratchpad[i];
        i := i + 1;
      }
      assert Static() == scratchpad;
      return true;
    }

    /** `calibration_get`: the stored level, or zero for an index outside
        the table. */
    function CalibrationGet(level: uint8): (v: uint8)
      reads calLevels
      ensures level < calLevels.Length ==> v == calLevels[..][level]
      ensures level >= calLevels.Length ==> v == 0
    {
      if level < calLevels.Length then calLevels[level] else 0
    }

    /** `calibration_set`: write one level; refused once the table is
        locked or when the index is outside the table. */
    method CalibrationSet(idx: uint8, value: uint8) returns (ok: bool)
      modifies calLevels
      ensures ok == (!calLocked && idx < calLevels.Length)
      ensures ok ==> calLevels[..] == old(calLevels[..])[idx := value]
      ensures !ok ==> calLevels[..] == old(calLevels[..])
      ensures ok ==> CalibrationGet(idx) == value
    {
      if calLocked || idx >= calLevels.Length {
        return false;
      }
      calLevels[idx] := value;
      return true;
    }

    /** `calibration_lock`: lock the table for good. `written` is the
        storage driver's outcome of persisting the flag, and is returned. */
    method CalibrationLock(written: bool) returns (ok: bool)
      modifies this`calLocked
      ensures ok == written
      ensures calLocked == (old(calLocked) || written)
    {
      ok := written;
      if written {
        calLocked := true;
      }
    }
  }

  /** An ID is a storage slot of the static table exactly when it names a
      `Param_S_ID` enumerator; the sentinel and everything past it read 0. */
  lemma StaticSlotsAreEnumerators(store: ParamStore, id: int)
    requires store.Valid()
    ensures SFromOrdinal(id).Some? <==> 0 <= id < store.sParams.Length
    ensures SFromOrdinal(id).None? ==> store.SGet(id) == 0
    ensures SFromOrdinal(id).Some? ==> store.SGet(id) == store.Static()[SOrdinal(SFromOrdinal(id).value)]
  {
  }

  /** The same for the runtime table and `Param_R_ID`. */
  lemma RuntimeSlotsAreEnumerators(store: ParamStore, id: int)
    requires store.Valid()
    ensures RFromOrdinal(id).Some? <==> 0 <= id < store.rParams.Length
    ensures RFromOrdinal(id).None? ==> store.RGet(id) == 0
    ensures RFromOrdinal(id).Some? ==> store.RGet(id) == store.Runtime()[ROrdinal(RFromOrdinal(id).value)]
  {
  }
}
