# SiK radio parameter storage, modelled in Dafny

A model of the parameter storage engine of the SiK radio-modem firmware, as
declared by `Firmware/radio/parameters.h`: the static (persisted) table of
sixteen `param_t` words indexed by `enum Param_S_ID`, the two-slot runtime
table indexed by `enum Param_R_ID`, name lookup in both directions, setting
gated by the per-parameter validity check, reset to defaults, saving to and
loading from the flash scratchpad under the format stamp `0x1B`, the
`constrain` helper, and the board-conditional calibration table with its
lock.

Layout:

- `types.dfy` — `uint8`, `uint32` and an Option (None stands for C's NULL).
- `param_ids.dfy` — the two enumerations as datatypes, their fixed ordinals,
  the sentinels `PARAM_S_MAX = 16`, `PARAM_R_MAX = 2` and `PARAM_FORMAT_CURRENT`.
- `name_index.dfy` — a family's name table and the two lookups (pure scans).
- `persistence.dfy` — the scratchpad image: what load accepts, what save writes.
- `parameters.dfy` — `constrain` and the class `ParamStore` holding all
  mutable state (the firmware's globals): tables as arrays, the scratchpad
  image as a sequence, calibration levels as an array with a lock flag.
- `scenarios.dfy` — call sequences proved from the contracts alone (default
  twice, save then load, set without save, first boot on erased flash, lock
  finality).

The bodies in parameters.c are not modelled; what they fix is a constructor
parameter:
the validity rule of `param_check()` (an arbitrary function of the ID and the
value), the compiled-in defaults, and the name tables. A name table is a
sequence indexed by ordinal whose entry is None for a parameter not visible
by name; lookup compares names exactly. IDs passed to the get/set/name entry
points are unbounded integers, as a C enum argument may hold any value.

Where the header is silent, the model fixes the behaviour as follows:

- `param_save` tags slot 0 with `PARAM_FORMAT_CURRENT`, erases the scratchpad,
  then programs the whole table; programming is taken to be all or nothing,
  and a failure (a parameter standing for the flash driver's outcome) leaves
  the region erased.
- `param_load` accepts an image only when it holds a whole table whose slot 0
  is `0x1B`; otherwise it resets the static table to its defaults and returns
  false. An image of the wrong length stands for an unreadable region.
- `constrain` first raises `v` to `min`, then lowers it to `max`.

## Model

| member | source | states |
|---|---|---|
| ParamIds.SOrdinal | Firmware/radio/parameters.h:48-66 | every static parameter's ordinal is below the sentinel PARAM_S_MAX, so the sentinel is never a slot |
| ParamIds.ROrdinal | Firmware/radio/parameters.h:68-72 | every runtime parameter's ordinal is below PARAM_R_MAX |
| ParamIds.SFromOrdinal | Firmware/radio/parameters.h:48-66 | an integer names a static parameter exactly when it lies in [0, 16), and that parameter's ordinal is the integer |
| ParamIds.RFromOrdinal | Firmware/radio/parameters.h:68-72 | an integer names a runtime parameter exactly when it lies in [0, 2), and that parameter's ordinal is the integer |
| ParamIds.SOrdinalRoundTrip | Firmware/radio/parameters.h:48-66 | ordinals are a bijection: decoding a static parameter's ordinal gives the parameter back |
| ParamIds.ROrdinalRoundTrip | Firmware/radio/parameters.h:68-72 | decoding a runtime parameter's ordinal gives the parameter back |
| ParamIds.FixedOrdinals | Firmware/radio/parameters.h:48-74 | PARAM_FORMAT is 0, PARAM_S_MAX is 16 (one past PARAM_MAX_WINDOW), PARAM_R_MAX is 2, and neither sentinel decodes to a parameter |
| NameIndex.FindFrom | Firmware/radio/parameters.h:105-112 | the scan from an ordinal returns the first ordinal carrying the name, or the table size when none does |
| NameIndex.IdOf | Firmware/radio/parameters.h:105-112 | name to ID returns the sentinel exactly when the name is not in the table, otherwise the first ID carrying it |
| NameIndex.NameOf | Firmware/radio/parameters.h:114-121 | ID to name returns None for an ID outside the table, otherwise that ID's entry |
| NameIndex.NameOfIdOf | Firmware/radio/parameters.h:105-121 | for every name in the table, the name of its ID is that name |
| NameIndex.IdOfNameOf | Firmware/radio/parameters.h:40-41 | when names are unique, the ID of an ID's name is that ID |
| Persistence.Erased | Firmware/radio/parameters.h:123-131 | an erased scratchpad reads back as a full table of 0xFFFFFFFF words |
| Persistence.Stamp | Firmware/radio/parameters.h:49 | the saved table carries the current format in slot 0 and every other slot unchanged |
| Persistence.StampedIsAcceptable | Firmware/radio/parameters.h:123-131 | whatever the table held, the image save writes is one load accepts |
| Persistence.StampIdempotent | Firmware/radio/parameters.h:49 | stamping an already stamped table changes nothing |
| Persistence.FormatGuard | Firmware/radio/parameters.h:74 | an image whose slot 0 is not 0x1B is refused |
| Persistence.ErasedIsRefused | Firmware/radio/parameters.h:123-127 | an erased scratchpad is refused by load |
| Parameters.Constrain | Firmware/radio/parameters.h:139-140 | with min <= max the result lies in [min, max], equals v when v is already in range, and is the nearer bound otherwise |
| Parameters.ConstrainIdempotent | Firmware/radio/parameters.h:139-140 | constraining a constrained value changes nothing, for any bounds |
| Parameters.StaticSlotsAreEnumerators | Firmware/radio/parameters.h:48-66 | an ID is a static storage slot exactly when it names a `Param_S_ID` enumerator; get reads that enumerator's slot, and 0 for anything else |
| Parameters.RuntimeSlotsAreEnumerators | Firmware/radio/parameters.h:68-72 | an ID is a runtime storage slot exactly when it names a `Param_R_ID` enumerator; get reads that enumerator's slot, and 0 for anything else |
| Parameters.ParamStore.constructor | Firmware/radio/parameters.h:76-80 | at start-up both tables hold their defaults and the scratchpad holds the flash contents |
| Parameters.ParamStore.SGet | Firmware/radio/parameters.h:96-102 | zero for an ID outside [0, PARAM_S_MAX), the stored slot otherwise |
| Parameters.ParamStore.RGet | Firmware/radio/parameters.h:96-103 | zero for an ID outside [0, PARAM_R_MAX), the stored slot otherwise |
| Parameters.ParamStore.SSet | Firmware/radio/parameters.h:85-93 | true exactly when the ID is valid and the value passes the check; then only that slot changes and get returns the value; otherwise nothing changes; the scratchpad never changes |
| Parameters.ParamStore.RSet | Firmware/radio/parameters.h:85-94 | the same on the runtime table |
| Parameters.ParamStore.SId | Firmware/radio/parameters.h:105-111 | PARAM_S_MAX exactly for an unknown name; otherwise the first ID whose name is the one looked up |
| Parameters.ParamStore.RId | Firmware/radio/parameters.h:105-112 | PARAM_R_MAX exactly for an unknown name; otherwise the first ID whose name is the one looked up |
| Parameters.ParamStore.SName | Firmware/radio/parameters.h:114-120 | None for an ID outside the static table; for a valid named ID, its name; a name returned is always that ID's entry |
| Parameters.ParamStore.RName | Firmware/radio/parameters.h:114-121 | None for an ID outside the runtime table; for a valid named ID, its name; a name returned is always that ID's entry |
| Parameters.ParamStore.Default | Firmware/radio/parameters.h:133-137 | every static slot holds its default afterwards; the scratchpad is unchanged |
| Parameters.ParamStore.Save | Firmware/radio/parameters.h:129-131 | the table is stamped with the current format, and the scratchpad then holds exactly the table, or is left erased if programming failed |
| Parameters.ParamStore.Load | Firmware/radio/parameters.h:123-127 | true exactly when the image is acceptable; then the table equals the image, otherwise it holds the defaults; the scratchpad is unchanged |
| Parameters.ParamStore.CalibrationGet | Firmware/radio/parameters.h:142-146 | the stored level for an index inside the table, zero otherwise |
| Parameters.ParamStore.CalibrationSet | Firmware/radio/parameters.h:142-146 | true exactly when unlocked and the index is inside the table; then only that level changes, otherwise nothing does |
| Parameters.ParamStore.CalibrationLock | Firmware/radio/parameters.h:142-146 | returns the storage outcome; the lock flag is set by a successful lock and never cleared |
| Scenarios.DefaultTwice | Firmware/radio/parameters.h:133-137 | two resets leave the same table as one, and the scratchpad, runtime table and calibration are untouched |
| Scenarios.SaveThenLoad | Firmware/radio/parameters.h:123-131 | a successful save followed by a load returns true and restores every static slot as saved |
| Scenarios.SetIsNotPersisted | Firmware/radio/parameters.h:87 | a set without a save does not survive a reload |
| Scenarios.BootFromErasedFlash | Firmware/radio/parameters.h:123-127 | on an erased scratchpad load fails and every static parameter holds its default |
| Scenarios.LockIsFinal | Firmware/radio/parameters.h:142-146 | after a successful lock every calibration write fails and every level reads as before |

## Left out

- The bodies in parameters.c are not part of this model: the concrete bounds of `param_check()`, the default values and the name strings are constructor parameters, not constants.
- Immediate hardware side effects a setter may have in parameters.c (for instance applying a new transmit power) are not part of this model; set stores exactly the value given.
- The flash erase/program driver: the scratchpad is a sequence of words, and save's programming outcome is a parameter.
- Parameters.ParamStore.Save: all-or-nothing programming is assumed of the flash driver; a failure part-way through, after the stamp word is written, is not modelled, and with no integrity check in the model such a partly programmed image would be accepted by load. Any checksum the stored image may carry is not modelled.
- `pin_values` / `PIN_MAX` (lines 81-83): GPIO configuration, not parameter storage.
- SDCC memory-space qualifiers (`__data`, `__pdata`, `__code`, `__reentrant`): no meaning for the model.
- The rule that parameter 0 cannot be written by AT commands (line 38) belongs to the AT-command layer; the setter here accepts slot 0 whenever the validity rule does.
- Sharing of the runtime table with interrupt context: a concurrency concern, not modelled.
- The calibration table exists only on rfd900a/rfd900p boards (line 142); the model always has it, with a size chosen at construction.
- Parameters.ParamStore.CalibrationGet: the header gives no doc comment; the zero returned for an out-of-range index is a modelling choice.
- Parameters.ParamStore.CalibrationLock: only "set fails once locked" is inferred from the function names; what the flag's storage write does beyond returning its outcome is not modelled.
- Parameters.Constrain: nothing is promised for `min > max`; the model raises then lowers, which yields `max`.
- `enum ParamID`, a type the header does not define, is the declared result of `param_s_id`/`param_r_id` (lines 111-112) and the argument type of `param_s_name`/`param_r_name` (lines 120-121); the model uses each family's own ordinals, with its `_MAX` sentinel as the not-found result.
- Parameters.ParamStore.Save: returns no status, as `param_save` is declared `void`; a failed programming shows only as a later refused load.
- Runtime-table persistence: the runtime table is never saved, loaded or reset by `param_default`.
