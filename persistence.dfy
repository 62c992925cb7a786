/** The persisted image of the static table in the flash scratchpad.

    The image is modelled as the words it holds, in ordinal order, starting
    with the format stamp. The flash erase and program primitives are not
    part of this model: an image of the wrong length stands for a region
    that could not be read. */
module Persistence {
  import opened Types
  import opened ParamIds

  type Image = seq<uint32>

  /** The words read back from an erased scratchpad (every byte 0xFF). */
  function Erased(): (img: Image)
    ensures |img| == PARAM_S_MAX
    ensures forall i :: 0 <= i < |img| ==> img[i] == 0xFFFF_FFFF
  {
    seq(PARAM_S_MAX, _ => 0xFFFF_FFFF)
  }

  /** An image `param_load` accepts: a whole table whose format slot holds
      the current format stamp. */
  predicate Acceptable(img: Image) {
    |img| == PARAM_S_MAX && img[PARAM_FORMAT] == PARAM_FORMAT_CURRENT
  }

  /** A table tagged with the current format, as `param_save` writes it. */
  function Stamp(table: seq<uint32>): (r: seq<uint32>)
    requires |table| == PARAM_S_MAX
    ensures |r| == PARAM_S_MAX
    ensures r[PARAM_FORMAT] == PARAM_FORMAT_CURRENT
    ensures forall i :: PARAM_FORMAT < i < PARAM_S_MAX ==> r[i] == table[i]
  {
    table[PARAM_FORMAT := PARAM_FORMAT_CURRENT]
  }

  /** Whatever the table held, the stamped table is an image load accepts. */
  lemma StampedIsAcceptable(table: seq<uint32>)
    requires |table| == PARAM_S_MAX
    ensures Acceptable(Stamp(table))
  {
  }

  /** Stamping a table that already carries the stamp changes nothing. */
  lemma StampIdempotent(table: seq<uint32>)
    requires |table| == PARAM_S_MAX
    ensures Stamp(Stamp(table)) == Stamp(table)
  {
  }

  /** An image whose format slot is anything but the current stamp is refused. */
  lemma FormatGuard(img: Image)
    requires |img| == PARAM_S_MAX && img[PARAM_FORMAT] != PARAM_FORMAT_CURRENT
    ensures !Acceptable(img)
  {
  }

  /** A scratchpad that was never programmed is refused. */
  lemma ErasedIsRefused()
    ensures !Acceptable(Erased())
  {
    assert Erased()[PARAM_FORMAT] == 0xFFFF_FFFF;
  }
}
