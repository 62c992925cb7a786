/** The two parameter enumerations, their fixed ordinals and sentinels,
    and the format stamp kept in ordinal 0 of the static table. */
module ParamIds {
  import opened Types

  /** `enum Param_S_ID`, in declaration order. The ordinals are the AT
      S-register numbers and the layout of the persisted image. */
  datatype SParam =
    | Format        // must always be parameter 0
    | SerialSpeed
    | AirSpeed
    | NetId
    | TxPower
    | Ecc
    | Mavlink
    | OppResend
    | MinFreq
    | MaxFreq
    | NumChannels
    | DutyCycle
    | LbtRssi
    | Manchester
    | RtsCts
    | MaxWindow

  /** `enum Param_R_ID`, in declaration order. */
  datatype RParam =
    | TargetRssi
    | HysteresisRssi

  /** One past the last static ordinal; never a storage slot. */
  const PARAM_S_MAX: nat := 16

  /** One past the last runtime ordinal; never a storage slot. */
  const PARAM_R_MAX: nat := 2

  /** Ordinal of the format pseudo-parameter. */
  const PARAM_FORMAT: nat := 0

  /** The format stamp this firmware writes and accepts. */
  const PARAM_FORMAT_CURRENT: uint32 := 0x1B

  /** Static parameters listed by ordinal. */
  const S_ORDER: seq<SParam> := [Format, SerialSpeed, AirSpeed, NetId, TxPower, Ecc, Mavlink,
    OppResend, MinFreq, MaxFreq, NumChannels, DutyCycle, LbtRssi, Manchester, RtsCts, MaxWindow]

  /** Runtime parameters listed by ordinal. */
  const R_ORDER: seq<RParam> := [TargetRssi, HysteresisRssi]

  /** The ordinal the C enumeration gives a static parameter. */
  function SOrdinal(p: SParam): (r: nat)
    ensures r < PARAM_S_MAX
  {
    match p
    case Format => 0
    case SerialSpeed => 1
    case AirSpeed => 2
    case NetId => 3
    case TxPower => 4
    case Ecc => 5
    case Mavlink => 6
    case OppResend => 7
    case MinFreq => 8
    case MaxFreq => 9
    case NumChannels => 10
    case DutyCycle => 11
    case LbtRssi => 12
    case Manchester => 13
    case RtsCts => 14
    case MaxWindow => 15
  }

  /** The ordinal the C enumeration gives a runtime parameter. */
  function ROrdinal(p: RParam): (r: nat)
    ensures r < PARAM_R_MAX
  {
    match p
    case TargetRssi => 0
    case HysteresisRssi => 1
  }

  /** The static parameter with ordinal `i`, if `i` names one. */
  function SFromOrdinal(i: int): (r: Option<SParam>)
    ensures r.Some? <==> 0 <= i < PARAM_S_MAX
    ensures r.Some? ==> SOrdinal(r.value) == i
  {
    if 0 <= i < |S_ORDER| then Some(S_ORDER[i]) else None
  }

  /** The runtime parameter with ordinal `i`, if `i` names one. */
  function RFromOrdinal(i: int): (r: Option<RParam>)
    ensures r.Some? <==> 0 <= i < PARAM_R_MAX
    ensures r.Some? ==> ROrdinal(r.value) == i
  {
    if 0 <= i < |R_ORDER| then Some(R_ORDER[i]) else None
  }

  /** Ordinals are a bijection between static parameters and [0, PARAM_S_MAX). */
  lemma SOrdinalRoundTrip(p: SParam)
    ensures SFromOrdinal(SOrdinal(p)) == Some(p)
  {
  }

  lemma ROrdinalRoundTrip(p: RParam)
    ensures RFromOrdinal(ROrdinal(p)) == Some(p)
  {
  }

  /** The format pseudo-parameter is ordinal 0 and the sentinels are 16 and 2. */
  lemma FixedOrdinals()
    ensures SOrdinal(Format) == PARAM_FORMAT == 0
    ensures SOrdinal(MaxWindow) + 1 == PARAM_S_MAX == 16
    ensures ROrdinal(HysteresisRssi) + 1 == PARAM_R_MAX == 2
    ensures SFromOrdinal(PARAM_S_MAX) == None && RFromOrdinal(PARAM_R_MAX) == None
  {
  }
}
