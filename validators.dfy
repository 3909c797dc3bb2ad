/** The per-field checks the configuration schema applies to single values
    before any reconciliation starts: the named-warehouse name, the idle
    suspend interval, the number of disks and the query port. Each returns
    the error it reports, or None when the value is accepted. */
module FieldValidators {
  import opened ClusterModel

  datatype FieldError =
    | EmptyWarehouseName
    | ReservedWarehouseName
    | HyphenInWarehouseName
    | IdleIntervalOutOfRange
    | VolNumberOutOfRange
    | QueryPortOutOfRange
    | DuplicatePort443

  /** A named warehouse's name: non-empty, not the default warehouse's name, no '-'. */
  function WarehouseNameError(name: string): (r: Option<FieldError>)
    ensures r.None? <==> |name| > 0 && name != DefaultWarehouseName && '-' !in name
    ensures r == Some(EmptyWarehouseName) <==> |name| == 0
    ensures r == Some(ReservedWarehouseName) <==> name == DefaultWarehouseName
    ensures r == Some(HyphenInWarehouseName) <==> |name| > 0 && '-' in name
  {
    if |name| == 0 then Some(EmptyWarehouseName)
    else if name == DefaultWarehouseName then Some(ReservedWarehouseName)
    else if '-' in name then Some(HyphenInWarehouseName)
    else None
  }

  /** An idle suspend interval in minutes: 0 (disabled) or within [15, 999999]. */
  function IdleIntervalError(minutes: int): (r: Option<FieldError>)
    ensures r.None? <==> minutes == 0 || 15 <= minutes <= 999999
    ensures r.Some? ==> r.value == IdleIntervalOutOfRange
  {
    if minutes != 0 && (minutes < 15 || minutes > 999999) then Some(IdleIntervalOutOfRange) else None
  }

  /** The number of disks of a warehouse's compute node: within [1, 24]. */
  function VolNumberError(n: int): (r: Option<FieldError>)
    ensures r.None? <==> 1 <= n <= 24
    ensures r.Some? ==> r.value == VolNumberOutOfRange
  {
    if n < 1 || n > 24 then Some(VolNumberOutOfRange) else None
  }

  /** The query port: within [1, 65535] and not 443, which is already taken. */
  function QueryPortError(port: int): (r: Option<FieldError>)
    ensures r.None? <==> 1 <= port <= 65535 && port != 443
    ensures r == Some(DuplicatePort443) <==> port == 443
    ensures r == Some(QueryPortOutOfRange) <==> port < 1 || port > 65535
  {
    if port < 1 || port > 65535 then Some(QueryPortOutOfRange)
    else if port == 443 then Some(DuplicatePort443)
    else None
  }

  /** The disk count in effect is always accepted: a warehouse that omits
      its volume gets the default count, and one that declares it has passed
      the check. */
  lemma DiskCountInEffectIsAccepted(volume: Option<VolumeConfig>)
    requires volume.Some? ==> VolNumberError(volume.value.volNumber).None?
    ensures VolNumberError(EffectiveVolume(volume).volNumber).None?
    ensures 1 <= EffectiveVolume(volume).volNumber <= 24
  {
  }
}
