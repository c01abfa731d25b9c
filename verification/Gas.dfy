/** Gas metering (crates/app/stf/src/gas.rs). */
module Gas {
  import opened Types

  datatype StorageGasConfig = StorageGasConfig(getCharge: U64, setCharge: U64, removeCharge: U64)

  /** The state of a gas counter. */
  datatype Meter =
    | Infinite
    | Finite(limit: U64, used: U64, config: StorageGasConfig)
  {
    function Used(): U64 {
      if Infinite? then 0 else used
    }

    predicate WithinLimit() {
      Finite? ==> used <= limit
    }
  }

  datatype Charged = Charged(ok: bool, meter: Meter)

  /** The length of a byte string as a `u64`. */
  function Size(b: Bytes): U64 {
    if |b| > U64_MAX then U64_MAX else |b|
  }

  function Consume(m: Meter, amount: U64): Charged {
    match m
    case Infinite => Charged(true, m)
    case Finite(limit, used, _) =>
      var total := SatAdd(used, amount);
      if total > limit then Charged(false, m) else Charged(true, m.(used := total))
  }

  function GetSize(key: Bytes, value: Option<Bytes>): U64 {
    var valueSize := match value case None => 1 case Some(v) => SatAdd(Size(v), 1);
    SatAdd(SatAdd(Size(key), 1), valueSize)
  }

  function SetSize(key: Bytes, value: Bytes): U64 {
    SatAdd(SatAdd(SatAdd(Size(key), 1), Size(value)), 1)
  }

  function ConsumeGet(m: Meter, key: Bytes, value: Option<Bytes>): Charged {
    if m.Infinite? then Charged(true, m) else Consume(m, SatMul(m.config.getCharge, GetSize(key, value)))
  }

  function ConsumeSet(m: Meter, key: Bytes, value: Bytes): Charged {
    if m.Infinite? then Charged(true, m) else Consume(m, SatMul(m.config.setCharge, SetSize(key, value)))
  }

  function ConsumeRemove(m: Meter, key: Bytes): Charged {
    if m.Infinite? then Charged(true, m)
    else Consume(m, SatMul(m.config.removeCharge, SatAdd(Size(key), 1)))
  }

  /** The counter itself: its methods update `meter` in place. */
  class GasCounter {
    var meter: Meter

    constructor (m: Meter)
      ensures meter == m
    {
      meter := m;
    }

    method ConsumeGas(amount: U64) returns (r: Result<()>)
      modifies this
      ensures Charged(r.Ok?, meter) == Consume(old(meter), amount)
      ensures r.Err? ==> r.error == OutOfGas
    {
      match meter {
        case Infinite => return Ok(());
        case Finite(limit, used, config) =>
          var total := SatAdd(used, amount);
          if total > limit {
            return Err(OutOfGas);
          }
          meter := Finite(limit, total, config);
          return Ok(());
      }
    }

    method ConsumeGetGas(key: Bytes, value: Option<Bytes>) returns (r: Result<()>)
      modifies this
      ensures Charged(r.Ok?, meter) == ConsumeGet(old(meter), key, value)
      ensures r.Err? ==> r.error == OutOfGas
    {
      if meter.Infinite? {
        return Ok(());
      }
      r := ConsumeGas(SatMul(meter.config.getCharge, GetSize(key, value)));
    }

    method ConsumeSetGas(key: Bytes, value: Bytes) returns (r: Result<()>)
      modifies this
      ensures Charged(r.Ok?, meter) == ConsumeSet(old(meter), key, value)
      ensures r.Err? ==> r.error == OutOfGas
    {
      if meter.Infinite? {
        return Ok(());
      }
      r := ConsumeGas(SatMul(meter.config.setCharge, SetSize(key, value)));
    }

    method ConsumeRemoveGas(key: Bytes) returns (r: Result<()>)
      modifies this
      ensures Charged(r.Ok?, meter) == ConsumeRemove(old(meter), key)
      ensures r.Err? ==> r.error == OutOfGas
    {
      if meter.Infinite? {
        return Ok(());
      }
      r := ConsumeGas(SatMul(meter.config.removeCharge, SatAdd(Size(key), 1)));
    }
  }

  function Cost(rate: U64, size: nat): nat {
    rate * size
  }

  /** Saturating step by step is saturating once, at the end. */
  lemma SaturatesOnce(rate: U64, size: nat)
    ensures SatMul(rate, AtMostU64(size)) == AtMostU64(Cost(rate, size))
  {
    if rate > 0 && size > U64_MAX {
      assert rate * U64_MAX >= U64_MAX && rate * size >= size;
    }
  }

  /**
   * What a charge of `amount`, in true numbers, does to a finite meter: it is refused when the true
   * sum is above the limit, except that the limit `u64::MAX` refuses nothing and sticks.
   */
  predicate ChargesExactly(m: Meter, amount: nat, c: Charged)
    requires m.Finite?
  {
    if m.used + amount <= m.limit then c == Charged(true, m.(used := m.used + amount))
    else if m.limit < U64_MAX then c == Charged(false, m)
    else c == Charged(true, m.(used := U64_MAX))
  }

  function BytesRead(key: Bytes, value: Option<Bytes>): nat {
    |key| + (if value.Some? then |value.value| + 1 else 1) + 1
  }

  /**
   * A storage charge is exact for keys and values of any length: below a limit of `u64::MAX` the
   * saturating arithmetic never shows.
   */
  lemma StorageChargesAreExact(m: Meter, key: Bytes, value: Bytes, read: Option<Bytes>)
    requires m.Finite?
    ensures ChargesExactly(m, Cost(m.config.getCharge, BytesRead(key, read)), ConsumeGet(m, key, read))
    ensures ChargesExactly(m, Cost(m.config.setCharge, |key| + |value| + 2), ConsumeSet(m, key, value))
    ensures ChargesExactly(m, Cost(m.config.removeCharge, |key| + 1), ConsumeRemove(m, key))
  {
    ChargeIsExact(m, m.config.getCharge, BytesRead(key, read));
    ChargeIsExact(m, m.config.setCharge, |key| + |value| + 2);
    ChargeIsExact(m, m.config.removeCharge, |key| + 1);
  }

  lemma ChargeIsExact(m: Meter, rate: U64, size: nat)
    requires m.Finite?
    ensures ChargesExactly(m, Cost(rate, size), Consume(m, SatMul(rate, AtMostU64(size))))
  {
    SaturatesOnce(rate, size);
  }
}
