/** The algorithm configuration registry, reduced to what the modelled
    `LoadConfig` members read: typed key/value tables with lookup-with-default
    (`GetParamDef`) and plain lookup (`GetParam`). */
module Registry {
  import opened Wrappers

  const TwoTo31: int := 0x8000_0000
  const TwoTo32: int := 0x1_0000_0000

  /** A C++ `int` as stored in the registry. */
  newtype int32 = x: int | -0x8000_0000 <= x < 0x8000_0000

  /** A C++ `unsigned int`. */
  newtype uint32 = x: int | 0 <= x < 0x1_0000_0000

  /** One registry: a table per value type; the key names are the
      configuration parameter names. */
  datatype Registry = Registry(
    bools: map<string, bool>,
    ints: map<string, int32>,
    reals: map<string, real>,
    strings: map<string, string>)

  const Empty: Registry := Registry(map[], map[], map[], map[])

  /** `GetParamDef` for a boolean parameter: the configured value if present,
      the default otherwise. */
  function BoolDef(reg: Registry, key: string, default: bool): (v: bool)
    ensures key in reg.bools ==> v == reg.bools[key]
    ensures key !in reg.bools ==> v == default
  {
    if key in reg.bools then reg.bools[key] else default
  }

  function IntDef(reg: Registry, key: string, default: int32): (v: int32)
    ensures key in reg.ints ==> v == reg.ints[key]
    ensures key !in reg.ints ==> v == default
  {
    if key in reg.ints then reg.ints[key] else default
  }

  function RealDef(reg: Registry, key: string, default: real): (v: real)
    ensures key in reg.reals ==> v == reg.reals[key]
    ensures key !in reg.reals ==> v == default
  {
    if key in reg.reals then reg.reals[key] else default
  }

  function StringDef(reg: Registry, key: string, default: string): (v: string)
    ensures key in reg.strings ==> v == reg.strings[key]
    ensures key !in reg.strings ==> v == default
  {
    if key in reg.strings then reg.strings[key] else default
  }

  /** `GetParam` for a boolean parameter that has no default: a missing key is
      reported as `None`. */
  function GetBool(reg: Registry, key: string): (v: Option<bool>)
    ensures v.Some? <==> key in reg.bools
    ensures v.Some? ==> v.value == reg.bools[key]
  {
    if key in reg.bools then Some(reg.bools[key]) else None
  }

  /** The C++ conversion `(unsigned int) x` of a 32-bit signed integer: the
      value modulo 2^32. Non-negative values are kept, negative ones wrap
      around to the upper half of the unsigned range. */
  function ToUnsigned(x: int32): (u: uint32)
    ensures 0 <= x ==> u as int == x as int
    ensures x < 0 ==> u as int == x as int + TwoTo32
    ensures x < 0 <==> TwoTo31 <= u as int
  {
    ((x as int) % TwoTo32) as uint32
  }
}
