/** `RoomCode`: the id of a multiplayer room, a non-zero `u16`. */
module Multiplayer {
  import opened Wrappers
  import opened Bytes

  type NonZeroU16 = x: int | 1 <= x < 0x1_0000 witness 1

  datatype RoomCode = RoomCode(code: NonZeroU16)

  /** `std::num::TryFromIntError`. */
  datatype TryFromIntError = TryFromIntError

  /** `RoomCode::try_from`: through `NonZeroU16::try_from`. */
  function TryFrom(value: u16): (r: Result<RoomCode, TryFromIntError>)
    ensures r.Err? <==> value == 0
    ensures r.Ok? ==> r.value.code == value
  {
    if value == 0 then Err(TryFromIntError) else Ok(RoomCode(value))
  }

  /** `gen_range(1000..=9999)` for the random draw `d`. */
  function GenRange(d: nat): (v: u16)
    ensures 1000 <= v <= 9999
  {
    1000 + d % 9000
  }

  /** `RoomCode::generate`: the `unwrap` needs `try_from` to succeed, which the range guarantees. */
  function Generate(d: nat): (c: RoomCode)
    ensures 1000 <= c.code <= 9999
    ensures TryFrom(GenRange(d)) == Ok(c)
  {
    var r := TryFrom(GenRange(d));
    r.value
  }

  /** Every code in range is generated by some draw. */
  lemma GenerateCoversRange(v: int)
    requires 1000 <= v <= 9999
    ensures Generate(v - 1000).code == v
  {
  }
}
