/** Values shared by every part of the model: bytes, 64-bit arithmetic, results and error codes. */
module Types {

  type Byte = b: int | 0 <= b < 256
  type Bytes = seq<Byte>

  const U64_MAX: nat := 0xFFFF_FFFF_FFFF_FFFF

  /** A Rust `u64` (also `usize` on 64-bit targets). */
  type U64 = n: nat | n <= U64_MAX

  function SatAdd(a: U64, b: U64): U64 {
    if a + b > U64_MAX then U64_MAX else a + b
  }

  function SatMul(a: U64, b: U64): U64 {
    if a * b > U64_MAX then U64_MAX else a * b
  }

  function AtMostU64(n: nat): U64 {
    if n > U64_MAX then U64_MAX else n
  }

  datatype Option<+T> = None | Some(value: T)

  datatype Result<+T> = Ok(value: T) | Err(error: Error)

  datatype Error =
    | AccountDoesNotExist
    | CodeNotFound
    | ExecInQuery
    | TooManyObjects
    | InvalidCodeId
    | EventNameTooLong
    | EventContentTooLarge
    | SameCodeMigration
    | FundsToSystemAccount
    | OverlaySizeExceeded
    | TooManyEvents
    | KeyTooLarge
    | ValueTooLarge
    | InvalidCheckpoint
    | CallDepthExceeded
    | OutOfGas
    | UnknownFunction
    | Unauthorized
    | Encoding
    | BatchTooLarge
    | StorageFailure
    | AlreadyExists
    | Custom(id: nat)

  /** The canonical 32-byte account identity. */
  type AccountId = a: Bytes | |a| == 32 witness seq(32, _ => 0)

  /** A 32-byte hash. */
  type Hash = h: Bytes | |h| == 32 witness seq(32, _ => 0)

  /** `AccountId::from_u64`: the number in the last eight bytes, big-endian. */
  function AccountFromU64(n: U64): AccountId {
    Zeros(24) + BigEndian(n, 8)
  }

  /** The account of a number denotes that number. */
  lemma AccountDenotes(n: U64)
    ensures FromBigEndian(AccountFromU64(n)) == n
  {
    assert Pow256(8) == U64_MAX + 1 by {
      assert Pow256(4) == 0x1_0000_0000;
    }
    BigEndianRoundTrip(n, 8);
    LeadingZeros(24, BigEndian(n, 8));
  }

  lemma {:induction false} LeadingZeros(n: nat, b: Bytes)
    ensures FromBigEndian(Zeros(n) + b) == FromBigEndian(b)
    decreases n + |b|
  {
    if b != [] {
      assert (Zeros(n) + b)[..n + |b| - 1] == Zeros(n) + b[..|b| - 1];
      LeadingZeros(n, b[..|b| - 1]);
    } else if n > 0 {
      assert (Zeros(n) + b)[..n - 1] == Zeros(n - 1) + b;
      LeadingZeros(n - 1, b);
    }
  }

  function Zeros(n: nat): Bytes {
    seq(n, _ => 0)
  }

  /** The low `width` bytes of `n`, most significant first. */
  function BigEndian(n: nat, width: nat): (b: Bytes)
    ensures |b| == width
  {
    if width == 0 then [] else BigEndian(n / 256, width - 1) + [n % 256]
  }

  /** The number a big-endian byte string denotes. */
  function FromBigEndian(b: Bytes): nat {
    if b == [] then 0 else 256 * FromBigEndian(b[..|b| - 1]) + b[|b| - 1]
  }

  function Pow256(width: nat): nat {
    if width == 0 then 1 else 256 * Pow256(width - 1)
  }

  /** `width` bytes are enough for every number below 256^width. */
  lemma {:induction false} BigEndianRoundTrip(n: nat, width: nat)
    requires n < Pow256(width)
    ensures FromBigEndian(BigEndian(n, width)) == n
  {
    if width > 0 {
      BigEndianRoundTrip(n / 256, width - 1);
      var b := BigEndian(n, width);
      assert b[..|b| - 1] == BigEndian(n / 256, width - 1);
    }
  }

  lemma {:induction false} Fewer<T>(a: set<T>, b: set<T>)
    requires a <= b
    ensures |a| <= |b|
    decreases a
  {
    if x :| x in a {
      Fewer(a - {x}, b - {x});
    }
  }
}
