/**
 * The runtime vocabulary both pallets share: fixed-width integers, the
 * origin of a dispatch, the dispatch result with its fee disposition, and
 * database weights.
 */
module Frame {

  type byte = x: int | 0 <= x < 0x100
  type u32 = x: int | 0 <= x < 0x1_0000_0000
  type u64 = x: int | 0 <= x < 0x1_0000_0000_0000_0000

  const U64_MAX: u64 := 0xFFFF_FFFF_FFFF_FFFF

  /** Account identifiers are `u64` in the test runtime. */
  type AccountId = u64

  datatype Option<+T> = None | Some(value: T) {
    function GetOr(default: T): T {
      match this
      case Some(v) => v
      case None => default
    }
  }

  datatype Result<+T, +E> = Ok(value: T) | Err(error: E)

  /** `RawOrigin`: the privileged root, a signed account, or no origin at all. */
  datatype Origin = Root | Signed(who: AccountId) | Unsigned

  /** Whether the generic fee machinery still charges for a dispatched call. */
  datatype Pays = Yes | No

  datatype PostInfo = PostInfo(paysFee: Pays)

  /** The post-dispatch information a failed dispatch carries by default. */
  const DEFAULT_POST_INFO := PostInfo(Yes)

  /**
   * A dispatch error: a bad origin, an error of the pallet `E`, or an error
   * raised by a collaborator outside this model.
   */
  datatype DispatchError<+E> = BadOrigin | Module(error: E) | Other

  datatype ErrorWithPostInfo<+E> = ErrorWithPostInfo(error: DispatchError<E>, postInfo: PostInfo)

  type DispatchResultWithPostInfo<E> = Result<PostInfo, ErrorWithPostInfo<E>>

  /** The result of `ensure_root(origin)?` converted to a dispatch result. */
  function BadOriginResult<E>(): DispatchResultWithPostInfo<E> {
    Err(ErrorWithPostInfo(BadOrigin, DEFAULT_POST_INFO))
  }

  /** Weights are `u64`; saturating arithmetic never exceeds `U64_MAX`. */
  type Weight = nat

  function SaturatingAdd(a: Weight, b: Weight): Weight {
    if a + b <= U64_MAX then a + b else U64_MAX
  }

  function SaturatingMul(a: nat, b: nat): nat {
    if a * b <= U64_MAX then a * b else U64_MAX
  }

  /** The cost of one database read and of one database write. */
  datatype DbWeight = DbWeight(read: u64, write: u64) {
    function Reads(n: nat): Weight { SaturatingMul(read, n) }
    function Writes(n: nat): Weight { SaturatingMul(write, n) }
  }
}
