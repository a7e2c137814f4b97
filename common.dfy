/**
 * Vocabulary shared by every module: optional values, the HRESULT codes the
 * modelled entry points return, C++ unsigned arithmetic and null handles.
 */
module Common {

  datatype Option<T> = None | Some(value: T)

  /** The HRESULT values returned by the modelled D3D10 and DXGI entry points. */
  datatype HResult =
    | S_OK
    | S_FALSE
    | E_INVALIDARG
    | E_FAIL
    | DXGI_ERROR_WAS_STILL_DRAWING
    | DXGI_ERROR_INVALID_CALL
    | DXGI_ERROR_MORE_DATA

  predicate Failed(hr: HResult) {
    !(hr.S_OK? || hr.S_FALSE?)
  }

  const TwoTo32: nat := 0x1_0000_0000
  const TwoTo64: nat := 0x1_0000_0000_0000_0000

  /** The value a `UINT` / `uint32_t` holds after C++ unsigned arithmetic produced `x`. */
  function U32(x: int): (r: nat)
    ensures r < TwoTo32
    ensures 0 <= x < TwoTo32 ==> r == x
    ensures (x - r) % TwoTo32 == 0
  {
    x % TwoTo32
  }

  /** The value a `VkDeviceSize` / `uint64_t` holds after unsigned arithmetic produced `x`. */
  function U64(x: int): (r: nat)
    ensures r < TwoTo64
    ensures 0 <= x < TwoTo64 ==> r == x
    ensures (x - r) % TwoTo64 == 0
  {
    x % TwoTo64
  }

  /**
   * A COM pointer or an `Rc` reference, by identity only: 0 is `nullptr`,
   * every other value names one live object.
   */
  type Handle = nat

  const NullHandle: Handle := 0

  function Min(a: int, b: int): int {
    if a <= b then a else b
  }

  function Max(a: int, b: int): int {
    if a >= b then a else b
  }
}
