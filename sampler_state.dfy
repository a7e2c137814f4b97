/**
 * `D3D10SamplerState`: the sampler create-info a D3D10 sampler descriptor
 * decodes to, and the filter validation of `NormalizeDesc`.
 */
module SamplerState {
  import opened Common

  // Bits of a D3D10_FILTER value.
  const FilterMipLinear: bv32 := 0x01
  const FilterMagLinear: bv32 := 0x04
  const FilterMinLinear: bv32 := 0x10
  const FilterAnisotropic: bv32 := 0x40
  const FilterComparison: bv32 := 0x80

  /** Filter bits `NormalizeDesc` refuses. */
  const UnhandledFilterBits: bv32 := 0xFFFF_FF2A

  /** VK_BORDER_COLOR_FLOAT_TRANSPARENT_BLACK. */
  const TransparentBlack: nat := 0

  datatype VkFilter = FilterNearest | FilterLinear
  datatype MipmapMode = MipmapNearest | MipmapLinear
  datatype AddressMode = Repeat | MirroredRepeat | ClampToEdge | ClampToBorder | MirrorClampToEdge

  /**
   * `D3D10_SAMPLER_DESC`; the level-of-detail fields are left out and the
   * border colour is kept as the four values the decoder receives.
   */
  datatype SamplerDesc = SamplerDesc(
    filter: bv32, addressU: nat, addressV: nat, addressW: nat, maxAnisotropy: nat,
    comparisonFunc: nat, borderColor: seq<real>)

  /** The part of `DxvkSamplerCreateInfo` the constructor computes. */
  datatype SamplerInfo = SamplerInfo(
    magFilter: VkFilter, minFilter: VkFilter, mipmapMode: MipmapMode, useAnisotropy: bool, compareToDepth: bool,
    maxAnisotropy: nat, addressModeU: AddressMode, addressModeV: AddressMode, addressModeW: AddressMode,
    compareOp: nat, borderColor: nat, usePixelCoord: bool)

  /** The helpers of the utility module the constructor calls. */
  datatype Decoders = Decoders(addressMode: nat -> AddressMode, compareOp: nat -> nat, borderColor: seq<real> -> nat)

  predicate HasBit(filter: bv32, bit: bv32) {
    filter & bit != 0
  }

  /** `MaxAnisotropy` brought into [1, 16]. */
  function ClampAnisotropy(maxAnisotropy: nat): (r: nat)
    ensures 1 <= r <= 16
    ensures 1 <= maxAnisotropy <= 16 ==> r == maxAnisotropy
    ensures maxAnisotropy < 1 ==> r == 1
    ensures maxAnisotropy > 16 ==> r == 16
  {
    if maxAnisotropy < 1 then 1 else if maxAnisotropy > 16 then 16 else maxAnisotropy
  }

  /** Clamping twice changes nothing more. */
  lemma ClampAnisotropyIdempotent(maxAnisotropy: nat)
    ensures ClampAnisotropy(ClampAnisotropy(maxAnisotropy)) == ClampAnisotropy(maxAnisotropy)
  {
  }

  /**
   * The constructor's create-info: filters and the anisotropy and
   * comparison switches read from filter bits, the anisotropy clamped, the
   * border colour decoded only when some axis clamps to the border, and
   * pixel coordinates never used.
   */
  function Decode(desc: SamplerDesc, dec: Decoders): (r: SamplerInfo)
    ensures r.magFilter == FilterLinear <==> HasBit(desc.filter, FilterMagLinear)
    ensures r.minFilter == FilterLinear <==> HasBit(desc.filter, FilterMinLinear)
    ensures r.mipmapMode == MipmapLinear <==> HasBit(desc.filter, FilterMipLinear)
    ensures r.useAnisotropy <==> HasBit(desc.filter, FilterAnisotropic)
    ensures r.compareToDepth <==> HasBit(desc.filter, FilterComparison)
    ensures 1 <= r.maxAnisotropy <= 16
    ensures 1 <= desc.maxAnisotropy <= 16 ==> r.maxAnisotropy == desc.maxAnisotropy
    ensures desc.maxAnisotropy < 1 ==> r.maxAnisotropy == 1
    ensures desc.maxAnisotropy > 16 ==> r.maxAnisotropy == 16
    ensures r.addressModeU == dec.addressMode(desc.addressU)
    ensures r.addressModeV == dec.addressMode(desc.addressV)
    ensures r.addressModeW == dec.addressMode(desc.addressW)
    ensures r.compareOp == dec.compareOp(desc.comparisonFunc)
    ensures !r.usePixelCoord
    ensures (r.addressModeU != ClampToBorder && r.addressModeV != ClampToBorder && r.addressModeW != ClampToBorder)
      ==> r.borderColor == TransparentBlack
    ensures (r.addressModeU == ClampToBorder || r.addressModeV == ClampToBorder || r.addressModeW == ClampToBorder)
      ==> r.borderColor == dec.borderColor(desc.borderColor)
  {
    var u := dec.addressMode(desc.addressU);
    var v := dec.addressMode(desc.addressV);
    var w := dec.addressMode(desc.addressW);
    SamplerInfo(
      if HasBit(desc.filter, FilterMagLinear) then FilterLinear else FilterNearest,
      if HasBit(desc.filter, FilterMinLinear) then FilterLinear else FilterNearest,
      if HasBit(desc.filter, FilterMipLinear) then MipmapLinear else MipmapNearest,
      HasBit(desc.filter, FilterAnisotropic),
      HasBit(desc.filter, FilterComparison),
      ClampAnisotropy(desc.maxAnisotropy),
      u, v, w,
      dec.compareOp(desc.comparisonFunc),
      if u == ClampToBorder || v == ClampToBorder || w == ClampToBorder then dec.borderColor(desc.borderColor) else TransparentBlack,
      false)
  }

  /** `NormalizeDesc`: E_INVALIDARG exactly when the filter has a bit outside the handled ones. */
  function NormalizeDesc(desc: SamplerDesc): (hr: HResult)
    ensures hr == S_OK || hr == E_INVALIDARG
    ensures hr == S_OK <==> desc.filter & UnhandledFilterBits == 0
  {
    if desc.filter & UnhandledFilterBits != 0 then E_INVALIDARG else S_OK
  }

  /**
   * For accepted filters the five decoded switches say everything: two
   * accepted filters that decode alike are the same filter.
   */
  lemma AcceptedFilterDeterminedByDecoding(a: bv32, b: bv32)
    requires a & UnhandledFilterBits == 0 && b & UnhandledFilterBits == 0
    requires HasBit(a, FilterMipLinear) == HasBit(b, FilterMipLinear)
    requires HasBit(a, FilterMagLinear) == HasBit(b, FilterMagLinear)
    requires HasBit(a, FilterMinLinear) == HasBit(b, FilterMinLinear)
    requires HasBit(a, FilterAnisotropic) == HasBit(b, FilterAnisotropic)
    requires HasBit(a, FilterComparison) == HasBit(b, FilterComparison)
    ensures a == b
  {
  }
}
