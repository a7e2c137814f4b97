/**
 * Render-target and depth-stencil views: the default view descriptor of a
 * resource, normalisation of an application's descriptor against its
 * resource, and the Vulkan image-view range each view dimension selects.
 */
module Views {
  import opened Common
  import opened Flags

  datatype ResourceDimension = DimUnknown | DimBuffer | DimTexture1D | DimTexture2D | DimTexture3D

  /** What view creation reads from a resource's descriptor. */
  datatype Resource = Resource(dimension: ResourceDimension, format: nat, arraySize: nat, depth: nat, sampleCount: nat, bindFlags: bv32)

  /**
   * `D3D10_RTV_DIMENSION` and `D3D10_DSV_DIMENSION` (which has no BUFFER and
   * no TEXTURE3D member).
   */
  datatype ViewDimension =
    | ViewUnknown | ViewBuffer | ViewTexture1D | ViewTexture1DArray | ViewTexture2D | ViewTexture2DArray
    | ViewTexture2DMS | ViewTexture2DMSArray | ViewTexture3D

  /**
   * A view descriptor with its union flattened: `mipSlice` is the mip slice
   * of every dimension that has one; `firstSlice`/`sliceCount` are
   * `FirstArraySlice`/`ArraySize` of the array dimensions and
   * `FirstWSlice`/`WSize` of TEXTURE3D.
   */
  datatype ViewDesc = ViewDesc(format: nat, dimension: ViewDimension, mipSlice: nat, firstSlice: nat, sliceCount: nat)

  const FormatUnknown: nat := 0

  predicate IsArrayView(d: ViewDimension) {
    d == ViewTexture1DArray || d == ViewTexture2DArray || d == ViewTexture2DMSArray || d == ViewTexture3D
  }

  /** The view dimensions a resource of dimension `rd` accepts. */
  predicate CompatibleDimension(rd: ResourceDimension, vd: ViewDimension) {
    match rd
    case DimBuffer => vd == ViewBuffer
    case DimTexture1D => vd == ViewTexture1D || vd == ViewTexture1DArray
    case DimTexture2D => vd == ViewTexture2D || vd == ViewTexture2DArray || vd == ViewTexture2DMS || vd == ViewTexture2DMSArray
    case DimTexture3D => vd == ViewTexture3D
    case DimUnknown => false
  }

  /** The layers a view of the resource can address: array size, or depth for 3D textures. */
  function ResourceLayers(res: Resource): nat {
    match res.dimension
    case DimTexture1D => res.arraySize
    case DimTexture2D => res.arraySize
    case DimTexture3D => res.depth
    case _ => 0
  }

  /**
   * The facts `GetDescFromResource` establishes about the descriptor it
   * writes for a texture: the resource's format, mip 0 (left alone for
   * multisampled views), every layer of an array or 3D view, and the
   * dimension chosen by array size and sample count.
   */
  predicate IsResourceDesc(res: Resource, r: ViewDesc) {
    r.format == res.format && CompatibleDimension(res.dimension, r.dimension)
    && (r.dimension != ViewTexture2DMS && r.dimension != ViewTexture2DMSArray ==> r.mipSlice == 0)
    && (IsArrayView(r.dimension) ==> r.firstSlice == 0 && r.sliceCount == ResourceLayers(res))
    && (res.dimension == DimTexture1D ==> (r.dimension == ViewTexture1D <==> res.arraySize == 1))
    && (res.dimension == DimTexture2D ==>
          (r.dimension == ViewTexture2D <==> res.sampleCount == 1 && res.arraySize == 1)
          && (r.dimension == ViewTexture2DArray <==> res.sampleCount == 1 && res.arraySize != 1)
          && (r.dimension == ViewTexture2DMS <==> res.sampleCount != 1 && res.arraySize == 1)
          && (r.dimension == ViewTexture2DMSArray <==> res.sampleCount != 1 && res.arraySize != 1))
  }

  /**
   * The descriptor `NormalizeDesc` accepts `desc` as: the same dimension,
   * mip and first slice; an UNKNOWN format replaced by the texture's; the
   * slice count of an array or 3D view clamped to the layers left.
   */
  predicate IsNormalizedDesc(res: Resource, desc: ViewDesc, r: ViewDesc)
    requires desc.sliceCount < TwoTo32 && desc.firstSlice < TwoTo32 && ResourceLayers(res) < TwoTo32
  {
    r.format == (if desc.format == FormatUnknown && res.dimension != DimBuffer then res.format else desc.format)
    && r.dimension == desc.dimension && r.mipSlice == desc.mipSlice && r.firstSlice == desc.firstSlice
    && r.sliceCount == (if IsArrayView(desc.dimension) then ClampedSliceCount(desc.sliceCount, desc.firstSlice, ResourceLayers(res))
                        else desc.sliceCount)
  }

  /**
   * `D3D10RenderTargetView::GetDescFromResource`: a view of the whole
   * resource at mip 0 in the resource's format, written over `desc`; only
   * the fields the chosen dimension uses are written. Buffers and unknown
   * resources are refused and `desc` is left alone.
   */
  method GetDescFromResource(res: Resource, desc: ViewDesc) returns (hr: HResult, r: ViewDesc)
    ensures res.dimension == DimBuffer || res.dimension == DimUnknown ==> hr == E_INVALIDARG && r == desc
    ensures res.dimension != DimBuffer && res.dimension != DimUnknown ==> hr == S_OK && IsResourceDesc(res, r)
  {
    r := desc;
    match res.dimension {
      case DimTexture1D =>
        r := r.(format := res.format);
        if res.arraySize == 1 {
          r := r.(dimension := ViewTexture1D, mipSlice := 0);
        } else {
          r := r.(dimension := ViewTexture1DArray, mipSlice := 0, firstSlice := 0, sliceCount := res.arraySize);
        }
        hr := S_OK;
      case DimTexture2D =>
        r := r.(format := res.format);
        if res.sampleCount == 1 {
          if res.arraySize == 1 {
            r := r.(dimension := ViewTexture2D, mipSlice := 0);
          } else {
            r := r.(dimension := ViewTexture2DArray, mipSlice := 0, firstSlice := 0, sliceCount := res.arraySize);
          }
        } else {
          if res.arraySize == 1 {
            r := r.(dimension := ViewTexture2DMS);
          } else {
            r := r.(dimension := ViewTexture2DMSArray, firstSlice := 0, sliceCount := res.arraySize);
          }
        }
        hr := S_OK;
      case DimTexture3D =>
        r := r.(format := res.format, dimension := ViewTexture3D, mipSlice := 0, firstSlice := 0, sliceCount := res.depth);
        hr := S_OK;
      case _ =>
        hr := E_INVALIDARG;
    }
  }

  /**
   * The slice count after clamping: cut down to `numLayers - first` when it
   * exceeds that. The difference is unsigned, so a `first` beyond
   * `numLayers` wraps to a large room that clamps only counts reaching
   * past 2^32.
   */
  function ClampedSliceCount(count: nat, first: nat, numLayers: nat): (r: nat)
    requires count < TwoTo32 && first < TwoTo32 && numLayers < TwoTo32
    ensures first <= numLayers ==> r == Min(count, numLayers - first)
    ensures first > numLayers ==> r == Min(count, TwoTo32 + numLayers - first) && TwoTo32 + numLayers - first > numLayers
  {
    var room := U32(numLayers - first);
    if count > room then room else count
  }

  /**
   * `D3D10RenderTargetView::NormalizeDesc`: a view dimension the resource
   * does not accept, or an unknown resource, is refused with `desc`
   * unchanged. Otherwise an UNKNOWN format becomes the resource's, and the
   * slice count of an array or 3D view is clamped to the layers left after
   * its first slice; nothing else changes.
   */
  method NormalizeDesc(res: Resource, desc: ViewDesc) returns (hr: HResult, r: ViewDesc)
    requires desc.sliceCount < TwoTo32 && desc.firstSlice < TwoTo32 && ResourceLayers(res) < TwoTo32
    ensures !CompatibleDimension(res.dimension, desc.dimension) ==> hr == E_INVALIDARG && r == desc
    ensures CompatibleDimension(res.dimension, desc.dimension) ==> hr == S_OK && IsNormalizedDesc(res, desc, r)
    ensures hr == S_OK && IsArrayView(r.dimension) && r.firstSlice <= ResourceLayers(res) ==>
      r.firstSlice + r.sliceCount <= ResourceLayers(res)
  {
    r := desc;
    var format := FormatUnknown;
    var numLayers := 0;
    match res.dimension {
      case DimBuffer =>
        if desc.dimension != ViewBuffer {
          return E_INVALIDARG, r;
        }
      case DimTexture1D =>
        if desc.dimension != ViewTexture1D && desc.dimension != ViewTexture1DArray {
          return E_INVALIDARG, r;
        }
        format := res.format;
        numLayers := res.arraySize;
      case DimTexture2D =>
        if desc.dimension != ViewTexture2D && desc.dimension != ViewTexture2DArray
          && desc.dimension != ViewTexture2DMS && desc.dimension != ViewTexture2DMSArray {
          return E_INVALIDARG, r;
        }
        format := res.format;
        numLayers := res.arraySize;
      case DimTexture3D =>
        if desc.dimension != ViewTexture3D {
          return E_INVALIDARG, r;
        }
        format := res.format;
        numLayers := res.depth;
      case DimUnknown =>
        return E_INVALIDARG, r;
    }
    if r.format == FormatUnknown {
      r := r.(format := format);
    }
    if IsArrayView(r.dimension) {
      var room := U32(numLayers - r.firstSlice);
      if r.sliceCount > room {
        r := r.(sliceCount := room);
      }
    }
    hr := S_OK;
  }

  datatype ViewType = View1D | View1DArray | View2D | View2DArray

  /** The image-view range a view selects. */
  datatype ViewInfo = ViewInfo(viewType: ViewType, minLevel: nat, numLevels: nat, minLayer: nat, numLayers: nat)

  /**
   * The image view of a render-target view descriptor: always one mip
   * level, level 0 for multisampled views, exactly layer 0 for non-array
   * views, the descriptor's slice range for array views, and a 3D view as
   * a 2D array over its depth slices. Buffer and unknown dimensions have none.
   */
  function RtvViewInfo(d: ViewDesc): (r: Option<ViewInfo>)
    ensures r.None? <==> d.dimension == ViewUnknown || d.dimension == ViewBuffer
    ensures r.Some? ==> r.value.numLevels == 1
    ensures r.Some? && (d.dimension == ViewTexture2DMS || d.dimension == ViewTexture2DMSArray) ==> r.value.minLevel == 0
    ensures r.Some? && d.dimension != ViewTexture2DMS && d.dimension != ViewTexture2DMSArray ==> r.value.minLevel == d.mipSlice
    ensures r.Some? && !IsArrayView(d.dimension) ==> r.value.minLayer == 0 && r.value.numLayers == 1
    ensures r.Some? && IsArrayView(d.dimension) ==> r.value.minLayer == d.firstSlice && r.value.numLayers == d.sliceCount
    ensures d.dimension == ViewTexture3D ==> r.Some? && r.value.viewType == View2DArray
  {
    match d.dimension
    case ViewTexture1D => Some(ViewInfo(View1D, d.mipSlice, 1, 0, 1))
    case ViewTexture1DArray => Some(ViewInfo(View1DArray, d.mipSlice, 1, d.firstSlice, d.sliceCount))
    case ViewTexture2D => Some(ViewInfo(View2D, d.mipSlice, 1, 0, 1))
    case ViewTexture2DArray => Some(ViewInfo(View2DArray, d.mipSlice, 1, d.firstSlice, d.sliceCount))
    case ViewTexture2DMS => Some(ViewInfo(View2D, 0, 1, 0, 1))
    case ViewTexture2DMSArray => Some(ViewInfo(View2DArray, 0, 1, d.firstSlice, d.sliceCount))
    case ViewTexture3D => Some(ViewInfo(View2DArray, d.mipSlice, 1, d.firstSlice, d.sliceCount))
    case _ => None
  }

  /** A depth-stencil view maps like a render-target view, but has no 3D dimension. */
  function DsvViewInfo(d: ViewDesc): (r: Option<ViewInfo>)
    ensures d.dimension == ViewTexture3D ==> r.None?
    ensures d.dimension != ViewTexture3D ==> r == RtvViewInfo(d)
  {
    match d.dimension
    case ViewTexture1D => Some(ViewInfo(View1D, d.mipSlice, 1, 0, 1))
    case ViewTexture1DArray => Some(ViewInfo(View1DArray, d.mipSlice, 1, d.firstSlice, d.sliceCount))
    case ViewTexture2D => Some(ViewInfo(View2D, d.mipSlice, 1, 0, 1))
    case ViewTexture2DArray => Some(ViewInfo(View2DArray, d.mipSlice, 1, d.firstSlice, d.sliceCount))
    case ViewTexture2DMS => Some(ViewInfo(View2D, 0, 1, 0, 1))
    case ViewTexture2DMSArray => Some(ViewInfo(View2DArray, 0, 1, d.firstSlice, d.sliceCount))
    case _ => None
  }

  /**
   * `CreateRenderTargetView` up to the view object: a buffer gets S_OK and
   * no view; otherwise the descriptor is derived from the resource or
   * normalised against it (either failure is E_INVALIDARG), the texture must
   * be bindable as a render target, the dimension must map to an image view,
   * and a null output pointer (`wantView` false) gets S_FALSE once all of
   * that has passed. `desc` is the descriptor the view is created from.
   */
  method CreateRenderTargetView(res: Resource, pDesc: Option<ViewDesc>, wantView: bool)
    returns (hr: HResult, desc: ViewDesc, info: Option<ViewInfo>)
    requires pDesc.Some? ==> pDesc.value.sliceCount < TwoTo32 && pDesc.value.firstSlice < TwoTo32
    requires ResourceLayers(res) < TwoTo32
    ensures res.dimension == DimBuffer ==> hr == S_OK && info.None?
    ensures res.dimension != DimBuffer && !HasBit(res.bindFlags, BindRenderTarget) ==> hr == E_INVALIDARG && info.None?
    ensures res.dimension == DimUnknown ==> hr == E_INVALIDARG
    ensures pDesc.Some? && res.dimension != DimBuffer && !CompatibleDimension(res.dimension, pDesc.value.dimension) ==> hr == E_INVALIDARG
    ensures info.Some? ==> hr == S_OK && wantView && info == RtvViewInfo(desc) && HasBit(res.bindFlags, BindRenderTarget)
    ensures hr == S_FALSE ==> !wantView && RtvViewInfo(desc).Some?
    ensures res.dimension != DimBuffer && hr == S_OK ==> (
      info.Some? && CompatibleDimension(res.dimension, desc.dimension)
      && (IsArrayView(desc.dimension) && desc.firstSlice <= ResourceLayers(res) ==>
            info.value.minLayer + info.value.numLayers <= ResourceLayers(res)))
    ensures res.dimension != DimBuffer && hr != E_INVALIDARG ==>
      if pDesc.None? then IsResourceDesc(res, desc) else IsNormalizedDesc(res, pDesc.value, desc)
    ensures (res.dimension != DimBuffer && pDesc.Some? && CompatibleDimension(res.dimension, pDesc.value.dimension)
             && HasBit(res.bindFlags, BindRenderTarget)) ==>
      (wantView ==> hr == S_OK) && (!wantView ==> hr == S_FALSE)
    ensures pDesc.None? && res.dimension != DimBuffer && HasBit(res.bindFlags, BindRenderTarget) && res.dimension != DimUnknown ==>
      (wantView ==> hr == S_OK) && (!wantView ==> hr == S_FALSE)
  {
    desc := ViewDesc(FormatUnknown, ViewUnknown, 0, 0, 0);
    info := None;
    if res.dimension == DimBuffer {
      return S_OK, desc, None;
    }
    var dhr;
    if pDesc.None? {
      dhr, desc := GetDescFromResource(res, desc);
      if Failed(dhr) {
        return E_INVALIDARG, desc, None;
      }
    } else {
      dhr, desc := NormalizeDesc(res, pDesc.value);
      if Failed(dhr) {
        return E_INVALIDARG, desc, None;
      }
    }
    if !HasBit(res.bindFlags, BindRenderTarget) {
      return E_INVALIDARG, desc, None;
    }
    var viewInfo := RtvViewInfo(desc);
    if viewInfo.None? {
      return E_INVALIDARG, desc, None;
    }
    if !wantView {
      return S_FALSE, desc, None;
    }
    return S_OK, desc, viewInfo;
  }

  /**
   * `CreateDepthStencilView` after its descriptor has been derived or
   * normalised (`desc`, or `None` when that failed): the texture must be
   * bindable as a depth-stencil target and the dimension must map to an
   * image view; a null output pointer gets S_FALSE.
   */
  function CreateDepthStencilViewInfo(res: Resource, desc: Option<ViewDesc>, wantView: bool): (r: (HResult, Option<ViewInfo>))
    ensures desc.None? || !HasBit(res.bindFlags, BindDepthStencil) ==> r == (E_INVALIDARG, None)
    ensures r.1.Some? ==> r.0 == S_OK && desc.Some? && r.1 == DsvViewInfo(desc.value)
    ensures desc.Some? && desc.value.dimension == ViewTexture3D ==> r.0 == E_INVALIDARG
    ensures desc.Some? && HasBit(res.bindFlags, BindDepthStencil) && DsvViewInfo(desc.value).Some? ==>
      r.0 == (if wantView then S_OK else S_FALSE)
  {
    if desc.None? || !HasBit(res.bindFlags, BindDepthStencil) then (E_INVALIDARG, None)
    else
      var info := DsvViewInfo(desc.value);
      if info.None? then (E_INVALIDARG, None)
      else if !wantView then (S_FALSE, None)
      else (S_OK, info)
  }
}
