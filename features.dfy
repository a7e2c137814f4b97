/**
 * The Vulkan device features a D3D10 feature level needs, the feature
 * level ceiling taken from the environment, and the support check built
 * from the two.
 */
module Features {
  import opened Common

  // D3D10_FEATURE_LEVEL1 values.
  const Level9_1: nat := 0x9100
  const Level9_2: nat := 0x9200
  const Level9_3: nat := 0x9300
  const Level10_0: nat := 0xa000
  const Level10_1: nat := 0xa100

  /** The subset of VkPhysicalDeviceFeatures the D3D10 device enables. */
  datatype DeviceFeatures = DeviceFeatures(
    depthClamp: bool, depthBiasClamp: bool, fillModeNonSolid: bool, pipelineStatisticsQuery: bool,
    sampleRateShading: bool, samplerAnisotropy: bool, shaderClipDistance: bool, shaderCullDistance: bool,
    robustBufferAccess: bool, occlusionQueryPrecise: bool, multiViewport: bool, independentBlend: bool,
    fullDrawIndexUint32: bool, fragmentStoresAndAtomics: bool, geometryShader: bool, logicOp: bool,
    shaderImageGatherExtended: bool, textureCompressionBC: bool, dualSrcBlend: bool, imageCubeArray: bool)

  const NoFeatures := DeviceFeatures(
    false, false, false, false, false, false, false, false, false, false,
    false, false, false, false, false, false, false, false, false, false)

  /** Every feature enabled in `a` is enabled in `b`. */
  predicate Within(a: DeviceFeatures, b: DeviceFeatures) {
    (a.depthClamp ==> b.depthClamp) && (a.depthBiasClamp ==> b.depthBiasClamp)
    && (a.fillModeNonSolid ==> b.fillModeNonSolid) && (a.pipelineStatisticsQuery ==> b.pipelineStatisticsQuery)
    && (a.sampleRateShading ==> b.sampleRateShading) && (a.samplerAnisotropy ==> b.samplerAnisotropy)
    && (a.shaderClipDistance ==> b.shaderClipDistance) && (a.shaderCullDistance ==> b.shaderCullDistance)
    && (a.robustBufferAccess ==> b.robustBufferAccess) && (a.occlusionQueryPrecise ==> b.occlusionQueryPrecise)
    && (a.multiViewport ==> b.multiViewport) && (a.independentBlend ==> b.independentBlend)
    && (a.fullDrawIndexUint32 ==> b.fullDrawIndexUint32) && (a.fragmentStoresAndAtomics ==> b.fragmentStoresAndAtomics)
    && (a.geometryShader ==> b.geometryShader) && (a.logicOp ==> b.logicOp)
    && (a.shaderImageGatherExtended ==> b.shaderImageGatherExtended)
    && (a.textureCompressionBC ==> b.textureCompressionBC)
    && (a.dualSrcBlend ==> b.dualSrcBlend) && (a.imageCubeArray ==> b.imageCubeArray)
  }

  /**
   * The features enabled for `level`, each turned on from the first level
   * that needs it; pipeline statistics and logic ops only where the
   * adapter offers them.
   */
  function GetDeviceFeatures(supported: DeviceFeatures, level: nat): (r: DeviceFeatures)
    ensures level < Level9_1 ==> r == NoFeatures
    ensures r.pipelineStatisticsQuery ==> supported.pipelineStatisticsQuery
    ensures r.logicOp ==> supported.logicOp
    ensures level >= Level10_1 ==> r.dualSrcBlend && r.imageCubeArray && r.geometryShader && r.multiViewport
  {
    var l91 := level >= Level9_1;
    var l100 := level >= Level10_0;
    DeviceFeatures(
      depthClamp := l91, depthBiasClamp := l91, fillModeNonSolid := l91,
      pipelineStatisticsQuery := l91 && supported.pipelineStatisticsQuery,
      sampleRateShading := l91, samplerAnisotropy := l91, shaderClipDistance := l91,
      shaderCullDistance := l91, robustBufferAccess := l91,
      occlusionQueryPrecise := level >= Level9_2,
      multiViewport := level >= Level9_3, independentBlend := level >= Level9_3,
      fullDrawIndexUint32 := l100, fragmentStoresAndAtomics := l100, geometryShader := l100,
      logicOp := l100 && supported.logicOp,
      shaderImageGatherExtended := l100, textureCompressionBC := l100,
      dualSrcBlend := level >= Level10_1, imageCubeArray := level >= Level10_1)
  }

  /** Raising the feature level only ever adds features. */
  lemma FeaturesCumulative(supported: DeviceFeatures, lower: nat, higher: nat)
    requires lower <= higher
    ensures Within(GetDeviceFeatures(supported, lower), GetDeviceFeatures(supported, higher))
  {
  }

  /** An adapter offering more never loses a feature at any level. */
  lemma FeaturesGrowWithAdapter(smaller: DeviceFeatures, larger: DeviceFeatures, level: nat)
    requires Within(smaller, larger)
    ensures Within(GetDeviceFeatures(smaller, level), GetDeviceFeatures(larger, level))
  {
  }

  /** The accepted values of the DXVK_FEATURE_LEVEL variable, in the order they are searched. */
  const LevelNames: seq<(string, nat)> := [
    ("10_1", Level10_1), ("10_0", Level10_0), ("9_3", Level9_3), ("9_2", Level9_2), ("9_1", Level9_1)]

  /** The first entry of `table` named `name`, if any. */
  function FindLevel(table: seq<(string, nat)>, name: string): (r: Option<nat>)
    ensures r.Some? <==> exists k :: 0 <= k < |table| && table[k].0 == name
    ensures r.Some? ==> exists k :: 0 <= k < |table| && table[k].0 == name && table[k].1 == r.value
  {
    if table == [] then None
    else if table[0].0 == name then Some(table[0].1)
    else
      var rest := FindLevel(table[1..], name);
      assert forall k :: 0 < k < |table| ==> table[k] == table[1..][k - 1];
      rest
  }

  /**
   * The highest level the device exposes, read from the DXVK_FEATURE_LEVEL
   * variable (given here as `env`); 10_0 when it is unset or unrecognised.
   */
  function GetMaxFeatureLevel(env: string): (r: nat)
    ensures r in {Level9_1, Level9_2, Level9_3, Level10_0, Level10_1}
    ensures (forall k :: 0 <= k < |LevelNames| ==> LevelNames[k].0 != env) ==> r == Level10_0
  {
    match FindLevel(LevelNames, env)
    case Some(level) => level
    case None => Level10_0
  }

  /** A level whose name is written in the variable becomes the ceiling. */
  lemma MaxFeatureLevelNamed(k: nat)
    requires k < |LevelNames|
    ensures GetMaxFeatureLevel(LevelNames[k].0) == LevelNames[k].1
  {
    var name := LevelNames[k].0;
    assert forall m :: 0 <= m < |LevelNames| && m != k ==> LevelNames[m].0 != name;
  }

  /**
   * Whether a level can be created: not above the ceiling, and the adapter
   * accepts its feature set (`adapterAccepts` stands for the adapter's own
   * check). No level above 10_1 is ever supported.
   */
  function CheckFeatureLevelSupport(level: nat, env: string, supported: DeviceFeatures, adapterAccepts: DeviceFeatures -> bool): (r: bool)
    ensures level > GetMaxFeatureLevel(env) ==> !r
    ensures r ==> level <= Level10_1 && adapterAccepts(GetDeviceFeatures(supported, level))
    ensures level <= Level9_1 ==> (r <==> adapterAccepts(GetDeviceFeatures(supported, level)))
  {
    level <= GetMaxFeatureLevel(env) && adapterAccepts(GetDeviceFeatures(supported, level))
  }

  /**
   * With an adapter that accepts exactly the feature sets it offers,
   * support is downward closed: a supported level makes every lower level
   * supported.
   */
  lemma SupportDownwardClosed(env: string, supported: DeviceFeatures, lower: nat, higher: nat)
    requires lower <= higher
    requires CheckFeatureLevelSupport(higher, env, supported, f => Within(f, supported))
    ensures CheckFeatureLevelSupport(lower, env, supported, f => Within(f, supported))
  {
    FeaturesCumulative(supported, lower, higher);
  }
}
