/**
 * `DxgiOutput::GetDisplayModeList1` on the Win32 and the SDL2 platform, and
 * the SDL2 `GetMonitorNameAndSize`. The display modes the operating system
 * enumerates are an input sequence; the list the application receives is
 * the matching modes, ordered by width, height and integer refresh rate,
 * copied out up to the caller's capacity.
 */
module DisplayModes {
  import opened Common

  /** DXGI_FORMAT_UNKNOWN. */
  const FormatUnknown: nat := 0

  datatype Rational = Rational(numerator: nat, denominator: nat)

  datatype ScanlineOrder = ScanlineUnspecified | ScanlineProgressive | ScanlineUpperFieldFirst | ScanlineLowerFieldFirst

  datatype Scaling = ScalingUnspecified | ScalingCentered | ScalingStretched

  /** DXGI_MODE_DESC1. */
  datatype ModeDesc = ModeDesc(
    width: nat, height: nat, refreshRate: Rational, format: nat,
    scanlineOrdering: ScanlineOrder, scaling: Scaling, stereo: bool)

  /** Every refresh rate in `s` has a non-zero denominator, so the comparator may divide by it. */
  predicate Rated(s: seq<ModeDesc>) {
    forall k :: 0 <= k < |s| ==> s[k].refreshRate.denominator > 0
  }

  function RefreshQuotient(r: Rational): nat
    requires r.denominator > 0
  {
    r.numerator / r.denominator
  }

  /** The sort comparator: width, then height, then the integer quotient of the refresh rate. */
  predicate ModeLess(a: ModeDesc, b: ModeDesc)
    requires a.refreshRate.denominator > 0 && b.refreshRate.denominator > 0
  {
    if a.width < b.width then true
    else if a.width > b.width then false
    else if a.height < b.height then true
    else if a.height > b.height then false
    else RefreshQuotient(a.refreshRate) < RefreshQuotient(b.refreshRate)
  }

  /** No entry compares less than an entry before it. */
  predicate SortedModes(s: seq<ModeDesc>)
    requires Rated(s)
  {
    forall m, n :: 0 <= m < n < |s| ==> !ModeLess(s[n], s[m])
  }

  /** `d` inserted before the first entry it does not follow. */
  function InsertMode(s: seq<ModeDesc>, d: ModeDesc): (r: seq<ModeDesc>)
    requires Rated(s) && d.refreshRate.denominator > 0
    ensures multiset(r) == multiset(s) + multiset{d}
    ensures |r| == |s| + 1
    decreases |s|
  {
    if s == [] then [d]
    else if !ModeLess(s[0], d) then [d] + s
    else
      assert s == [s[0]] + s[1..];
      [s[0]] + InsertMode(s[1..], d)
  }

  lemma InsertModeRated(s: seq<ModeDesc>, d: ModeDesc)
    requires Rated(s) && d.refreshRate.denominator > 0
    ensures Rated(InsertMode(s, d))
  {
    var r := InsertMode(s, d);
    forall k | 0 <= k < |r|
      ensures r[k].refreshRate.denominator > 0
    {
      assert r[k] in multiset(r);
      if r[k] != d {
        assert r[k] in multiset(s);
      }
    }
  }

  /** Inserting an entry that does not precede `lo` into entries that do not keeps that true. */
  lemma InsertModeAbove(s: seq<ModeDesc>, d: ModeDesc, lo: ModeDesc)
    requires Rated(s) && d.refreshRate.denominator > 0 && lo.refreshRate.denominator > 0
    requires !ModeLess(d, lo) && forall k :: 0 <= k < |s| ==> !ModeLess(s[k], lo)
    ensures Rated(InsertMode(s, d))
    ensures forall k :: 0 <= k < |InsertMode(s, d)| ==> !ModeLess(InsertMode(s, d)[k], lo)
  {
    InsertModeRated(s, d);
    var r := InsertMode(s, d);
    forall k | 0 <= k < |r|
      ensures !ModeLess(r[k], lo)
    {
      assert r[k] in multiset(r);
      if r[k] != d {
        assert r[k] in multiset(s);
        var q :| 0 <= q < |s| && s[q] == r[k];
      }
    }
  }

  /** Inserting into an ordered list keeps it ordered. */
  lemma {:induction false} InsertModeSorted(s: seq<ModeDesc>, d: ModeDesc)
    requires Rated(s) && d.refreshRate.denominator > 0 && SortedModes(s)
    ensures Rated(InsertMode(s, d)) && SortedModes(InsertMode(s, d))
    decreases |s|
  {
    InsertModeRated(s, d);
    if s != [] && ModeLess(s[0], d) {
      var tail := s[1..];
      InsertModeSorted(tail, d);
      forall q | 0 <= q < |tail|
        ensures !ModeLess(tail[q], s[0])
      {
        assert tail[q] == s[q + 1];
      }
      InsertModeAbove(tail, d, s[0]);
      var rest := InsertMode(tail, d);
      var r := InsertMode(s, d);
      assert r == [s[0]] + rest;
      forall m, n | 0 <= m < n < |r|
        ensures !ModeLess(r[n], r[m])
      {
        if m > 0 {
          assert r[m] == rest[m - 1] && r[n] == rest[n - 1];
        } else {
          assert r[n] == rest[n - 1];
        }
      }
    } else if s != [] {
      var r := InsertMode(s, d);
      forall m, n | 0 <= m < n < |r|
        ensures !ModeLess(r[n], r[m])
      {
        if m == 0 {
          assert !ModeLess(s[n - 1], s[0]);
        }
      }
    }
  }

  /**
   * The mode list as `std::sort` leaves it with the comparator above:
   * ordered, and a permutation of its input.
   */
  function SortModes(s: seq<ModeDesc>): (r: seq<ModeDesc>)
    requires Rated(s)
    ensures Rated(r) && SortedModes(r) && multiset(r) == multiset(s)
    decreases |s|
  {
    if s == [] then []
    else
      assert s == s[..|s| - 1] + [s[|s| - 1]];
      var front := SortModes(s[..|s| - 1]);
      InsertModeSorted(front, s[|s| - 1]);
      InsertMode(front, s[|s| - 1])
  }

  // ---------------------------------------------------------------------
  // Win32: EnumDisplaySettingsW

  /** The DEVMODEW fields the Win32 enumeration reads. */
  datatype Win32Mode = Win32Mode(width: nat, height: nat, bitsPerPel: nat, frequency: nat, interlaced: bool)

  /** A Win32 mode is listed when it is progressive and has the format's bit depth. */
  predicate Win32Keeps(m: Win32Mode, bpp: nat) {
    !m.interlaced && m.bitsPerPel == bpp
  }

  /** The DXGI_MODE_DESC1 reported for a Win32 mode. */
  function Win32Desc(m: Win32Mode, format: nat): ModeDesc {
    ModeDesc(m.width, m.height, Rational(U32(m.frequency * 1000), 1000), format,
      ScanlineProgressive, ScalingUnspecified, false)
  }

  /** The modes of `ms` the enumeration keeps, in enumeration order. */
  function Win32Matching(ms: seq<Win32Mode>, bpp: nat): (r: seq<Win32Mode>)
    ensures |r| <= |ms|
  {
    if ms == [] then []
    else
      var front := Win32Matching(ms[..|ms| - 1], bpp);
      if Win32Keeps(ms[|ms| - 1], bpp) then front + [ms[|ms| - 1]] else front
  }

  /** The filter keeps exactly the progressive modes of the right depth, each as often as it occurs. */
  lemma {:induction false} Win32MatchingExact(ms: seq<Win32Mode>, bpp: nat)
    ensures forall m :: multiset(Win32Matching(ms, bpp))[m] == if Win32Keeps(m, bpp) then multiset(ms)[m] else 0
  {
    if ms != [] {
      var front := ms[..|ms| - 1];
      Win32MatchingExact(front, bpp);
      assert ms == front + [ms[|ms| - 1]];
    }
  }

  function Win32Descs(ms: seq<Win32Mode>, format: nat): (r: seq<ModeDesc>)
    ensures |r| == |ms|
    ensures forall k :: 0 <= k < |r| ==> r[k] == Win32Desc(ms[k], format)
  {
    if ms == [] then [] else Win32Descs(ms[..|ms| - 1], format) + [Win32Desc(ms[|ms| - 1], format)]
  }

  /**
   * The enumeration loop: walks the operating system's modes, skipping
   * interlaced ones and those of another depth, and counts (and, when a
   * list is wanted, describes) the rest.
   */
  method EnumerateWin32(osModes: seq<Win32Mode>, bpp: nat, format: nat, wantList: bool)
    returns (modeList: seq<ModeDesc>, count: nat)
    ensures count == |Win32Matching(osModes, bpp)|
    ensures modeList == if wantList then Win32Descs(Win32Matching(osModes, bpp), format) else []
  {
    var src := 0;
    count := 0;
    modeList := [];
    while src < |osModes|
      invariant src <= |osModes|
      invariant count == |Win32Matching(osModes[..src], bpp)|
      invariant modeList == if wantList then Win32Descs(Win32Matching(osModes[..src], bpp), format) else []
    {
      var m := osModes[src];
      assert osModes[..src + 1][..src] == osModes[..src];
      src := src + 1;
      if m.interlaced {
        continue;
      }
      if m.bitsPerPel != bpp {
        continue;
      }
      if wantList {
        modeList := modeList + [Win32Desc(m, format)];
      }
      count := count + 1;
    }
    assert osModes[..src] == osModes;
  }

  /**
   * The copy-out both platforms share: the first min(capacity, count)
   * sorted modes go to `pDesc`; MORE_DATA when they do not all fit,
   * otherwise the count is reported.
   */
  method CopyOutModes(modeList: seq<ModeDesc>, count: nat, capacity: nat, pDesc: array?<ModeDesc>)
    returns (hr: HResult, numModesOut: nat)
    requires pDesc != null ==> |modeList| == count && capacity <= pDesc.Length
    modifies pDesc
    ensures pDesc != null ==> pDesc[..] == modeList[..Min(capacity, count)] + old(pDesc[..])[Min(capacity, count)..]
    ensures hr == if pDesc != null && count > capacity then DXGI_ERROR_MORE_DATA else S_OK
    ensures numModesOut == if hr == DXGI_ERROR_MORE_DATA then capacity else count
  {
    if pDesc != null {
      var i := 0;
      while i < capacity && i < count
        invariant i <= Min(capacity, count)
        invariant forall k :: 0 <= k < i ==> pDesc[k] == modeList[k]
        invariant forall k :: i <= k < pDesc.Length ==> pDesc[k] == old(pDesc[k])
      {
        pDesc[i] := modeList[i];
        i := i + 1;
      }
      assert pDesc[..] == modeList[..i] + old(pDesc[..])[i..];
      if count > capacity {
        return DXGI_ERROR_MORE_DATA, capacity;
      }
    }
    return S_OK, count;
  }

  /** What `GetDisplayModeList1` hands back for a list of matching modes, before the copy-out. */
  function ListedModes(descs: seq<ModeDesc>): (r: seq<ModeDesc>)
    requires Rated(descs)
    ensures |r| == |descs|
  {
    var sorted := SortModes(descs);
    assert |sorted| == |multiset(sorted)| == |multiset(descs)| == |descs|;
    sorted
  }

  lemma Win32DescsRated(ms: seq<Win32Mode>, format: nat)
    ensures Rated(Win32Descs(ms, format))
  {
  }

  /**
   * Win32 `GetDisplayModeList1`. `numModes` is *pNumModes (None for a null
   * pointer), `monitorInfoOk` whether GetMonitorInfoW succeeds, `osModes`
   * what EnumDisplaySettingsW enumerates and `bpp` the format's
   * GetMonitorFormatBpp. Returns the HRESULT and the new *pNumModes.
   */
  method GetDisplayModeList1Win32(enumFormat: nat, numModes: Option<nat>, pDesc: array?<ModeDesc>,
                                  monitorInfoOk: bool, osModes: seq<Win32Mode>, bpp: nat)
    returns (hr: HResult, numModesOut: Option<nat>)
    requires pDesc != null && numModes.Some? ==> numModes.value <= pDesc.Length
    modifies pDesc
    ensures numModes.None? ==> hr == DXGI_ERROR_INVALID_CALL && numModesOut == None
    ensures numModes.Some? && enumFormat == FormatUnknown ==> hr == S_OK && numModesOut == Some(0)
    ensures numModes.Some? && enumFormat != FormatUnknown && !monitorInfoOk ==> hr == E_FAIL && numModesOut == numModes
    ensures (numModes.None? || enumFormat == FormatUnknown || !monitorInfoOk) && pDesc != null ==> pDesc[..] == old(pDesc[..])
    ensures numModes.Some? && enumFormat != FormatUnknown && monitorInfoOk ==>
      var matching := Win32Matching(osModes, bpp);
      var listed := (Win32DescsRated(matching, enumFormat); ListedModes(Win32Descs(matching, enumFormat)));
      var n := Min(numModes.value, |matching|);
      && hr == (if pDesc != null && |matching| > numModes.value then DXGI_ERROR_MORE_DATA else S_OK)
      && numModesOut == Some(if hr == DXGI_ERROR_MORE_DATA then numModes.value else |matching|)
      && (pDesc != null ==> pDesc[..] == listed[..n] + old(pDesc[..])[n..])
  {
    if numModes.None? {
      return DXGI_ERROR_INVALID_CALL, None;
    }
    if enumFormat == FormatUnknown {
      return S_OK, Some(0);
    }
    if !monitorInfoOk {
      return E_FAIL, numModes;
    }
    var modeList, count := EnumerateWin32(osModes, bpp, enumFormat, pDesc != null);
    Win32DescsRated(Win32Matching(osModes, bpp), enumFormat);
    if pDesc != null {
      modeList := ListedModes(modeList);
    }
    var n;
    hr, n := CopyOutModes(modeList, count, numModes.value, pDesc);
    numModesOut := Some(n);
  }

  /**
   * Every listed Win32 mode describes a kept operating-system mode: the
   * requested format, progressive, unscaled, not stereo, and a refresh
   * rate of the mode's frequency times 1000 over 1000.
   */
  lemma Win32ListedModesFacts(osModes: seq<Win32Mode>, bpp: nat, format: nat)
    ensures var matching := Win32Matching(osModes, bpp);
      var listed := (Win32DescsRated(matching, format); ListedModes(Win32Descs(matching, format)));
      forall k :: 0 <= k < |listed| ==> Win32Listed(listed[k], osModes, bpp, format)
  {
    var matching := Win32Matching(osModes, bpp);
    Win32DescsRated(matching, format);
    var descs := Win32Descs(matching, format);
    var listed := ListedModes(descs);
    forall k | 0 <= k < |listed|
      ensures Win32Listed(listed[k], osModes, bpp, format)
    {
      assert listed[k] in multiset(listed);
      assert listed[k] in multiset(descs);
      var j :| 0 <= j < |descs| && descs[j] == listed[k];
      Win32MatchingKept(osModes, bpp, j);
    }
  }

  /** `d` describes a mode of `osModes` that the Win32 filter keeps. */
  predicate Win32Listed(d: ModeDesc, osModes: seq<Win32Mode>, bpp: nat, format: nat) {
    exists m :: m in osModes && Win32Keeps(m, bpp) && d == Win32Desc(m, format)
  }

  lemma Win32MatchingKept(osModes: seq<Win32Mode>, bpp: nat, j: nat)
    requires j < |Win32Matching(osModes, bpp)|
    ensures var m := Win32Matching(osModes, bpp)[j]; m in osModes && Win32Keeps(m, bpp)
  {
    var matching := Win32Matching(osModes, bpp);
    var m := matching[j];
    Win32MatchingExact(osModes, bpp);
    assert m in multiset(matching);
    assert multiset(osModes)[m] > 0;
  }

  // ---------------------------------------------------------------------
  // SDL2: SDL_GetDisplayMode

  /** The SDL_DisplayMode fields the SDL enumeration reads. */
  datatype SdlMode = SdlMode(w: nat, h: nat, format: nat, refreshRate: int)

  /** SDL_BITSPERPIXEL: bits 8 to 15 of the pixel format. */
  function BitsPerPixel(format: nat): nat {
    (format / 256) % 256
  }

  predicate SdlKeeps(m: SdlMode, bpp: nat) {
    BitsPerPixel(m.format) == bpp
  }

  /** The DXGI_MODE_DESC1 reported for an SDL mode; the refresh rate goes through UINT. */
  function SdlDesc(m: SdlMode, format: nat): ModeDesc {
    ModeDesc(m.w, m.h, Rational(U32(U32(m.refreshRate) * 1000), 1000), format,
      ScanlineProgressive, ScalingUnspecified, false)
  }

  function SdlMatching(ms: seq<SdlMode>, bpp: nat): (r: seq<SdlMode>)
    ensures |r| <= |ms|
  {
    if ms == [] then []
    else
      var front := SdlMatching(ms[..|ms| - 1], bpp);
      if SdlKeeps(ms[|ms| - 1], bpp) then front + [ms[|ms| - 1]] else front
  }

  /** The SDL filter keeps exactly the modes of the right depth; there is no interlace test. */
  lemma {:induction false} SdlMatchingExact(ms: seq<SdlMode>, bpp: nat)
    ensures forall m :: multiset(SdlMatching(ms, bpp))[m] == if SdlKeeps(m, bpp) then multiset(ms)[m] else 0
  {
    if ms != [] {
      var front := ms[..|ms| - 1];
      SdlMatchingExact(front, bpp);
      assert ms == front + [ms[|ms| - 1]];
    }
  }

  function SdlDescs(ms: seq<SdlMode>, format: nat): (r: seq<ModeDesc>)
    ensures |r| == |ms|
    ensures forall k :: 0 <= k < |r| ==> r[k] == SdlDesc(ms[k], format)
  {
    if ms == [] then [] else SdlDescs(ms[..|ms| - 1], format) + [SdlDesc(ms[|ms| - 1], format)]
  }

  lemma SdlDescsRated(ms: seq<SdlMode>, format: nat)
    ensures Rated(SdlDescs(ms, format))
  {
  }

  /** SDL_GetDisplayMode: 0 and the mode for an index the display has, a negative error otherwise. */
  function GetDisplayMode(modes: seq<SdlMode>, index: nat): (r: (int, Option<SdlMode>))
    ensures r.0 == 0 <==> index < |modes|
    ensures r.1.Some? <==> r.0 == 0
  {
    if index < |modes| then (0, Some(modes[index])) else (-1, None)
  }

  /**
   * The SDL enumeration loop as written: it continues while
   * SDL_GetDisplayMode returns non-zero, that is while the call FAILS.
   * `fuel` bounds the calls made, since the loop need not stop; `stopped`
   * says whether it left by its own condition.
   */
  method EnumerateSdlAsWritten(modes: seq<SdlMode>, bpp: nat, format: nat, wantList: bool, fuel: nat)
    returns (modeList: seq<ModeDesc>, count: nat, stopped: bool)
    ensures |modes| > 0 && fuel > 0 ==> stopped && count == 0 && modeList == []
    ensures |modes| == 0 ==> !stopped
  {
    var src := 0;
    count := 0;
    modeList := [];
    stopped := false;
    var devMode := SdlMode(0, 0, 0, 0);
    var calls := 0;
    while calls < fuel
      invariant calls <= fuel && src == calls
      invariant calls == 0 ==> count == 0 && modeList == [] && !stopped
      invariant |modes| == 0 ==> !stopped
      invariant |modes| > 0 && calls > 0 ==> stopped && count == 0 && modeList == []
      decreases fuel - calls
    {
      var (status, got) := GetDisplayMode(modes, src);
      src := src + 1;
      calls := calls + 1;
      if got.Some? {
        devMode := got.value;
      }
      if status == 0 {
        stopped := true;
        break;
      }
      if BitsPerPixel(devMode.format) != bpp {
        continue;
      }
      if wantList {
        modeList := modeList + [SdlDesc(devMode, format)];
      }
      count := count + 1;
    }
  }

  /** The SDL enumeration loop as evidently intended: it continues while SDL_GetDisplayMode succeeds. */
  method EnumerateSdl(modes: seq<SdlMode>, bpp: nat, format: nat, wantList: bool)
    returns (modeList: seq<ModeDesc>, count: nat)
    ensures count == |SdlMatching(modes, bpp)|
    ensures modeList == if wantList then SdlDescs(SdlMatching(modes, bpp), format) else []
  {
    var src := 0;
    count := 0;
    modeList := [];
    while src < |modes|
      invariant src <= |modes|
      invariant count == |SdlMatching(modes[..src], bpp)|
      invariant modeList == if wantList then SdlDescs(SdlMatching(modes[..src], bpp), format) else []
    {
      var (status, got) := GetDisplayMode(modes, src);
      var m := got.value;
      assert modes[..src + 1][..src] == modes[..src];
      src := src + 1;
      if BitsPerPixel(m.format) != bpp {
        continue;
      }
      if wantList {
        modeList := modeList + [SdlDesc(m, format)];
      }
      count := count + 1;
    }
    assert modes[..src] == modes;
  }

  /** A display with a mode of the requested depth lists at least one mode. */
  lemma SdlModeOfDepthListed(modes: seq<SdlMode>, bpp: nat, k: nat)
    requires k < |modes| && SdlKeeps(modes[k], bpp)
    ensures |SdlMatching(modes, bpp)| >= 1
  {
    SdlMatchingExact(modes, bpp);
    assert modes[k] in multiset(modes);
    assert multiset(SdlMatching(modes, bpp))[modes[k]] >= 1;
  }

  /**
   * SDL2 `GetDisplayModeList1`, with the enumeration loop corrected.
   * `modes` is what SDL_GetDisplayMode reports for the display and `bpp`
   * the format's GetMonitorFormatBpp.
   */
  method GetDisplayModeList1Sdl(enumFormat: nat, numModes: Option<nat>, pDesc: array?<ModeDesc>,
                                modes: seq<SdlMode>, bpp: nat)
    returns (hr: HResult, numModesOut: Option<nat>)
    requires pDesc != null && numModes.Some? ==> numModes.value <= pDesc.Length
    modifies pDesc
    ensures numModes.None? ==> hr == DXGI_ERROR_INVALID_CALL && numModesOut == None
    ensures numModes.Some? && enumFormat == FormatUnknown ==> hr == S_OK && numModesOut == Some(0)
    ensures (numModes.None? || enumFormat == FormatUnknown) && pDesc != null ==> pDesc[..] == old(pDesc[..])
    ensures numModes.Some? && enumFormat != FormatUnknown ==>
      var matching := SdlMatching(modes, bpp);
      var listed := (SdlDescsRated(matching, enumFormat); ListedModes(SdlDescs(matching, enumFormat)));
      var n := Min(numModes.value, |matching|);
      && hr == (if pDesc != null && |matching| > numModes.value then DXGI_ERROR_MORE_DATA else S_OK)
      && numModesOut == Some(if hr == DXGI_ERROR_MORE_DATA then numModes.value else |matching|)
      && (pDesc != null ==> pDesc[..] == listed[..n] + old(pDesc[..])[n..])
  {
    if numModes.None? {
      return DXGI_ERROR_INVALID_CALL, None;
    }
    if enumFormat == FormatUnknown {
      return S_OK, Some(0);
    }
    var modeList, count := EnumerateSdl(modes, bpp, enumFormat, pDesc != null);
    SdlDescsRated(SdlMatching(modes, bpp), enumFormat);
    if pDesc != null {
      modeList := ListedModes(modeList);
    }
    var n;
    hr, n := CopyOutModes(modeList, count, numModes.value, pDesc);
    numModesOut := Some(n);
  }

  // ---------------------------------------------------------------------
  // SDL2: GetMonitorNameAndSize

  function DigitChar(d: nat): char
    requires d < 10
  {
    "0123456789"[d]
  }

  /** The decimal digits of `n`, most significant first, without leading zeros. */
  function Digits(n: nat): (r: string)
    ensures |r| >= 1
    decreases n
  {
    if n < 10 then [DigitChar(n)] else Digits(n / 10) + [DigitChar(n % 10)]
  }

  /** The value of a string of decimal digits. */
  function DigitsValue(s: string): nat
    decreases |s|
  {
    if s == [] then 0
    else
      var last := s[|s| - 1];
      var d := if '0' <= last <= '9' then (last as int - '0' as int) as nat else 0;
      DigitsValue(s[..|s| - 1]) * 10 + d
  }

  /** Reading the digits back gives the number. */
  lemma {:induction false} DigitsRoundTrip(n: nat)
    ensures DigitsValue(Digits(n)) == n
    decreases n
  {
    if n >= 10 {
      DigitsRoundTrip(n / 10);
      var s := Digits(n);
      assert s[..|s| - 1] == Digits(n / 10);
    }
  }

  function Pow10(k: nat): nat {
    if k == 0 then 1 else 10 * Pow10(k - 1)
  }

  /** A number below 10^k has at most k digits. */
  lemma {:induction false} DigitsLength(n: nat, k: nat)
    requires k >= 1 && n < Pow10(k)
    ensures |Digits(n)| <= k
    decreases k
  {
    if n >= 10 {
      assert n / 10 < Pow10(k - 1);
      DigitsLength(n / 10, k - 1);
    }
  }

  /** std::to_wstring of an int: a minus sign for negatives, then the digits. */
  function DecimalString(n: int): string {
    if n < 0 then "-" + Digits(-n) else Digits(n)
  }

  /** The device name: "\DISPLAY" and the decimal display id. */
  function MonitorName(displayId: int): (r: string)
    ensures |r| > 8 && r[..8] == "\\DISPLAY"
  {
    "\\DISPLAY" + DecimalString(displayId)
  }

  /** Any 32-bit display id gives a name of at most 19 characters, so it and its NUL fit the 32-entry buffer. */
  lemma MonitorNameFits(displayId: int)
    requires -0x8000_0000 <= displayId < 0x8000_0000
    ensures |MonitorName(displayId)| <= 19
  {
    assert Pow10(10) == 10_000_000_000;
    if displayId < 0 {
      DigitsLength(-displayId, 10);
    } else {
      DigitsLength(displayId, 10);
    }
  }

  /**
   * SDL2 `GetMonitorNameAndSize` for display `displayId`: writes the name
   * and a NUL into `output`, then asks SDL for the desktop mode
   * (`desktopMode`, None when SDL_GetDesktopDisplayMode fails) and sets
   * the rectangle to {0, 0, w, h}; on failure the rectangle stays
   * `coordinates`.
   */
  method GetMonitorNameAndSize(displayId: int, output: array<char>, desktopMode: Option<(int, int)>, coordinates: Rect)
    returns (hr: HResult, coordinatesOut: Rect)
    requires output.Length == 32 && -0x8000_0000 <= displayId < 0x8000_0000
    modifies output
    ensures var name := MonitorName(displayId);
      |name| < 32 && output[..|name| + 1] == name + ['\0'] && output[|name| + 1..] == old(output[|name| + 1..])
    ensures desktopMode.None? ==> hr == DXGI_ERROR_INVALID_CALL && coordinatesOut == coordinates
    ensures desktopMode.Some? ==> hr == S_OK && coordinatesOut == Rect(0, 0, desktopMode.value.0, desktopMode.value.1)
  {
    var name := MonitorName(displayId);
    MonitorNameFits(displayId);
    var i := 0;
    while i < |name|
      invariant i <= |name|
      invariant forall k :: 0 <= k < i ==> output[k] == name[k]
      invariant forall k :: i <= k < output.Length ==> output[k] == old(output[k])
    {
      output[i] := name[i];
      i := i + 1;
    }
    output[|name|] := '\0';
    assert output[..|name| + 1] == name + ['\0'];
    assert output[|name| + 1..] == old(output[|name| + 1..]);
    if desktopMode.None? {
      return DXGI_ERROR_INVALID_CALL, coordinates;
    }
    return S_OK, Rect(0, 0, desktopMode.value.0, desktopMode.value.1);
  }

  datatype Rect = Rect(left: int, top: int, right: int, bottom: int)
}
