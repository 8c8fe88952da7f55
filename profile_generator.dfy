/**
 * The table-driven half of the fingerprint generator: the text the parameters
 * are encoded as, and the decoding of the generated components into a
 * browser profile. Each table index the generator derives from a tensor entry
 * x, `int(abs(x) * 10)`, comes in as a natural number, and the canvas and
 * audio hashes come in as strings.
 */
module ProfileGenerator {
  import opened Text

  /** The generation parameters, a dict of strings. */
  type Params = map<string, string>

  /** `params.get(key, default)`. */
  function Get(params: Params, key: string, default: string): string {
    if key in params then params[key] else default
  }

  function Country(params: Params): string { Get(params, "country", "US") }
  function Os(params: Params): string { Get(params, "os", "Windows") }
  function Browser(params: Params): string { Get(params, "browser", "Chrome") }
  function BrowserVersion(params: Params): string { Get(params, "browserVersion", "120") }

  /** The text `encode_params` hands to the tokenizer. */
  function EncodeParams(params: Params): string {
    "country:" + Country(params) + " os:" + Os(params) + " browser:" + Browser(params)
    + " version:" + BrowserVersion(params)
  }

  /** With no parameters the text is the one for country US, os Windows, browser Chrome, version 120. */
  lemma EncodeParamsDefaults()
    ensures EncodeParams(map[]) ==
            EncodeParams(map["country" := "US", "os" := "Windows", "browser" := "Chrome", "browserVersion" := "120"])
  {
  }

  /** Only the four named parameters reach the text. */
  lemma EncodeParamsReadsOnlyItsKeys(params: Params, key: string, value: string)
    requires key !in {"country", "os", "browser", "browserVersion"}
    ensures EncodeParams(params[key := value]) == EncodeParams(params)
  {
  }

  /** Giving a parameter its default value explicitly is the same as leaving it out. */
  lemma EncodeParamsExplicitDefault(params: Params, key: string)
    requires key in {"country", "os", "browser", "browserVersion"}
    ensures var d := if key == "country" then "US" else if key == "os" then "Windows"
                     else if key == "browser" then "Chrome" else "120";
            EncodeParams(params[key := d]) == EncodeParams(params - {key})
  {
  }

  /** The country comes first, right after its label. */
  lemma EncodeParamsStartsWithCountry(params: Params)
    ensures StartsWith(EncodeParams(params), "country:" + Country(params) + " os:")
  {
    var e := EncodeParams(params);
    var p := "country:" + Country(params) + " os:";
    assert e == p + (Os(params) + " browser:" + Browser(params) + " version:" + BrowserVersion(params));
    assert e[..|p|] == p;
  }

  // ---------------------------------------------------------------- WebGL

  /** Which GPU table `decode_webgl` picks. */
  datatype GpuTable = WindowsGpus | MacGpus | LinuxGpus

  /** The Windows table only on an exact (case-folded) `"windows"`; then any name containing `"mac"`. */
  function WebglTable(os: string): GpuTable {
    if Lower(os) == "windows" then WindowsGpus
    else if Contains(Lower(os), "mac") then MacGpus
    else LinuxGpus
  }

  /** The GPU vendors of the tables; `VendorName` is the string reported. */
  datatype GpuVendor = NvidiaCorporation | Amd | Intel | AppleInc | IntelOpenSource

  function VendorName(v: GpuVendor): string {
    match v
    case NvidiaCorporation => "NVIDIA Corporation"
    case Amd => "AMD"
    case Intel => "Intel"
    case AppleInc => "Apple Inc."
    case IntelOpenSource => "Intel Open Source Technology Center"
  }

  /** The GPU renderers of the tables; `RendererName` is the string reported. */
  datatype GpuRenderer =
    | AngleRtx3070 | AngleRx6800 | AngleUhd630
    | AppleM1 | AppleM2 | RadeonPro5500M
    | Gtx1080 | Rx6800 | MesaUhd630

  function RendererName(r: GpuRenderer): string {
    match r
    case AngleRtx3070 => "ANGLE (NVIDIA GeForce RTX 3070 Direct3D11 vs_5_0 ps_5_0)"
    case AngleRx6800 => "ANGLE (AMD Radeon RX 6800 Direct3D11 vs_5_0 ps_5_0)"
    case AngleUhd630 => "ANGLE (Intel(R) UHD Graphics 630 Direct3D11 vs_5_0 ps_5_0)"
    case AppleM1 => "Apple M1"
    case AppleM2 => "Apple M2"
    case RadeonPro5500M => "AMD Radeon Pro 5500M"
    case Gtx1080 => "NVIDIA GeForce GTX 1080/PCIe/SSE2"
    case Rx6800 => "AMD Radeon RX 6800"
    case MesaUhd630 => "Mesa Intel(R) UHD Graphics 630 (CML GT2)"
  }

  function GpuVendors(t: GpuTable): seq<GpuVendor> {
    match t
    case WindowsGpus => [NvidiaCorporation, Amd, Intel]
    case MacGpus => [AppleInc, AppleInc, AppleInc]
    case LinuxGpus => [NvidiaCorporation, Amd, IntelOpenSource]
  }

  function GpuRenderers(t: GpuTable): seq<GpuRenderer> {
    match t
    case WindowsGpus => [AngleRtx3070, AngleRx6800, AngleUhd630]
    case MacGpus => [AppleM1, AppleM2, RadeonPro5500M]
    case LinuxGpus => [Gtx1080, Rx6800, MesaUhd630]
  }

  const WebglExtensions: seq<string> := [
    "ANGLE_instanced_arrays", "EXT_blend_minmax", "EXT_color_buffer_half_float",
    "EXT_texture_filter_anisotropic", "WEBGL_compressed_texture_s3tc",
    "WEBGL_debug_renderer_info", "WEBGL_depth_texture", "WEBGL_draw_buffers"]

  /** The first four of the extensions. */
  const SupportedExtensions: seq<string> := [
    "ANGLE_instanced_arrays", "EXT_blend_minmax", "EXT_color_buffer_half_float",
    "EXT_texture_filter_anisotropic"]

  /** The WebGL dict; the GPU entries are kept as table entries, reported through their names. */
  datatype Webgl = Webgl(
    vendor: string,
    renderer: GpuRenderer,
    version: string,
    shadingLanguageVersion: string,
    unmaskedVendor: GpuVendor,
    unmaskedRenderer: GpuRenderer,
    extensions: seq<string>,
    supportedExtensions: seq<string>,
    maxTextureSize: int,
    maxViewportDims: seq<int>,
    maxRenderbufferSize: int,
    aliasedLineWidthRange: seq<int>,
    aliasedPointSizeRange: seq<int>)

  /** `min(gpu_index, len(vendors) - 1)` with `gpu_index = k % 5`: rows 3 and 4 fold onto row 2. */
  function VendorIndex(k: nat): (i: nat)
    ensures i < 3
    ensures i == k % 5 || (i == 2 && k % 5 >= 2)
  {
    var gpu := k % 5;
    if gpu < 2 then gpu else 2
  }

  /**
   * `decode_webgl`: one row of the chosen GPU table, shown both as the
   * renderer and as the unmasked renderer, behind the fixed vendor "WebKit".
   */
  function DecodeWebgl(k: nat, params: Params): (w: Webgl)
    ensures w.vendor == "WebKit" && w.renderer == w.unmaskedRenderer
    ensures var t := WebglTable(Os(params));
            w.unmaskedVendor == GpuVendors(t)[VendorIndex(k)] && w.unmaskedRenderer == GpuRenderers(t)[VendorIndex(k)]
  {
    var t := WebglTable(Os(params));
    var i := VendorIndex(k);
    Webgl("WebKit", GpuRenderers(t)[i], "WebGL 1.0", "WebGL GLSL ES 1.0",
          GpuVendors(t)[i], GpuRenderers(t)[i],
          WebglExtensions, SupportedExtensions,
          16384, [16384, 16384], 16384, [1, 1], [1, 1024])
  }

  /** A Mac profile reports an Apple GPU vendor whatever the index. */
  lemma MacWebglIsApple(k: nat, params: Params)
    requires Lower(Os(params)) != "windows" && Contains(Lower(Os(params)), "mac")
    ensures DecodeWebgl(k, params).unmaskedVendor == AppleInc
  {
  }

  /** The Apple vendor name does not mention NVIDIA, in any case. */
  lemma AppleVendorIsNotNvidia()
    ensures !Contains(Lower(VendorName(AppleInc)), "nvidia")
  {
    var v := Lower(VendorName(AppleInc));
    LowerChars(VendorName(AppleInc));
    assert |v| == 10;
    assert v[0] == 'a' && v[1] == 'p' && v[2] == 'p' && v[3] == 'l' && v[4] == 'e';
    NotContainsByFirstChar(v, "nvidia");
  }

  // ------------------------------------------------------------- hardware

  const CoresOptions: seq<int> := [4, 6, 8, 12, 16]
  const MemoryOptions: seq<int> := [4, 8, 16, 32]

  /** The platform and user-agent OS segment both follow one substring test on the case-folded OS. */
  datatype OsFamily = WindowsOs | MacOs | LinuxOs

  function HardwareFamily(os: string): OsFamily {
    if Contains(Lower(os), "windows") then WindowsOs
    else if Contains(Lower(os), "mac") then MacOs
    else LinuxOs
  }

  function PlatformName(f: OsFamily): string {
    match f
    case WindowsOs => "Win32"
    case MacOs => "MacIntel"
    case LinuxOs => "Linux x86_64"
  }

  function OsSegment(f: OsFamily): string {
    match f
    case WindowsOs => "Windows NT 10.0; Win64; x64"
    case MacOs => "Macintosh; Intel Mac OS X 10_15_7"
    case LinuxOs => "X11; Linux x86_64"
  }

  const UserAgentHead: string := "Mozilla/5.0 ("
  const UserAgentMiddle: string := ") AppleWebKit/537.36 (KHTML, like Gecko) Chrome/"
  const UserAgentTail: string := ".0.0.0 Safari/537.36"

  /** What comes before the browser version in the user agent. */
  function UserAgentPrefix(f: OsFamily): string {
    UserAgentHead + OsSegment(f) + UserAgentMiddle
  }

  datatype Hardware = Hardware(
    platform: string,
    hardwareConcurrency: int,
    deviceMemory: int,
    maxTouchPoints: int,
    userAgent: string,
    language: string,
    languages: seq<string>,
    timezone: string,
    timezoneOffset: int)

  /**
   * `decode_hardware`: core count and memory from their tables, platform and
   * user agent from the OS, and the browser version inside the user agent.
   */
  function DecodeHardware(coresK: nat, memoryK: nat, params: Params): (h: Hardware)
    ensures h.hardwareConcurrency in {4, 6, 8, 12, 16}
    ensures h.deviceMemory in {4, 8, 16, 32}
    ensures h.platform == PlatformName(HardwareFamily(Os(params)))
    ensures h.userAgent == UserAgentPrefix(HardwareFamily(Os(params))) + BrowserVersion(params) + UserAgentTail
  {
    var f := HardwareFamily(Os(params));
    Hardware(PlatformName(f), CoresOptions[coresK % 5], MemoryOptions[memoryK % 4], 0,
             UserAgentHead + OsSegment(f) + UserAgentMiddle + BrowserVersion(params) + UserAgentTail,
             "en-US", ["en-US", "en"], "America/New_York", 240)
  }

  /** The browser version can be read back out of the user agent. */
  lemma UserAgentVersionRoundTrip(coresK: nat, memoryK: nat, params: Params)
    ensures var ua := DecodeHardware(coresK, memoryK, params).userAgent;
            var pre := UserAgentPrefix(HardwareFamily(Os(params)));
            |pre| + |UserAgentTail| <= |ua|
            && ua[|pre|..|ua| - |UserAgentTail|] == BrowserVersion(params)
  {
    var ua := DecodeHardware(coresK, memoryK, params).userAgent;
    var pre := UserAgentPrefix(HardwareFamily(Os(params)));
    var v := BrowserVersion(params);
    assert ua == pre + v + UserAgentTail;
    assert ua[|pre|..|ua| - |UserAgentTail|] == v;
  }

  /** Each platform name belongs to one OS family. */
  lemma PlatformNameInjective(f: OsFamily, g: OsFamily)
    requires PlatformName(f) == PlatformName(g)
    ensures f == g
  {
    assert |PlatformName(f)| == |PlatformName(g)|;
  }

  /** The OS segments already differ in their first character. */
  lemma OsSegmentsDiffer(f: OsFamily, g: OsFamily)
    requires f != g
    ensures OsSegment(f)[0] != OsSegment(g)[0]
  {
  }

  /**
   * The platform and the user agent's OS segment always name the same
   * system: the platform is a family's name exactly when the OS segment of the
   * user agent, right after "Mozilla/5.0 (", starts as that family's does.
   */
  lemma PlatformMatchesUserAgent(coresK: nat, memoryK: nat, params: Params, g: OsFamily)
    ensures var h := DecodeHardware(coresK, memoryK, params);
            |UserAgentHead| < |h.userAgent|
            && (h.platform == PlatformName(g) <==> h.userAgent[|UserAgentHead|] == OsSegment(g)[0])
  {
    var f := HardwareFamily(Os(params));
    UserAgentSegmentStart(f, BrowserVersion(params));
    if PlatformName(f) == PlatformName(g) {
      PlatformNameInjective(f, g);
    }
    if f != g {
      OsSegmentsDiffer(f, g);
    }
  }

  lemma UserAgentSegmentStart(f: OsFamily, v: string)
    ensures var ua := UserAgentPrefix(f) + v + UserAgentTail;
            |UserAgentHead| < |ua| && ua[|UserAgentHead|] == OsSegment(f)[0]
  {
    assert |OsSegment(f)| > 0;
    IndexAfterHead(UserAgentHead, OsSegment(f), UserAgentMiddle, v, UserAgentTail);
  }

  // --------------------------------------------------------------- screen

  const Resolutions: seq<(int, int)> :=
    [(1920, 1080), (1366, 768), (1440, 900), (1536, 864), (2560, 1440), (3840, 2160)]
  const ColorDepths: seq<int> := [24, 30, 32]
  const DevicePixelRatios: seq<real> := [1.0, 1.25, 1.5, 2.0]

  datatype Screen = Screen(
    width: int,
    height: int,
    availWidth: int,
    availHeight: int,
    colorDepth: int,
    pixelDepth: int,
    orientationAngle: int,
    orientationType: string,
    devicePixelRatio: real,
    maxTouchPoints: int,
    touchEvent: bool,
    touchStart: bool)

  /**
   * `decode_screen`: a resolution from the table with a 40-pixel taskbar
   * taken off the available height, one colour depth reported twice, and a
   * device pixel ratio from its table.
   */
  function DecodeScreen(resK: nat, depthK: nat, dprK: nat): (s: Screen)
    ensures (s.width, s.height) in Resolutions
    ensures s.availWidth == s.width && s.availHeight == s.height - 40
    ensures s.pixelDepth == s.colorDepth && s.colorDepth in {24, 30, 32}
    ensures s.devicePixelRatio in {1.0, 1.25, 1.5, 2.0}
  {
    var (w, h) := Resolutions[resK % 6];
    var depth := ColorDepths[depthK % 3];
    Screen(w, h, w, h - 40, depth, depth, 0, "landscape-primary", DevicePixelRatios[dprK % 4], 0, false, false)
  }

  /** Every table resolution is landscape with an aspect ratio between 1 and 3.5. */
  lemma ScreenRatioRealistic(resK: nat, depthK: nat, dprK: nat)
    ensures var s := DecodeScreen(resK, depthK, dprK);
            s.height > 40 && 1.0 <= (s.width as real) / (s.height as real) <= 3.5
  {
    var s := DecodeScreen(resK, depthK, dprK);
    var w, h := s.width as real, s.height as real;
    assert h > 0.0 && 1.0 * h <= w && w <= 3.5 * h;
    DivAtLeast(w, h, 1.0);
    DivAtMost(w, h, 3.5);
  }

  lemma MulPositive(a: real, b: real)
    requires a > 0.0 && b > 0.0
    ensures a * b > 0.0
  {
  }

  lemma Distribute(a: real, c: real, h: real)
    ensures (a - c) * h == a * h - c * h
  {
  }

  lemma DivAtMost(w: real, h: real, c: real)
    requires h > 0.0 && w <= c * h
    ensures w / h <= c
  {
    var q := w / h;
    assert q * h == w;
    if q > c {
      MulPositive(q - c, h);
      Distribute(q, c, h);
    }
  }

  lemma DivAtLeast(w: real, h: real, c: real)
    requires h > 0.0 && c * h <= w
    ensures c <= w / h
  {
    var q := w / h;
    assert q * h == w;
    if q < c {
      MulPositive(c - q, h);
      Distribute(c, q, h);
    }
  }

  // ------------------------------------------------------ canvas and audio

  datatype Canvas = Canvas(hash: string, width: int, height: int, textRendering: string, fontFamily: string)

  /** `decode_canvas`: the hash and the fixed drawing parameters. */
  function DecodeCanvas(hash: string): Canvas {
    Canvas(hash, 280, 60, "geometricPrecision", "Arial")
  }

  datatype Audio = Audio(
    hash: string,
    sampleRate: int,
    channelCount: int,
    channelCountMode: string,
    channelInterpretation: string,
    latency: real,
    baseLatency: real,
    outputLatency: real)

  /** `decode_audio`: the hash and the fixed context parameters. */
  function DecodeAudio(hash: string): Audio {
    Audio(hash, 48000, 2, "max", "speakers", 0.01, 0.005, 0.005)
  }

  // ----------------------------------------------------------- fingerprint

  /** What `decode_fingerprint` reads from the generated components. */
  datatype Components = Components(
    canvasHash: string,
    webglK: nat,
    audioHash: string,
    coresK: nat,
    memoryK: nat,
    resolutionK: nat,
    depthK: nat,
    dprK: nat)

  /** The five components of a profile, the keys of the returned dict. */
  datatype Fingerprint = Fingerprint(canvas: Canvas, webgl: Webgl, audio: Audio, hardware: Hardware, screen: Screen)

  /** `decode_fingerprint`: each component decoded, WebGL and hardware from the same parameters. */
  function DecodeFingerprint(c: Components, params: Params): (fp: Fingerprint)
    ensures fp.webgl.vendor == "WebKit"
    ensures fp.hardware.platform == PlatformName(HardwareFamily(Os(params)))
    ensures fp.hardware.userAgent == UserAgentPrefix(HardwareFamily(Os(params))) + BrowserVersion(params) + UserAgentTail
    ensures fp.screen.availHeight == fp.screen.height - 40
  {
    Fingerprint(DecodeCanvas(c.canvasHash), DecodeWebgl(c.webglK, params), DecodeAudio(c.audioHash),
                DecodeHardware(c.coresK, c.memoryK, params),
                DecodeScreen(c.resolutionK, c.depthK, c.dprK))
  }

  /**
   * Where the two OS tests agree: a case-folded name containing "mac" but not
   * "windows" picks the Mac GPU table and the Mac platform, and exactly
   * "windows" picks the Windows table and the Windows platform.
   */
  lemma OsTestsAgree(os: string)
    ensures Contains(Lower(os), "mac") && !Contains(Lower(os), "windows") ==>
              WebglTable(os) == MacGpus && HardwareFamily(os) == MacOs
    ensures Lower(os) == "windows" ==> WebglTable(os) == WindowsGpus && HardwareFamily(os) == WindowsOs
  {
    if Lower(os) == "windows" {
      assert OccursAt(Lower(os), "windows", 0);
    }
  }

  /**
   * A Mac profile is consistent: platform MacIntel and an Apple GPU. A
   * profile for exactly "Windows" (in any case) has platform Win32 and a GPU
   * from the Windows table.
   */
  lemma FingerprintOsConsistent(c: Components, params: Params)
    ensures var fp := DecodeFingerprint(c, params);
            var os := Lower(Os(params));
            && (Contains(os, "mac") && !Contains(os, "windows") ==>
                  fp.hardware.platform == PlatformName(MacOs) && fp.webgl.unmaskedVendor == AppleInc)
            && (os == "windows" ==>
                  fp.hardware.platform == PlatformName(WindowsOs) && fp.webgl.unmaskedRenderer in GpuRenderers(WindowsGpus))
  {
    OsTestsAgree(Os(params));
  }

  lemma LowerWindows11()
    ensures Lower("Windows 11") == "windows 11"
  {
    LowerChars("Windows 11");
  }

  lemma Windows11Substrings()
    ensures Contains("windows 11", "windows") && !Contains("windows 11", "mac")
  {
    assert OccursAt("windows 11", "windows", 0);
    NotContainsByFirstChar("windows 11", "mac");
  }

  /** The two OS tests differ on "Windows 11": the Windows platform, but the Linux GPU table. */
  lemma WindowsVariantTables()
    ensures HardwareFamily("Windows 11") == WindowsOs && WebglTable("Windows 11") == LinuxGpus
  {
    LowerWindows11();
    Windows11Substrings();
  }

  /**
   * So an OS named "Windows 11" gets platform Win32 and a Windows user agent,
   * but a GPU from the Linux table.
   */
  lemma WindowsVariantGetsLinuxGpu(c: Components)
    ensures var fp := DecodeFingerprint(c, map["os" := "Windows 11"]);
            fp.hardware.platform == PlatformName(WindowsOs) && fp.webgl.unmaskedRenderer in GpuRenderers(LinuxGpus)
  {
    WindowsVariantTables();
  }
}
