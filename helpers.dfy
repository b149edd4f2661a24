/**
 * `parseUserInfo` of backend/utils/helpers.js: the request descriptor built
 * from the client address, the geolocation record of its lookup key, the
 * user-agent library's baseline browser and OS, and a first-match-wins chain
 * of substring overrides that names the device and refines the OS.
 *
 * The geolocation database and the user-agent parser are parameters: a
 * function from the text handed to them to what they return, or `Threw`.
 */
module Helpers {
  import opened Wrappers
  import opened Text
  import opened RequestInfo

  // ---------------------------------------------------------------------
  // The regular expressions of the classifier, each as a matcher tried at
  // one position; `Capture` takes the leftmost match.
  // ---------------------------------------------------------------------

  /**
   * `lit` at `p`, then (when `spaced`) one or more white-space characters,
   * then a greedy nonempty run of `cls`, which is the capture.
   */
  function TokenThenRun(s: string, p: nat, lit: string, spaced: bool, cls: char -> bool): (r: Option<string>)
    ensures r.Some? ==> r.value != [] && forall i :: 0 <= i < |r.value| ==> cls(r.value[i])
  {
    if !OccursAt(s, lit, p) then None
    else
      var gap := RunLength(s, p + |lit|, IsSpace);
      var start := p + |lit| + (if spaced then gap else 0);
      var n := RunLength(s, start, cls);
      if (spaced && gap == 0) || n == 0 then None else Some(s[start..start + n])
  }

  /** `/Android\s+([\d.]+)/` */
  function AndroidAt(s: string, p: nat): Option<string> {
    TokenThenRun(s, p, "Android", true, IsDigitOrDot)
  }

  /** `/TECNO\s+(\w+)/` */
  function TecnoAt(s: string, p: nat): Option<string> {
    TokenThenRun(s, p, "TECNO", true, IsWordChar)
  }

  /** `/Windows NT ([\d.]+)/` */
  function WindowsNtAt(s: string, p: nat): Option<string> {
    TokenThenRun(s, p, "Windows NT ", false, IsDigitOrDot)
  }

  /** `/Mac OS X ([\d_]+)/` */
  function MacOsXAt(s: string, p: nat): Option<string> {
    TokenThenRun(s, p, "Mac OS X ", false, IsDigitOrUnderscore)
  }

  /** `lit`, then `(\d+)_(\d+)` at `p`: the major and minor version digits. */
  function VersionPairAt(s: string, p: nat, lit: string): (r: Option<(string, string)>)
    ensures r.Some? ==> r.value.0 != [] && AllDigits(r.value.0) && r.value.1 != [] && AllDigits(r.value.1)
  {
    if !OccursAt(s, lit, p) then None
    else
      var a := p + |lit|;
      var m := RunLength(s, a, IsDigit);
      if m == 0 || a + m >= |s| || s[a + m] != '_' then None
      else
        var n := RunLength(s, a + m + 1, IsDigit);
        if n == 0 then None else Some((s[a..a + m], s[a + m + 1..a + m + 1 + n]))
  }

  /** `/iPhone OS (\d+)_(\d+)/` */
  function IPhoneOsAt(s: string, p: nat): Option<(string, string)> {
    VersionPairAt(s, p, "iPhone OS ")
  }

  /** `/CPU OS (\d+)_(\d+)/` */
  function CpuOsAt(s: string, p: nat): Option<(string, string)> {
    VersionPairAt(s, p, "CPU OS ")
  }

  /**
   * `rawAgent.match(/Android\s+([\d.]+)/)?.[1] || ''`: the capture of the
   * leftmost match, or empty when the expression matches nowhere.
   */
  function AndroidVersion(ua: string): (v: string)
    ensures forall i :: 0 <= i < |v| ==> IsDigitOrDot(v[i])
    ensures v == [] <==> forall p :: 0 <= p <= |ua| ==> AndroidAt(ua, p).None?
    ensures v != [] ==> exists p :: LeftmostAt(ua, AndroidAt, p, v)
  {
    match Capture(ua, AndroidAt)
    case None => ""
    case Some(v) => v
  }

  /** `rawAgent.match(/Windows NT ([\d.]+)/)?.[1] || ''` */
  function WindowsVersion(ua: string): (v: string)
    ensures forall i :: 0 <= i < |v| ==> IsDigitOrDot(v[i])
  {
    match Capture(ua, WindowsNtAt)
    case None => ""
    case Some(v) => v
  }

  // ---------------------------------------------------------------------
  // The override chain.
  // ---------------------------------------------------------------------

  /** The branch of the chain a user agent takes. */
  datatype Family = Android | IPhone | IPad | Windows | Mac | Linux | Cli | OtherMobile | Unmatched

  /** The conditions of the if/else-if chain, in the source's order. */
  function Branch(ua: string): Family {
    if Contains(ua, "Android") then Android
    else if Contains(ua, "iPhone") then IPhone
    else if Contains(ua, "iPad") then IPad
    else if Contains(ua, "Windows") then Windows
    else if Contains(ua, "Macintosh") then Mac
    else if Contains(ua, "Linux") && !Contains(ua, "Android") then Linux
    else if Contains(ua, "curl") || Contains(ua, "python") || Contains(ua, "node") then Cli
    else if Contains(ua, "Mobile") then OtherMobile
    else Unmatched
  }

  /** The device label among the Android brands, in the source's order. */
  function AndroidDevice(ua: string): string {
    if Contains(ua, "TECNO") then TecnoDevice(ua)
    else if Contains(ua, "Samsung") then "Samsung Phone"
    else if Contains(ua, "Xiaomi") then "Xiaomi Phone"
    else if Contains(ua, "Redmi") then "Redmi Phone"
    else if Contains(ua, "Infinix") then "Infinix Phone"
    else if Contains(ua, "Oppo") then "Oppo Phone"
    else if Contains(ua, "Vivo") then "Vivo Phone"
    else if Contains(ua, "Realme") then "Realme Phone"
    else if Contains(ua, "OnePlus") then "OnePlus Phone"
    else if Contains(ua, "Google") then "Google Pixel"
    else if Contains(ua, "Huawei") || Contains(ua, "Honor") then "Huawei Phone"
    else "Android Phone"
  }

  /** `TECNO <model>` when a word follows the brand, else `TECNO Phone`. */
  function TecnoDevice(ua: string): (r: string)
    ensures Capture(ua, TecnoAt).None? ==> r == "TECNO Phone"
    ensures Capture(ua, TecnoAt).Some? ==> r == "TECNO " + Capture(ua, TecnoAt).value
    ensures Capture(ua, TecnoAt).Some? ==>
      |r| > 6 && r[..6] == "TECNO " && forall i :: 6 <= i < |r| ==> IsWordChar(r[i])
  {
    match Capture(ua, TecnoAt)
    case Some(model) => "TECNO " + model
    case None => "TECNO Phone"
  }

  /** `iOS X.Y` from the captured digits, or `iOS`. */
  function IosName(version: Option<(string, string)>): string {
    match version
    case None => "iOS"
    case Some((major, minor)) => "iOS " + major + "." + minor
  }

  /** The Windows NT version table. */
  function WindowsName(version: string): string {
    if version == "10.0" then "Windows 10/11"
    else if version == "6.3" then "Windows 8.1"
    else if version == "6.2" then "Windows 8"
    else if version == "6.1" then "Windows 7"
    else "Windows " + version
  }

  /**
   * The macOS name as the source writes it: `macVersion.replace('_', '.')`
   * turns only the first underscore of the captured version into a dot.
   */
  function MacOsNameAsWritten(ua: string): string {
    match Capture(ua, MacOsXAt)
    case None => "macOS"
    case Some(v) => "macOS " + ReplaceFirst(v, "_", ".")
  }

  /** The macOS name as intended: every underscore of the captured version becomes a dot. */
  function MacOsName(ua: string): (r: string)
    ensures Capture(ua, MacOsXAt).None? ==> r == "macOS"
    ensures Capture(ua, MacOsXAt).Some? ==>
      var v := Capture(ua, MacOsXAt).value;
      |r| == 6 + |v| && r[..6] == "macOS " && '_' !in r
      && forall i :: 0 <= i < |v| ==> r[6 + i] == (if v[i] == '_' then '.' else v[i])
  {
    match Capture(ua, MacOsXAt)
    case None => "macOS"
    case Some(v) => "macOS " + ReplaceAll(v, '_', '.')
  }

  datatype Classification = Classification(os: string, device: string)

  /** The OS and device names the chain gives, starting from the library's OS name. */
  function ClassifyAgent(ua: string, baselineOs: string): Classification {
    match Branch(ua)
    case Android => Classification("Android " + AndroidVersion(ua), AndroidDevice(ua))
    case IPhone => Classification(IosName(Capture(ua, IPhoneOsAt)), "iPhone")
    case IPad => Classification(IosName(Capture(ua, CpuOsAt)), "iPad")
    case Windows => Classification(WindowsName(WindowsVersion(ua)), "Windows PC")
    case Mac => Classification(MacOsNameAsWritten(ua), "Mac")
    case Linux => Classification(baselineOs, "Linux PC")
    case Cli => Classification("Server/CLI", "API/Desktop")
    case OtherMobile => Classification(baselineOs, "Mobile Phone")
    case Unmatched => Classification(baselineOs, "Desktop")
  }

  /** The classification with the macOS name as intended; every other branch as written. */
  function ClassifyAgentIntended(ua: string, baselineOs: string): (c: Classification)
    ensures c.device == ClassifyAgent(ua, baselineOs).device
    ensures Branch(ua) != Mac ==> c == ClassifyAgent(ua, baselineOs)
    ensures Branch(ua) == Mac ==> c.os == MacOsName(ua) && '_' !in c.os
  {
    var c := ClassifyAgent(ua, baselineOs);
    if Branch(ua) == Mac then c.(os := MacOsName(ua)) else c
  }

  // ---------------------------------------------------------------------
  // The descriptor.
  // ---------------------------------------------------------------------

  /** What the user-agent library reports: browser family and `toAgent()`, OS family and `toString()`. */
  datatype Agent = Agent(family: string, display: string, osFamily: string, osDisplay: string)

  /** The descriptor `parseUserInfo` returns (the capture timestamp is not modelled). */
  datatype UserInfo =
    | Parsed(ip: string, isLocal: bool, geo: GeoFields, browser: string, os: string, device: string,
             userAgent: string)
    | ParseError(ip: string, country: string, city: string, browser: string, os: string, device: string)

  /** `req.headers['user-agent'] || ''` */
  function RawAgent(req: Request): string {
    Or(req.userAgent, "")
  }

  function Browser(agent: Agent): string {
    if agent.family != "Other" then agent.display else "Unknown"
  }

  function BaselineOs(agent: Agent): string {
    if agent.osFamily != "Other" then agent.osDisplay else "Unknown"
  }

  /** The record of the catch block. */
  function ErrorRecord(ip: string): UserInfo {
    ParseError(ip, "Unknown", "Unknown", "Error Fallback", "Unknown", "Desktop")
  }

  function ParseUserInfo(req: Request, lookup: string -> Call<Option<GeoRecord>>,
                         parseAgent: string -> Call<Agent>): (r: UserInfo)
    ensures r.ip == ClientIp(req)
    ensures r.Parsed? <==> lookup(LookupKey(ClientIp(req))).Returned? && parseAgent(RawAgent(req)).Returned?
    ensures r.ParseError? ==> r == ErrorRecord(ClientIp(req))
    ensures r.Parsed? ==> r.isLocal == IsLocal(r.ip) && r.userAgent == RawAgent(req)
    ensures r.Parsed? ==> r.geo == GeoDefaults(lookup(LookupKey(r.ip)).value)
    ensures r.Parsed? ==>
      var agent := parseAgent(r.userAgent).value;
      r.browser == Browser(agent) && Classification(r.os, r.device) == ClassifyAgent(r.userAgent, BaselineOs(agent))
  {
    var ip := ClientIp(req);
    match lookup(LookupKey(ip))
    case Threw => ErrorRecord(ip)
    case Returned(geo) =>
      var raw := RawAgent(req);
      match parseAgent(raw)
      case Threw => ErrorRecord(ip)
      case Returned(agent) =>
        var c := ClassifyAgent(raw, BaselineOs(agent));
        Parsed(ip, IsLocal(ip), GeoDefaults(geo), Browser(agent), c.os, c.device, raw)
  }

  // ---------------------------------------------------------------------
  // The chain as data: an ordered table of rules, first match wins.
  // ---------------------------------------------------------------------

  /** Some token of the rule occurs in the user agent. */
  predicate AnyOccurs(ua: string, tokens: seq<string>) {
    exists i :: 0 <= i < |tokens| && Contains(ua, tokens[i])
  }

  /** The label of the first rule one of whose tokens occurs, else `default`. */
  function FirstRule<L>(ua: string, rules: seq<(L, seq<string>)>, default: L): L {
    if rules == [] then default
    else if AnyOccurs(ua, rules[0].1) then rules[0].0
    else FirstRule(ua, rules[1..], default)
  }

  /** No two rules carry the same label, and none carries the default's. */
  predicate DistinctLabels<L(==)>(rules: seq<(L, seq<string>)>, default: L) {
    && (forall i, j :: 0 <= i < j < |rules| ==> rules[i].0 != rules[j].0)
    && (forall i :: 0 <= i < |rules| ==> rules[i].0 != default)
  }

  /** The first rule with an occurring token decides. */
  lemma {:induction false} FirstRuleSelects<L>(ua: string, rules: seq<(L, seq<string>)>, default: L, k: nat)
    requires k < |rules| && AnyOccurs(ua, rules[k].1)
    requires forall j :: 0 <= j < k ==> !AnyOccurs(ua, rules[j].1)
    ensures FirstRule(ua, rules, default) == rules[k].0
  {
    if k > 0 {
      assert !AnyOccurs(ua, rules[0].1);
      FirstRuleSelects(ua, rules[1..], default, k - 1);
    }
  }

  /** When no rule has an occurring token, the default stands. */
  lemma {:induction false} FirstRuleNone<L>(ua: string, rules: seq<(L, seq<string>)>, default: L)
    requires forall j :: 0 <= j < |rules| ==> !AnyOccurs(ua, rules[j].1)
    ensures FirstRule(ua, rules, default) == default
  {
    if rules != [] {
      assert !AnyOccurs(ua, rules[0].1);
      FirstRuleNone(ua, rules[1..], default);
    }
  }

  lemma {:induction false} FirstRuleRange<L>(ua: string, rules: seq<(L, seq<string>)>, default: L)
    ensures FirstRule(ua, rules, default) == default
         || exists j :: 0 <= j < |rules| && FirstRule(ua, rules, default) == rules[j].0
  {
    if rules != [] && !AnyOccurs(ua, rules[0].1) {
      FirstRuleRange(ua, rules[1..], default);
      if FirstRule(ua, rules[1..], default) != default {
        var j :| 0 <= j < |rules[1..]| && FirstRule(ua, rules[1..], default) == rules[1..][j].0;
        assert FirstRule(ua, rules, default) == rules[j + 1].0;
      }
    }
  }

  /**
   * First match wins, in both directions: with distinct labels, the table
   * yields rule `k`'s label exactly when one of its tokens occurs and no
   * token of an earlier rule does.
   */
  lemma {:induction false} FirstRuleIff<L>(ua: string, rules: seq<(L, seq<string>)>, default: L, k: nat)
    requires k < |rules| && DistinctLabels(rules, default)
    ensures FirstRule(ua, rules, default) == rules[k].0
        <==> AnyOccurs(ua, rules[k].1) && forall j :: 0 <= j < k ==> !AnyOccurs(ua, rules[j].1)
  {
    var rest := rules[1..];
    assert DistinctLabels(rest, default) by {
      forall i, j | 0 <= i < j < |rest| ensures rest[i].0 != rest[j].0 {
        assert rest[i] == rules[i + 1] && rest[j] == rules[j + 1];
      }
    }
    if AnyOccurs(ua, rules[0].1) {
      if k > 0 {
        assert rules[0].0 != rules[k].0;
      }
    } else if k == 0 {
      FirstRuleRange(ua, rest, default);
      if FirstRule(ua, rest, default) != default {
        var j :| 0 <= j < |rest| && FirstRule(ua, rest, default) == rest[j].0;
        assert rest[j] == rules[j + 1];
      }
    } else {
      FirstRuleIff(ua, rest, default, k - 1);
      assert rest[k - 1] == rules[k];
      assert forall j :: 0 <= j < k - 1 ==> rest[j] == rules[j + 1];
    }
  }

  /** The override chain as an ordered table of (branch, tokens). */
  const OverrideChain: seq<(Family, seq<string>)> := [
    (Android, ["Android"]),
    (IPhone, ["iPhone"]),
    (IPad, ["iPad"]),
    (Windows, ["Windows"]),
    (Mac, ["Macintosh"]),
    (Linux, ["Linux"]),
    (Cli, ["curl", "python", "node"]),
    (OtherMobile, ["Mobile"])
  ]

  /** What a brand rule names: the TECNO model rule, or a fixed label. */
  datatype BrandRule = TecnoModel | Named(name: string)

  /** The Android brand sub-chain as an ordered table. */
  const BrandChain: seq<(BrandRule, seq<string>)> := [
    (TecnoModel, ["TECNO"]),
    (Named("Samsung Phone"), ["Samsung"]),
    (Named("Xiaomi Phone"), ["Xiaomi"]),
    (Named("Redmi Phone"), ["Redmi"]),
    (Named("Infinix Phone"), ["Infinix"]),
    (Named("Oppo Phone"), ["Oppo"]),
    (Named("Vivo Phone"), ["Vivo"]),
    (Named("Realme Phone"), ["Realme"]),
    (Named("OnePlus Phone"), ["OnePlus"]),
    (Named("Google Pixel"), ["Google"]),
    (Named("Huawei Phone"), ["Huawei", "Honor"])
  ]

  lemma OneToken(ua: string, t: string)
    ensures AnyOccurs(ua, [t]) <==> Contains(ua, t)
  {
    if Contains(ua, t) {
      assert [t][0] == t;
    }
  }

  lemma TwoTokens(ua: string, t0: string, t1: string)
    ensures AnyOccurs(ua, [t0, t1]) <==> Contains(ua, t0) || Contains(ua, t1)
  {
    var ts := [t0, t1];
    if Contains(ua, t0) { assert ts[0] == t0; }
    if Contains(ua, t1) { assert ts[1] == t1; }
  }

  lemma ThreeTokens(ua: string, t0: string, t1: string, t2: string)
    ensures AnyOccurs(ua, [t0, t1, t2]) <==> Contains(ua, t0) || Contains(ua, t1) || Contains(ua, t2)
  {
    var ts := [t0, t1, t2];
    if Contains(ua, t0) { assert ts[0] == t0; }
    if Contains(ua, t1) { assert ts[1] == t1; }
    if Contains(ua, t2) { assert ts[2] == t2; }
  }

  /** Override rules 0 to 3: Android, iPhone, iPad, Windows. */
  lemma OverrideChainFirst(ua: string)
    requires Contains(ua, "Android") || Contains(ua, "iPhone") || Contains(ua, "iPad") || Contains(ua, "Windows")
    ensures Branch(ua) == FirstRule(ua, OverrideChain, Unmatched)
  {
    var c := OverrideChain;
    OneToken(ua, "Android");
    OneToken(ua, "iPhone");
    OneToken(ua, "iPad");
    OneToken(ua, "Windows");
    if Contains(ua, "Android") { FirstRuleSelects(ua, c, Unmatched, 0); }
    else if Contains(ua, "iPhone") { FirstRuleSelects(ua, c, Unmatched, 1); }
    else if Contains(ua, "iPad") { FirstRuleSelects(ua, c, Unmatched, 2); }
    else { FirstRuleSelects(ua, c, Unmatched, 3); }
  }

  /** Override rules 4 and 5: Macintosh, Linux. */
  lemma OverrideChainSecond(ua: string)
    requires !(Contains(ua, "Android") || Contains(ua, "iPhone") || Contains(ua, "iPad") || Contains(ua, "Windows"))
    requires Contains(ua, "Macintosh") || Contains(ua, "Linux")
    ensures Branch(ua) == FirstRule(ua, OverrideChain, Unmatched)
  {
    var c := OverrideChain;
    OneToken(ua, "Android");
    OneToken(ua, "iPhone");
    OneToken(ua, "iPad");
    OneToken(ua, "Windows");
    OneToken(ua, "Macintosh");
    OneToken(ua, "Linux");
    if Contains(ua, "Macintosh") { FirstRuleSelects(ua, c, Unmatched, 4); }
    else { FirstRuleSelects(ua, c, Unmatched, 5); }
  }

  /** Override rules 6 and 7 (the CLI tokens, Mobile) and the default. */
  lemma OverrideChainLast(ua: string)
    requires !(Contains(ua, "Android") || Contains(ua, "iPhone") || Contains(ua, "iPad") || Contains(ua, "Windows"))
    requires !(Contains(ua, "Macintosh") || Contains(ua, "Linux"))
    ensures Branch(ua) == FirstRule(ua, OverrideChain, Unmatched)
  {
    var c := OverrideChain;
    OneToken(ua, "Android");
    OneToken(ua, "iPhone");
    OneToken(ua, "iPad");
    OneToken(ua, "Windows");
    OneToken(ua, "Macintosh");
    OneToken(ua, "Linux");
    ThreeTokens(ua, "curl", "python", "node");
    OneToken(ua, "Mobile");
    if Contains(ua, "curl") || Contains(ua, "python") || Contains(ua, "node") { FirstRuleSelects(ua, c, Unmatched, 6); }
    else if Contains(ua, "Mobile") { FirstRuleSelects(ua, c, Unmatched, 7); }
    else { FirstRuleNone(ua, c, Unmatched); }
  }

  /** The nested conditions of the source and the ordered table agree on every user agent. */
  lemma BranchFollowsChain(ua: string)
    ensures Branch(ua) == FirstRule(ua, OverrideChain, Unmatched)
  {
    if Contains(ua, "Android") || Contains(ua, "iPhone") || Contains(ua, "iPad") || Contains(ua, "Windows") {
      OverrideChainFirst(ua);
    } else if Contains(ua, "Macintosh") || Contains(ua, "Linux") {
      OverrideChainSecond(ua);
    } else {
      OverrideChainLast(ua);
    }
  }

  lemma OverrideChainDistinct()
    ensures DistinctLabels(OverrideChain, Unmatched)
  {
    var labels := [Android, IPhone, IPad, Windows, Mac, Linux, Cli, OtherMobile];
    assert forall i :: 0 <= i < |OverrideChain| ==> OverrideChain[i].0 == labels[i];
    assert forall i, j :: 0 <= i < j < |labels| ==> labels[i] != labels[j];
  }

  /**
   * The chain is first-match-wins: a user agent takes branch `k` exactly
   * when it contains a token of that branch and none of an earlier one.
   * So any agent containing `Android` takes the Android branch whatever
   * else it contains, and the CLI branch is reached only when no earlier
   * token occurs.
   */
  lemma BranchIsFirstMatch(ua: string, k: nat)
    requires k < |OverrideChain|
    ensures Branch(ua) == OverrideChain[k].0
        <==> AnyOccurs(ua, OverrideChain[k].1) && forall j :: 0 <= j < k ==> !AnyOccurs(ua, OverrideChain[j].1)
  {
    BranchFollowsChain(ua);
    OverrideChainDistinct();
    FirstRuleIff(ua, OverrideChain, Unmatched, k);
  }

  /** The device label a brand rule gives. */
  function BrandLabel(ua: string, rule: BrandRule): string {
    match rule
    case TecnoModel => TecnoDevice(ua)
    case Named(name) => name
  }

  /** Brand rules 0 to 2 of the table: TECNO, Samsung, Xiaomi. */
  lemma BrandChainFirst(ua: string)
    requires Contains(ua, "TECNO") || Contains(ua, "Samsung") || Contains(ua, "Xiaomi")
    ensures AndroidDevice(ua) == BrandLabel(ua, FirstRule(ua, BrandChain, Named("Android Phone")))
  {
    var c := BrandChain;
    OneToken(ua, "TECNO");
    OneToken(ua, "Samsung");
    OneToken(ua, "Xiaomi");
    if Contains(ua, "TECNO") { FirstRuleSelects(ua, c, Named("Android Phone"), 0); }
    else if Contains(ua, "Samsung") { FirstRuleSelects(ua, c, Named("Android Phone"), 1); }
    else { FirstRuleSelects(ua, c, Named("Android Phone"), 2); }
  }

  /** Brand rules 3 to 5 of the table: Redmi, Infinix, Oppo. */
  lemma BrandChainSecond(ua: string)
    requires !(Contains(ua, "TECNO") || Contains(ua, "Samsung") || Contains(ua, "Xiaomi"))
    requires Contains(ua, "Redmi") || Contains(ua, "Infinix") || Contains(ua, "Oppo")
    ensures AndroidDevice(ua) == BrandLabel(ua, FirstRule(ua, BrandChain, Named("Android Phone")))
  {
    var c := BrandChain;
    OneToken(ua, "TECNO");
    OneToken(ua, "Samsung");
    OneToken(ua, "Xiaomi");
    OneToken(ua, "Redmi");
    OneToken(ua, "Infinix");
    OneToken(ua, "Oppo");
    if Contains(ua, "Redmi") { FirstRuleSelects(ua, c, Named("Android Phone"), 3); }
    else if Contains(ua, "Infinix") { FirstRuleSelects(ua, c, Named("Android Phone"), 4); }
    else { FirstRuleSelects(ua, c, Named("Android Phone"), 5); }
  }

  /** Brand rules 6 to 8 of the table: Vivo, Realme, OnePlus. */
  lemma BrandChainThird(ua: string)
    requires !(Contains(ua, "TECNO") || Contains(ua, "Samsung") || Contains(ua, "Xiaomi"))
    requires !(Contains(ua, "Redmi") || Contains(ua, "Infinix") || Contains(ua, "Oppo"))
    requires Contains(ua, "Vivo") || Contains(ua, "Realme") || Contains(ua, "OnePlus")
    ensures AndroidDevice(ua) == BrandLabel(ua, FirstRule(ua, BrandChain, Named("Android Phone")))
  {
    var c := BrandChain;
    OneToken(ua, "TECNO");
    OneToken(ua, "Samsung");
    OneToken(ua, "Xiaomi");
    OneToken(ua, "Redmi");
    OneToken(ua, "Infinix");
    OneToken(ua, "Oppo");
    OneToken(ua, "Vivo");
    OneToken(ua, "Realme");
    OneToken(ua, "OnePlus");
    if Contains(ua, "Vivo") { FirstRuleSelects(ua, c, Named("Android Phone"), 6); }
    else if Contains(ua, "Realme") { FirstRuleSelects(ua, c, Named("Android Phone"), 7); }
    else { FirstRuleSelects(ua, c, Named("Android Phone"), 8); }
  }

  /** Brand rules 9 and 10 of the table (Google, Huawei or Honor) and the default. */
  lemma BrandChainLast(ua: string)
    requires !(Contains(ua, "TECNO") || Contains(ua, "Samsung") || Contains(ua, "Xiaomi"))
    requires !(Contains(ua, "Redmi") || Contains(ua, "Infinix") || Contains(ua, "Oppo"))
    requires !(Contains(ua, "Vivo") || Contains(ua, "Realme") || Contains(ua, "OnePlus"))
    ensures AndroidDevice(ua) == BrandLabel(ua, FirstRule(ua, BrandChain, Named("Android Phone")))
  {
    var c := BrandChain;
    OneToken(ua, "TECNO");
    OneToken(ua, "Samsung");
    OneToken(ua, "Xiaomi");
    OneToken(ua, "Redmi");
    OneToken(ua, "Infinix");
    OneToken(ua, "Oppo");
    OneToken(ua, "Vivo");
    OneToken(ua, "Realme");
    OneToken(ua, "OnePlus");
    OneToken(ua, "Google");
    TwoTokens(ua, "Huawei", "Honor");
    if Contains(ua, "Google") { FirstRuleSelects(ua, c, Named("Android Phone"), 9); }
    else if Contains(ua, "Huawei") || Contains(ua, "Honor") { FirstRuleSelects(ua, c, Named("Android Phone"), 10); }
    else { FirstRuleNone(ua, c, Named("Android Phone")); }
  }

  /** The source's nested brand tests and the brand table agree on every user agent. */
  lemma AndroidDeviceFollowsChain(ua: string)
    ensures AndroidDevice(ua) == BrandLabel(ua, FirstRule(ua, BrandChain, Named("Android Phone")))
  {
    if Contains(ua, "TECNO") || Contains(ua, "Samsung") || Contains(ua, "Xiaomi") {
      BrandChainFirst(ua);
    } else if Contains(ua, "Redmi") || Contains(ua, "Infinix") || Contains(ua, "Oppo") {
      BrandChainSecond(ua);
    } else if Contains(ua, "Vivo") || Contains(ua, "Realme") || Contains(ua, "OnePlus") {
      BrandChainThird(ua);
    } else {
      BrandChainLast(ua);
    }
  }

  // ---------------------------------------------------------------------
  // What the chain gives for the version-bearing branches.
  // ---------------------------------------------------------------------

  /**
   * An agent containing `Android` takes the Android branch whatever else it
   * contains: the OS is `Android ` and the captured version, the device the
   * label of the first brand rule that matches.
   */
  lemma AndroidWins(ua: string, baselineOs: string)
    requires Contains(ua, "Android")
    ensures ClassifyAgent(ua, baselineOs).os == "Android " + AndroidVersion(ua)
    ensures ClassifyAgent(ua, baselineOs).device == BrandLabel(ua, FirstRule(ua, BrandChain, Named("Android Phone")))
  {
    AndroidDeviceFollowsChain(ua);
  }

  /**
   * `lit` first occurs at `p`, followed by the maximal nonempty run `v` of
   * `cls`: the unspaced expression matches at `p` with capture `v`, and at no
   * earlier position.
   */
  lemma RunCapture(ua: string, lit: string, cls: char -> bool, p: nat, v: string)
    requires OccursAt(ua, lit + v, p)
    requires v != [] && forall i :: 0 <= i < |v| ==> cls(v[i])
    requires p + |lit| + |v| == |ua| || !cls(ua[p + |lit| + |v|])
    ensures TokenThenRun(ua, p, lit, false, cls) == Some(v)
  {
    var a := p + |lit|;
    assert ua[a..a + |v|] == (lit + v)[|lit|..];
    forall k | a <= k < a + |v|
      ensures cls(ua[k])
    {
      assert ua[k] == v[k - a];
    }
    assert a + |v| <= |ua|;
    assert a + |v| == |ua| || !cls(ua[a + |v|]);
    RunLengthExact(ua, a, cls, |v|);
  }

  /** Where `lit + g + v` occurs, each of its parts occurs in turn. */
  lemma SpacedLayout(ua: string, lit: string, g: string, v: string, p: nat)
    requires OccursAt(ua, lit + g + v, p)
    ensures OccursAt(ua, lit, p) && OccursAt(ua, g, p + |lit|) && OccursAt(ua, v, p + |lit| + |g|)
  {
    var whole := lit + g + v;
    OccursSlice(ua, whole, p, 0, |lit|);
    assert whole[..|lit|] == lit;
    OccursSlice(ua, whole, p, |lit|, |lit| + |g|);
    assert whole[|lit|..|lit| + |g|] == g;
    OccursSlice(ua, whole, p, |lit| + |g|, |whole|);
    assert whole[|lit| + |g|..] == v;
  }

  /** The run of `cls` at `a` is exactly `v` when `v` sits there and no `cls` character follows it. */
  lemma RunAt(ua: string, a: nat, cls: char -> bool, v: string)
    requires OccursAt(ua, v, a) && forall i :: 0 <= i < |v| ==> cls(v[i])
    requires a + |v| == |ua| || !cls(ua[a + |v|])
    ensures RunLength(ua, a, cls) == |v|
  {
    forall k | a <= k < a + |v|
      ensures cls(ua[k])
    {
      assert ua[k] == ua[a..a + |v|][k - a];
    }
    RunLengthExact(ua, a, cls, |v|);
  }

  /**
   * `lit` at `p`, then the white space `g`, then the maximal nonempty run `v`
   * of `cls`: the spaced expression matches at `p` with capture `v`.
   */
  lemma SpacedRunCapture(ua: string, lit: string, cls: char -> bool, p: nat, g: string, v: string)
    requires OccursAt(ua, lit + g + v, p)
    requires g != [] && AllSpace(g)
    requires v != [] && !IsSpace(v[0]) && forall i :: 0 <= i < |v| ==> cls(v[i])
    requires p + |lit| + |g| + |v| == |ua| || !cls(ua[p + |lit| + |g| + |v|])
    ensures TokenThenRun(ua, p, lit, true, cls) == Some(v)
  {
    SpacedLayout(ua, lit, g, v, p);
    var b := p + |lit| + |g|;
    assert ua[b] == ua[b..b + |v|][0];
    RunAt(ua, p + |lit|, IsSpace, g);
    RunAt(ua, b, cls, v);
  }

  /** The digit run at `a` is exactly `d` when `d` sits there and no digit follows it. */
  lemma DigitRun(ua: string, a: nat, d: string)
    requires a + |d| <= |ua| && ua[a..a + |d|] == d && AllDigits(d)
    requires a + |d| == |ua| || !IsDigit(ua[a + |d|])
    ensures RunLength(ua, a, IsDigit) == |d|
  {
    forall k | a <= k < a + |d|
      ensures IsDigit(ua[k])
    {
      assert ua[k] == d[k - a];
    }
    RunLengthExact(ua, a, IsDigit, |d|);
  }

  /** Before the first occurrence of its literal, no expression of the classifier matches. */
  lemma NoEarlierMatch(ua: string, lit: string, cls: char -> bool, p: nat)
    requires FirstAt(ua, lit, p)
    ensures forall q :: 0 <= q < p ==> TokenThenRun(ua, q, lit, false, cls).None?
    ensures forall q :: 0 <= q < p ==> TokenThenRun(ua, q, lit, true, cls).None?
    ensures forall q :: 0 <= q < p ==> VersionPairAt(ua, q, lit).None?
  {
  }

  /** Where `lit + major + "_" + minor` occurs, each of its parts occurs in turn. */
  lemma PairLayout(ua: string, lit: string, p: nat, major: string, minor: string)
    requires OccursAt(ua, lit + major + "_" + minor, p)
    ensures OccursAt(ua, lit, p) && OccursAt(ua, major, p + |lit|)
    ensures ua[p + |lit| + |major|] == '_' && OccursAt(ua, minor, p + |lit| + |major| + 1)
  {
    var whole := lit + major + "_" + minor;
    var u := |lit| + |major|;
    OccursSlice(ua, whole, p, 0, |lit|);
    assert whole[..|lit|] == lit;
    OccursSlice(ua, whole, p, |lit|, u);
    assert whole[|lit|..u] == major;
    OccursSlice(ua, whole, p, u, u + 1);
    assert whole[u..u + 1] == "_";
    assert ua[p + u] == ua[p + u..p + u + 1][0];
    OccursSlice(ua, whole, p, u + 1, |whole|);
    assert whole[u + 1..] == minor;
  }

  /** `lit`, then digits `major`, `_` and the maximal digit run `minor` at `p`: the pair is captured. */
  lemma PairCapture(ua: string, lit: string, p: nat, major: string, minor: string)
    requires OccursAt(ua, lit, p) && OccursAt(ua, major, p + |lit|)
    requires p + |lit| + |major| < |ua| && ua[p + |lit| + |major|] == '_'
    requires OccursAt(ua, minor, p + |lit| + |major| + 1)
    requires major != [] && AllDigits(major) && minor != [] && AllDigits(minor)
    requires p + |lit| + |major| + 1 + |minor| == |ua| || !IsDigit(ua[p + |lit| + |major| + 1 + |minor|])
    ensures VersionPairAt(ua, p, lit) == Some((major, minor))
  {
    var a := p + |lit|;
    DigitRun(ua, a, major);
    DigitRun(ua, a + |major| + 1, minor);
  }

  /** A text containing `lit + rest` at `p` contains `lit`. */
  lemma PrefixContained(ua: string, lit: string, rest: string, p: nat)
    requires OccursAt(ua, lit + rest, p)
    ensures Contains(ua, lit)
  {
    assert ua[p..p + |lit|] == (lit + rest)[..|lit|];
    ContainsAt(ua, lit, p);
  }

  /** `lit` first occurs at `p`, followed by the maximal nonempty run `v` of `cls`. */
  predicate RunFirstAt(ua: string, lit: string, cls: char -> bool, p: nat, v: string) {
    && FirstAt(ua, lit, p)
    && OccursAt(ua, lit + v, p)
    && v != [] && (forall i :: 0 <= i < |v| ==> cls(v[i]))
    && (p + |lit| + |v| == |ua| || !cls(ua[p + |lit| + |v|]))
  }

  /** `lit` first occurs at `p`, followed by the white space `g` and the maximal nonempty run `v` of `cls`. */
  predicate SpacedFirstAt(ua: string, lit: string, cls: char -> bool, p: nat, g: string, v: string) {
    && FirstAt(ua, lit, p)
    && OccursAt(ua, lit + g + v, p)
    && g != [] && AllSpace(g)
    && v != [] && !IsSpace(v[0]) && (forall i :: 0 <= i < |v| ==> cls(v[i]))
    && (p + |lit| + |g| + |v| == |ua| || !cls(ua[p + |lit| + |g| + |v|]))
  }

  /** `lit` first occurs at `p`, followed by the digits `major`, `_` and the maximal digit run `minor`. */
  predicate PairFirstAt(ua: string, lit: string, p: nat, major: string, minor: string) {
    && FirstAt(ua, lit, p)
    && OccursAt(ua, lit + major + "_" + minor, p)
    && major != [] && AllDigits(major) && minor != [] && AllDigits(minor)
    && (p + |lit| + |major| + 1 + |minor| == |ua| || !IsDigit(ua[p + |lit| + |major| + 1 + |minor|]))
  }

  /** The unspaced expression `lit(cls+)` first matches at `p`, capturing `v`. */
  lemma RunFirst(ua: string, lit: string, cls: char -> bool, p: nat, v: string)
    requires RunFirstAt(ua, lit, cls, p, v)
    ensures TokenThenRun(ua, p, lit, false, cls) == Some(v)
    ensures forall q :: 0 <= q < p ==> TokenThenRun(ua, q, lit, false, cls).None?
  {
    RunCapture(ua, lit, cls, p, v);
    NoEarlierMatch(ua, lit, cls, p);
  }

  /** The spaced expression `lit\s+(cls+)` first matches at `p`, capturing `v`. */
  lemma SpacedFirst(ua: string, lit: string, cls: char -> bool, p: nat, g: string, v: string)
    requires SpacedFirstAt(ua, lit, cls, p, g, v)
    ensures TokenThenRun(ua, p, lit, true, cls) == Some(v)
    ensures forall q :: 0 <= q < p ==> TokenThenRun(ua, q, lit, true, cls).None?
  {
    SpacedRunCapture(ua, lit, cls, p, g, v);
    NoEarlierMatch(ua, lit, cls, p);
  }

  /** `lit(\d+)_(\d+)` first matches at `p`, capturing `(major, minor)`. */
  lemma PairFirst(ua: string, lit: string, p: nat, major: string, minor: string)
    requires PairFirstAt(ua, lit, p, major, minor)
    ensures VersionPairAt(ua, p, lit) == Some((major, minor))
    ensures forall q :: 0 <= q < p ==> VersionPairAt(ua, q, lit).None?
  {
    PairLayout(ua, lit, p, major, minor);
    PairCapture(ua, lit, p, major, minor);
    NoEarlierMatch(ua, lit, IsDigit, p);
  }

  lemma IPhoneBranch(ua: string, baselineOs: string)
    requires !Contains(ua, "Android") && Contains(ua, "iPhone")
    ensures Branch(ua) == IPhone
    ensures ClassifyAgent(ua, baselineOs) == Classification(IosName(Capture(ua, IPhoneOsAt)), "iPhone")
  {
  }

  lemma IPadBranch(ua: string, baselineOs: string)
    requires !Contains(ua, "Android") && !Contains(ua, "iPhone") && Contains(ua, "iPad")
    ensures Branch(ua) == IPad
    ensures ClassifyAgent(ua, baselineOs) == Classification(IosName(Capture(ua, CpuOsAt)), "iPad")
  {
  }

  lemma WindowsBranch(ua: string, baselineOs: string)
    requires !Contains(ua, "Android") && !Contains(ua, "iPhone") && !Contains(ua, "iPad") && Contains(ua, "Windows")
    ensures Branch(ua) == Windows
    ensures ClassifyAgent(ua, baselineOs) == Classification(WindowsName(WindowsVersion(ua)), "Windows PC")
  {
  }

  lemma MacBranch(ua: string)
    requires !Contains(ua, "Android") && !Contains(ua, "iPhone") && !Contains(ua, "iPad")
    requires !Contains(ua, "Windows") && Contains(ua, "Macintosh")
    ensures Branch(ua) == Mac
  {
  }

  /**
   * An agent whose first `Android` is followed by white space and the
   * version `v` gets the OS `Android v`, whatever else it contains.
   */
  lemma AndroidVersionAt(ua: string, baselineOs: string, p: nat, g: string, v: string)
    requires SpacedFirstAt(ua, "Android", IsDigitOrDot, p, g, v)
    ensures AndroidVersion(ua) == v
    ensures ClassifyAgent(ua, baselineOs).os == "Android " + v
  {
    SpacedFirst(ua, "Android", IsDigitOrDot, p, g, v);
    CaptureFirst(ua, AndroidAt, p, v);
    ContainsAt(ua, "Android", p);
  }

  /**
   * An Android agent whose first `TECNO` is followed by white space and the
   * word `w` is named the device `TECNO w`, whatever other brand it names.
   */
  lemma TecnoModelAt(ua: string, baselineOs: string, p: nat, g: string, w: string)
    requires Contains(ua, "Android")
    requires SpacedFirstAt(ua, "TECNO", IsWordChar, p, g, w)
    ensures TecnoDevice(ua) == "TECNO " + w
    ensures ClassifyAgent(ua, baselineOs).device == "TECNO " + w
  {
    SpacedFirst(ua, "TECNO", IsWordChar, p, g, w);
    CaptureFirst(ua, TecnoAt, p, w);
    ContainsAt(ua, "TECNO", p);
  }

  /** An iPhone agent whose first `iPhone OS ` carries `major_minor` is named `iOS major.minor`. */
  lemma IPhoneVersion(ua: string, baselineOs: string, p: nat, major: string, minor: string)
    requires !Contains(ua, "Android")
    requires PairFirstAt(ua, "iPhone OS ", p, major, minor)
    ensures ClassifyAgent(ua, baselineOs) == Classification("iOS " + major + "." + minor, "iPhone")
  {
    assert "iPhone OS " == "iPhone" + " OS ";
    PrefixContained(ua, "iPhone", " OS ", p);
    IPhoneBranch(ua, baselineOs);
    PairFirst(ua, "iPhone OS ", p, major, minor);
    CaptureFirst(ua, IPhoneOsAt, p, (major, minor));
  }

  /** An iPad agent (no Android or iPhone token) whose first `CPU OS ` carries `major_minor`. */
  lemma IPadVersion(ua: string, baselineOs: string, p: nat, major: string, minor: string)
    requires !Contains(ua, "Android") && !Contains(ua, "iPhone") && Contains(ua, "iPad")
    requires PairFirstAt(ua, "CPU OS ", p, major, minor)
    ensures ClassifyAgent(ua, baselineOs) == Classification("iOS " + major + "." + minor, "iPad")
  {
    IPadBranch(ua, baselineOs);
    PairFirst(ua, "CPU OS ", p, major, minor);
    CaptureFirst(ua, CpuOsAt, p, (major, minor));
  }

  /** Windows NT versions with a marketing name; any other version is shown as it is. */
  const NtReleases: map<string, string> := map["10.0" := "10/11", "6.3" := "8.1", "6.2" := "8", "6.1" := "7"]

  /** The if-chain on the NT version is the release table. */
  lemma WindowsNameTable(version: string)
    ensures WindowsName(version) == "Windows " + (if version in NtReleases then NtReleases[version] else version)
  {
  }

  /** A Windows agent whose first `Windows NT ` carries version `v` gets the table's name for `v`. */
  lemma WindowsRelease(ua: string, baselineOs: string, p: nat, v: string)
    requires !Contains(ua, "Android") && !Contains(ua, "iPhone") && !Contains(ua, "iPad")
    requires RunFirstAt(ua, "Windows NT ", IsDigitOrDot, p, v)
    ensures ClassifyAgent(ua, baselineOs)
         == Classification("Windows " + (if v in NtReleases then NtReleases[v] else v), "Windows PC")
  {
    assert "Windows NT " == "Windows" + " NT ";
    PrefixContained(ua, "Windows", " NT ", p);
    WindowsBranch(ua, baselineOs);
    RunFirst(ua, "Windows NT ", IsDigitOrDot, p, v);
    CaptureFirst(ua, WindowsNtAt, p, v);
    WindowsNameTable(v);
  }

  /** The macOS version the classifier reads: the first `Mac OS X ` and the run of digits and underscores after it. */
  lemma MacVersion(ua: string, p: nat, v: string)
    requires RunFirstAt(ua, "Mac OS X ", IsDigitOrUnderscore, p, v)
    ensures Capture(ua, MacOsXAt) == Some(v)
  {
    RunFirst(ua, "Mac OS X ", IsDigitOrUnderscore, p, v);
    CaptureFirst(ua, MacOsXAt, p, v);
  }

  /**
   * As written, only the first underscore of the version becomes a dot: for
   * a version `a_b` with no underscore in `a`, the name is `macOS a.b`, and
   * every underscore of `b` is kept.
   */
  lemma MacOsAsWrittenReplacesOnce(ua: string, a: string, b: string)
    requires Capture(ua, MacOsXAt) == Some(a + "_" + b)
    requires '_' !in a
    ensures MacOsNameAsWritten(ua) == "macOS " + a + "." + b
  {
    ReplaceFirstChar(a, '_', b, ".");
  }

  /**
   * The finding: a captured version with two or more underscores, such as
   * `10_15_7` from Safari's `Mac OS X 10_15_7`, keeps an underscore in the
   * name as written (`macOS 10.15_7`), while the corrected name has none
   * (`macOS 10.15.7`).
   */
  lemma MacOsUnderscoreKept(ua: string, a: string, b: string)
    requires Capture(ua, MacOsXAt) == Some(a + "_" + b)
    requires '_' !in a && '_' in b
    ensures '_' in MacOsNameAsWritten(ua)
    ensures '_' !in MacOsName(ua)
  {
    MacOsAsWrittenReplacesOnce(ua, a, b);
    var k :| 0 <= k < |b| && b[k] == '_';
    var r := MacOsNameAsWritten(ua);
    assert r[6 + |a| + 1 + k] == '_';
  }

  /**
   * A Mac agent whose first `Mac OS X ` carries the version `a_b` (`a`
   * digits) is classified, as written, as `macOS a.b` on a `Mac`: any
   * further underscore in `b` stays in the OS name, which the intended
   * classification removes.
   */
  lemma MacRelease(ua: string, baselineOs: string, p: nat, a: string, b: string)
    requires !Contains(ua, "Android") && !Contains(ua, "iPhone") && !Contains(ua, "iPad")
    requires !Contains(ua, "Windows") && Contains(ua, "Macintosh")
    requires RunFirstAt(ua, "Mac OS X ", IsDigitOrUnderscore, p, a + "_" + b) && AllDigits(a)
    ensures ClassifyAgent(ua, baselineOs) == Classification("macOS " + a + "." + b, "Mac")
    ensures '_' in b ==> '_' in ClassifyAgent(ua, baselineOs).os && '_' !in ClassifyAgentIntended(ua, baselineOs).os
  {
    MacNameAt(ua, p, a, b);
    MacBranch(ua);
    MacClassified(ua, baselineOs);
  }

  /** A `Mac` agent is classified with the macOS name, as written and as intended. */
  lemma MacClassified(ua: string, baselineOs: string)
    requires Branch(ua) == Mac
    ensures ClassifyAgent(ua, baselineOs) == Classification(MacOsNameAsWritten(ua), "Mac")
    ensures ClassifyAgentIntended(ua, baselineOs).os == MacOsName(ua)
  {
  }

  /** The macOS names, as written and as intended, of an agent whose first `Mac OS X ` carries `a_b`. */
  lemma MacNameAt(ua: string, p: nat, a: string, b: string)
    requires RunFirstAt(ua, "Mac OS X ", IsDigitOrUnderscore, p, a + "_" + b) && AllDigits(a)
    ensures MacOsNameAsWritten(ua) == "macOS " + a + "." + b
    ensures '_' in b ==> '_' in MacOsNameAsWritten(ua) && '_' !in MacOsName(ua)
  {
    MacVersion(ua, p, a + "_" + b);
    assert '_' !in a by {
      forall i | 0 <= i < |a|
        ensures a[i] != '_'
      {
        assert IsDigit(a[i]);
      }
    }
    MacOsAsWrittenReplacesOnce(ua, a, b);
    if '_' in b {
      MacOsUnderscoreKept(ua, a, b);
    }
  }

  /**
   * The library's OS name reaches the result only in the Linux, other-mobile
   * and unmatched branches, where it is kept unchanged; it never affects the
   * device.
   */
  lemma BaselineOnlyReachesOs(ua: string, b1: string, b2: string)
    ensures ClassifyAgent(ua, b1).device == ClassifyAgent(ua, b2).device
    ensures Branch(ua) in {Linux, OtherMobile, Unmatched} ==> ClassifyAgent(ua, b1).os == b1
    ensures Branch(ua) !in {Linux, OtherMobile, Unmatched} ==> ClassifyAgent(ua, b1).os == ClassifyAgent(ua, b2).os
  {
  }

  /** A request without a user agent is a desktop with the library's OS name. */
  lemma MissingUserAgent(req: Request, lookup: string -> Call<Option<GeoRecord>>, parseAgent: string -> Call<Agent>)
    requires req.userAgent.None? || req.userAgent == Some("")
    ensures var r := ParseUserInfo(req, lookup, parseAgent);
      r.Parsed? ==> r.userAgent == "" && r.device == "Desktop" && r.os == BaselineOs(parseAgent("").value)
  {
    EmptyAgentUnmatched();
  }

  lemma EmptyAgentUnmatched()
    ensures Branch("") == Unmatched
  {
    EmptyContainsNothing("Android");
    EmptyContainsNothing("iPhone");
    EmptyContainsNothing("iPad");
    EmptyContainsNothing("Windows");
    EmptyContainsNothing("Macintosh");
    EmptyContainsNothing("Linux");
    EmptyContainsNothing("curl");
    EmptyContainsNothing("python");
    EmptyContainsNothing("node");
    EmptyContainsNothing("Mobile");
  }
}
