/** Direct-access rules: parsing rule text, matching domains and addresses, and the domains that are always
    proxied. Address parsing, number parsing and Unicode lower-casing are library functions. */
module DirectAccess {
  import opened Basics
  import opened Bits
  import opened Cidr
  import opened Text

  datatype Mode = ProxyAll | DirectAll | Rules

  datatype Rule =
    | ExactDomain(domain: string)
    | WildcardDomain(suffix: string)
    | ExactIp(ip: IpAddr)
    | CidrV4(network: nat, mask: nat)
    | CidrV6(network: nat, mask: nat)

  datatype Address = Domain(host: string) | Ip(ip: IpAddr) | ProxyDns | UdpRelay

  datatype Checker = Checker(mode: Mode, rules: seq<Rule>)

  datatype Library = Library(
    ipv4: string -> Option<nat>, ipv6: string -> Option<nat>, u8: string -> Option<byte>, lower: string -> string)

  predicate IpChar(c: char) {
    '0' <= c <= '9' || 'a' <= c <= 'f' || 'A' <= c <= 'F' || c == ':' || c == '.'
  }

  ghost predicate OnlyIpChars(s: string) {
    forall i :: 0 <= i < |s| ==> IpChar(s[i])
  }

  predicate EndsInDot(s: string) {
    s != [] && s[|s| - 1] == '.'
  }

  ghost predicate Lawful(lib: Library) {
    && (forall s :: lib.ipv4(s).Some? ==> lib.ipv4(s).value < Pow2(V4_BITS) && OnlyIpChars(s))
    && (forall s :: lib.ipv6(s).Some? ==> lib.ipv6(s).value < Pow2(V6_BITS) && OnlyIpChars(s))
    && (forall s :: EndsInDot(lib.lower(s)) <==> EndsInDot(s)) && lib.lower("") == ""
    && (forall s :: lib.lower("*." + s) == "*." + lib.lower(s))
  }

  const FORCE_PROXY: seq<string> := [
    "google.com", "google.cn", "googleapis.com", "googleapis.cn", "googleusercontent.com", "gstatic.com", "gvt1.com",
    "gvt2.com", "youtube.com", "youtube-nocookie.com", "ytimg.com", "googlevideo.com", "ggpht.com",
    "xn--ngstr-lra8j.com"]

  // ----- Parsing -----

  function ParseIp(lib: Library, s: string): Option<IpAddr> {
    match lib.ipv4(s)
    case Some(x) => Some(V4(x))
    case None => (match lib.ipv6(s) case Some(x) => Some(V6(x)) case None => None)
  }

  /** The position of the first slash, or the length of the text. */
  function Slash(s: string): (i: nat)
    ensures i <= |s| && (forall j :: 0 <= j < i ==> s[j] != '/') && (i < |s| ==> s[i] == '/')
  {
    if s == [] || s[0] == '/' then 0 else 1 + Slash(s[1..])
  }

  function ParseCidr(lib: Library, ip: string, prefix: string): Option<Rule> {
    match lib.u8(prefix)
    case None => None
    case Some(n) =>
      match lib.ipv4(ip)
      case Some(x) =>
        if n > V4_BITS then None else Some(CidrV4(And(x, Mask(n, V4_BITS)), Mask(n, V4_BITS)))
      case None =>
        match lib.ipv6(ip)
        case Some(x) =>
          if n > V6_BITS then None else Some(CidrV6(And(x, Mask(n, V6_BITS)), Mask(n, V6_BITS)))
        case None => None
  }

  function ParseRule(lib: Library, text: string): Option<Rule> {
    var rule := Trim(text);
    if rule == "" then None
    else if Slash(rule) < |rule| then ParseCidr(lib, rule[..Slash(rule)], rule[Slash(rule) + 1..])
    else
      match ParseIp(lib, rule)
      case Some(ip) => Some(ExactIp(ip))
      case None =>
        if "*." <= rule then Some(WildcardDomain("." + lib.lower(rule[2..])))
        else Some(ExactDomain(lib.lower(rule)))
  }

  /** Rules that do not parse are skipped. */
  function ParseRules(lib: Library, texts: seq<string>): seq<Rule> {
    if texts == [] then []
    else (match ParseRule(lib, texts[0]) case Some(r) => [r] case None => []) + ParseRules(lib, texts[1..])
  }

  // ----- Matching -----

  function Normalize(lib: Library, host: string): string {
    lib.lower(TrimEndDots(Trim(host)))
  }

  predicate MatchDomain(rule: Rule, host: string) {
    match rule
    case ExactDomain(domain) => host == domain
    case WildcardDomain(suffix) => EndsWith(host, suffix) && |host| > |suffix|
    case _ => false
  }

  predicate MatchIp(rule: Rule, ip: IpAddr) {
    match rule
    case ExactIp(x) => x == ip
    case CidrV4(network, mask) => ip.V4? && And(ip.v4, mask) == network
    case CidrV6(network, mask) => ip.V6? && And(ip.v6, mask) == network
    case _ => false
  }

  predicate ForceProxy(host: string) {
    exists i :: 0 <= i < |FORCE_PROXY| && (host == FORCE_PROXY[i] || EndsWith(host, "." + FORCE_PROXY[i]))
  }

  predicate AnyDomain(rules: seq<Rule>, host: string) {
    exists i :: 0 <= i < |rules| && MatchDomain(rules[i], host)
  }

  predicate AnyIp(rules: seq<Rule>, ip: IpAddr) {
    exists i :: 0 <= i < |rules| && MatchIp(rules[i], ip)
  }

  predicate MatchesAnyRule(lib: Library, rules: seq<Rule>, address: Address) {
    match address
    case Domain(host) =>
      var name := Normalize(lib, host);
      (match ParseIp(lib, name)
       case Some(ip) => AnyIp(rules, ip)
       case None => !ForceProxy(name) && AnyDomain(rules, name))
    case Ip(ip) => AnyIp(rules, ip)
    case _ => false
  }

  predicate IsDirect(lib: Library, c: Checker, address: Address) {
    match c.mode
    case ProxyAll => false
    case DirectAll => true
    case Rules => MatchesAnyRule(lib, c.rules, address)
  }

  predicate IsDirectDomain(lib: Library, c: Checker, host: string) {
    match c.mode
    case ProxyAll => false
    case DirectAll => true
    case Rules => !ForceProxy(Normalize(lib, host)) && AnyDomain(c.rules, Normalize(lib, host))
  }

  predicate IsDomainRule(rule: Rule) {
    rule.ExactDomain? || rule.WildcardDomain?
  }

  predicate HasDomainDirectRules(c: Checker) {
    c.mode.Rules? && exists i :: 0 <= i < |c.rules| && IsDomainRule(c.rules[i])
  }

  // ----- What rules mean -----

  /** An IPv4 CIDR rule matches exactly the IPv4 addresses that agree with it on the leading bits, for every prefix
      length from 0 to 32; a longer prefix makes no rule. */
  lemma Ipv4CidrMeans(lib: Library, ip: string, prefix: string, x: IpAddr)
    requires lib.ipv4(ip).Some? && lib.u8(prefix).Some?
    ensures ParseCidr(lib, ip, prefix).Some? <==> lib.u8(prefix).value <= V4_BITS
    ensures ParseCidr(lib, ip, prefix).Some? ==>
              (MatchIp(ParseCidr(lib, ip, prefix).value, x) <==>
               x.V4? && LeadingBitsAgree(x.v4, lib.ipv4(ip).value, lib.u8(prefix).value, V4_BITS))
  {
    if x.V4? && lib.u8(prefix).value <= V4_BITS {
      CidrIsLeadingBits(x.v4, lib.ipv4(ip).value, lib.u8(prefix).value, V4_BITS);
    }
  }

  /** The same for IPv6, up to 128 bits; text that is no address, or a prefix that is no number, makes no rule. */
  lemma Ipv6CidrMeans(lib: Library, ip: string, prefix: string, x: IpAddr)
    requires lib.ipv4(ip).None?
    ensures ParseCidr(lib, ip, prefix).Some? <==>
              lib.ipv6(ip).Some? && lib.u8(prefix).Some? && lib.u8(prefix).value <= V6_BITS
    ensures ParseCidr(lib, ip, prefix).Some? ==>
              (MatchIp(ParseCidr(lib, ip, prefix).value, x) <==>
               x.V6? && LeadingBitsAgree(x.v6, lib.ipv6(ip).value, lib.u8(prefix).value, V6_BITS))
  {
    if x.V6? && ParseCidr(lib, ip, prefix).Some? {
      CidrIsLeadingBits(x.v6, lib.ipv6(ip).value, lib.u8(prefix).value, V6_BITS);
    }
  }

  lemma StarIsNoIp(lib: Library, s: string)
    requires Lawful(lib) && "*." <= s
    ensures ParseIp(lib, s) == None
  {
    assert !IpChar(s[0]);
  }

  lemma WildcardParses(lib: Library, rule: string)
    requires Lawful(lib) && Trim(rule) == rule && "*." <= rule && Slash(rule) == |rule|
    ensures ParseRule(lib, rule) == Some(WildcardDomain("." + lib.lower(rule[2..])))
  {
    StarIsNoIp(lib, rule);
  }

  /** A wildcard rule matches exactly the proper subdomains, never the domain itself. */
  lemma WildcardMeans(suffix: string, host: string)
    ensures MatchDomain(WildcardDomain("." + suffix), host) <==> exists sub :: sub != "" && host == sub + ("." + suffix)
    ensures !MatchDomain(WildcardDomain("." + suffix), suffix)
  {
    var dotted := "." + suffix;
    if EndsWith(host, dotted) && |host| > |dotted| {
      var sub := host[..|host| - |dotted|];
      assert host == sub + dotted;
    }
    if sub :| sub != "" && host == sub + dotted {
      assert host[|host| - |dotted|..] == dotted;
    }
  }

  lemma {:induction false} NoTrailingDot(s: string)
    ensures !EndsInDot(TrimEndDots(s))
  {
    if EndsInDot(s) {
      NoTrailingDot(s[..|s| - 1]);
    }
  }

  /** Hosts lose their trailing dots but rules keep them: a domain rule written with one never matches anything. */
  lemma TrailingDotRuleIsDead(lib: Library, rule: string, host: string)
    requires Lawful(lib) && EndsInDot(Trim(rule)) && ParseRule(lib, rule).Some?
    requires IsDomainRule(ParseRule(lib, rule).value)
    ensures !MatchDomain(ParseRule(lib, rule).value, Normalize(lib, host))
  {
    NoTrailingDot(Trim(host));
    var name := Normalize(lib, host);
    assert !EndsInDot(name);
    var r := Trim(rule);
    match ParseRule(lib, rule).value
    case ExactDomain(domain) =>
      assert EndsInDot(domain);
    case WildcardDomain(suffix) =>
      assert r[2..] == "" || EndsInDot(r[2..]);
      assert EndsInDot(suffix);
    case _ =>
  }

  lemma {:induction false} TrimEndIsStable(s: string)
    ensures TrimEnd(TrimEnd(s)) == TrimEnd(s) && (s == [] || !IsSpace(s[0]) ==> TrimStart(TrimEnd(s)) == TrimEnd(s))
  {
    if s != [] && IsSpace(s[|s| - 1]) {
      TrimEndIsStable(s[..|s| - 1]);
    }
  }

  lemma {:induction false} TrimStartEnds(s: string)
    ensures TrimStart(s) == [] || !IsSpace(TrimStart(s)[0])
  {
    if s != [] && IsSpace(s[0]) {
      TrimStartEnds(s[1..]);
    }
  }

  lemma TrimIsStable(s: string)
    ensures Trim(Trim(s)) == Trim(s)
  {
    TrimStartEnds(s);
    TrimEndIsStable(TrimStart(s));
  }

  /** A rule without a trailing dot matches its own text, read as a host name. */
  lemma LiveRuleMatchesItself(lib: Library, rule: string)
    requires Lawful(lib) && !EndsInDot(Trim(rule)) && ParseRule(lib, rule).Some?
    requires IsDomainRule(ParseRule(lib, rule).value)
    ensures MatchDomain(ParseRule(lib, rule).value, Normalize(lib, Trim(rule)))
  {
    var r := Trim(rule);
    TrimIsStable(rule);
    assert Normalize(lib, r) == lib.lower(r);
    if "*." <= r {
      var tail := lib.lower(r[2..]);
      assert r == "*." + r[2..];
      assert lib.lower(r) == "*" + ("." + tail);
    }
  }

  /** Hosts lose their trailing dots but rules keep them: a domain rule matches some host, however that is written, if
      and only if it was not written with a trailing dot. */
  lemma DomainRuleIsLiveIff(lib: Library, rule: string)
    requires Lawful(lib) && ParseRule(lib, rule).Some? && IsDomainRule(ParseRule(lib, rule).value)
    ensures (exists host :: MatchDomain(ParseRule(lib, rule).value, Normalize(lib, host))) <==> !EndsInDot(Trim(rule))
  {
    if EndsInDot(Trim(rule)) {
      forall host ensures !MatchDomain(ParseRule(lib, rule).value, Normalize(lib, host)) {
        TrailingDotRuleIsDead(lib, rule, host);
      }
    } else {
      LiveRuleMatchesItself(lib, rule);
    }
  }

  // ----- Names that are always proxied -----

  predicate EndsInLetter(s: string) {
    s != [] && (s[|s| - 1] == 'm' || s[|s| - 1] == 'n')
  }

  lemma SuffixesEndInLetter(i: nat)
    requires i < |FORCE_PROXY|
    ensures EndsInLetter(FORCE_PROXY[i])
  {
  }

  lemma LetterEndsWith(host: string, suffix: string)
    requires EndsInLetter(suffix) && (host == suffix || EndsWith(host, "." + suffix))
    ensures EndsInLetter(host)
  {
    var dotted := "." + suffix;
    if host != suffix {
      assert host[|host| - 1] == host[|host| - |dotted|..][|dotted| - 1];
    }
  }

  lemma ForceProxyIsNoIp(lib: Library, host: string)
    requires Lawful(lib) && ForceProxy(host)
    ensures ParseIp(lib, host) == None
  {
    var i :| 0 <= i < |FORCE_PROXY| && (host == FORCE_PROXY[i] || EndsWith(host, "." + FORCE_PROXY[i]));
    SuffixesEndInLetter(i);
    LetterEndsWith(host, FORCE_PROXY[i]);
    assert !IpChar(host[|host| - 1]);
  }

  /** In rules mode no rule whatever makes a force-proxied name direct, however it is written and whichever of the
      two entry points is asked. */
  lemma ForceProxiedIsNeverDirect(lib: Library, c: Checker, host: string)
    requires Lawful(lib) && c.mode.Rules? && ForceProxy(Normalize(lib, host))
    ensures !IsDirect(lib, c, Domain(host)) && !IsDirectDomain(lib, c, host)
  {
    ForceProxyIsNoIp(lib, Normalize(lib, host));
  }

  /** For names that are not IP texts the two entry points agree; for IP texts only the first looks at IP rules. */
  lemma EntryPointsAgree(lib: Library, c: Checker, host: string)
    requires Lawful(lib)
    ensures ParseIp(lib, Normalize(lib, host)).None? ==>
              (IsDirect(lib, c, Domain(host)) <==> IsDirectDomain(lib, c, host))
    ensures ParseIp(lib, Normalize(lib, host)).Some? ==>
              (IsDirect(lib, c, Domain(host)) <==> IsDirect(lib, c, Ip(ParseIp(lib, Normalize(lib, host)).value)))
  {
  }

  /** Without domain rules no name is direct on its own account, so skipping the domain cache loses nothing. */
  lemma NoDomainRulesNoDirectDomain(lib: Library, c: Checker, host: string)
    requires !HasDomainDirectRules(c) && !c.mode.DirectAll?
    ensures !IsDirectDomain(lib, c, host)
  {
  }

  // ----- From the rule texts to the decision -----

  /** The text names the address: as an address, or as a network whose leading bits it shares. */
  ghost predicate TextNamesIp(lib: Library, text: string, ip: IpAddr) {
    exists rule :: IsTrimmed(text, rule) && (RuleIsIp(lib, rule, ip) || RuleIsNetwork(lib, rule, ip))
  }

  /** `rule` is the text without the spaces around it. */
  ghost predicate IsTrimmed(text: string, rule: string) {
    rule != "" && exists before, after :: Around(text, before, rule, after)
  }

  ghost predicate RuleIsIp(lib: Library, rule: string, ip: IpAddr) {
    '/' !in rule && ParseIp(lib, rule) == Some(ip)
  }

  ghost predicate RuleIsNetwork(lib: Library, rule: string, ip: IpAddr) {
    exists net, prefix :: rule == net + "/" + prefix && '/' !in net && InNetwork(lib, net, prefix, ip)
  }

  ghost predicate InNetwork(lib: Library, net: string, prefix: string, ip: IpAddr) {
    && lib.u8(prefix).Some? && ParseIp(lib, net).Some?
    && var n, base := lib.u8(prefix).value, ParseIp(lib, net).value;
       || (base.V4? && ip.V4? && n <= 32 && LeadingBitsAgree(ip.v4, base.v4, n, 32))
       || (base.V6? && ip.V6? && n <= 128 && LeadingBitsAgree(ip.v6, base.v6, n, 128))
  }

  /** The text names the domain: literally, or by a wildcard of which it is a proper subdomain. */
  ghost predicate TextNamesDomain(lib: Library, text: string, name: string) {
    exists rule :: IsTrimmed(text, rule) && RuleIsDomain(lib, rule, name)
  }

  ghost predicate RuleIsDomain(lib: Library, rule: string, name: string) {
    && '/' !in rule && ParseIp(lib, rule) == None
    && if "*." <= rule then exists sub :: sub != "" && name == sub + ("." + lib.lower(rule[2..])) else name == lib.lower(rule)
  }

  lemma TrimmedIs(text: string, rule: string)
    ensures IsTrimmed(text, rule) <==> rule == Trim(text) && rule != ""
  {
    if IsTrimmed(text, rule) {
      var before, after :| Around(text, before, rule, after);
      TrimOf(text, before, rule, after);
    }
    var before := TrimStartSplits(text);
    var after := TrimEndSplits(TrimStart(text));
    assert Around(text, before, Trim(text), after);
  }

  lemma NoSlash(s: string)
    ensures Slash(s) == |s| <==> '/' !in s
  {
    if Slash(s) < |s| {
      assert s[Slash(s)] in s;
    }
  }

  lemma SlashSplits(net: string, prefix: string)
    requires '/' !in net
    ensures var rule := net + "/" + prefix;
            Slash(rule) == |net| && rule[..|net|] == net && rule[|net| + 1..] == prefix && |net| < |rule|
  {
    var rule := net + "/" + prefix;
    assert rule[|net|] == '/';
  }

  /** One rule and one address. */
  lemma RuleMatchesIp(lib: Library, rule: string, ip: IpAddr)
    requires rule == Trim(rule) && rule != ""
    ensures (ParseRule(lib, rule).Some? && MatchIp(ParseRule(lib, rule).value, ip)) <==>
              RuleIsIp(lib, rule, ip) || RuleIsNetwork(lib, rule, ip)
  {
    NoSlash(rule);
    if '/' in rule {
      var i := Slash(rule);
      var net, prefix := rule[..i], rule[i + 1..];
      assert rule == net + "/" + prefix;
      assert '/' !in net;
      CidrMatches(lib, net, prefix, ip);
      if RuleIsNetwork(lib, rule, ip) {
        var net', prefix' :| rule == net' + "/" + prefix' && '/' !in net' && InNetwork(lib, net', prefix', ip);
        SlashSplits(net', prefix');
      }
    }
  }

  lemma CidrMatches(lib: Library, net: string, prefix: string, ip: IpAddr)
    ensures (ParseCidr(lib, net, prefix).Some? && MatchIp(ParseCidr(lib, net, prefix).value, ip)) <==> InNetwork(lib, net, prefix, ip)
  {
    if lib.u8(prefix).Some? {
      if lib.ipv4(net).Some? {
        Ipv4CidrMeans(lib, net, prefix, ip);
      } else {
        Ipv6CidrMeans(lib, net, prefix, ip);
      }
    }
  }

  /** One rule and one name. */
  lemma RuleMatchesDomain(lib: Library, rule: string, name: string)
    requires rule == Trim(rule) && rule != ""
    ensures (ParseRule(lib, rule).Some? && MatchDomain(ParseRule(lib, rule).value, name)) <==> RuleIsDomain(lib, rule, name)
  {
    NoSlash(rule);
    if '/' !in rule && ParseIp(lib, rule).None? && "*." <= rule {
      WildcardMeans(lib.lower(rule[2..]), name);
    }
  }

  lemma TextMatches(lib: Library, text: string, ip: IpAddr, name: string)
    ensures (ParseRule(lib, text).Some? && MatchIp(ParseRule(lib, text).value, ip)) <==> TextNamesIp(lib, text, ip)
    ensures (ParseRule(lib, text).Some? && MatchDomain(ParseRule(lib, text).value, name)) <==> TextNamesDomain(lib, text, name)
  {
    var rule := Trim(text);
    TrimIsStable(text);
    forall r ensures IsTrimmed(text, r) <==> r == rule && r != "" {
      TrimmedIs(text, r);
    }
    if rule != "" {
      assert ParseRule(lib, rule) == ParseRule(lib, text);
      RuleMatchesIp(lib, rule, ip);
      RuleMatchesDomain(lib, rule, name);
    }
  }

  ghost predicate SomeNamesIp(lib: Library, texts: seq<string>, ip: IpAddr) {
    exists i :: 0 <= i < |texts| && TextNamesIp(lib, texts[i], ip)
  }

  ghost predicate SomeNamesDomain(lib: Library, texts: seq<string>, name: string) {
    exists i :: 0 <= i < |texts| && TextNamesDomain(lib, texts[i], name)
  }

  lemma {:induction false} ParsedRules(lib: Library, texts: seq<string>, r: Rule)
    ensures r in ParseRules(lib, texts) <==> exists i :: 0 <= i < |texts| && ParseRule(lib, texts[i]) == Some(r)
  {
    if texts != [] {
      var rest := texts[1..];
      ParsedRules(lib, rest, r);
      if r in ParseRules(lib, rest) {
        var i :| 0 <= i < |rest| && ParseRule(lib, rest[i]) == Some(r);
        assert ParseRule(lib, texts[i + 1]) == Some(r);
      }
      if i :| 0 <= i < |texts| && ParseRule(lib, texts[i]) == Some(r) {
        if i > 0 {
          assert ParseRule(lib, rest[i - 1]) == Some(r);
        }
      }
    }
  }

  lemma AnyMatches(lib: Library, texts: seq<string>, ip: IpAddr, name: string)
    ensures AnyIp(ParseRules(lib, texts), ip) <==> SomeNamesIp(lib, texts, ip)
    ensures AnyDomain(ParseRules(lib, texts), name) <==> SomeNamesDomain(lib, texts, name)
  {
    var rules := ParseRules(lib, texts);
    forall i | 0 <= i < |texts|
      ensures TextNamesIp(lib, texts[i], ip) <==> ParseRule(lib, texts[i]).Some? && MatchIp(ParseRule(lib, texts[i]).value, ip)
      ensures TextNamesDomain(lib, texts[i], name) <==> ParseRule(lib, texts[i]).Some? && MatchDomain(ParseRule(lib, texts[i]).value, name)
    {
      TextMatches(lib, texts[i], ip, name);
    }
    forall k | 0 <= k < |rules| ensures exists i :: 0 <= i < |texts| && ParseRule(lib, texts[i]) == Some(rules[k]) {
      ParsedRules(lib, texts, rules[k]);
    }
    forall i | 0 <= i < |texts| && ParseRule(lib, texts[i]).Some? ensures ParseRule(lib, texts[i]).value in rules {
      ParsedRules(lib, texts, ParseRule(lib, texts[i]).value);
    }
  }

  /** What the configuration says. Everything is direct in one mode and nothing in another. With rules, an address is
      direct exactly when some rule text is that address or a network it lies in; a host that is written as an address is
      judged as that address; any other name is direct exactly when it is not force-proxied and some rule text is that
      name, or a wildcard of which it is a proper subdomain. Virtual addresses are never direct by rule. */
  lemma DirectMeans(lib: Library, mode: Mode, texts: seq<string>, ip: IpAddr, host: string, core: string)
    requires IsCore(host, core)
    ensures var c := Checker(mode, ParseRules(lib, texts));
            var name := lib.lower(core);
            && (IsDirect(lib, c, Ip(ip)) <==> mode.DirectAll? || (mode.Rules? && SomeNamesIp(lib, texts, ip)))
            && (ParseIp(lib, name).Some? ==>
                  (IsDirect(lib, c, Domain(host)) <==> mode.DirectAll? || (mode.Rules? && SomeNamesIp(lib, texts, ParseIp(lib, name).value))))
            && (ParseIp(lib, name).None? ==>
                  (IsDirect(lib, c, Domain(host)) <==>
                   mode.DirectAll? || (mode.Rules? && !ForceProxy(name) && SomeNamesDomain(lib, texts, name))))
            && (IsDirectDomain(lib, c, host) <==>
                mode.DirectAll? || (mode.Rules? && !ForceProxy(name) && SomeNamesDomain(lib, texts, name)))
            && (IsDirect(lib, c, ProxyDns) <==> mode.DirectAll?) && (IsDirect(lib, c, UdpRelay) <==> mode.DirectAll?)
  {
    CoreIs(host, core);
    var name := lib.lower(core);
    AnyMatches(lib, texts, ip, name);
    if ParseIp(lib, name).Some? {
      AnyMatches(lib, texts, ParseIp(lib, name).value, name);
    }
  }

  /** Every listed name is force-proxied with all its subdomains, and a name that merely ends in the same letters is not
      taken for one. */
  lemma ForceProxyMeans(host: string)
    ensures ForceProxy(host) <==>
              exists i :: 0 <= i < |FORCE_PROXY| && (host == FORCE_PROXY[i] || exists sub :: host == sub + ("." + FORCE_PROXY[i]))
  {
    forall i | 0 <= i < |FORCE_PROXY|
      ensures EndsWith(host, "." + FORCE_PROXY[i]) <==> exists sub :: host == sub + ("." + FORCE_PROXY[i])
    {
      SuffixMeans(host, "." + FORCE_PROXY[i]);
    }
  }

  lemma SuffixMeans(host: string, suffix: string)
    ensures EndsWith(host, suffix) <==> exists sub :: host == sub + suffix
  {
    if EndsWith(host, suffix) {
      assert host == host[..|host| - |suffix|] + suffix;
    }
    if sub :| host == sub + suffix {
      assert host[|host| - |suffix|..] == suffix;
    }
  }
}
