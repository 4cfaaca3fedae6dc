/**
 The Capirca platform resolver of `salt/modules/napalm_acl.py`: from the
 device grains `vendor`, `os` and `model` it picks the platform name the
 Capirca policy compiler is asked to generate for. Comparisons are made on
 the lowercased grains and the first matching rule wins; when no rule
 matches, the lowercased vendor is the platform name.
 */
module Platform {
  import opened Wrappers
  import opened Ascii

  /** The three device grains the resolver reads. */
  datatype Facts = Facts(vendor: string, os: string, model: string)

  /** The grain keys, in the order the resolver looks them up. */
  const VendorKey := "vendor"
  const OsKey := "os"
  const ModelKey := "model"

  const JuniperSrx := "junipersrx"
  const Cisco := "cisco"
  const CiscoXr := "ciscoxr"
  const CiscoAsa := "ciscoasa"
  const Iptables := "iptables"
  const PaloAltoFw := "paloaltofw"

  /** The platform names the resolver can produce without falling back to the vendor. */
  const FixedPlatforms: set<string> := {JuniperSrx, Cisco, CiscoXr, CiscoAsa, Iptables, PaloAltoFw}

  /**
   Looks the three grains up in the grains dictionary. A missing key is a
   `KeyError` in the source; the failure carries the first missing key, in
   lookup order vendor, os, model.
   */
  function ReadFacts(grains: map<string, string>): (r: Result<Facts, string>)
    ensures r.Success? <==> VendorKey in grains && OsKey in grains && ModelKey in grains
    ensures r.Success? ==> r.value == Facts(grains[VendorKey], grains[OsKey], grains[ModelKey])
    ensures r.Failure? ==> r.error in {VendorKey, OsKey, ModelKey} && r.error !in grains
    ensures r.Failure? && r.error == OsKey ==> VendorKey in grains
    ensures r.Failure? && r.error == ModelKey ==> VendorKey in grains && OsKey in grains
  {
    if VendorKey !in grains then Failure(VendorKey)
    else if OsKey !in grains then Failure(OsKey)
    else if ModelKey !in grains then Failure(ModelKey)
    else Success(Facts(grains[VendorKey], grains[OsKey], grains[ModelKey]))
  }

  /** The grains as the resolver compares them. */
  function LowerFacts(f: Facts): (r: Facts)
    ensures IsLower(r.vendor) && IsLower(r.os) && IsLower(r.model)
    ensures EqualIgnoringCase(r.vendor, f.vendor) && EqualIgnoringCase(r.os, f.os)
    ensures EqualIgnoringCase(r.model, f.model)
  {
    Facts(Lower(f.vendor), Lower(f.os), Lower(f.model))
  }

  /**
   The resolver. Its result is one of the fixed platform names or the
   lowercased vendor, so it is always lowercase; it never fails.
   */
  function Resolve(f: Facts): (r: string)
    ensures r in FixedPlatforms || r == Lower(f.vendor)
    ensures IsLower(r)
  {
    var vendor := Lower(f.vendor);
    var os := Lower(f.os);
    var model := Lower(f.model);
    if vendor == "juniper" && Contains(model, "srx") then JuniperSrx
    else if vendor == "cisco" && os == "ios" then Cisco
    else if vendor == "cisco" && os == "iosxr" then CiscoXr
    else if vendor == "cisco" && os == "asa" then CiscoAsa
    else if os == "linux" then Iptables
    else if vendor == "palo alto networks" then PaloAltoFw
    else vendor
  }

  /** The resolver as the module calls it: grains lookup, then resolution. */
  function CapircaPlatform(grains: map<string, string>): (r: Result<string, string>)
    ensures r.Failure? <==> ReadFacts(grains).Failure?
    ensures r.Failure? ==> r.error == ReadFacts(grains).error
    ensures r.Success? ==> r.value == Resolve(ReadFacts(grains).value)
    ensures r.Success? ==> IsLower(r.value)
    ensures r.Success? ==> r.value in FixedPlatforms || r.value == Lower(grains[VendorKey])
  {
    match ReadFacts(grains)
    case Failure(key) => Failure(key)
    case Success(f) => Success(Resolve(f))
  }

  // ---------------------------------------------------------------------------
  // Rules, one lemma per branch
  // ---------------------------------------------------------------------------

  /** A Juniper device whose model mentions "srx" is an SRX, whatever its os. */
  lemma JuniperSrxRule(f: Facts)
    requires Lower(f.vendor) == "juniper" && Contains(Lower(f.model), "srx")
    ensures Resolve(f) == JuniperSrx
  {
  }

  /** A Juniper device that is not an SRX is compiled for as plain "juniper" unless it runs linux. */
  lemma JuniperNonSrx(f: Facts)
    requires Lower(f.vendor) == "juniper" && !Contains(Lower(f.model), "srx")
    ensures Lower(f.os) == "linux" ==> Resolve(f) == Iptables
    ensures Lower(f.os) != "linux" ==> Resolve(f) == "juniper"
  {
  }

  /** The Cisco rules: ios, iosxr and asa have their own platforms; any other os falls through. */
  lemma CiscoRules(f: Facts)
    requires Lower(f.vendor) == "cisco"
    ensures Lower(f.os) == "ios" ==> Resolve(f) == Cisco
    ensures Lower(f.os) == "iosxr" ==> Resolve(f) == CiscoXr
    ensures Lower(f.os) == "asa" ==> Resolve(f) == CiscoAsa
    ensures Lower(f.os) == "linux" ==> Resolve(f) == Iptables
    ensures Lower(f.os) !in {"iosxr", "asa", "linux"} ==> Resolve(f) == Cisco
  {
  }

  /** linux means iptables for every device the Juniper SRX rule did not claim first. */
  lemma LinuxRule(f: Facts)
    requires Lower(f.os) == "linux"
    ensures !(Lower(f.vendor) == "juniper" && Contains(Lower(f.model), "srx")) ==> Resolve(f) == Iptables
    ensures Lower(f.vendor) == "juniper" && Contains(Lower(f.model), "srx") ==> Resolve(f) == JuniperSrx
  {
  }

  /** The linux rule takes precedence over the Palo Alto rule. */
  lemma PaloAltoRule(f: Facts)
    requires Lower(f.vendor) == "palo alto networks"
    ensures Lower(f.os) == "linux" ==> Resolve(f) == Iptables
    ensures Lower(f.os) != "linux" ==> Resolve(f) == PaloAltoFw
  {
  }

  /** No rule matches: the platform is the lowercased vendor. */
  lemma VendorFallback(f: Facts)
    requires !(Lower(f.vendor) == "juniper" && Contains(Lower(f.model), "srx"))
    requires !(Lower(f.vendor) == "cisco" && Lower(f.os) in {"ios", "iosxr", "asa"})
    requires Lower(f.os) != "linux"
    requires Lower(f.vendor) != "palo alto networks"
    ensures Resolve(f) == Lower(f.vendor)
  {
  }

  // ---------------------------------------------------------------------------
  // Which grains produce each fixed platform name. Each right-hand side has a
  // second disjunct because the vendor fallback can spell a platform name too.
  // ---------------------------------------------------------------------------

  lemma ResolvesToJuniperSrxIff(f: Facts)
    ensures var v, o, m := Lower(f.vendor), Lower(f.os), Lower(f.model);
      Resolve(f) == JuniperSrx <==> (v == "juniper" && Contains(m, "srx")) || (v == JuniperSrx && o != "linux")
  {
  }

  lemma ResolvesToCiscoIff(f: Facts)
    ensures var v, o := Lower(f.vendor), Lower(f.os);
      Resolve(f) == Cisco <==> v == "cisco" && o !in {"iosxr", "asa", "linux"}
  {
  }

  lemma ResolvesToCiscoXrIff(f: Facts)
    ensures var v, o := Lower(f.vendor), Lower(f.os);
      Resolve(f) == CiscoXr <==> (v == "cisco" && o == "iosxr") || (v == CiscoXr && o != "linux")
  {
  }

  lemma ResolvesToCiscoAsaIff(f: Facts)
    ensures var v, o := Lower(f.vendor), Lower(f.os);
      Resolve(f) == CiscoAsa <==> (v == "cisco" && o == "asa") || (v == CiscoAsa && o != "linux")
  {
  }

  lemma ResolvesToIptablesIff(f: Facts)
    ensures var v, o, m := Lower(f.vendor), Lower(f.os), Lower(f.model);
      Resolve(f) == Iptables <==> (o == "linux" && !(v == "juniper" && Contains(m, "srx"))) || (v == Iptables && o != "linux")
  {
  }

  lemma ResolvesToPaloAltoFwIff(f: Facts)
    ensures var v, o := Lower(f.vendor), Lower(f.os);
      Resolve(f) == PaloAltoFw <==> (v == "palo alto networks" || v == PaloAltoFw) && o != "linux"
  {
  }

  // ---------------------------------------------------------------------------
  // Case-insensitivity
  // ---------------------------------------------------------------------------

  /** Grains that differ only in the case of their letters resolve to the same platform. */
  lemma CaseInsensitive(f: Facts, g: Facts)
    requires EqualIgnoringCase(f.vendor, g.vendor) && EqualIgnoringCase(f.os, g.os)
    requires EqualIgnoringCase(f.model, g.model)
    ensures Resolve(f) == Resolve(g)
  {
    LowerEqualIff(f.vendor, g.vendor);
    LowerEqualIff(f.os, g.os);
    LowerEqualIff(f.model, g.model);
  }

  /** Resolving already-lowercased grains, or fully uppercased ones, changes nothing. */
  lemma LowerAndUpperFactsResolveAlike(f: Facts)
    ensures Resolve(LowerFacts(f)) == Resolve(f)
    ensures Resolve(Facts(Upper(f.vendor), Upper(f.os), Upper(f.model))) == Resolve(f)
  {
    CaseInsensitive(LowerFacts(f), f);
    LowerOfUpper(f.vendor);
    LowerOfUpper(f.os);
    LowerOfUpper(f.model);
    CaseInsensitive(Facts(Upper(f.vendor), Upper(f.os), Upper(f.model)), f);
  }

  // ---------------------------------------------------------------------------
  // Reference definition: the rule table as data, evaluated first match first
  // ---------------------------------------------------------------------------

  /** How one column of a rule constrains one lowercased grain. */
  datatype Pattern = Any | Exactly(text: string) | Containing(text: string)

  /** One row of the table: vendor, model and os patterns and the platform it selects. */
  datatype Rule = Rule(vendor: Pattern, model: Pattern, os: Pattern, platform: string)

  predicate PatternMatches(p: Pattern, s: string) {
    match p
    case Any => true
    case Exactly(t) => s == t
    case Containing(t) => Contains(s, t)
  }

  predicate RuleMatches(rule: Rule, f: Facts) {
    PatternMatches(rule.vendor, f.vendor) && PatternMatches(rule.model, f.model) && PatternMatches(rule.os, f.os)
  }

  /** The resolver's rules in the order the source tries them. */
  const RuleTable: seq<Rule> := [
    Rule(Exactly("juniper"), Containing("srx"), Any, JuniperSrx),
    Rule(Exactly("cisco"), Any, Exactly("ios"), Cisco),
    Rule(Exactly("cisco"), Any, Exactly("iosxr"), CiscoXr),
    Rule(Exactly("cisco"), Any, Exactly("asa"), CiscoAsa),
    Rule(Any, Any, Exactly("linux"), Iptables),
    Rule(Exactly("palo alto networks"), Any, Any, PaloAltoFw)
  ]

  /** The platform of the first rule that matches, if any. */
  function FirstMatch(rules: seq<Rule>, f: Facts): Option<string> {
    if |rules| == 0 then None
    else if RuleMatches(rules[0], f) then Some(rules[0].platform)
    else FirstMatch(rules[1..], f)
  }

  /** Rule `i` is the earliest one that matches. */
  predicate IsFirstMatch(rules: seq<Rule>, f: Facts, i: int) {
    0 <= i < |rules| && RuleMatches(rules[i], f) && forall j :: 0 <= j < i ==> !RuleMatches(rules[j], f)
  }

  /** `FirstMatch` answers with the platform of the earliest matching rule, and with nothing when none matches. */
  lemma {:induction false} FirstMatchIsEarliest(rules: seq<Rule>, f: Facts)
    ensures FirstMatch(rules, f).None? <==> forall i :: 0 <= i < |rules| ==> !RuleMatches(rules[i], f)
    ensures FirstMatch(rules, f).Some? ==>
      exists i :: IsFirstMatch(rules, f, i) && FirstMatch(rules, f).value == rules[i].platform
    decreases |rules|
  {
    if |rules| == 0 {
    } else if RuleMatches(rules[0], f) {
      assert IsFirstMatch(rules, f, 0);
    } else {
      FirstMatchIsEarliest(rules[1..], f);
      assert forall i :: 1 <= i < |rules| ==> rules[i] == rules[1..][i - 1];
      if FirstMatch(rules[1..], f).Some? {
        var k :| IsFirstMatch(rules[1..], f, k) && FirstMatch(rules[1..], f).value == rules[1..][k].platform;
        assert IsFirstMatch(rules, f, k + 1);
      } else {
        assert forall i :: 0 <= i < |rules| ==> !RuleMatches(rules[i], f) by {
          forall i | 0 <= i < |rules|
            ensures !RuleMatches(rules[i], f)
          {
            if i > 0 {
              assert !RuleMatches(rules[1..][i - 1], f);
            }
          }
        }
      }
    }
  }

  /** The resolver read as a table: first matching rule, else the vendor. */
  function ResolveByTable(f: Facts): string {
    var lowered := LowerFacts(f);
    FirstMatch(RuleTable, lowered).GetOr(lowered.vendor)
  }

  /** The if/elif chain and the rule table agree on every device. */
  lemma {:induction false} ResolveAgreesWithTable(f: Facts)
    ensures Resolve(f) == ResolveByTable(f)
  {
    var l := LowerFacts(f);
    var t := RuleTable;
    assert FirstMatch(t[5..], l) == if RuleMatches(t[5], l) then Some(PaloAltoFw) else None;
    assert FirstMatch(t[4..], l) == if RuleMatches(t[4], l) then Some(Iptables) else FirstMatch(t[5..], l);
    assert FirstMatch(t[3..], l) == if RuleMatches(t[3], l) then Some(CiscoAsa) else FirstMatch(t[4..], l);
    assert FirstMatch(t[2..], l) == if RuleMatches(t[2], l) then Some(CiscoXr) else FirstMatch(t[3..], l);
    assert FirstMatch(t[1..], l) == if RuleMatches(t[1], l) then Some(Cisco) else FirstMatch(t[2..], l);
  }

  /**
   End to end: the resolver answers with the platform of the earliest rule of
   the table that matches the lowercased grains, or, when none matches, with
   the lowercased vendor.
   */
  lemma ResolveIsEarliestRule(f: Facts)
    ensures || (exists i :: IsFirstMatch(RuleTable, LowerFacts(f), i) && Resolve(f) == RuleTable[i].platform)
            || ((forall i :: 0 <= i < |RuleTable| ==> !RuleMatches(RuleTable[i], LowerFacts(f)))
                && Resolve(f) == Lower(f.vendor))
  {
    ResolveAgreesWithTable(f);
    FirstMatchIsEarliest(RuleTable, LowerFacts(f));
  }
}
