/**
 Network-failure classification (browserApi.ts). Two substring tests live in
 the source: `navigate` turns the message of a failed `goto` into one of five
 categories with a remediation sentence, or re-raises the original error; the
 connectivity probe of `init` asks a different, six-pattern question whose only
 effect is which of two "healthy" messages `init` returns.
 */
module Classifier {
  import opened Strings

  datatype Category =
    | DnsResolution
    | NavigationTimeout
    | ConnectionRefused
    | ConnectionReset
    | ProxyForbidden

  /** The outcome of classifying a navigation error message. */
  datatype Verdict =
    | Enriched(category: Category)   // `throw new Error(...)` with the category's remediation text
    | Reraise                        // `throw navigationError` unchanged

  /** Position of a category in the cascade; a lower rank is tested first. */
  function Rank(c: Category): nat {
    match c
    case DnsResolution => 0
    case NavigationTimeout => 1
    case ConnectionRefused => 2
    case ConnectionReset => 3
    case ProxyForbidden => 4
  }

  /** The substrings each branch of the cascade tests, as an ordered rule table. */
  function Patterns(c: Category): seq<string> {
    match c
    case DnsResolution => ["net::ERR_NAME_NOT_RESOLVED", "DNS_PROBE_FINISHED_NXDOMAIN", "net::ERR_INTERNET_DISCONNECTED"]
    case NavigationTimeout => ["timeout", "Navigation timeout"]
    case ConnectionRefused => ["net::ERR_CONNECTION_REFUSED"]
    case ConnectionReset => ["ERR_CONNECTION_RESET", "net::ERR_CONNECTION_RESET"]
    case ProxyForbidden => ["403", "Forbidden"]
  }

  /** Some pattern of `ps` occurs in `m`. */
  predicate ContainsAny(m: string, ps: seq<string>) {
    exists k | 0 <= k < |ps| :: Contains(m, ps[k])
  }

  predicate Matches(m: string, c: Category) {
    ContainsAny(m, Patterns(c))
  }

  /** `Matches` spelled out per category, as the branches of the cascade test it. */
  lemma MatchesByCategory(m: string)
    ensures Matches(m, DnsResolution) <==>
      Contains(m, "net::ERR_NAME_NOT_RESOLVED") || Contains(m, "DNS_PROBE_FINISHED_NXDOMAIN")
      || Contains(m, "net::ERR_INTERNET_DISCONNECTED")
    ensures Matches(m, NavigationTimeout) <==> Contains(m, "timeout") || Contains(m, "Navigation timeout")
    ensures Matches(m, ConnectionRefused) <==> Contains(m, "net::ERR_CONNECTION_REFUSED")
    ensures Matches(m, ConnectionReset) <==> Contains(m, "ERR_CONNECTION_RESET") || Contains(m, "net::ERR_CONNECTION_RESET")
    ensures Matches(m, ProxyForbidden) <==> Contains(m, "403") || Contains(m, "Forbidden")
  {
    assert Patterns(DnsResolution)[0] == "net::ERR_NAME_NOT_RESOLVED";
    assert Patterns(DnsResolution)[1] == "DNS_PROBE_FINISHED_NXDOMAIN";
    assert Patterns(DnsResolution)[2] == "net::ERR_INTERNET_DISCONNECTED";
    assert Patterns(NavigationTimeout)[0] == "timeout";
    assert Patterns(NavigationTimeout)[1] == "Navigation timeout";
    assert Patterns(ConnectionRefused)[0] == "net::ERR_CONNECTION_REFUSED";
    assert Patterns(ConnectionReset)[0] == "ERR_CONNECTION_RESET";
    assert Patterns(ConnectionReset)[1] == "net::ERR_CONNECTION_RESET";
    assert Patterns(ProxyForbidden)[0] == "403";
    assert Patterns(ProxyForbidden)[1] == "Forbidden";
  }

  /** The remediation sentence that precedes `"Error: " + m` in an enriched message. */
  function Hint(c: Category): string {
    match c
    case DnsResolution =>
      "Network connectivity issue: The sandbox cannot access the internet. Please check if the sandbox has internet access configured. "
    case NavigationTimeout =>
      "Navigation timeout: The website took too long to load. This could indicate a network issue or the website is down. "
    case ConnectionRefused =>
      "Connection refused: The website refused the connection. This could be a firewall or network configuration issue. "
    case ConnectionReset =>
      "Connection reset: The connection was reset by the server or a proxy. This often indicates that a network proxy (like Envoy/Istio) is blocking external internet access. Please check your Daytona network security settings to allow internet access. "
    case ProxyForbidden =>
      "Access forbidden: The request was blocked by a network proxy (likely Envoy). Your Daytona sandbox appears to have network restrictions that block external internet access. Please contact your administrator to configure network security rules to allow internet access. "
  }

  /**
   The catch block of `navigate`: a first-match cascade over the message of the
   failed navigation, written in the source's order and with its disjuncts.
   */
  function Classify(m: string): (v: Verdict)
    ensures v.Reraise? <==> forall c :: !Matches(m, c)
    ensures v.Enriched? ==> Matches(m, v.category)
    ensures v.Enriched? ==> forall c :: Rank(c) < Rank(v.category) ==> !Matches(m, c)
  {
    MatchesByCategory(m);
    if Contains(m, "net::ERR_NAME_NOT_RESOLVED")
      || Contains(m, "DNS_PROBE_FINISHED_NXDOMAIN")
      || Contains(m, "net::ERR_INTERNET_DISCONNECTED")
    then
      Enriched(DnsResolution)
    else if Contains(m, "timeout") || Contains(m, "Navigation timeout") then
      Enriched(NavigationTimeout)
    else if Contains(m, "net::ERR_CONNECTION_REFUSED") then
      Enriched(ConnectionRefused)
    else if Contains(m, "ERR_CONNECTION_RESET") || Contains(m, "net::ERR_CONNECTION_RESET") then
      Enriched(ConnectionReset)
    else if Contains(m, "403") || Contains(m, "Forbidden") then
      Enriched(ProxyForbidden)
    else
      Reraise
  }

  /** `hint + "Error: " + m`: the hint first, the original message last. */
  function Decorate(hint: string, m: string): (text: string)
    ensures StartsWith(text, hint)
    ensures EndsWith(text, "Error: " + m) && EndsWith(text, m)
    ensures |text| == |hint| + |"Error: "| + |m|
  {
    Affixes(hint, "Error: ", m);
    Affixes(hint + "Error: ", m, "");
    assert m + "" == m;
    hint + "Error: " + m
  }

  /**
   The message `navigate` reports for a failed navigation: the category's hint
   followed by `"Error: "` and the original message, or the original message
   unchanged when no category matches and the error is rethrown.
   */
  function NavigationError(m: string): (text: string)
    ensures EndsWith(text, m)
    ensures Classify(m).Enriched? ==>
      var hint := Hint(Classify(m).category);
      && StartsWith(text, hint)
      && EndsWith(text, "Error: " + m)
      && |text| == |hint| + |"Error: "| + |m|
    ensures Classify(m).Reraise? ==> text == m
  {
    match Classify(m)
    case Reraise =>
      assert EndsWith(m, m) by { assert m[|m| - |m|..] == m; }
      m
    case Enriched(c) => Decorate(Hint(c), m)
  }

  /** The classification is determined by the categories the message matches: the first one wins. */
  lemma ClassifyIsFirstMatch(m: string, c: Category)
    ensures Classify(m) == Enriched(c)
            <==> Matches(m, c) && forall d :: Rank(d) < Rank(c) ==> !Matches(m, d)
  {
    var v := Classify(m);
    if v.Enriched? && v.category != c {
      assert Rank(v.category) < Rank(c) || Rank(c) < Rank(v.category);
    }
  }

  /** Each long pattern is a prefix followed by a shorter pattern (and nothing after it). */
  lemma LongPatternsSplit()
    ensures "Navigation timeout" == "Navigation " + "timeout" + ""
    ensures "net::ERR_CONNECTION_RESET" == "net::" + "ERR_CONNECTION_RESET" + ""
    ensures "net::ERR_CONNECTION_REFUSED" == "net::" + "ERR_CONNECTION_REFUSED" + ""
  {
  }

  /**
   The second disjunct of the timeout branch and of the reset branch can never
   decide anything: each second pattern contains the first.
   */
  lemma RedundantDisjuncts(m: string)
    ensures Matches(m, NavigationTimeout) <==> Contains(m, "timeout")
    ensures Matches(m, ConnectionReset) <==> Contains(m, "ERR_CONNECTION_RESET")
  {
    MatchesByCategory(m);
    LongPatternsSplit();
    if Contains(m, "Navigation timeout") {
      ContainsInfix(m, "Navigation ", "timeout", "");
    }
    if Contains(m, "net::ERR_CONNECTION_RESET") {
      ContainsInfix(m, "net::", "ERR_CONNECTION_RESET", "");
    }
  }

  /** A message mentioning "timeout" is never reported as a reset, whatever else it contains. */
  lemma TimeoutShadowsReset(m: string)
    requires Contains(m, "timeout")
    ensures Classify(m).Enriched?
    ensures Classify(m).category in {DnsResolution, NavigationTimeout}
  {
  }

  /** A refused connection is reported as such even when the message also carries 403 or Forbidden. */
  lemma RefusedShadowsForbidden(m: string)
    requires Contains(m, "net::ERR_CONNECTION_REFUSED")
    ensures Classify(m).Enriched?
    ensures Classify(m).category != ProxyForbidden
  {
  }

  /** The patterns of the connectivity probe in `init`. */
  const ProbePatterns: seq<string> := [
    "net::ERR_NAME_NOT_RESOLVED",
    "DNS_PROBE_FINISHED_NXDOMAIN",
    "net::ERR_INTERNET_DISCONNECTED",
    "timeout",
    "ERR_CONNECTION_RESET",
    "ERR_CONNECTION_REFUSED"
  ]

  /** The HTTPS probe error says the sandbox has no usable network. */
  predicate NoConnectivity(m: string) {
    ContainsAny(m, ProbePatterns)
  }

  /**
   A message matching a DNS, timeout, refused or reset pattern of `navigate` is
   one the probe of `init` also treats as lack of connectivity.
   */
  lemma {:induction false} ProbeCoversNetworkCategories(m: string, c: Category)
    requires c != ProxyForbidden && Matches(m, c)
    ensures NoConnectivity(m)
  {
    match c
    case DnsResolution =>
      MatchesByCategory(m);
      assert ProbePatterns[0] == "net::ERR_NAME_NOT_RESOLVED";
      assert ProbePatterns[1] == "DNS_PROBE_FINISHED_NXDOMAIN";
      assert ProbePatterns[2] == "net::ERR_INTERNET_DISCONNECTED";
    case NavigationTimeout =>
      RedundantDisjuncts(m);
      assert ProbePatterns[3] == "timeout";
    case ConnectionRefused =>
      MatchesByCategory(m);
      LongPatternsSplit();
      ContainsInfix(m, "net::", "ERR_CONNECTION_REFUSED", "");
      assert ProbePatterns[5] == "ERR_CONNECTION_REFUSED";
    case ConnectionReset =>
      RedundantDisjuncts(m);
      assert ProbePatterns[4] == "ERR_CONNECTION_RESET";
  }

  /** The two pattern sets differ both ways: the probe counts the bare refused code as lack of connectivity... */
  lemma BareRefusedIsNoConnectivity()
    ensures NoConnectivity("ERR_CONNECTION_REFUSED")
  {
    assert OccursAt("ERR_CONNECTION_REFUSED", "ERR_CONNECTION_REFUSED", 0);
    assert ProbePatterns[5] == "ERR_CONNECTION_REFUSED";
  }

  /** ...while `navigate` re-raises it unclassified, since it lacks the `net::` prefix... */
  lemma BareRefusedIsNotClassified()
    ensures Classify("ERR_CONNECTION_REFUSED") == Reraise
  {
    var m := "ERR_CONNECTION_REFUSED";
    MissingChar(m, "timeout", 0);
    MissingChar(m, "Navigation timeout", 1);
    MissingChar(m, "403", 0);
    MissingChar(m, "Forbidden", 1);
    RefusedCodeIsNotReset();
    MatchesByCategory(m);
  }

  /** The bare refused code does not contain the reset code. */
  lemma RefusedCodeIsNotReset()
    ensures !Contains("ERR_CONNECTION_REFUSED", "ERR_CONNECTION_RESET")
  {
    var m := "ERR_CONNECTION_REFUSED";
    forall i | 0 <= i <= |m| - |"ERR_CONNECTION_RESET"|
      ensures !OccursAt(m, "ERR_CONNECTION_RESET", i)
    {
      assert m[i..i + 20][17 - i] != "ERR_CONNECTION_RESET"[17 - i];
    }
  }

  /** ...and a proxy's 403 is a classified navigation failure that the probe does not treat as lack of connectivity. */
  lemma ForbiddenIsNotNoConnectivity()
    ensures Classify("403") == Enriched(ProxyForbidden)
    ensures !NoConnectivity("403")
  {
    assert OccursAt("403", "403", 0);
  }

  /** A message with both "timeout" and a reset code, and no DNS code, is classified as a timeout. */
  lemma ResetWithTimeoutIsTimeout(m: string)
    requires Contains(m, "timeout") && Contains(m, "ERR_CONNECTION_RESET")
    requires !Matches(m, DnsResolution)
    ensures Classify(m) == Enriched(NavigationTimeout)
  {
  }
}
