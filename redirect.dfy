/** The decision of redirect/script.js: given the optional `url` query
    parameter, either report a problem or navigate to an allow-listed target.
    URL parsing (`new URL`) is a parameter: it yields the parsed hostname and
    normalised href, or nothing when the constructor throws. */
module Redirect {
  import opened JsValues

  /** What `new URL(url)` exposes to the script. */
  datatype Target = Target(hostname: string, href: string)

  /** The four ways the script can end. */
  datatype Outcome = NoUrl | InvalidFormat | Blocked | Navigate(href: string)

  const AllowedDomains: seq<string> := ["youtube.com", "soundcloud.com"]

  predicate EndsWith(s: string, suffix: string) {
    |suffix| <= |s| && s[|s| - |suffix|..] == suffix
  }

  /** `domains.some(d => host.endsWith(d))` */
  function SomeSuffix(host: string, domains: seq<string>): (r: bool)
    ensures r <==> exists i :: 0 <= i < |domains| && EndsWith(host, domains[i])
  {
    if domains == [] then false
    else EndsWith(host, domains[0]) || SomeSuffix(host, domains[1..])
  }

  predicate IsAllowed(host: string) {
    SomeSuffix(host, AllowedDomains)
  }

  /** The script's decision: an absent or empty parameter, an unparsable one,
      a parsed one whose hostname has no allowed suffix, or navigation to the
      parsed href. */
  function Decide(url: Option<string>, parse: string -> Option<Target>): (o: Outcome)
    ensures o == NoUrl <==> !Truthy(url)
    ensures o == InvalidFormat <==> Truthy(url) && parse(url.value).None?
    ensures o == Blocked <==>
      Truthy(url) && parse(url.value).Some? && !IsAllowed(parse(url.value).value.hostname)
    ensures o.Navigate? <==>
      Truthy(url) && parse(url.value).Some? && IsAllowed(parse(url.value).value.hostname)
    ensures o.Navigate? ==> o.href == parse(url.value).value.href
  {
    if !Truthy(url) then NoUrl
    else
      match parse(url.value)
      case None => InvalidFormat
      case Some(target) =>
        if SomeSuffix(target.hostname, AllowedDomains) then Navigate(target.href) else Blocked
  }

  /** The text put into the page's heading. */
  function Message(o: Outcome): string {
    match o
    case NoUrl => "No redirect URL provided."
    case InvalidFormat => "Invalid URL format."
    case Blocked => "Invalid redirect target."
    case Navigate(_) => "Redirecting..."
  }

  /** Where the browser is sent, if anywhere. */
  function Destination(o: Outcome): Option<string> {
    match o
    case Navigate(href) => Some(href)
    case _ => None
  }

  /** The browser only ever goes to the parsed href of a parameter whose
      hostname ends with an allowed domain, and then the page says so. */
  lemma NavigatesOnlyToAllowedHosts(url: Option<string>, parse: string -> Option<Target>)
    ensures Destination(Decide(url, parse)).Some? <==> Message(Decide(url, parse)) == "Redirecting..."
    ensures Destination(Decide(url, parse)).Some? ==>
      && Truthy(url)
      && parse(url.value).Some?
      && IsAllowed(parse(url.value).value.hostname)
      && Destination(Decide(url, parse)).value == parse(url.value).value.href
  {
  }

  /** Each outcome has its own message, so the message tells the outcome apart. */
  lemma MessagesDistinguishOutcomes(o1: Outcome, o2: Outcome)
    requires Message(o1) == Message(o2)
    ensures o1.Navigate? <==> o2.Navigate?
    ensures !o1.Navigate? ==> o1 == o2
  {
    assert Message(NoUrl)[0] == 'N' && Message(InvalidFormat)[0] == 'I';
    assert Message(Blocked)[8] == 'r' && Message(InvalidFormat)[8] == 'U';
    assert Message(Navigate("")) [0] == 'R';
  }

  /** The test is a plain string suffix: any hostname that ends with an allowed
      domain passes, whatever comes before it, with or without a dot. */
  lemma {:induction false} AnyPrefixOfAllowedDomainPasses(prefix: string, i: nat)
    requires i < |AllowedDomains|
    ensures IsAllowed(prefix + AllowedDomains[i])
  {
    var host := prefix + AllowedDomains[i];
    assert host[|host| - |AllowedDomains[i]|..] == AllowedDomains[i];
    assert EndsWith(host, AllowedDomains[i]);
  }

  /** So a look-alike host that is not a subdomain of youtube.com is let through. */
  lemma LookalikeHostPasses()
    ensures IsAllowed("notyoutube.com")
  {
    var h := "notyoutube.com";
    assert h == "not" + AllowedDomains[0];
    AnyPrefixOfAllowedDomainPasses("not", 0);
  }

  /** An allowed domain followed by more labels is blocked: it no longer ends with it. */
  lemma AllowedDomainAsPrefixIsBlocked()
    ensures !IsAllowed("youtube.com.example")
  {
    var h := "youtube.com.example";
    assert h[|h| - 11..][10] == 'e' != 'm';
    assert h[|h| - 14..][13] == 'e' != 'm';
  }

  /** A present parameter that parses to an allowed host navigates, whatever
      else the raw text looked like: the href comes from the parser. */
  lemma ParsedHrefIsTheTarget(url: string, parse: string -> Option<Target>, t: Target)
    requires url != "" && parse(url) == Some(t) && IsAllowed(t.hostname)
    ensures Decide(Some(url), parse) == Navigate(t.href)
    ensures Message(Decide(Some(url), parse)) == "Redirecting..."
  {
  }
}
