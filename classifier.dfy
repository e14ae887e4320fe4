/**
 * The strategy classifier: an ordered table of URL pattern groups, scanned in
 * priority order; the first group with a matching pattern decides the caching
 * strategy, and a URL that matches nothing falls back to stale-while-revalidate.
 */
module Classifier {

  datatype Strategy = CacheFirst | StaleWhileRevalidate | NetworkFirst

  /** The label string the classifier hands to the dispatcher for each strategy. */
  function Label(s: Strategy): string {
    match s
    case CacheFirst => "cache-first"
    case StaleWhileRevalidate => "stale-while-revalidate"
    case NetworkFirst => "network-first"
  }

  /** The strategy chosen when no pattern matches; the dispatcher's default branch agrees with it. */
  const DEFAULT_STRATEGY: Strategy := StaleWhileRevalidate

  /** A regular expression `\.(x|y)$` without the multiline flag: `$` anchors at the end of the whole string. */
  predicate EndsWith(s: string, suffix: string) {
    |suffix| <= |s| && s[|s| - |suffix|..] == suffix
  }

  /** `part` occurs in `s` starting at index `i`. */
  predicate OccursAt(s: string, part: string, i: int) {
    0 <= i && i + |part| <= |s| && s[i..i + |part|] == part
  }

  /** An unanchored regular expression made only of literal characters: `part` occurs somewhere in `s`. */
  predicate Contains(s: string, part: string) {
    exists i | 0 <= i <= |s| - |part| :: OccursAt(s, part, i)
  }

  /** One regular expression of the pattern table, as a plain string test. */
  datatype Pattern =
    | Suffix(alternatives: seq<string>)   // `\.(a|b|...)$`: the URL ends with one of the alternatives
    | Substring(text: string)             // a literal, unanchored: the URL contains the text
  {
    predicate Test(url: string) {
      match this
      case Suffix(alts) => exists k | 0 <= k < |alts| :: EndsWith(url, alts[k])
      case Substring(text) => Contains(url, text)
    }
  }

  /** `patterns.some(pattern => pattern.test(url))`. */
  function AnyTest(patterns: seq<Pattern>, url: string): (b: bool)
    ensures b <==> exists i {:trigger patterns[i].Test(url)} :: 0 <= i < |patterns| && patterns[i].Test(url)
  {
    if patterns == [] then
      false
    else
      var rest := AnyTest(patterns[1..], url);
      assert forall i :: 0 < i < |patterns| ==> patterns[1..][i - 1] == patterns[i];
      patterns[0].Test(url) || rest
  }

  /** Static assets: `/\.(css|js|woff2?|ttf|eot)$/`, `/\/static\//`, and the two font hosts. */
  const CACHE_FIRST_PATTERNS: seq<Pattern> := [
    Suffix([".css", ".js", ".woff", ".woff2", ".ttf", ".eot"]),
    Substring("/static/"),
    Substring("fonts.googleapis.com"),
    Substring("fonts.gstatic.com")
  ]

  /** API calls and images: `/\/api\//` and `/\.(?:png|jpg|jpeg|svg|gif|webp)$/`. */
  const STALE_WHILE_REVALIDATE_PATTERNS: seq<Pattern> := [
    Substring("/api/"),
    Suffix([".png", ".jpg", ".jpeg", ".svg", ".gif", ".webp"])
  ]

  /** Dynamic pages: `/\/contact/`, `/\/testimonials/`, `/\/blog/`. */
  const NETWORK_FIRST_PATTERNS: seq<Pattern> := [
    Substring("/contact"),
    Substring("/testimonials"),
    Substring("/blog")
  ]

  /** The pattern groups in the order they are scanned. */
  const PATTERN_TABLE: seq<(Strategy, seq<Pattern>)> := [
    (CacheFirst, CACHE_FIRST_PATTERNS),
    (StaleWhileRevalidate, STALE_WHILE_REVALIDATE_PATTERNS),
    (NetworkFirst, NETWORK_FIRST_PATTERNS)
  ]

  /** Reference reading of an ordered pattern table: the label of the first group with a matching pattern. */
  function FirstMatchingGroup(table: seq<(Strategy, seq<Pattern>)>, url: string, default: Strategy): Strategy {
    if table == [] then default
    else if AnyTest(table[0].1, url) then table[0].0
    else FirstMatchingGroup(table[1..], url, default)
  }

  /** `getCacheStrategy(url)`: three prioritised group checks, then the default. */
  function GetCacheStrategy(url: string): (r: Strategy)
    ensures r == FirstMatchingGroup(PATTERN_TABLE, url, DEFAULT_STRATEGY)
  {
    var lastGroup := PATTERN_TABLE[1..][1..];
    assert lastGroup == [(NetworkFirst, NETWORK_FIRST_PATTERNS)] && lastGroup[1..] == [];
    assert FirstMatchingGroup(lastGroup, url, DEFAULT_STRATEGY)
        == if AnyTest(NETWORK_FIRST_PATTERNS, url) then NetworkFirst else DEFAULT_STRATEGY;
    if AnyTest(CACHE_FIRST_PATTERNS, url) then CacheFirst
    else if AnyTest(STALE_WHILE_REVALIDATE_PATTERNS, url) then StaleWhileRevalidate
    else if AnyTest(NETWORK_FIRST_PATTERNS, url) then NetworkFirst
    else DEFAULT_STRATEGY
  }

  /** In a scan of the table, the first group with a matching pattern decides, whatever later groups say. */
  lemma {:induction false} FirstMatchWins(table: seq<(Strategy, seq<Pattern>)>, url: string, default: Strategy, i: nat)
    requires i < |table| && AnyTest(table[i].1, url)
    requires forall j :: 0 <= j < i ==> !AnyTest(table[j].1, url)
    ensures FirstMatchingGroup(table, url, default) == table[i].0
  {
    if i > 0 {
      FirstMatchWins(table[1..], url, default, i - 1);
    }
  }

  /** A URL that no group matches gets the default. */
  lemma {:induction false} NoMatchGivesDefault(table: seq<(Strategy, seq<Pattern>)>, url: string, default: Strategy)
    requires forall j :: 0 <= j < |table| ==> !AnyTest(table[j].1, url)
    ensures FirstMatchingGroup(table, url, default) == default
  {
    if table != [] {
      NoMatchGivesDefault(table[1..], url, default);
    }
  }

  /** The classifier is total and only ever produces one of the three labels the dispatcher knows. */
  lemma ClassificationIsALabel(url: string)
    ensures Label(GetCacheStrategy(url)) in ["cache-first", "stale-while-revalidate", "network-first"]
  {
  }

  /** Group priority: any matching cache-first pattern decides, whatever the later groups say; and only then. */
  lemma CacheFirstGroupWins(url: string)
    ensures GetCacheStrategy(url) == CacheFirst <==> AnyTest(CACHE_FIRST_PATTERNS, url)
  {
    if AnyTest(CACHE_FIRST_PATTERNS, url) {
      FirstMatchWins(PATTERN_TABLE, url, DEFAULT_STRATEGY, 0);
    }
  }

  /** A URL matching a stale-while-revalidate pattern is never network-first. */
  lemma StaleGroupIsNeverNetworkFirst(url: string)
    requires AnyTest(STALE_WHILE_REVALIDATE_PATTERNS, url)
    ensures GetCacheStrategy(url) != NetworkFirst
  {
  }

  /** Network-first is chosen exactly for URLs that match its group and neither earlier group. */
  lemma NetworkFirstOnlyForItsGroup(url: string)
    ensures GetCacheStrategy(url) == NetworkFirst <==>
              AnyTest(NETWORK_FIRST_PATTERNS, url)
              && !AnyTest(CACHE_FIRST_PATTERNS, url)
              && !AnyTest(STALE_WHILE_REVALIDATE_PATTERNS, url)
  {
  }

  /** A URL that matches no pattern of any group is served stale-while-revalidate. */
  lemma UnmatchedUrlIsStaleWhileRevalidate(url: string)
    requires forall j :: 0 <= j < |PATTERN_TABLE| ==> !AnyTest(PATTERN_TABLE[j].1, url)
    ensures GetCacheStrategy(url) == StaleWhileRevalidate
  {
    NoMatchGivesDefault(PATTERN_TABLE, url, DEFAULT_STRATEGY);
  }

  /** A literal that uses a character `s` lacks cannot occur in `s`. */
  lemma AbsentCharRulesOut(s: string, part: string, k: nat)
    requires k < |part| && part[k] !in s
    ensures !Contains(s, part)
  {
    forall i | 0 <= i <= |s| - |part|
      ensures !OccursAt(s, part, i)
    {
      assert s[i..i + |part|][k] == s[i + k] && s[i + k] in s;
    }
  }

  /** A script under `/blog` is cache-first: the cache-first group is scanned before the network-first one. */
  lemma BlogScriptIsCacheFirst()
    ensures GetCacheStrategy("/blog/app.js") == CacheFirst
  {
    var url := "/blog/app.js";
    assert CACHE_FIRST_PATTERNS[0].alternatives[1] == ".js" && EndsWith(url, ".js");
    assert CACHE_FIRST_PATTERNS[0].Test(url);
    CacheFirstGroupWins(url);
  }

  /** An image under `/blog` is stale-while-revalidate, not network-first. */
  lemma BlogImageIsStaleWhileRevalidate()
    ensures GetCacheStrategy("/blog/x.png") == StaleWhileRevalidate
  {
    var url := "/blog/x.png";
    AbsentCharRulesOut(url, "/static/", 5);
    AbsentCharRulesOut(url, "fonts.googleapis.com", 0);
    AbsentCharRulesOut(url, "fonts.gstatic.com", 0);
    CacheFirstGroupMisses(url);
    assert STALE_WHILE_REVALIDATE_PATTERNS[1].alternatives[0] == ".png" && EndsWith(url, ".png");
    assert STALE_WHILE_REVALIDATE_PATTERNS[1].Test(url);
  }

  /** An API path containing `/contact` is stale-while-revalidate, not network-first. */
  lemma ApiContactIsStaleWhileRevalidate()
    ensures GetCacheStrategy("/api/contact") == StaleWhileRevalidate
  {
    var url := "/api/contact";
    AbsentCharRulesOut(url, "/static/", 1);
    AbsentCharRulesOut(url, "fonts.googleapis.com", 0);
    AbsentCharRulesOut(url, "fonts.gstatic.com", 0);
    CacheFirstGroupMisses(url);
    assert OccursAt(url, "/api/", 0);
    assert STALE_WHILE_REVALIDATE_PATTERNS[0].Test(url);
  }

  /** `$` anchors at the end of the whole URL: a query string hides the `.css` suffix. */
  lemma VersionedStylesheetIsNotCacheFirst()
    ensures GetCacheStrategy("/a.css?v=1") == StaleWhileRevalidate
  {
    VersionedStylesheetMissesCacheFirstGroup();
    VersionedStylesheetMissesStaleGroup();
    VersionedStylesheetMissesNetworkFirstGroup();
  }

  lemma VersionedStylesheetMissesCacheFirstGroup()
    ensures !AnyTest(CACHE_FIRST_PATTERNS, "/a.css?v=1")
  {
    var url := "/a.css?v=1";
    AbsentCharRulesOut(url, "/static/", 2);
    AbsentCharRulesOut(url, "fonts.googleapis.com", 0);
    AbsentCharRulesOut(url, "fonts.gstatic.com", 0);
    CacheFirstGroupMisses(url);
  }

  lemma VersionedStylesheetMissesStaleGroup()
    ensures !AnyTest(STALE_WHILE_REVALIDATE_PATTERNS, "/a.css?v=1")
  {
    var url := "/a.css?v=1";
    AbsentCharRulesOut(url, "/api/", 2);
    StaleGroupMisses(url);
  }

  lemma VersionedStylesheetMissesNetworkFirstGroup()
    ensures !AnyTest(NETWORK_FIRST_PATTERNS, "/a.css?v=1")
  {
    var url := "/a.css?v=1";
    AbsentCharRulesOut(url, "/contact", 2);
    AbsentCharRulesOut(url, "/testimonials", 1);
    AbsentCharRulesOut(url, "/blog", 1);
    NetworkFirstGroupMisses(url);
  }

  /** A contact page matches only the network-first group. */
  lemma ContactPageIsNetworkFirst()
    ensures GetCacheStrategy("/contact") == NetworkFirst
  {
    var url := "/contact";
    assert !AnyTest(CACHE_FIRST_PATTERNS, url) by {
      AbsentCharRulesOut(url, "/static/", 1);
      AbsentCharRulesOut(url, "fonts.googleapis.com", 0);
      AbsentCharRulesOut(url, "fonts.gstatic.com", 0);
      CacheFirstGroupMisses(url);
    }
    assert !AnyTest(STALE_WHILE_REVALIDATE_PATTERNS, url) by {
      AbsentCharRulesOut(url, "/api/", 2);
      StaleGroupMisses(url);
    }
    assert NETWORK_FIRST_PATTERNS[0].Test(url) by {
      assert OccursAt(url, "/contact", 0);
    }
  }

  lemma CacheFirstGroupMisses(url: string)
    requires !EndsWith(url, ".css") && !EndsWith(url, ".js") && !EndsWith(url, ".woff")
    requires !EndsWith(url, ".woff2") && !EndsWith(url, ".ttf") && !EndsWith(url, ".eot")
    requires !Contains(url, "/static/") && !Contains(url, "fonts.googleapis.com") && !Contains(url, "fonts.gstatic.com")
    ensures !AnyTest(CACHE_FIRST_PATTERNS, url)
  {
  }

  lemma StaleGroupMisses(url: string)
    requires !Contains(url, "/api/")
    requires !EndsWith(url, ".png") && !EndsWith(url, ".jpg") && !EndsWith(url, ".jpeg")
    requires !EndsWith(url, ".svg") && !EndsWith(url, ".gif") && !EndsWith(url, ".webp")
    ensures !AnyTest(STALE_WHILE_REVALIDATE_PATTERNS, url)
  {
  }

  lemma NetworkFirstGroupMisses(url: string)
    requires !Contains(url, "/contact") && !Contains(url, "/testimonials") && !Contains(url, "/blog")
    ensures !AnyTest(NETWORK_FIRST_PATTERNS, url)
  {
  }
}
