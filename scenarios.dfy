/**
 * The two crawler tests of the repository, stated over the model with a
 * small stand-in for `urlparse` (an address "https://H" or "http://H" has
 * hostname H). Both tests expect links to be matched on the first
 * hostname label, as html_parser.py does; under the full-hostname
 * `subdomain` of src/models/url.py the same webs crawl only the base.
 */
module Scenarios {
  import opened Urls
  import opened Crawling
  import opened LegacyUrls

  /** A stand-in for `urlparse` covering the addresses of the tests. */
  function TestParse(address: string): (p: Parsed)
    ensures p.hostname.None? <==> !(("https://" <= address) || ("http://" <= address))
  {
    if "https://" <= address then Parsed(Some(address[8..]), HTTPS)
    else if "http://" <= address then Parsed(Some(address[7..]), HTTP)
    else Parsed(None, "")
  }

  /** The subdomain of html_parser.py: the first label of the hostname. */
  function FirstLabelScope(u: Url): Option<string>
  {
    LegacySubdomain(TestParse(u.address).hostname)
  }

  /** The subdomain of src/models/url.py: the whole hostname. */
  function HostScope(u: Url): Option<string>
  {
    Subdomain(TestParse, u)
  }

  /** The test address "https://<first>.<rest>". */
  function Page(first: string, rest: string): Url
  {
    URL("https://" + first + "." + rest)
  }

  const Monzo: Url := Page("monzo", "com")
  const MonzoAA: Url := Page("monzo", "a.a")
  const MonzoAB: Url := Page("monzo", "a.b")
  const MonzoAC: Url := Page("monzo", "a.c")
  const MonzoAD: Url := Page("monzo", "a.d")
  const MonzoAW: Url := Page("monzo", "a.w")
  const MonzoXyz: Url := Page("monzo", "xyz")
  const AXyz: Url := Page("a", "xyz")
  const AbcXyz: Url := Page("abc", "xyz")

  lemma FirstLabelOf(first: string, rest: string)
    requires '.' !in first
    ensures FirstLabel(first + "." + rest) == first
  {
    if first != [] {
      assert (first + "." + rest)[1..] == first[1..] + "." + rest;
      FirstLabelOf(first[1..], rest);
    }
  }

  /** A test address parses to its hostname, whose first label is `first`. */
  lemma PageParts(first: string, rest: string)
    requires '.' !in first && first != ""
    ensures Page(first, rest).address[8..] == first + "." + rest
    ensures HostScope(Page(first, rest)) == Some(first + "." + rest)
    ensures FirstLabelScope(Page(first, rest)) == Some(first)
  {
    var a := Page(first, rest).address;
    assert a == "https://" + (first + "." + rest);
    assert "https://" <= a;
    FirstLabelOf(first, rest);
  }

  /** Hostnames sharing a first label differ when the rest does. */
  lemma HostsDiffer(first: string, rest: string, rest': string)
    requires rest != rest'
    ensures first + "." + rest != first + "." + rest'
  {
    assert (first + "." + rest)[|first| + 1..] == rest;
    assert (first + "." + rest')[|first| + 1..] == rest';
  }

  lemma PagesDiffer(first: string, rest: string, rest': string)
    requires '.' !in first && first != "" && rest != rest'
    ensures HostScope(Page(first, rest)) != HostScope(Page(first, rest'))
    ensures Page(first, rest) != Page(first, rest')
  {
    PageParts(first, rest);
    PageParts(first, rest');
    HostsDiffer(first, rest, rest');
  }

  /** The mock web of launcher_test.py. */
  const LauncherWeb: Web := map[
    Monzo := [MonzoAA, MonzoAB, MonzoXyz, AXyz, AbcXyz],
    MonzoAA := [MonzoAC, MonzoAD, MonzoXyz, AXyz, AbcXyz],
    MonzoAB := [MonzoAC, MonzoAW, MonzoXyz, AXyz, AbcXyz]]

  const LauncherExpected: set<Url> := {MonzoAA, MonzoAB, MonzoXyz, MonzoAC, MonzoAW, MonzoAD, Monzo}

  /** The three pages of the mock web are distinct, so each has its own list of links. */
  lemma LauncherPages()
    ensures Links(LauncherWeb, Monzo) == [MonzoAA, MonzoAB, MonzoXyz, AXyz, AbcXyz]
    ensures Links(LauncherWeb, MonzoAA) == [MonzoAC, MonzoAD, MonzoXyz, AXyz, AbcXyz]
    ensures Links(LauncherWeb, MonzoAB) == [MonzoAC, MonzoAW, MonzoXyz, AXyz, AbcXyz]
  {
    PagesDiffer("monzo", "com", "a.a");
    PagesDiffer("monzo", "com", "a.b");
    PagesDiffer("monzo", "a.a", "a.b");
  }

  /** Every monzo page of the tests has the base's first label. */
  lemma MonzoLabel(rest: string)
    ensures FirstLabelScope(Page("monzo", rest)) == Some("monzo")
  {
    PageParts("monzo", rest);
  }

  lemma MonzoLabels(u: Url)
    requires u in LauncherExpected
    ensures FirstLabelScope(u) == Some("monzo")
  {
    if u == Monzo { MonzoLabel("com"); }
    else if u == MonzoAA { MonzoLabel("a.a"); }
    else if u == MonzoAB { MonzoLabel("a.b"); }
    else if u == MonzoAC { MonzoLabel("a.c"); }
    else if u == MonzoAD { MonzoLabel("a.d"); }
    else if u == MonzoAW { MonzoLabel("a.w"); }
    else { MonzoLabel("xyz"); }
  }

  /** The two foreign pages of launcher_test.py have other first labels. */
  lemma ForeignLabels()
    ensures FirstLabelScope(AXyz) == Some("a") && FirstLabelScope(AbcXyz) == Some("abc")
  {
    PageParts("a", "xyz");
    PageParts("abc", "xyz");
  }

  /** Every link of the mock web is one of the monzo pages or one of the two foreign ones. */
  lemma LauncherLinks(u: Url)
    ensures forall l :: l in Links(LauncherWeb, u) ==> l in LauncherExpected || l == AXyz || l == AbcXyz
  {
  }

  /** The seven monzo pages contain the in-scope links of each of them. */
  lemma ExpectedIsClosed()
    ensures Closed(LauncherWeb, FirstLabelScope, Monzo, LauncherExpected)
  {
    forall u, l | u in LauncherExpected && l in PageLinks(LauncherWeb, FirstLabelScope, Monzo, u)
      ensures l in LauncherExpected
    {
      LauncherLinks(u);
      ForeignLabels();
      MonzoLabels(Monzo);
    }
  }

  /** An in-scope link of a page of the closure is in the closure. */
  lemma Reach(web: Web, scopeOf: Scope, base: Url, u: Url, l: Url)
    requires u in Closure(web, scopeOf, base)
    requires l in Links(web, u) && InScope(scopeOf, base, l)
    ensures l in Closure(web, scopeOf, base)
  {
    ClosureIsLeastClosedSet(web, scopeOf, base);
    assert l in PageLinks(web, scopeOf, base, u);
  }

  /** A monzo link of a page of the closure is in the closure. */
  lemma MonzoStep(u: Url, l: Url)
    requires u in Closure(LauncherWeb, FirstLabelScope, Monzo)
    requires l in Links(LauncherWeb, u) && l in LauncherExpected
    ensures l in Closure(LauncherWeb, FirstLabelScope, Monzo)
  {
    MonzoLabels(l);
    MonzoLabels(Monzo);
    Reach(LauncherWeb, FirstLabelScope, Monzo, u, l);
  }

  /** The monzo links of the base page are in the closure. */
  lemma ReachedFromBase()
    ensures MonzoAA in Closure(LauncherWeb, FirstLabelScope, Monzo)
    ensures MonzoAB in Closure(LauncherWeb, FirstLabelScope, Monzo)
    ensures MonzoXyz in Closure(LauncherWeb, FirstLabelScope, Monzo)
  {
    ClosureIsLeastClosedSet(LauncherWeb, FirstLabelScope, Monzo);
    LauncherPages();
    MonzoStep(Monzo, MonzoAA);
    MonzoStep(Monzo, MonzoAB);
    MonzoStep(Monzo, MonzoXyz);
  }

  /** The monzo links of the pages one hop from the base are in the closure. */
  lemma ReachedInTwoHops()
    ensures MonzoAC in Closure(LauncherWeb, FirstLabelScope, Monzo)
    ensures MonzoAD in Closure(LauncherWeb, FirstLabelScope, Monzo)
    ensures MonzoAW in Closure(LauncherWeb, FirstLabelScope, Monzo)
  {
    ReachedFromBase();
    LauncherPages();
    MonzoStep(MonzoAA, MonzoAC);
    MonzoStep(MonzoAA, MonzoAD);
    MonzoStep(MonzoAB, MonzoAW);
  }

  /** Each of the seven monzo pages is reached from the base through in-scope links. */
  lemma ExpectedIsReached()
    ensures LauncherExpected <= Closure(LauncherWeb, FirstLabelScope, Monzo)
  {
    ClosureIsLeastClosedSet(LauncherWeb, FirstLabelScope, Monzo);
    ReachedFromBase();
    ReachedInTwoHops();
  }

  /**
   * Under first-label matching the crawl of launcher_test.py visits exactly
   * the seven monzo pages it expects and neither a.xyz nor abc.xyz.
   */
  lemma LauncherScenario()
    ensures Closure(LauncherWeb, FirstLabelScope, Monzo) == LauncherExpected
    ensures AXyz !in Closure(LauncherWeb, FirstLabelScope, Monzo)
    ensures AbcXyz !in Closure(LauncherWeb, FirstLabelScope, Monzo)
  {
    ClosureIsLeastClosedSet(LauncherWeb, FirstLabelScope, Monzo);
    ExpectedIsClosed();
    ExpectedIsReached();
    ForeignLabels();
    forall l | l in LauncherExpected
      ensures l != AXyz && l != AbcXyz
    {
      MonzoLabels(l);
    }
  }

  /** No link of the base page has the base's full hostname. */
  lemma BaseLinksOffHost(l: Url)
    requires l in Links(LauncherWeb, Monzo)
    ensures !InScope(HostScope, Monzo, l)
  {
    LauncherPages();
    PageParts("monzo", "com");
    if l == MonzoAA {
      PagesDiffer("monzo", "com", "a.a");
    } else if l == MonzoAB {
      PagesDiffer("monzo", "com", "a.b");
    } else if l == MonzoXyz {
      PagesDiffer("monzo", "com", "xyz");
    } else if l == AXyz {
      PageParts("a", "xyz");
    } else {
      PageParts("abc", "xyz");
    }
  }

  /** Under full-hostname matching the same crawl visits only the base. */
  lemma LauncherScenarioByHostname()
    ensures Closure(LauncherWeb, HostScope, Monzo) == {Monzo}
  {
    ClosureIsLeastClosedSet(LauncherWeb, HostScope, Monzo);
    forall l | l in Links(LauncherWeb, Monzo)
      ensures l !in PageLinks(LauncherWeb, HostScope, Monzo, Monzo)
    {
      BaseLinksOffHost(l);
    }
    assert Closed(LauncherWeb, HostScope, Monzo, {Monzo});
  }

  /** The links the page of crawler_test.py offers. */
  const CrawlerPage: seq<Url> := [Page("monzo", "b.com"), Page("monzo", "c.com"), Page("xyz", "c.com")]

  /** Scanning three links whose first two are in scope keeps those two. */
  lemma KeepFirstTwo(a: Url, b: Url, c: Url, scopeOf: Scope, base: Url)
    requires InScope(scopeOf, base, a) && InScope(scopeOf, base, b) && !InScope(scopeOf, base, c)
    ensures ScopedLinks([a, b, c], scopeOf, base) == [a, b]
  {
    assert [a, b, c][..2] == [a, b];
    assert [a, b][..1] == [a];
    assert [a][..0] == [];
  }

  /** Scanning three links none of which is in scope keeps none. */
  lemma KeepNone(a: Url, b: Url, c: Url, scopeOf: Scope, base: Url)
    requires !InScope(scopeOf, base, a) && !InScope(scopeOf, base, b) && !InScope(scopeOf, base, c)
    ensures ScopedLinks([a, b, c], scopeOf, base) == []
  {
    assert [a][..0] == [];
    assert ScopedLinks([a], scopeOf, base) == [] + [];
    assert [a, b][..1] == [a];
    assert ScopedLinks([a, b], scopeOf, base) == [] + [];
    assert [a, b, c][..2] == [a, b];
  }

  /** The page of crawler_test.py: two of its three links share the base's first label. */
  lemma CrawlerScenario()
    ensures ScopedLinks(CrawlerPage, FirstLabelScope, Monzo) == [Page("monzo", "b.com"), Page("monzo", "c.com")]
  {
    var a, b, c := Page("monzo", "b.com"), Page("monzo", "c.com"), Page("xyz", "c.com");
    assert InScope(FirstLabelScope, Monzo, a) by { MonzoLabel("com"); MonzoLabel("b.com"); }
    assert InScope(FirstLabelScope, Monzo, b) by { MonzoLabel("com"); MonzoLabel("c.com"); }
    assert !InScope(FirstLabelScope, Monzo, c) by { MonzoLabel("com"); PageParts("xyz", "c.com"); }
    KeepFirstTwo(a, b, c, FirstLabelScope, Monzo);
  }

  /** Under full-hostname matching none of the three links is admitted. */
  lemma CrawlerScenarioByHostname()
    ensures ScopedLinks(CrawlerPage, HostScope, Monzo) == []
  {
    var a, b, c := Page("monzo", "b.com"), Page("monzo", "c.com"), Page("xyz", "c.com");
    assert !InScope(HostScope, Monzo, a) by { PagesDiffer("monzo", "com", "b.com"); }
    assert !InScope(HostScope, Monzo, b) by { PagesDiffer("monzo", "com", "c.com"); }
    assert !InScope(HostScope, Monzo, c) by {
      PageParts("monzo", "com");
      PageParts("xyz", "c.com");
      assert ("xyz" + "." + "c.com")[0] != ("monzo" + "." + "com")[0];
    }
    KeepNone(a, b, c, HostScope, Monzo);
  }

  /**
   * The two addresses of url_test.py without a network location: as
   * written, `is_valid` yields None for them, which the test's `== False`
   * rejects, while the boolean reading gives false.
   */
  lemma IsValidWithoutHostname()
    ensures IsValidAsWritten(TestParse, URL("no-prefix.blog.monzo.com/")) == PyNone
    ensures IsValidAsWritten(TestParse, URL("mailto:ihab@gmail.com")) == PyNone
    ensures !IsValid(TestParse, URL("no-prefix.blog.monzo.com/"))
    ensures !IsValid(TestParse, URL("mailto:ihab@gmail.com"))
  {
    assert !("https://" <= "no-prefix.blog.monzo.com/") && !("http://" <= "no-prefix.blog.monzo.com/") by {
      assert "no-prefix.blog.monzo.com/"[0] == 'n';
    }
    assert !("https://" <= "mailto:ihab@gmail.com") && !("http://" <= "mailto:ihab@gmail.com") by {
      assert "mailto:ihab@gmail.com"[0] == 'm';
    }
  }

  /**
   * url_test.py expects addresses that differ only in a fragment to be
   * equal; the code compares whole addresses, so they are not.
   */
  lemma FragmentsDistinguish()
    ensures !Eq(URL("https://www.google.com/a/b"), PyUrl(URL("https://www.google.com/a/b#frag")))
    ensures !Eq(URL("https://www.google.com/a/b#frag1"), PyUrl(URL("https://www.google.com/a/b#frag2")))
  {
    assert |"https://www.google.com/a/b"| != |"https://www.google.com/a/b#frag"|;
    assert "https://www.google.com/a/b#frag1"[31] != "https://www.google.com/a/b#frag2"[31];
  }
}
