/**
 * The earlier `URL` class of html_parser.py. It keeps only its address and
 * computes `subdomain` lazily: the first dot-separated label of the parsed
 * hostname, cached in a field the first time it is found. Equality and
 * hashing look at the address, as in the later value type.
 */
module LegacyUrls {
  import opened Urls

  /** `hostname.split('.')[0]`: the text before the first '.', or all of it. */
  function FirstLabel(host: string): (first: string)
    ensures first <= host
    ensures '.' !in first
    ensures |first| == |host| || host[|first|] == '.'
  {
    if host == [] || host[0] == '.' then [] else [host[0]] + FirstLabel(host[1..])
  }

  /**
   * The subdomain the property ends up with for a parsed hostname: a
   * truthy (present, non-empty) hostname gives its first label, anything
   * else leaves the cache unset (None).
   */
  function LegacySubdomain(hostname: Option<string>): (sub: Option<string>)
    ensures sub.Some? <==> hostname.Some? && hostname.value != ""
    ensures sub.Some? ==> sub.value <= hostname.value && '.' !in sub.value
    ensures sub.Some? ==> |sub.value| == |hostname.value| || hostname.value[|sub.value|] == '.'
  {
    if hostname.Some? && hostname.value != "" then Some(FirstLabel(hostname.value)) else None
  }

  class URL {
    const address: string
    /** The parser (`urlparse`) the property calls; fixed for the object's lifetime. */
    const urlparse: UrlParser
    /** The `_subdomain` field: None until a subdomain has been computed. */
    var subdomainCache: Option<string>

    /** A cached subdomain is the one the address determines. */
    ghost predicate Valid()
      reads this
    {
      subdomainCache == None || subdomainCache == LegacySubdomain(urlparse(address).hostname)
    }

    constructor (address: string, urlparse: UrlParser)
      ensures Valid()
      ensures this.address == address && this.urlparse == urlparse
      ensures subdomainCache == None
    {
      this.address := address;
      this.urlparse := urlparse;
      subdomainCache := None;
    }

    /**
     * The `subdomain` property: recompute while the cache is falsy, then
     * return the cache. The result depends on the address only, so every
     * call returns the same value, and afterwards the cache holds it.
     */
    method Subdomain() returns (sub: Option<string>)
      requires Valid()
      modifies this
      ensures Valid()
      ensures sub == LegacySubdomain(urlparse(address).hostname)
      ensures subdomainCache == sub
    {
      if subdomainCache == None || subdomainCache == Some("") {
        var hostname := urlparse(address).hostname;
        if hostname.Some? && hostname.value != "" {
          subdomainCache := Some(FirstLabel(hostname.value));
        }
      }
      sub := subdomainCache;
    }

    /** The address-identified value this object stands for in sets and comparisons. */
    function Value(): Url
    {
      URL(address)
    }

    /** `__eq__`: the other value is a URL with this address. */
    function Equals(other: PyValue): (equal: bool)
      ensures equal <==> other == PyUrl(Value())
    {
      Eq(Value(), other)
    }

    /** `__hash__`: the hash of the address. */
    function HashWith(strHash: string -> int): int
    {
      strHash(address)
    }
  }

  /** Objects that are equal under `__eq__` hash alike. */
  lemma EqualObjectsHashAlike(strHash: string -> int, a: URL, b: URL)
    requires a.Equals(PyUrl(b.Value()))
    ensures a.HashWith(strHash) == b.HashWith(strHash)
  {
  }

  /**
   * Two reads of the property give the same subdomain, and afterwards the
   * cache holds it. When the hostname is missing or empty, or its first
   * label is empty (as in ".x"), the cache stays falsy (None or ""), so
   * the second read parses the address again.
   */
  method SubdomainIsStable(u: URL) returns (first: Option<string>, second: Option<string>)
    requires u.Valid()
    modifies u
    ensures first == second
    ensures u.subdomainCache == first
  {
    first := u.Subdomain();
    second := u.Subdomain();
  }
}
