/**
 * The `URL` value type of the crawler (src/models/url.py).
 *
 * A URL is built from its address string and never changes afterwards.
 * The constructor runs `urllib.parse.urlparse` once and keeps the parsed
 * hostname (as `subdomain`) and scheme; both are functions of the address,
 * so the model keeps only the address and takes the parser as a parameter.
 * Equality and hashing look at the address alone, which is what Dafny's
 * value equality on `Url` gives.
 */
module Urls {

  datatype Option<+T> = None | Some(value: T)

  /** A URL, identified by the address string it was constructed from. */
  datatype Url = URL(address: string)

  /** What `urlparse` yields that the crawler uses: hostname (None if absent) and scheme. */
  datatype Parsed = Parsed(hostname: Option<string>, scheme: string)

  /** Stand-in for the foreign `urllib.parse.urlparse`. */
  type UrlParser = string -> Parsed

  const HTTP: string := "http"
  const HTTPS: string := "https"

  /** The Python values a URL is compared with or that a property can return. */
  datatype PyValue = PyNone | PyBool(b: bool) | PyStr(s: string) | PyUrl(url: Url)

  /** Python truthiness of those values. */
  predicate Truthy(v: PyValue)
  {
    match v
    case PyNone => false
    case PyBool(b) => b
    case PyStr(s) => s != ""
    case PyUrl(_) => true
  }

  /** `URL.subdomain`: the full parsed hostname, None when the address has none. */
  function Subdomain(urlparse: UrlParser, u: Url): Option<string>
  {
    urlparse(u.address).hostname
  }

  function Scheme(urlparse: UrlParser, u: Url): string
  {
    urlparse(u.address).scheme
  }

  /**
   * `URL.is_valid` exactly as written: `self._subdomain and scheme in {http, https}`.
   * Python's `and` yields its first operand when that is falsy, so a URL
   * without hostname yields None and one with an empty hostname yields ''.
   */
  function IsValidAsWritten(urlparse: UrlParser, u: Url): (r: PyValue)
    ensures r == PyNone <==> Subdomain(urlparse, u) == None
    ensures r.PyStr? <==> Subdomain(urlparse, u) == Some("")
    ensures r.PyStr? ==> r == PyStr("")
    ensures r.PyBool? ==> (r.b <==> Scheme(urlparse, u) == HTTP || Scheme(urlparse, u) == HTTPS)
    ensures !r.PyUrl?
  {
    match Subdomain(urlparse, u)
    case None => PyNone
    case Some(h) =>
      if h == "" then PyStr(h) else PyBool(Scheme(urlparse, u) in {HTTP, HTTPS})
  }

  /** `URL.is_valid` as a boolean: a non-empty hostname and an http or https scheme. */
  function IsValid(urlparse: UrlParser, u: Url): (valid: bool)
    ensures valid <==> Truthy(IsValidAsWritten(urlparse, u))
    ensures valid ==> Subdomain(urlparse, u).Some? && Subdomain(urlparse, u).value != ""
    ensures valid ==> Scheme(urlparse, u) == HTTP || Scheme(urlparse, u) == HTTPS
  {
    Subdomain(urlparse, u).Some? && Subdomain(urlparse, u).value != ""
    && Scheme(urlparse, u) in {HTTP, HTTPS}
  }

  /**
   * The value as written disagrees with a `False` expectation exactly when
   * the hostname is missing or empty: it is then not the boolean False.
   */
  lemma IsValidAsWrittenNotBoolean(urlparse: UrlParser, u: Url)
    requires Subdomain(urlparse, u) == None || Subdomain(urlparse, u) == Some("")
    ensures !IsValid(urlparse, u)
    ensures IsValidAsWritten(urlparse, u) != PyBool(false)
  {
  }

  /** `URL.__eq__`: the other value is a URL with the same address. */
  function Eq(u: Url, other: PyValue): (equal: bool)
    ensures equal <==> other == PyUrl(u)
  {
    other.PyUrl? && other.url.address == u.address
  }

  /** `URL.__hash__`: the hash of the address, for a given string hash. */
  function Hash(strHash: string -> int, u: Url): int
  {
    strHash(u.address)
  }

  /** Equality is an equivalence on URLs. */
  lemma EqIsAddressEquality(u: Url, v: Url, w: Url)
    ensures Eq(u, PyUrl(v)) <==> u.address == v.address
    ensures Eq(u, PyUrl(u))
    ensures Eq(u, PyUrl(v)) ==> Eq(v, PyUrl(u))
    ensures Eq(u, PyUrl(v)) && Eq(v, PyUrl(w)) ==> Eq(u, PyUrl(w))
  {
  }

  /** The hash agrees with equality: equal URLs hash alike, whatever the string hash. */
  lemma HashAgreesWithEq(strHash: string -> int, u: Url, v: Url)
    ensures Eq(u, PyUrl(v)) ==> Hash(strHash, u) == Hash(strHash, v)
  {
  }

  /**
   * The parsed parts are fixed at construction from the address: equal
   * URLs have the same subdomain, scheme and validity.
   */
  lemma ParsedPartsFollowAddress(urlparse: UrlParser, u: Url, v: Url)
    ensures Eq(u, PyUrl(v)) ==> Subdomain(urlparse, u) == Subdomain(urlparse, v)
    ensures Eq(u, PyUrl(v)) ==> Scheme(urlparse, u) == Scheme(urlparse, v)
    ensures Eq(u, PyUrl(v)) ==> IsValid(urlparse, u) == IsValid(urlparse, v)
  {
  }

  /** A URL never equals a value that is not a URL, such as its own address string. */
  lemma NeverEqualsNonUrl(u: Url, other: PyValue)
    requires !other.PyUrl?
    ensures !Eq(u, other)
    ensures !Eq(u, PyStr(u.address))
  {
  }
}
