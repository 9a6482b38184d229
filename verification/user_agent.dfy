/** The User-Agent header value: the library name and version followed by
    the Go runtime version. The runtime version is a parameter here. */
module UserAgent {
  import opened Errors

  const ClientLibVersion: string := "3.3.0"

  /** What every user-agent string starts with. */
  const Prefix: string := "gocardless-pro-go/" + ClientLibVersion + " go/"

  /** The string `initUserAgent` formats from the runtime version. */
  function Format(goVersion: string): (ua: string)
    ensures |ua| == |Prefix| + |goVersion|
    ensures ua[..|Prefix|] == Prefix
    ensures ua[|Prefix|..] == goVersion
  {
    Prefix + goVersion
  }

  /** Recovers the runtime version from a user-agent string, if it has the
      library's prefix. */
  function RuntimeVersionOf(ua: string): (v: Option<string>)
    ensures v.Some? <==> |Prefix| <= |ua| && ua[..|Prefix|] == Prefix
    ensures v.Some? ==> ua == Prefix + v.value
  {
    if |Prefix| <= |ua| && ua[..|Prefix|] == Prefix then Some(ua[|Prefix|..]) else None
  }

  /** Stripping the prefix gives back the runtime version. */
  lemma FormatRoundTrip(goVersion: string)
    ensures RuntimeVersionOf(Format(goVersion)) == Some(goVersion)
  {
    var ua := Format(goVersion);
    assert ua[..|Prefix|] == Prefix;
  }

  /** Distinct runtime versions give distinct user agents. */
  lemma FormatInjective(v1: string, v2: string)
    ensures Format(v1) == Format(v2) <==> v1 == v2
  {
    if Format(v1) == Format(v2) {
      FormatRoundTrip(v1);
      FormatRoundTrip(v2);
    }
  }

  /** The package-level state `initUserAgent` writes: the `userAgent`
      variable. Before initialisation it holds Go's zero string. */
  datatype Package = Package(userAgent: string)

  const Uninitialized: Package := Package("")

  function InitUserAgent(pkg: Package, goVersion: string): (p: Package)
    ensures RuntimeVersionOf(p.userAgent) == Some(goVersion)
  {
    FormatRoundTrip(goVersion);
    Package(Format(goVersion))
  }

  /** Before initialisation there is no user agent at all, so no runtime
      version can be read from it. */
  lemma UninitializedIsEmpty()
    ensures Uninitialized.userAgent == ""
    ensures RuntimeVersionOf(Uninitialized.userAgent) == None
  {
  }

  /** Running the initialisation again with the same runtime version does
      not change the package state, whatever it held before. */
  lemma InitIdempotent(pkg: Package, goVersion: string)
    ensures InitUserAgent(InitUserAgent(pkg, goVersion), goVersion) == InitUserAgent(pkg, goVersion)
  {
  }
}
