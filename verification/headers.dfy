/** The header map of an outgoing request. Names are taken to be in the
    canonical form `Header.Set` would give them; a `Set` replaces any
    earlier value of the same name. */
module Headers {
  import opened Errors

  type Header = map<string, string>

  const Authorization: string := "Authorization"
  const Version: string := "GoCardless-Version"
  const ClientLibrary: string := "GoCardless-Client-Library"
  const ClientVersion: string := "GoCardless-Client-Version"
  const UserAgentName: string := "User-Agent"
  const ContentType: string := "Content-Type"
  const IdempotencyKey: string := "Idempotency-Key"

  const ApiVersion: string := "2015-07-06"
  const LibraryName: string := "gocardless-pro-go"
  const LibraryVersion: string := "1.0.0"
  const JsonMediaType: string := "application/json"

  /** The value of the `Authorization` header for an access token. */
  function Bearer(token: string): string
  {
    "Bearer " + token
  }

  /** The headers a retried resource call sets before the caller's own, in
      the order it sets them; a mutating call (`key` present) also sets the
      content type and its idempotency key. */
  function Fixed(token: string, userAgent: string, key: Option<string>): (h: Header)
    ensures h.Keys == FixedNames(key.Some?)
    ensures h[Authorization] == "Bearer " + token
    ensures h[Version] == "2015-07-06"
    ensures h[ClientLibrary] == "gocardless-pro-go"
    ensures h[ClientVersion] == "1.0.0"
    ensures h[UserAgentName] == userAgent
    ensures key.Some? ==> h[ContentType] == "application/json" && h[IdempotencyKey] == key.value
  {
    var h := map[][Authorization := Bearer(token)][Version := ApiVersion]
                  [ClientLibrary := LibraryName][ClientVersion := LibraryVersion]
                  [UserAgentName := userAgent];
    match key
    case None => h
    case Some(k) => h[ContentType := JsonMediaType][IdempotencyKey := k]
  }

  /** The names `Fixed` sets. */
  function FixedNames(mutating: bool): set<string>
  {
    {Authorization, Version, ClientLibrary, ClientVersion, UserAgentName}
    + (if mutating then {ContentType, IdempotencyKey} else {})
  }

  /** `base` with every caller header set on top of it. */
  function Overlay(base: Header, caller: Header): (h: Header)
    ensures h.Keys == base.Keys + caller.Keys
    ensures forall name :: name in caller ==> h[name] == caller[name]
    ensures forall name :: name in base && name !in caller ==> h[name] == base[name]
  {
    base + caller
  }

  /** The request carries `name` with the caller's value when the caller
      supplied one, and with `value` otherwise. */
  ghost predicate Carries(h: Header, caller: Header, name: string, value: string)
  {
    name in h && h[name] == (if name in caller then caller[name] else value)
  }

  /** The request carries `name` only if the caller supplied it. */
  ghost predicate OnlyFromCaller(h: Header, caller: Header, name: string)
  {
    (name in h <==> name in caller) && (name in caller ==> h[name] == caller[name])
  }

  /** The loop over the caller's header map. Go visits a map in an
      unspecified order, so each step here picks any remaining name; the
      result does not depend on the order. */
  method SetEach(base: Header, caller: Header) returns (h: Header)
    ensures h == Overlay(base, caller)
  {
    h := base;
    var pending := caller.Keys;
    while pending != {}
      invariant pending <= caller.Keys
      invariant h.Keys == base.Keys + (caller.Keys - pending)
      invariant forall name :: name in caller && name !in pending ==> h[name] == caller[name]
      invariant forall name :: name in base && name !in caller.Keys - pending ==> h[name] == base[name]
      decreases pending
    {
      var name :| name in pending;
      h := h[name := caller[name]];
      pending := pending - {name};
    }
    assert h.Keys == Overlay(base, caller).Keys;
  }
}
