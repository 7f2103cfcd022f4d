/** The Forge `TelemetryHttpServer`'s construction: no override property,
    no trimming, and an address check that falls back to 127.0.0.1
    instead of failing. */
module ForgeHttp {
  import opened Wrappers
  import opened Java
  import opened Http

  /** The address text looked up first: the configured one as given, or
      127.0.0.1 when it is null or blank. */
  function ForgeDesiredAddress(configuredAddress: Option<string>): (desired: string)
    ensures configuredAddress.Some? && !IsBlank(configuredAddress.value) ==> desired == configuredAddress.value
    ensures configuredAddress.None? || IsBlank(configuredAddress.value) ==> desired == DEFAULT_BIND_ADDRESS
  {
    if configuredAddress.None? || IsBlank(configuredAddress.value) then DEFAULT_BIND_ADDRESS else configuredAddress.value
  }

  /** `resolveBindAddress`: a loopback address is kept; a non-loopback or
      unresolvable one is replaced by the address 127.0.0.1 resolves to;
      only when 127.0.0.1 itself cannot be resolved is an
      `IllegalStateException` thrown. (A failed lookup of 127.0.0.1 in the
      non-loopback branch lands in the `UnknownHostException` handler,
      which repeats that lookup; lookups are deterministic here, so the
      repetition fails the same way.) */
  function FallbackBindAddress(configuredAddress: Option<string>, resolve: Resolver): (r: Result<InetAddress, JavaException>)
    ensures var first := resolve(ForgeDesiredAddress(configuredAddress));
            && (first.Some? && first.value.isLoopback ==> r == Ok(first.value))
            && (!(first.Some? && first.value.isLoopback) && resolve(DEFAULT_BIND_ADDRESS).Some? ==>
                  r == Ok(resolve(DEFAULT_BIND_ADDRESS).value))
            && (!(first.Some? && first.value.isLoopback) && resolve(DEFAULT_BIND_ADDRESS).None? ==>
                  r == Err(IllegalState("Unable to resolve default bind address")))
  {
    var desired := ForgeDesiredAddress(configuredAddress);
    var fallback := match resolve(DEFAULT_BIND_ADDRESS)
      case Some(loopback) => Ok(loopback)
      case None => Err(IllegalState("Unable to resolve default bind address"));
    match resolve(desired)
    case Some(resolved) => if !resolved.isLoopback then fallback else Ok(resolved)
    case None => fallback
  }

  /** When 127.0.0.1 resolves to a loopback address, the Forge server never
      fails to pick an address and never listens beyond loopback, even for
      the wildcard address the common server accepts. */
  lemma FallbackIsLoopback(configuredAddress: Option<string>, resolve: Resolver)
    requires resolve(DEFAULT_BIND_ADDRESS).Some? && resolve(DEFAULT_BIND_ADDRESS).value.isLoopback
    ensures FallbackBindAddress(configuredAddress, resolve).Ok?
    ensures FallbackBindAddress(configuredAddress, resolve).value.isLoopback
  {
  }

  /** `new TelemetryHttpServer(logger, initialTelemetry, port, bindAddress)`. */
  method Create(logger: Option<Logger>, initialTelemetry: Option<string>, port: int, bindAddress: Option<string>,
                resolve: Resolver)
    returns (r: Result<TelemetryHttpServer, JavaException>)
    ensures logger.None? ==> r == Err(NullPointer("logger"))
    ensures logger.Some? && FallbackBindAddress(bindAddress, resolve).Err? ==>
              r == Err(IllegalState("Unable to resolve default bind address"))
    ensures r.Ok? <==> logger.Some? && FallbackBindAddress(bindAddress, resolve).Ok?
    ensures r.Ok? ==> fresh(r.value) && !r.value.running
    ensures r.Ok? ==> r.value.lastTelemetryJson == InitialCache(initialTelemetry)
    ensures r.Ok? ==> r.value.port == NormalizedPort(port)
    ensures r.Ok? ==> r.value.bindAddress == FallbackBindAddress(bindAddress, resolve).value
  {
    if logger.None? {
      return Err(NullPointer("logger"));
    }
    var resolved := FallbackBindAddress(bindAddress, resolve);
    if resolved.Err? {
      return Err(resolved.error);
    }
    var server := new TelemetryHttpServer(initialTelemetry, port, resolved.value);
    return Ok(server);
  }

  /** `new TelemetryHttpServer(logger, initialTelemetry)`. */
  method CreateDefault(logger: Option<Logger>, initialTelemetry: Option<string>, portProperty: Option<string>,
                       resolve: Resolver)
    returns (r: Result<TelemetryHttpServer, JavaException>)
    ensures r.Ok? <==> logger.Some? && FallbackBindAddress(Some(DEFAULT_BIND_ADDRESS), resolve).Ok?
    ensures r.Ok? ==> fresh(r.value) && !r.value.running
    ensures r.Ok? ==> r.value.port == ResolvePort(DEFAULT_PORT, portProperty) && ValidPort(r.value.port)
    ensures r.Ok? ==> r.value.lastTelemetryJson == InitialCache(initialTelemetry)
  {
    r := Create(logger, initialTelemetry, ResolvePort(DEFAULT_PORT, portProperty), Some(DEFAULT_BIND_ADDRESS), resolve);
  }
}
