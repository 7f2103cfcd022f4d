/** The common `TelemetryHttpServer`'s construction: the
    `MCTELEMETRY_BIND` override, trimming, and a strict address check that
    refuses anything but a loopback or wildcard address. */
module CommonHttp {
  import opened Wrappers
  import opened Java
  import opened Http

  /** The address text `resolveBindAddress` looks up: a non-blank override
      (trimmed) replaces the configured address, and a null or blank
      choice becomes 127.0.0.1. */
  function DesiredBindAddress(configuredAddress: Option<string>, bindOverride: Option<string>): (desired: string)
    ensures bindOverride.Some? && !IsBlank(bindOverride.value) ==>
              desired == (if IsBlank(Trim(bindOverride.value)) then DEFAULT_BIND_ADDRESS else Trim(bindOverride.value))
    ensures (bindOverride.None? || IsBlank(bindOverride.value)) && (configuredAddress.None? || IsBlank(configuredAddress.value)) ==>
              desired == DEFAULT_BIND_ADDRESS
    ensures (bindOverride.None? || IsBlank(bindOverride.value)) && configuredAddress.Some? && !IsBlank(configuredAddress.value) ==>
              desired == Trim(configuredAddress.value)
  {
    if bindOverride.Some? && !IsBlank(bindOverride.value) then
      var trimmed := Trim(bindOverride.value);
      if IsBlank(trimmed) then DEFAULT_BIND_ADDRESS
      else
        TrimIdempotent(bindOverride.value);
        Trim(trimmed)
    else if configuredAddress.None? || IsBlank(configuredAddress.value) then DEFAULT_BIND_ADDRESS
    else Trim(configuredAddress.value)
  }

  lemma DefaultAddressIsTrimmed()
    ensures !IsTrimmed(DEFAULT_BIND_ADDRESS[0]) && !IsTrimmed(DEFAULT_BIND_ADDRESS[|DEFAULT_BIND_ADDRESS| - 1])
  {
  }

  /** The looked-up text never starts or ends with a character `trim`
      would remove. */
  lemma DesiredBindAddressIsTrimmed(configuredAddress: Option<string>, bindOverride: Option<string>)
    ensures var desired := DesiredBindAddress(configuredAddress, bindOverride);
            desired == [] || (!IsTrimmed(desired[0]) && !IsTrimmed(desired[|desired| - 1]))
  {
    DefaultAddressIsTrimmed();
    var desired := DesiredBindAddress(configuredAddress, bindOverride);
    if bindOverride.Some? && !IsBlank(bindOverride.value) {
      var trimmed := Trim(bindOverride.value);
      if IsBlank(trimmed) {
        assert desired == DEFAULT_BIND_ADDRESS;
      } else {
        assert desired == trimmed;
      }
    } else if configuredAddress.None? || IsBlank(configuredAddress.value) {
      assert desired == DEFAULT_BIND_ADDRESS;
    } else {
      assert desired == Trim(configuredAddress.value);
    }
  }

  /** A non-blank override makes the configured address irrelevant. */
  lemma OverrideWins(configured1: Option<string>, configured2: Option<string>, bindOverride: string)
    requires !IsBlank(bindOverride)
    ensures DesiredBindAddress(configured1, Some(bindOverride)) == DesiredBindAddress(configured2, Some(bindOverride))
  {
  }

  /** `resolveBindAddress`: the looked-up address if it is loopback or
      any-local, and otherwise an `IllegalArgumentException` naming the
      address. */
  function StrictBindAddress(configuredAddress: Option<string>, bindOverride: Option<string>, resolve: Resolver)
    : (r: Result<InetAddress, JavaException>)
    ensures var desired := DesiredBindAddress(configuredAddress, bindOverride);
            && (r.Ok? <==> resolve(desired).Some? && (resolve(desired).value.isLoopback || resolve(desired).value.isAnyLocal))
            && (r.Ok? ==> r.value == resolve(desired).value)
            && (resolve(desired).None? ==> r == Err(IllegalArgument("Unable to resolve bind address: " + desired)))
            && (resolve(desired).Some? && !r.Ok? ==> r == Err(IllegalArgument("Bind address must be loopback or 0.0.0.0: " + desired)))
  {
    var desired := DesiredBindAddress(configuredAddress, bindOverride);
    match resolve(desired)
    case None => Err(IllegalArgument("Unable to resolve bind address: " + desired))
    case Some(resolved) =>
      if !(resolved.isLoopback || resolved.isAnyLocal) then
        Err(IllegalArgument("Bind address must be loopback or 0.0.0.0: " + desired))
      else Ok(resolved)
  }

  /** The server can only ever listen on a loopback or wildcard address. */
  lemma StrictAddressIsLocal(configuredAddress: Option<string>, bindOverride: Option<string>, resolve: Resolver)
    requires StrictBindAddress(configuredAddress, bindOverride, resolve).Ok?
    ensures StrictBindAddress(configuredAddress, bindOverride, resolve).value.isLoopback ||
            StrictBindAddress(configuredAddress, bindOverride, resolve).value.isAnyLocal
  {
  }

  /** `new TelemetryHttpServer(logger, initialTelemetry, port, bindAddress)`
      with `bindOverride` the value of `MCTELEMETRY_BIND`. */
  method Create(logger: Option<Logger>, initialTelemetry: Option<string>, port: int, bindAddress: Option<string>,
                bindOverride: Option<string>, resolve: Resolver)
    returns (r: Result<TelemetryHttpServer, JavaException>)
    ensures logger.None? ==> r == Err(NullPointer("logger"))
    ensures logger.Some? && StrictBindAddress(bindAddress, bindOverride, resolve).Err? ==>
              r == Err(StrictBindAddress(bindAddress, bindOverride, resolve).error)
    ensures r.Ok? <==> logger.Some? && StrictBindAddress(bindAddress, bindOverride, resolve).Ok?
    ensures r.Ok? ==> fresh(r.value) && !r.value.running
    ensures r.Ok? ==> r.value.lastTelemetryJson == InitialCache(initialTelemetry)
    ensures r.Ok? ==> r.value.port == NormalizedPort(port)
    ensures r.Ok? ==> r.value.bindAddress == StrictBindAddress(bindAddress, bindOverride, resolve).value
  {
    if logger.None? {
      return Err(NullPointer("logger"));
    }
    var resolved := StrictBindAddress(bindAddress, bindOverride, resolve);
    if resolved.Err? {
      return Err(resolved.error);
    }
    var server := new TelemetryHttpServer(initialTelemetry, port, resolved.value);
    return Ok(server);
  }

  /** `new TelemetryHttpServer(logger, initialTelemetry)`: port 8765 unless
      `MCTELEMETRY_PORT` says otherwise, address 127.0.0.1 unless
      `MCTELEMETRY_BIND` says otherwise. */
  method CreateDefault(logger: Option<Logger>, initialTelemetry: Option<string>, portProperty: Option<string>,
                       bindOverride: Option<string>, resolve: Resolver)
    returns (r: Result<TelemetryHttpServer, JavaException>)
    ensures r.Ok? <==> logger.Some? && StrictBindAddress(Some(DEFAULT_BIND_ADDRESS), bindOverride, resolve).Ok?
    ensures r.Ok? ==> fresh(r.value) && !r.value.running
    ensures r.Ok? ==> r.value.port == ResolvePort(DEFAULT_PORT, portProperty) && ValidPort(r.value.port)
    ensures r.Ok? ==> r.value.lastTelemetryJson == InitialCache(initialTelemetry)
  {
    r := Create(logger, initialTelemetry, ResolvePort(DEFAULT_PORT, portProperty), Some(DEFAULT_BIND_ADDRESS), bindOverride, resolve);
  }
}
