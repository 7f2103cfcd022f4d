/** The decisions the telemetry HTTP endpoint makes, shared by the common
    and the Forge copy of `TelemetryHttpServer`: the port chain, the cache
    update and the GET-only handlers. The bind-address decisions, which
    differ between the two copies, are in `CommonHttp` and `ForgeHttp`. */
module Http {
  import opened Wrappers
  import opened Java

  const DEFAULT_PORT: int := 8765
  const DEFAULT_BIND_ADDRESS: string := "127.0.0.1"
  const MAX_PORT: int := 65535

  /** `validatePort`. */
  predicate ValidPort(candidate: int) {
    0 < candidate <= MAX_PORT
  }

  /** `resolvePort(configuredPort)` with `property` the value of the
      `MCTELEMETRY_PORT` system property. */
  function ResolvePort(configuredPort: int, property: Option<string>): (port: int)
    ensures ValidPort(port)
    ensures property.None? || IsBlank(property.value) ==>
              port == (if ValidPort(configuredPort) then configuredPort else DEFAULT_PORT)
    ensures property.Some? && !IsBlank(property.value) ==>
              port == DEFAULT_PORT || ParseInt(Trim(property.value)) == Some(port)
    ensures property.Some? && !IsBlank(property.value) && ParseInt(Trim(property.value)).Some? &&
            ValidPort(ParseInt(Trim(property.value)).value) ==>
              port == ParseInt(Trim(property.value)).value
  {
    if property.None? || IsBlank(property.value) then
      if ValidPort(configuredPort) then configuredPort else DEFAULT_PORT
    else
      match ParseInt(Trim(property.value))
      case Some(parsed) => if ValidPort(parsed) then parsed else DEFAULT_PORT
      case None => DEFAULT_PORT
  }

  /** A port written in decimal in the property is the port used, whatever
      was configured. */
  lemma ResolvePortReadsProperty(configuredPort: int, port: nat)
    requires ValidPort(port)
    ensures ResolvePort(configuredPort, Some(DecimalText(port))) == port
  {
    var text := DecimalText(port);
    assert !IsWhitespace(text[0]);
    assert !IsTrimmed(text[0]) && !IsTrimmed(text[|text| - 1]);
    assert TrimStart(text) == text;
    assert TrimEnd(text) == text;
    ParseIntOfDecimalText(port);
  }

  lemma TrimUnpadded(s: string)
    requires s != [] && !IsTrimmed(s[0]) && !IsTrimmed(s[|s| - 1])
    ensures Trim(s) == s
  {
    assert TrimStart(s) == s;
    assert TrimEnd(s) == s;
  }

  /** `Integer.parseInt` of a short literal. */
  lemma ParsesTo(text: string, value: int)
    requires |text| <= 5 && AllDigits(text) && text != []
    requires value == DigitsValue(text) && value <= INT_MAX
    ensures ParseInt(text) == Some(value)
  {
  }

  /** A blank property leaves the configured port in charge, and an
      invalid configured port gives 8765. */
  lemma ResolvePortExamples()
    ensures ResolvePort(25565, Some(" ")) == 25565
    ensures ResolvePort(25565, None) == 25565
    ensures ResolvePort(0, None) == DEFAULT_PORT
    ensures ResolvePort(70000, Some("")) == DEFAULT_PORT
  {
  }

  lemma SeventyThousandDigits()
    ensures AllDigits("70000") && DigitsValue("70000") == 70000
  {
    assert "70000"[..4] == "7000";
    assert "7000"[..3] == "700";
    assert "700"[..2] == "70";
    assert "70"[..1] == "7";
    assert "7"[..0] == "";
  }

  /** A property naming a port above 65535 gives 8765. */
  lemma ResolvePortRejectsOutOfRange()
    ensures ResolvePort(25565, Some("70000")) == DEFAULT_PORT
  {
    assert !IsBlank("70000") by { assert !IsWhitespace("70000"[0]); }
    TrimUnpadded("70000");
    SeventyThousandDigits();
    ParsesTo("70000", 70000);
  }

  /** A property that is not a number gives 8765. */
  lemma ResolvePortRejectsText()
    ensures ResolvePort(25565, Some("port")) == DEFAULT_PORT
  {
    assert !IsBlank("port") by { assert !IsWhitespace("port"[0]); }
    TrimUnpadded("port");
    assert ParseInt("port").None? by {
      assert !IsDigit("port"[0]);
    }
  }

  /** The constructor's port: a port at most zero becomes 8765. */
  function NormalizedPort(port: int): (p: int)
    ensures p > 0
    ensures port > 0 ==> p == port
    ensures port <= 0 ==> p == DEFAULT_PORT
  {
    if port > 0 then port else DEFAULT_PORT
  }

  /** The constructor's cache: a null initial payload becomes `"{}"`. */
  function InitialCache(initialTelemetry: Option<string>): (cache: string)
    ensures initialTelemetry.Some? ==> cache == initialTelemetry.value
    ensures initialTelemetry.None? ==> cache == "{}" && !IsBlank(cache)
  {
    assert !IsWhitespace("{}"[0]);
    if initialTelemetry.None? then "{}" else initialTelemetry.value
  }

  /** `updateTelemetry`: a null or blank payload leaves the cache alone,
      anything else replaces it. */
  function UpdatedCache(cache: string, telemetryJson: Option<string>): (next: string)
    ensures telemetryJson.Some? && !IsBlank(telemetryJson.value) ==> next == telemetryJson.value
    ensures telemetryJson.None? || IsBlank(telemetryJson.value) ==> next == cache
    ensures !IsBlank(cache) ==> !IsBlank(next)
  {
    if telemetryJson.Some? && !IsBlank(telemetryJson.value) then telemetryJson.value else cache
  }

  /** Applying the same update twice is applying it once. */
  lemma UpdatedCacheIdempotent(cache: string, telemetryJson: Option<string>)
    ensures UpdatedCache(UpdatedCache(cache, telemetryJson), telemetryJson) == UpdatedCache(cache, telemetryJson)
  {
  }

  /** An `InetAddress` as the server uses it: its text form and the two
      tests `isLoopbackAddress` and `isAnyLocalAddress`. */
  datatype InetAddress = InetAddress(hostAddress: string, isLoopback: bool, isAnyLocal: bool)

  /** `InetAddress.getByName`; `None` stands for `UnknownHostException`. */
  type Resolver = string -> Option<InetAddress>

  /** The two contexts the server registers. */
  datatype Route = TelemetryRoute | HealthRoute

  /** What a handler sends: the status, the `Allow` header, the
      `Content-Type` header and the body (`None` for the bodiless 405). */
  datatype Response = Response(status: int, allow: Option<string>, contentType: Option<string>, body: Option<string>)

  /** `"GET".equalsIgnoreCase(method)`. No character other than the ASCII
      letters themselves has `G`, `E` or `T` as its upper or lower case. */
  predicate IsGet(requestMethod: string) {
    |requestMethod| == 3 &&
    (requestMethod[0] == 'G' || requestMethod[0] == 'g') &&
    (requestMethod[1] == 'E' || requestMethod[1] == 'e') &&
    (requestMethod[2] == 'T' || requestMethod[2] == 't')
  }

  /** `TelemetryHandler.handle` and `HealthHandler.handle`. */
  function Handle(route: Route, requestMethod: string, cache: string): (r: Response)
    ensures r.status == 200 <==> IsGet(requestMethod)
    ensures r.status != 200 ==> r == Response(405, Some("GET"), None, None)
    ensures r.status == 200 && route == TelemetryRoute ==>
              r.body == Some(cache) && r.contentType == Some("application/json; charset=utf-8")
    ensures r.status == 200 && route == HealthRoute ==>
              r.body == Some("ok") && r.contentType == Some("text/plain; charset=utf-8")
    ensures r.status == 200 ==> r.allow.None?
  {
    if !IsGet(requestMethod) then Response(405, Some("GET"), None, None)
    else match route
      case TelemetryRoute => Response(200, None, Some("application/json; charset=utf-8"), Some(cache))
      case HealthRoute => Response(200, None, Some("text/plain; charset=utf-8"), Some("ok"))
  }

  /** The method check ignores case and nothing else. */
  lemma HandleExamples(route: Route, cache: string)
    ensures Handle(route, "GET", cache).status == 200
    ensures Handle(route, "get", cache).status == 200
    ensures Handle(route, "POST", cache).status == 405
    ensures Handle(route, "GETS", cache).status == 405
    ensures Handle(route, "HEAD", cache).allow == Some("GET")
  {
  }

  /** The server object shared by both copies once its address is chosen:
      the cache, the normalised port, the address, and whether an
      `HttpServer` is running (`server != null`). */
  class TelemetryHttpServer {
    var lastTelemetryJson: string
    const port: int
    const bindAddress: InetAddress
    const bindAddressText: string
    var running: bool

    /** The part of the constructor after the address has been resolved. */
    constructor (initialTelemetry: Option<string>, port: int, bindAddress: InetAddress)
      ensures lastTelemetryJson == InitialCache(initialTelemetry)
      ensures this.port == NormalizedPort(port)
      ensures this.bindAddress == bindAddress && bindAddressText == bindAddress.hostAddress
      ensures !running
    {
      lastTelemetryJson := InitialCache(initialTelemetry);
      this.port := NormalizedPort(port);
      this.bindAddress := bindAddress;
      bindAddressText := bindAddress.hostAddress;
      running := false;
    }

    /** `start()`: a running server reports success untouched; otherwise
      `new InetSocketAddress` refuses a port beyond 65535, and binding the
      socket (`bindSucceeds`, left to the host) decides the result. */
    method Start(bindSucceeds: bool) returns (r: Result<bool, JavaException>)
      modifies this
      ensures lastTelemetryJson == old(lastTelemetryJson)
      ensures old(running) ==> r == Ok(true) && running
      ensures !old(running) && (port < 0 || port > MAX_PORT) ==>
                r == Err(IllegalArgument("port out of range:" + IntText(port))) && !running
      ensures !old(running) && 0 <= port <= MAX_PORT ==> r == Ok(bindSucceeds) && running == bindSucceeds
    {
      if running {
        return Ok(true);
      }
      if port < 0 || port > MAX_PORT {
        return Err(IllegalArgument("port out of range:" + IntText(port)));
      }
      if !bindSucceeds {
        running := false;
        return Ok(false);
      }
      running := true;
      return Ok(true);
    }

    /** `stop()`: idempotent. */
    method Stop()
      modifies this
      ensures !running
      ensures lastTelemetryJson == old(lastTelemetryJson)
    {
      if running {
        running := false;
      }
    }

    /** `updateTelemetry(telemetryJson)`. */
    method UpdateTelemetry(telemetryJson: Option<string>)
      modifies this
      ensures lastTelemetryJson == UpdatedCache(old(lastTelemetryJson), telemetryJson)
      ensures running == old(running)
    {
      if telemetryJson.Some? && !IsBlank(telemetryJson.value) {
        lastTelemetryJson := telemetryJson.value;
      }
    }

    /** What a request on `route` with `requestMethod` receives now. */
    function Respond(route: Route, requestMethod: string): (r: Response)
      reads this
      ensures IsGet(requestMethod) && route == TelemetryRoute ==> r.body == Some(lastTelemetryJson)
    {
      Handle(route, requestMethod, lastTelemetryJson)
    }
  }
}
