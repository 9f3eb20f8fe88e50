/** The retry and circuit-breaker wrapper.  Per service name it keeps a count
    of failures since the last success and, once tripped, a breaker entry
    holding the time until which calls are refused.  An operation is tried up
    to `maxRetries` times with exponential waits in between; when every
    attempt fails the caller gets a service-specific fallback text instead of
    an exception.  The operation, the clock and the waits are parameters:
    `op(k)` is what the k-th attempt yields, `clock(k)` is the time read when
    the k-th failure may open the breaker, and the waits a call asks for are
    returned in order. */
module Recovery {
  import opened Common

  const DefaultMaxRetries: int := 3
  /** Five minutes, in milliseconds. */
  const ResetTimeout: int := 300000
  /** A failure opens the breaker when the count before it is at least this. */
  const BreakerThreshold: int := 5

  /** What one invocation of the operation does. */
  datatype Attempt = Succeeded(value: string) | Failed(message: string)

  /** How a call to executeWithRetry ends: resolved with the operation's
      value, resolved with the service's fallback text for the last error's
      message, or rejected with an error message. */
  datatype Outcome = Returned(text: string) | FellBack(lastMessage: string) | Threw(message: string)

  /** The wrapper's state as values: error counts and breaker reset times. */
  datatype State = State(counts: map<string, int>, breakers: map<string, int>)

  /** Everything one call produces: the new state, the outcome, how many
      times the operation ran and the waits (in ms) requested, in order. */
  datatype Run = Run(st: State, outcome: Outcome, calls: nat, waits: seq<int>)

  /** `errorCounts.get(name) || 0`. */
  function Count(counts: map<string, int>, name: string): int
  {
    if name in counts then counts[name] else 0
  }

  /** The breaker's `isOpen()`: an entry exists and its reset time is still
      strictly in the future. */
  predicate IsOpen(breakers: map<string, int>, name: string, now: int)
  {
    name in breakers && now < breakers[name]
  }

  function Pow2(n: nat): (p: nat)
    ensures p >= 1
  {
    if n == 0 then 1 else 2 * Pow2(n - 1)
  }

  /** The wait requested after a failed attempt: 2^attempt seconds. */
  function Backoff(attempt: nat): int
  {
    Pow2(attempt) * 1000
  }

  const UnavailablePrefix: string := "Service "
  const UnavailableSuffix: string := " is temporarily unavailable. Please try again later."

  /** The error thrown when the loop never ran and `lastError` is undefined. */
  const UndefinedLastError: string := "Cannot read properties of undefined (reading 'message')"

  // ---------------------------------------------------------------------
  // Fallback texts (getFallbackResponse and the per-service templates)

  /** The keys that have their own template. */
  predicate HasOwnFallback(name: string)
  {
    name in {"currency", "weather", "search", "flights", "hotels", "timezone"}
  }

  const CurrencyHead: string :=
    "\U{1F4B1}" + " **Currency Conversion Service Temporarily Unavailable**\n\nI'm unable to get real-time exchange rates right now due to: "
  const CurrencyTail: string :=
    "\n\n**Alternative Options:**\n\U{2022} Check xe.com or google.com for current rates\n\U{2022} Use your bank's mobile app for rates\n\U{2022} Major credit cards typically offer competitive exchange rates\n\n**Approximate rates (may be outdated):**\n\U{2022} 1 USD \U{2248} 0.85 EUR\n\U{2022} 1 USD \U{2248} 0.75 GBP  \n\U{2022} 1 USD \U{2248} 110 JPY\n\U{2022} 1 EUR \U{2248} 1.18 USD\n\n*For accurate rates, please check current financial websites.*"
  const WeatherHead: string :=
    "\U{1F324}" + "\U{FE0F} **Weather Service Temporarily Unavailable**\n\nI'm unable to get current weather data due to: "
  const WeatherTail: string :=
    "\n\n**Alternative Weather Sources:**\n\U{2022} weather.com or weather.gov\n\U{2022} AccuWeather mobile app\n\U{2022} Local weather apps for your region\n\U{2022} Google search \"weather [city name]\"\n\n**General Travel Weather Tips:**\n\U{2022} Check weather 7-10 days before travel\n\U{2022} Pack layers for temperature variations\n\U{2022} Check seasonal weather patterns for your destination\n\U{2022} Consider weather-related travel insurance"
  const SearchHead: string :=
    "\U{1F310}" + " **Web Search Service Temporarily Unavailable**\n\nI'm unable to search the web right now due to: "
  const SearchTail: string :=
    "\n\n**Alternative Search Options:**\n\U{2022} Google.com for general searches\n\U{2022} TripAdvisor for travel reviews and recommendations\n\U{2022} Booking.com for hotels and accommodations\n\U{2022} Kayak or Expedia for flights and travel deals\n\n**Travel Planning Resources:**\n\U{2022} Lonely Planet for destination guides\n\U{2022} Official tourism websites for cities/countries\n\U{2022} Travel blogs and social media for current insights"
  const FlightsHead: string :=
    "\U{2708}" + "\U{FE0F} **Flight Search Service Temporarily Unavailable**\n\nI'm unable to search for flights right now due to: "
  const FlightsTail: string :=
    "\n\n**Alternative Flight Booking Options:**\n\U{2022} **Direct Airline Websites**: Often best prices and policies\n\U{2022} **Meta-search Sites**: Kayak, Skyscanner, Google Flights\n\U{2022} **Online Travel Agencies**: Expedia, Booking.com, Priceline\n\U{2022} **Travel Agents**: For complex itineraries\n\n**Flight Booking Tips:**\n\U{2022} Book 6-8 weeks ahead for domestic flights\n\U{2022} Book 2-3 months ahead for international flights\n\U{2022} Consider flexible dates for better prices\n\U{2022} Check multiple airports in large cities\n\U{2022} Compare round-trip vs. one-way prices"
  const HotelsHead: string :=
    "\U{1F3E8}" + " **Hotel Search Service Temporarily Unavailable**\n\nI'm unable to search for hotels right now due to: "
  const HotelsTail: string :=
    "\n\n**Alternative Accommodation Booking:**\n\U{2022} **Hotel Direct**: Best rates and cancellation policies\n\U{2022} **Booking Platforms**: Booking.com, Hotels.com, Expedia\n\U{2022} **Alternative Stays**: Airbnb, VRBO for apartments/homes\n\U{2022} **Hostels**: Hostelworld for budget-friendly options\n\n**Booking Tips:**\n\U{2022} Book directly with hotels for loyalty benefits\n\U{2022} Check cancellation policies before booking\n\U{2022} Read recent reviews for current conditions\n\U{2022} Consider location vs. price trade-offs\n\U{2022} Look for package deals with flights"
  const TimezoneHead: string :=
    "\U{1F550}" + " **Timezone Service Temporarily Unavailable**\n\nI'm unable to get timezone information right now due to: "
  const TimezoneTail: string :=
    "\n\n**Alternative Time Sources:**\n\U{2022} worldclock.com or timeanddate.com\n\U{2022} Google search \"time in [city name]\"\n\U{2022} Your phone's world clock app\n\U{2022} Computer system clock when set to destination timezone\n\n**Time Planning Tips:**\n\U{2022} Consider jet lag when planning activities\n\U{2022} Book calls/meetings accounting for time differences\n\U{2022} Check if destination observes daylight saving time\n\U{2022} Set your devices to destination time upon arrival"
  const GenericHead: string :=
    "\U{26A0}" + "\U{FE0F} **Service Temporarily Unavailable**\n\nThe "
  const GenericMiddle: string :=
    " service is currently experiencing issues: "
  const GenericTail: string :=
    "\n\n**What you can do:**\n\U{2022} Try again in a few minutes\n\U{2022} Use alternative sources for this information\n\U{2022} Ask me about other travel services that are available\n\U{2022} Contact me later when the service has recovered\n\n**Available Services:**\nI can still help with other aspects of your travel planning that don't require this specific service."

  /** The text in front of the error message in a service's fallback. */
  function FallbackHead(name: string): string
  {
    if name == "currency" then CurrencyHead
    else if name == "weather" then WeatherHead
    else if name == "search" then SearchHead
    else if name == "flights" then FlightsHead
    else if name == "hotels" then HotelsHead
    else if name == "timezone" then TimezoneHead
    else GenericHead + name + GenericMiddle
  }

  /** The text after the error message in a service's fallback. */
  function FallbackTail(name: string): string
  {
    if name == "currency" then CurrencyTail
    else if name == "weather" then WeatherTail
    else if name == "search" then SearchTail
    else if name == "flights" then FlightsTail
    else if name == "hotels" then HotelsTail
    else if name == "timezone" then TimezoneTail
    else GenericTail
  }

  /** `getFallbackResponse(serviceName, error)`: the template of the service
      when it has one, otherwise the generic template that names the service;
      either way the error's message is embedded between the two halves. */
  function GetFallbackResponse(name: string, message: string): (r: string)
    ensures r == FallbackHead(name) + message + FallbackTail(name)
    ensures !HasOwnFallback(name) ==> r == GenericHead + name + GenericMiddle + message + GenericTail
  {
    var fallbacks := map[
      "currency" := CurrencyHead + message + CurrencyTail,
      "weather" := WeatherHead + message + WeatherTail,
      "search" := SearchHead + message + SearchTail,
      "flights" := FlightsHead + message + FlightsTail,
      "hotels" := HotelsHead + message + HotelsTail,
      "timezone" := TimezoneHead + message + TimezoneTail];
    if name in fallbacks then fallbacks[name]
    else GenericHead + name + GenericMiddle + message + GenericTail
  }

  /** Each template opens with its own symbol, so two different services
      never give the same fallback text, and no service with a template gets
      the generic one. */
  lemma FallbacksDistinct(a: string, b: string, m1: string, m2: string)
    requires a != b && HasOwnFallback(a)
    ensures GetFallbackResponse(a, m1) != GetFallbackResponse(b, m2)
  {
    FallbackStartsWithSymbol(a, m1);
    FallbackStartsWithSymbol(b, m2);
    SymbolsDistinct(a, b);
  }

  lemma SymbolsDistinct(a: string, b: string)
    requires a != b && HasOwnFallback(a)
    ensures Symbol(a) != Symbol(b)
  {
  }

  lemma FallbackStartsWithSymbol(name: string, m: string)
    ensures |GetFallbackResponse(name, m)| > 0 && GetFallbackResponse(name, m)[0] == Symbol(name)
  {
    HeadStartsWithSymbol(name);
  }

  /** The symbol each fallback text opens with. */
  function Symbol(name: string): char
  {
    if name == "currency" then '\U{1F4B1}'
    else if name == "weather" then '\U{1F324}'
    else if name == "search" then '\U{1F310}'
    else if name == "flights" then '\U{2708}'
    else if name == "hotels" then '\U{1F3E8}'
    else if name == "timezone" then '\U{1F550}'
    else '\U{26A0}'
  }

  lemma HeadStartsWithSymbol(name: string)
    ensures |FallbackHead(name)| > 0 && FallbackHead(name)[0] == Symbol(name)
  {
  }

  // ---------------------------------------------------------------------
  // executeWithRetry as a function of the state and the oracles

  /** The state after a success: the count is back to 0 and the breaker
      entry is gone. */
  function AfterSuccess(st: State, name: string): State
  {
    State(st.counts[name := 0], st.breakers - {name})
  }

  /** The state after a failure at time `at`: the count grows by one, and the
      breaker opens until `at` plus the reset timeout when the count before
      the failure had reached the threshold. */
  function AfterFailure(st: State, name: string, at: int): State
  {
    var c := Count(st.counts, name);
    State(st.counts[name := c + 1], if c >= BreakerThreshold then st.breakers[name := at + ResetTimeout] else st.breakers)
  }

  /** The attempts from `attempt` on, when every earlier one failed. */
  function RunAttempts(st: State, name: string, attempt: nat, maxRetries: int,
                       op: nat -> Attempt, clock: nat -> int): Run
    requires 1 <= attempt <= maxRetries
    decreases maxRetries - attempt
  {
    match op(attempt)
    case Succeeded(v) =>
      Run(AfterSuccess(st, name), Returned(v), 1, [])
    case Failed(msg) =>
      var st' := AfterFailure(st, name, clock(attempt));
      if attempt == maxRetries then
        Run(st', FellBack(msg), 1, [])
      else
        var rest := RunAttempts(st', name, attempt + 1, maxRetries, op, clock);
        Run(rest.st, rest.outcome, rest.calls + 1, [Backoff(attempt)] + rest.waits)
  }

  /** `executeWithRetry(name, operation, maxRetries)` started at time `now`. */
  function Execute(st: State, name: string, maxRetries: int, now: int,
                   op: nat -> Attempt, clock: nat -> int): Run
  {
    if IsOpen(st.breakers, name, now) then
      Run(st, Threw(UnavailablePrefix + name + UnavailableSuffix), 0, [])
    else if maxRetries < 1 then
      Run(st, Threw(UndefinedLastError), 0, [])
    else
      RunAttempts(st, name, 1, maxRetries, op, clock)
  }

  /** What the promise returned by executeWithRetry settles to. */
  function Resolve(name: string, o: Outcome): (r: Result<string>)
    ensures o.Returned? ==> r == Ok(o.text)
    ensures o.FellBack? ==> r == Ok(GetFallbackResponse(name, o.lastMessage))
    ensures o.Threw? ==> r == Err(o.message)
  {
    match o
    case Returned(v) => Ok(v)
    case FellBack(m) => Ok(GetFallbackResponse(name, m))
    case Threw(m) => Err(m)
  }

  // ---------------------------------------------------------------------
  // Properties of executeWithRetry

  /** An open breaker refuses the call without running the operation and
      without touching the state. */
  lemma OpenBreakerFailsFast(st: State, name: string, maxRetries: int, now: int, op: nat -> Attempt, clock: nat -> int)
    requires name in st.breakers && now < st.breakers[name]
    ensures Execute(st, name, maxRetries, now, op, clock) ==
            Run(st, Threw("Service " + name + " is temporarily unavailable. Please try again later."), 0, [])
  {
  }

  /** The breaker is open strictly before its reset time and closed from the
      reset time on. */
  lemma BreakerClosesAtResetTime(breakers: map<string, int>, name: string, now: int)
    requires name in breakers
    ensures IsOpen(breakers, name, now) <==> now < breakers[name]
    ensures !IsOpen(breakers, name, breakers[name])
  {
  }

  /** Each attempt touches only the entries of its own service. */
  lemma {:induction false} OtherServicesUntouched(st: State, name: string, attempt: nat, maxRetries: int,
                                                  op: nat -> Attempt, clock: nat -> int, other: string)
    requires 1 <= attempt <= maxRetries && other != name
    ensures var r := RunAttempts(st, name, attempt, maxRetries, op, clock);
            (other in r.st.counts <==> other in st.counts) && (other in st.counts ==> r.st.counts[other] == st.counts[other]) &&
            (other in r.st.breakers <==> other in st.breakers) && (other in st.breakers ==> r.st.breakers[other] == st.breakers[other])
    decreases maxRetries - attempt
  {
    match op(attempt)
    case Succeeded(_) =>
    case Failed(msg) =>
      var st' := AfterFailure(st, name, clock(attempt));
      if attempt < maxRetries {
        OtherServicesUntouched(st', name, attempt + 1, maxRetries, op, clock, other);
      }
  }

  /** The whole call, too, leaves every other service exactly as it was. */
  lemma ExecuteLeavesOthers(st: State, name: string, maxRetries: int, now: int, op: nat -> Attempt, clock: nat -> int, other: string)
    requires other != name
    ensures var r := Execute(st, name, maxRetries, now, op, clock);
            Count(r.st.counts, other) == Count(st.counts, other) &&
            (other in r.st.breakers <==> other in st.breakers) && (other in st.breakers ==> r.st.breakers[other] == st.breakers[other])
  {
    if !IsOpen(st.breakers, name, now) && maxRetries >= 1 {
      OtherServicesUntouched(st, name, 1, maxRetries, op, clock, other);
    }
  }

  /** Attempts `from`..`to` (inclusive) all fail. */
  ghost predicate AllFail(op: nat -> Attempt, from: nat, to: int)
  {
    forall k :: from <= k <= to ==> op(k).Failed?
  }

  /** The waits after attempts `from`, `from` + 1, ...: `n` of them, 2^k
      seconds after attempt k. */
  function Waits(from: nat, n: nat): (w: seq<int>)
    decreases n
    ensures |w| == n
    ensures forall i :: 0 <= i < n ==> w[i] == Backoff(from + i)
  {
    if n == 0 then [] else [Backoff(from)] + Waits(from + 1, n - 1)
  }

  /** With attempts `attempt`..`maxRetries` all failing: the operation runs
      once per remaining attempt, every wait but the last is taken, the count
      grows by one per failure, the breaker ends up set by the last failure
      whose count-before reached the threshold (an open breaker never cuts the
      loop short), and the result is the fallback for the last error. */
  lemma {:induction false} AllFailingAttempts(st: State, name: string, attempt: nat, maxRetries: int,
                                              op: nat -> Attempt, clock: nat -> int)
    requires 1 <= attempt <= maxRetries
    requires AllFail(op, attempt, maxRetries)
    ensures var r := RunAttempts(st, name, attempt, maxRetries, op, clock);
            var c0 := Count(st.counts, name);
            && r.calls == maxRetries - attempt + 1
            && r.waits == Waits(attempt, maxRetries - attempt)
            && r.outcome == FellBack(op(maxRetries).message)
            && name in r.st.counts && r.st.counts[name] == c0 + (maxRetries - attempt + 1)
            && (c0 + (maxRetries - attempt) >= BreakerThreshold ==>
                  name in r.st.breakers && r.st.breakers[name] == clock(maxRetries) + ResetTimeout)
            && (c0 + (maxRetries - attempt) < BreakerThreshold ==>
                  (name in r.st.breakers <==> name in st.breakers) &&
                  (name in st.breakers ==> r.st.breakers[name] == st.breakers[name]))
    decreases maxRetries - attempt
  {
    var c := Count(st.counts, name);
    var st' := AfterFailure(st, name, clock(attempt));
    if attempt < maxRetries {
      AllFailingAttempts(st', name, attempt + 1, maxRetries, op, clock);
      assert Count(st'.counts, name) == c + 1;
    }
  }

  /** The property the wrapper promises for an operation that always fails:
      with the breaker closed and maxRetries >= 1, the call returns the
      service's fallback (it never throws) after exactly maxRetries runs and
      maxRetries - 1 waits of 2, 4, 8, ... seconds. */
  lemma AlwaysFailingOperation(st: State, name: string, maxRetries: int, now: int, op: nat -> Attempt, clock: nat -> int)
    requires !IsOpen(st.breakers, name, now) && maxRetries >= 1
    requires forall k :: op(k).Failed?
    ensures var r := Execute(st, name, maxRetries, now, op, clock);
            && r.outcome == FellBack(op(maxRetries).message)
            && r.calls == maxRetries
            && |r.waits| == maxRetries - 1
            && (forall i :: 0 <= i < |r.waits| ==> r.waits[i] == Pow2(i + 1) * 1000)
            && Count(r.st.counts, name) == Count(st.counts, name) + maxRetries
  {
    AllFailingAttempts(st, name, 1, maxRetries, op, clock);
  }

  /** From a clean slate (count 0), five consecutive failures leave the
      breaker closed and the sixth opens it for five minutes from the time
      of that failure. */
  lemma SixthFailureOpensBreaker(st: State, name: string, op: nat -> Attempt, clock: nat -> int, now: int)
    requires Count(st.counts, name) == 0 && name !in st.breakers
    requires forall k :: op(k).Failed?
    ensures var r := Execute(st, name, 5, now, op, clock);
            name !in r.st.breakers && r.st.counts[name] == 5
    ensures var r := Execute(st, name, 6, now, op, clock);
            name in r.st.breakers && r.st.breakers[name] == clock(6) + ResetTimeout && r.st.counts[name] == 6
  {
    AllFailingAttempts(st, name, 1, 5, op, clock);
    AllFailingAttempts(st, name, 1, 6, op, clock);
  }

  /** The count survives the cooldown: once it has reached the threshold,
      the first failure after the breaker expired reopens it at once. */
  lemma ExpiredBreakerReopensOnFirstFailure(st: State, name: string, now: int, op: nat -> Attempt, clock: nat -> int)
    requires Count(st.counts, name) >= BreakerThreshold
    requires name in st.breakers && now >= st.breakers[name]
    requires op(1).Failed?
    ensures var r := Execute(st, name, 1, now, op, clock);
            name in r.st.breakers && r.st.breakers[name] == clock(1) + ResetTimeout
  {
  }

  /** When every attempt before `k` fails and attempt `k` succeeds, the call
      returns the operation's result after k runs, the count is back to 0 and
      the breaker entry is gone. */
  lemma {:induction false} SuccessAtAttempt(st: State, name: string, attempt: nat, k: nat, maxRetries: int,
                                            op: nat -> Attempt, clock: nat -> int)
    requires 1 <= attempt <= k <= maxRetries
    requires AllFail(op, attempt, k - 1) && op(k).Succeeded?
    ensures var r := RunAttempts(st, name, attempt, maxRetries, op, clock);
            && r.outcome == Returned(op(k).value)
            && r.calls == k - attempt + 1
            && r.waits == Waits(attempt, k - attempt)
            && name in r.st.counts && r.st.counts[name] == 0
            && name !in r.st.breakers
    decreases k - attempt
  {
    if attempt < k {
      var st' := AfterFailure(st, name, clock(attempt));
      SuccessAtAttempt(st', name, attempt + 1, k, maxRetries, op, clock);
    }
  }

  /** An attempt sequence that is let through never throws: it ends at the
      first success, returning the operation's value with the count reset
      and the breaker removed, or it runs every remaining attempt and returns
      the fallback for the last error. */
  lemma {:induction false} AttemptsNeverThrow(st: State, name: string, attempt: nat, maxRetries: int,
                                              op: nat -> Attempt, clock: nat -> int)
    requires 1 <= attempt <= maxRetries
    ensures var r := RunAttempts(st, name, attempt, maxRetries, op, clock);
            var last := attempt + r.calls - 1;
            && !r.outcome.Threw?
            && 1 <= r.calls <= maxRetries - attempt + 1
            && r.waits == Waits(attempt, r.calls - 1)
            && AllFail(op, attempt, last - 1)
            && name in r.st.counts
            && (op(last).Succeeded? ==>
                  r.outcome == Returned(op(last).value) && r.st.counts[name] == 0 && name !in r.st.breakers)
            && (op(last).Failed? ==>
                  last == maxRetries && r.outcome == FellBack(op(last).message))
    decreases maxRetries - attempt
  {
    match op(attempt)
    case Succeeded(_) =>
    case Failed(msg) =>
      var st' := AfterFailure(st, name, clock(attempt));
      if attempt < maxRetries {
        AttemptsNeverThrow(st', name, attempt + 1, maxRetries, op, clock);
      }
  }

  // ---------------------------------------------------------------------
  // getServiceStatus

  datatype ServiceStatus = ServiceStatus(available: bool, errorCount: int, resetTime: Option<int>)

  /** `getServiceStatus()` at time `now`: one entry per breaker entry, and no
      other; a service whose breaker has expired is reported available with
      its count. */
  function ServiceStatusOf(st: State, now: int): (status: map<string, ServiceStatus>)
    ensures status.Keys == st.breakers.Keys
    ensures forall n :: n in status ==>
              status[n].available == !IsOpen(st.breakers, n, now) &&
              status[n].errorCount == Count(st.counts, n) &&
              status[n].resetTime == (if st.breakers[n] != 0 then Some(st.breakers[n]) else None)
  {
    map n | n in st.breakers ::
      ServiceStatus(!(now < st.breakers[n]), Count(st.counts, n), if st.breakers[n] != 0 then Some(st.breakers[n]) else None)
  }

  // ---------------------------------------------------------------------
  // The service object

  class RecoveryService {
    var errorCounts: map<string, int>
    /** Declared by the source but never written. */
    var lastErrors: map<string, string>
    /** Service name to the breaker's reset time. */
    var circuitBreakers: map<string, int>
    const maxRetries: int
    const resetTimeout: int

    function Snapshot(): State
      reads this
    {
      State(errorCounts, circuitBreakers)
    }

    /** The retry count and the breaker timeout the constructor fixes. */
    predicate Valid()
      reads this
    {
      maxRetries == DefaultMaxRetries && resetTimeout == ResetTimeout
    }

    constructor ()
      ensures Valid()
      ensures errorCounts == map[] && lastErrors == map[] && circuitBreakers == map[]
    {
      errorCounts := map[];
      lastErrors := map[];
      circuitBreakers := map[];
      maxRetries := DefaultMaxRetries;
      resetTimeout := ResetTimeout;
    }

    /** `openCircuitBreaker(name)` at time `now`. */
    method OpenCircuitBreaker(name: string, now: int)
      modifies this
      ensures circuitBreakers == old(circuitBreakers)[name := now + resetTimeout]
      ensures errorCounts == old(errorCounts) && lastErrors == old(lastErrors)
    {
      circuitBreakers := circuitBreakers[name := now + resetTimeout];
    }

    /** `closeCircuitBreaker(name)`. */
    method CloseCircuitBreaker(name: string)
      modifies this
      ensures circuitBreakers == old(circuitBreakers) - {name}
      ensures errorCounts == old(errorCounts) && lastErrors == old(lastErrors)
    {
      circuitBreakers := circuitBreakers - {name};
    }

    /** The success branch: the count is reset and the breaker closed. */
    method RecordSuccess(name: string)
      modifies this
      ensures Snapshot() == AfterSuccess(old(Snapshot()), name)
      ensures lastErrors == old(lastErrors)
    {
      errorCounts := errorCounts[name := 0];
      CloseCircuitBreaker(name);
    }

    /** The failure branch at time `at`: the count grows and, from the
        threshold on, the breaker opens. */
    method RecordFailure(name: string, at: int)
      requires Valid()
      modifies this
      ensures Snapshot() == AfterFailure(old(Snapshot()), name, at)
      ensures lastErrors == old(lastErrors)
    {
      var currentCount := if name in errorCounts then errorCounts[name] else 0;
      errorCounts := errorCounts[name := currentCount + 1];
      if currentCount >= BreakerThreshold {
        OpenCircuitBreaker(name, at);
      }
    }

    /** `executeWithRetry(name, operation, maxRetries)` started at `now`;
        `result` is what the returned promise settles to, `calls` how often
        the operation ran and `waits` the delays requested. */
    method ExecuteWithRetry(name: string, maxRetries: int, now: int, op: nat -> Attempt, clock: nat -> int)
      returns (result: Result<string>, calls: nat, waits: seq<int>)
      requires Valid()
      modifies this
      ensures var r := Execute(old(Snapshot()), name, maxRetries, now, op, clock);
              Snapshot() == r.st && result == Resolve(name, r.outcome) && calls == r.calls && waits == r.waits
      ensures lastErrors == old(lastErrors)
    {
      if name in circuitBreakers && now < circuitBreakers[name] {
        return Err(UnavailablePrefix + name + UnavailableSuffix), 0, [];
      }
      if maxRetries < 1 {
        return Err(UndefinedLastError), 0, [];
      }
      var outcome;
      outcome, calls, waits := Attempts(name, maxRetries, op, clock);
      match outcome
      case Returned(v) => result := Ok(v);
      case FellBack(msg) => result := Ok(GetFallbackResponse(name, msg));
    }

    /** The retry loop of `executeWithRetry`, once the breaker let the call
        through: it returns at the first success, or with the last error's
        message after `maxRetries` failures. */
    method Attempts(name: string, maxRetries: int, op: nat -> Attempt, clock: nat -> int)
      returns (outcome: Outcome, calls: nat, waits: seq<int>)
      requires Valid() && maxRetries >= 1
      modifies this
      ensures var r := RunAttempts(old(Snapshot()), name, 1, maxRetries, op, clock);
              Snapshot() == r.st && outcome == r.outcome && calls == r.calls && waits == r.waits
      ensures !outcome.Threw?
      ensures lastErrors == old(lastErrors)
    {
      ghost var total := RunAttempts(Snapshot(), name, 1, maxRetries, op, clock);
      calls, waits := 0, [];
      var attempt := 1;
      while true
        invariant 1 <= attempt <= maxRetries
        invariant lastErrors == old(lastErrors)
        invariant calls == attempt - 1
        invariant var rest := RunAttempts(Snapshot(), name, attempt, maxRetries, op, clock);
                  total == Run(rest.st, rest.outcome, calls + rest.calls, waits + rest.waits)
        decreases maxRetries - attempt
      {
        ghost var before := Snapshot();
        var result := op(attempt);
        calls := calls + 1;
        match result
        case Succeeded(v) =>
          RecordSuccess(name);
          assert RunAttempts(before, name, attempt, maxRetries, op, clock) == Run(Snapshot(), Returned(v), 1, []);
          return Returned(v), calls, waits;
        case Failed(msg) =>
          RecordFailure(name, clock(attempt));
          if attempt == maxRetries {
            assert RunAttempts(before, name, attempt, maxRetries, op, clock) == Run(Snapshot(), FellBack(msg), 1, []);
            return FellBack(msg), calls, waits;
          }
          ghost var rest := RunAttempts(Snapshot(), name, attempt + 1, maxRetries, op, clock);
          assert RunAttempts(before, name, attempt, maxRetries, op, clock)
              == Run(rest.st, rest.outcome, rest.calls + 1, [Backoff(attempt)] + rest.waits);
          assert waits + ([Backoff(attempt)] + rest.waits) == (waits + [Pow2(attempt) * 1000]) + rest.waits;
          waits := waits + [Pow2(attempt) * 1000];
          attempt := attempt + 1;
      }
    }

    /** `getServiceStatus()` at time `now`. */
    function GetServiceStatus(now: int): (status: map<string, ServiceStatus>)
      reads this
      ensures status.Keys == circuitBreakers.Keys
      ensures forall n :: n in status ==> status[n].errorCount == Count(errorCounts, n) &&
                                          (status[n].available <==> !(now < circuitBreakers[n]))
    {
      ServiceStatusOf(Snapshot(), now)
    }
  }
}
