/** The mock flight search: the argument defaults, the generator of three
    to five flights per leg with their times and prices, the sort by price,
    and the text listing the outbound leg and, for a round trip, the return
    leg.

    Every `Math.random()` is a draw in [0, 1) supplied by the caller, one
    per purpose (`FlightDraws`); the order in which the JavaScript engine
    consumes them is not modelled. */
module Flight {
  import opened Common

  const FailedPrefix: string := "Failed to search flights: "
  const NotConfigured: string := "Real flight API not configured"

  const DefaultPassengers: int := 1
  const DefaultClass: string := "economy"

  /** The tool definition offered to the language model. */
  const ToolDef: ToolDefinition :=
    ToolDefinition("search_flights",
                   "Search for flights between destinations with pricing and schedule information",
                   [ToolParameter("origin", "Departure city or airport code (e.g., \"New York\", \"JFK\", \"London\")", None),
                    ToolParameter("destination", "Arrival city or airport code (e.g., \"Paris\", \"CDG\", \"Tokyo\")", None),
                    ToolParameter("departure_date", "Departure date in YYYY-MM-DD format", None),
                    ToolParameter("return_date", "Return date in YYYY-MM-DD format (optional for one-way flights)", None),
                    ToolParameter("passengers", "Number of passengers (default: 1)", None),
                    ToolParameter("class", "Flight class preference (economy, business, first)", None)],
                   ["origin", "destination", "departure_date"])

  const Airlines: seq<string> :=
    ["American Airlines", "Delta Air Lines", "United Airlines", "British Airways", "Lufthansa", "Air France",
     "Emirates", "Singapore Airlines"]

  const AircraftTypes: seq<string> :=
    ["Boeing 737", "Airbus A320", "Boeing 777", "Airbus A350", "Boeing 787", "Airbus A380"]

  /** A flight.  The departure minute is 0 or 30; the times and the duration
      are kept as numbers and rendered by `DepartureTime`, `ArrivalTime` and
      `DurationText`. */
  datatype Flight = Flight(airline: string, aircraft: string, departureHour: int, departureMinute: int,
                           arrivalHour: int, arrivalMinute: int, durationHours: int, durationMinutes: int,
                           price: int, stops: int)

  /** The draws made for one flight: `stopsGate` decides non-stop
      (`< 0.6`), `stops` how many stops otherwise, `minuteGate` the
      departure minute. */
  datatype FlightDraws = FlightDraws(airline: real, aircraft: real, stopsGate: real, stops: real, hour: real,
                                     minuteGate: real, durationHours: real, durationMinutes: real, price: real)

  /** The draw for the number of flights, and the draws for the `i`-th. */
  datatype FlightRandom = FlightRandom(count: real, perFlight: nat -> FlightDraws)

  predicate ValidDraws(d: FlightDraws)
  {
    && Unit(d.airline) && Unit(d.aircraft) && Unit(d.stopsGate) && Unit(d.stops) && Unit(d.hour)
    && Unit(d.minuteGate) && Unit(d.durationHours) && Unit(d.durationMinutes) && Unit(d.price)
  }

  /** What `Math.random` can produce. */
  ghost predicate ValidRandom(random: FlightRandom)
  {
    Unit(random.count) && forall i: nat :: ValidDraws(random.perFlight(i))
  }

  /** `Math.floor(Math.random() * 3) + 3`. */
  function ThreeToFive(r: real): (n: int)
    requires Unit(r)
    ensures 3 <= n <= 5
  {
    Pick(r, 3) + 3
  }

  /** The price multiplier of a class: 3 for business, 5 for first. */
  function ClassFactor(flightClass: string): (k: int)
    ensures flightClass == "business" ==> k == 3
    ensures flightClass == "first" ==> k == 5
    ensures flightClass != "business" && flightClass != "first" ==> k == 1
  {
    if flightClass == "business" then 3 else if flightClass == "first" then 5 else 1
  }

  /** `Math.floor(basePrice)` after the class multiplier and, for a
      connecting flight, the factor 0.8; four fifths rounded down is what
      `Math.floor(b * 0.8)` gives for a whole `b`. */
  function FinalPrice(base: int, flightClass: string, stops: int): int
  {
    var scaled := base * ClassFactor(flightClass);
    if stops > 0 then (4 * scaled) / 5 else scaled
  }

  /** The flight made from one set of draws. */
  function MakeFlight(airlines: seq<string>, aircraftTypes: seq<string>, flightClass: string, d: FlightDraws): Flight
    requires |airlines| > 0 && |aircraftTypes| > 0 && ValidDraws(d)
  {
    var stops := if d.stopsGate < 0.6 then 0 else Pick(d.stops, 2) + 1;
    var hour := Pick(d.hour, 20) + 4;
    var minute := if d.minuteGate < 0.5 then 0 else 30;
    var durationHours := Pick(d.durationHours, 12) + 2 + stops * 2;
    var durationMinutes := Pick(d.durationMinutes, 60);
    Flight(airlines[Pick(d.airline, |airlines|)], aircraftTypes[Pick(d.aircraft, |aircraftTypes|)], hour, minute,
           (hour + durationHours + (minute + durationMinutes) / 60) % 24, (minute + durationMinutes) % 60,
           durationHours, durationMinutes, FinalPrice(Pick(d.price, 800) + 200, flightClass, stops), stops)
  }

  /** The flights in the order they are generated. */
  function GeneratedFlights(airlines: seq<string>, aircraftTypes: seq<string>, flightClass: string,
                            random: FlightRandom, n: nat): (flights: seq<Flight>)
    requires |airlines| > 0 && |aircraftTypes| > 0 && ValidRandom(random)
    ensures |flights| == n
    ensures forall i :: 0 <= i < n ==> flights[i] == MakeFlight(airlines, aircraftTypes, flightClass, random.perFlight(i))
  {
    seq(n, i requires 0 <= i < n => MakeFlight(airlines, aircraftTypes, flightClass, random.perFlight(i)))
  }

  function PriceKey(f: Flight): int
  {
    f.price
  }

  /** The flights `generateMockFlights` returns: the generated ones sorted by
      price. */
  function MockFlights(airlines: seq<string>, aircraftTypes: seq<string>, flightClass: string,
                       random: FlightRandom): seq<Flight>
    requires |airlines| > 0 && |aircraftTypes| > 0 && ValidRandom(random)
  {
    SortBy(GeneratedFlights(airlines, aircraftTypes, flightClass, random, ThreeToFive(random.count)), PriceKey)
  }

  /** `generateMockFlights(origin, destination, date, airlines,
      aircraftTypes, flightClass)`; origin, destination and date do not
      enter the flights. */
  method GenerateMockFlights(origin: Option<string>, destination: Option<string>, date: Option<string>,
                             airlines: seq<string>, aircraftTypes: seq<string>, flightClass: string,
                             random: FlightRandom) returns (flights: seq<Flight>)
    requires |airlines| > 0 && |aircraftTypes| > 0 && ValidRandom(random)
    ensures flights == MockFlights(airlines, aircraftTypes, flightClass, random)
  {
    var n := ThreeToFive(random.count);
    flights := [];
    var i := 0;
    while i < n
      invariant 0 <= i <= n
      invariant flights == GeneratedFlights(airlines, aircraftTypes, flightClass, random, i)
    {
      var flight := MakeFlight(airlines, aircraftTypes, flightClass, random.perFlight(i));
      GeneratedSnoc(airlines, aircraftTypes, flightClass, random, i);
      flights := flights + [flight];
      i := i + 1;
    }
    flights := SortBy(flights, PriceKey);
  }

  /** One more flight generated is one more at the end. */
  lemma GeneratedSnoc(airlines: seq<string>, aircraftTypes: seq<string>, flightClass: string, random: FlightRandom, n: nat)
    requires |airlines| > 0 && |aircraftTypes| > 0 && ValidRandom(random)
    ensures GeneratedFlights(airlines, aircraftTypes, flightClass, random, n + 1)
            == GeneratedFlights(airlines, aircraftTypes, flightClass, random, n)
               + [MakeFlight(airlines, aircraftTypes, flightClass, random.perFlight(n))]
  {
    var longer := GeneratedFlights(airlines, aircraftTypes, flightClass, random, n + 1);
    assert longer[..n] == GeneratedFlights(airlines, aircraftTypes, flightClass, random, n);
    assert longer == longer[..n] + [longer[n]];
  }

  /** The lowest and highest price of a class and a number of stops: a base
      of 200 to 999 times the class factor, four fifths of that with stops. */
  function LowestPrice(flightClass: string, stops: int): int
  {
    FinalPrice(200, flightClass, stops)
  }

  function HighestPrice(flightClass: string, stops: int): int
  {
    FinalPrice(999, flightClass, stops)
  }

  /** What every generated flight satisfies. */
  predicate WellFormed(f: Flight, airlines: seq<string>, aircraftTypes: seq<string>, flightClass: string)
  {
    && f.airline in airlines && f.aircraft in aircraftTypes
    && 0 <= f.stops <= 2
    && 4 <= f.departureHour <= 23 && (f.departureMinute == 0 || f.departureMinute == 30)
    && 2 + 2 * f.stops <= f.durationHours <= 13 + 2 * f.stops && 0 <= f.durationMinutes < 60
    && f.arrivalMinute == (f.departureMinute + f.durationMinutes) % 60
    && f.arrivalHour == (f.departureHour + f.durationHours + (f.departureMinute + f.durationMinutes) / 60) % 24
    && 0 <= f.arrivalHour < 24 && 0 <= f.arrivalMinute < 60
    && LowestPrice(flightClass, f.stops) <= f.price <= HighestPrice(flightClass, f.stops)
  }

  /** The price grows with the base. */
  lemma FinalPriceMonotone(a: int, b: int, flightClass: string, stops: int)
    requires a <= b
    ensures FinalPrice(a, flightClass, stops) <= FinalPrice(b, flightClass, stops)
  {
    var k := ClassFactor(flightClass);
    if k == 3 {
      assert a * k == 3 * a && b * k == 3 * b;
    } else if k == 5 {
      assert a * k == 5 * a && b * k == 5 * b;
    }
  }

  lemma MakeFlightWellFormed(airlines: seq<string>, aircraftTypes: seq<string>, flightClass: string, d: FlightDraws)
    requires |airlines| > 0 && |aircraftTypes| > 0 && ValidDraws(d)
    ensures WellFormed(MakeFlight(airlines, aircraftTypes, flightClass, d), airlines, aircraftTypes, flightClass)
  {
    var f := MakeFlight(airlines, aircraftTypes, flightClass, d);
    var base := Pick(d.price, 800) + 200;
    FinalPriceMonotone(200, base, flightClass, f.stops);
    FinalPriceMonotone(base, 999, flightClass, f.stops);
  }

  /** The generator's promises: three to five flights, cheapest first, each
      well formed. */
  lemma GeneratorPromises(airlines: seq<string>, aircraftTypes: seq<string>, flightClass: string, random: FlightRandom)
    requires |airlines| > 0 && |aircraftTypes| > 0 && ValidRandom(random)
    ensures var flights := MockFlights(airlines, aircraftTypes, flightClass, random);
            && 3 <= |flights| <= 5
            && (forall i, j :: 0 <= i < j < |flights| ==> flights[i].price <= flights[j].price)
            && (forall f :: f in flights ==> WellFormed(f, airlines, aircraftTypes, flightClass))
  {
    var generated := GeneratedFlights(airlines, aircraftTypes, flightClass, random, ThreeToFive(random.count));
    forall f | f in generated ensures WellFormed(f, airlines, aircraftTypes, flightClass) {
      var i :| 0 <= i < |generated| && generated[i] == f;
      MakeFlightWellFormed(airlines, aircraftTypes, flightClass, random.perFlight(i));
    }
    SortKeeps(generated, PriceKey, f => WellFormed(f, airlines, aircraftTypes, flightClass));
  }

  /** A business fare is three times the economy fare of the same draws;
      first class five times, rounding down after the factor 0.8. */
  lemma ClassFactors(base: int, stops: int)
    ensures FinalPrice(base, "business", stops) == FinalPrice(3 * base, "economy", stops)
    ensures FinalPrice(base, "first", stops) == FinalPrice(5 * base, "economy", stops)
  {
  }

  /** `HH:MM`, the hour zero-padded. */
  function DepartureTime(f: Flight): string
  {
    PadStart2(IntToString(f.departureHour)) + ":" + (if f.departureMinute == 0 then "00" else "30")
  }

  function ArrivalTime(f: Flight): string
  {
    PadStart2(IntToString(f.arrivalHour)) + ":" + PadStart2(IntToString(f.arrivalMinute))
  }

  /** A whole number below 100 prints with at most two digits. */
  lemma SmallNumberText(n: int)
    requires 0 <= n < 100
    ensures 1 <= |IntToString(n)| <= 2
    ensures forall k :: 0 <= k < |IntToString(n)| ==> '0' <= IntToString(n)[k] <= '9'
  {
    if n >= 10 {
      assert NatToString(n) == NatToString(n / 10) + [DigitChar(n % 10)];
    }
  }

  /** The times of a well-formed flight read `HH:MM`: five characters, two
      digits, a colon, two digits. */
  lemma TimesArePadded(f: Flight, airlines: seq<string>, aircraftTypes: seq<string>, flightClass: string)
    requires WellFormed(f, airlines, aircraftTypes, flightClass)
    ensures IsClockTime(DepartureTime(f)) && IsClockTime(ArrivalTime(f))
  {
    SmallNumberText(f.departureHour);
    SmallNumberText(f.arrivalHour);
    SmallNumberText(f.arrivalMinute);
  }

  predicate IsDigit(c: char)
  {
    '0' <= c <= '9'
  }

  predicate IsClockTime(s: string)
  {
    |s| == 5 && IsDigit(s[0]) && IsDigit(s[1]) && s[2] == ':' && IsDigit(s[3]) && IsDigit(s[4])
  }

  /** `${hours}h ${minutes}m`. */
  function DurationText(f: Flight): string
  {
    IntToString(f.durationHours) + "h " + IntToString(f.durationMinutes) + "m"
  }

  function StopsText(stops: int): string
  {
    if stops == 0 then "Non-stop" else IntToString(stops) + " stop(s)"
  }

  /** The section of the `number`-th outbound flight. */
  function OutboundSection(number: int, f: Flight, origin: string, destination: string): string
  {
    "\n\n**Option " + IntToString(number) + ":** " + f.airline + "\n" +
    "\U{1F550} **Departure:** " + DepartureTime(f) + " from " + origin + "\n" +
    "\U{1F550} **Arrival:** " + ArrivalTime(f) + " at " + destination + "\n" +
    "\U{2708}\U{FE0F} **Aircraft:** " + f.aircraft + "\n" +
    "\U{23F1}\U{FE0F} **Duration:** " + DurationText(f) + "\n" +
    "\U{1F4B0} **Price:** $" + IntToString(f.price) + " per person\n" +
    "\U{1F504} **Stops:** " + StopsText(f.stops)
  }

  /** The section of the `number`-th return flight: it leaves from the
      destination and lands at the origin, and its price is included. */
  function ReturnSection(number: int, f: Flight, origin: string, destination: string): string
  {
    "\n\n**Option " + IntToString(number) + ":** " + f.airline + "\n" +
    "\U{1F550} **Departure:** " + DepartureTime(f) + " from " + destination + "\n" +
    "\U{1F550} **Arrival:** " + ArrivalTime(f) + " at " + origin + "\n" +
    "\U{2708}\U{FE0F} **Aircraft:** " + f.aircraft + "\n" +
    "\U{23F1}\U{FE0F} **Duration:** " + DurationText(f) + "\n" +
    "\U{1F4B0} **Price:** Included in round-trip pricing\n" +
    "\U{1F504} **Stops:** " + StopsText(f.stops)
  }

  function OutboundOf(origin: string, destination: string): (int, Flight) -> string
  {
    (number, f) => OutboundSection(number, f, origin, destination)
  }

  function ReturnOf(origin: string, destination: string): (int, Flight) -> string
  {
    (number, f) => ReturnSection(number, f, origin, destination)
  }

  const ReturnHeading: string := "\n\n## Return Flights"

  const Tips: string :=
    "\n\n## \U{1F4A1} **Booking Tips:**\n" +
    "\U{2022} Prices shown are estimates and may vary\n" +
    "\U{2022} Book directly with airlines or use travel sites like Expedia, Kayak\n" +
    "\U{2022} Consider flexible dates for better prices\n" +
    "\U{2022} Check baggage policies and fees\n" +
    "\U{2022} Arrive at airport 2-3 hours early for international flights\n\n" +
    "*Note: These are sample results. For real bookings, please check actual airline websites or travel booking platforms.*"

  function TripType(returnDate: Option<string>): string
  {
    if Truthy(returnDate) then "Round-trip" else "One-way"
  }

  function Header(origin: string, destination: string, departureDate: string, returnDate: Option<string>,
                  passengers: int, flightClass: string): string
  {
    "\U{2708}\U{FE0F} **Flight Search Results**\n\n" +
    "**" + TripType(returnDate) + " from " + origin + " to " + destination + "**\n" +
    "**Departure:** " + departureDate + (if Truthy(returnDate) then "\n**Return:** " + returnDate.value else "") + "\n" +
    "**Passengers:** " + IntToString(passengers) + "\n" +
    "**Class:** " + Capitalize(flightClass) + "\n\n" +
    "## Outbound Flights"
  }

  /** The return leg: generated with origin and destination swapped when
      there is a return date, empty otherwise. */
  function ReturnFlights(returnDate: Option<string>, flightClass: string, inbound: FlightRandom): (flights: seq<Flight>)
    requires ValidRandom(inbound)
    ensures |flights| > 0 <==> Truthy(returnDate)
  {
    if Truthy(returnDate) then MockFlights(Airlines, AircraftTypes, flightClass, inbound) else []
  }

  /** The whole text of `getMockFlightData`. */
  function Listing(origin: string, destination: string, departureDate: string, returnDate: Option<string>,
                   passengers: int, flightClass: string, outbound: seq<Flight>, returning: seq<Flight>): string
  {
    Header(origin, destination, departureDate, returnDate, passengers, flightClass)
    + Rendered(outbound, OutboundOf(origin, destination))
    + (if |returning| > 0 then ReturnHeading + Rendered(returning, ReturnOf(origin, destination)) else "")
    + Tips
  }

  /** `getMockFlightData(origin, destination, departureDate, returnDate,
      passengers, flightClass)`: `outbound` and `inbound` are the draws of
      the two legs. */
  method GetMockFlightData(origin: string, destination: string, departureDate: string, returnDate: Option<string>,
                           passengers: int, flightClass: string, outbound: FlightRandom, inbound: FlightRandom)
    returns (response: string)
    requires ValidRandom(outbound) && ValidRandom(inbound)
    ensures response == Listing(origin, destination, departureDate, returnDate, passengers, flightClass,
                                MockFlights(Airlines, AircraftTypes, flightClass, outbound),
                                ReturnFlights(returnDate, flightClass, inbound))
  {
    var outboundFlights := GenerateMockFlights(Some(origin), Some(destination), Some(departureDate), Airlines,
                                               AircraftTypes, flightClass, outbound);
    var returnFlights: seq<Flight> := [];
    if Truthy(returnDate) {
      returnFlights := GenerateMockFlights(Some(destination), Some(origin), returnDate, Airlines, AircraftTypes,
                                           flightClass, inbound);
    }
    response := AppendEach(Header(origin, destination, departureDate, returnDate, passengers, flightClass),
                           outboundFlights, OutboundOf(origin, destination));
    ghost var leg := response;
    if |returnFlights| > 0 {
      response := response + ReturnHeading;
      response := AppendEach(response, returnFlights, ReturnOf(origin, destination));
      Assoc(leg, ReturnHeading, Rendered(returnFlights, ReturnOf(origin, destination)));
    } else {
      Assoc(leg, "", "");
    }
    response := response + Tips;
  }

  /** A one-way search prints no return section. */
  lemma OneWayHasNoReturnSection(origin: string, destination: string, departureDate: string, returnDate: Option<string>,
                                 passengers: int, flightClass: string, outbound: seq<Flight>, inbound: FlightRandom)
    requires ValidRandom(inbound) && !Truthy(returnDate)
    ensures Listing(origin, destination, departureDate, returnDate, passengers, flightClass, outbound,
                    ReturnFlights(returnDate, flightClass, inbound))
            == Header(origin, destination, departureDate, returnDate, passengers, flightClass)
               + Rendered(outbound, OutboundOf(origin, destination)) + Tips
  {
  }

  /** The arguments `searchFlights` reads. */
  datatype FlightArgs = FlightArgs(origin: Option<string>, destination: Option<string>, departureDate: Option<string>,
                                   returnDate: Option<string>, passengers: Option<int>, flightClass: Option<string>)

  /** The destructuring defaults, applied to a missing argument only. */
  function PassengersOf(args: FlightArgs): int
  {
    if args.passengers.Some? then args.passengers.value else DefaultPassengers
  }

  function ClassOf(args: FlightArgs): string
  {
    if args.flightClass.Some? then args.flightClass.value else DefaultClass
  }

  /** What `searchFlights(args)` returns or throws; `mockFlights` is the flag
      the constructor sets (always true, which `isAvailable()` returns). */
  function SearchReply(mockFlights: bool, args: FlightArgs, outbound: FlightRandom, inbound: FlightRandom)
    : (r: Result<string>)
    requires ValidRandom(outbound) && ValidRandom(inbound)
    ensures !mockFlights <==> r.Err?
    ensures r.Err? ==> r.error == FailedPrefix + NotConfigured
  {
    if !mockFlights then Err(FailedPrefix + NotConfigured)
    else
      Ok(Listing(Show(args.origin), Show(args.destination), Show(args.departureDate), args.returnDate,
                 PassengersOf(args), ClassOf(args),
                 MockFlights(Airlines, AircraftTypes, ClassOf(args), outbound),
                 ReturnFlights(args.returnDate, ClassOf(args), inbound)))
  }

  /** `searchFlights(args)`. */
  method SearchFlights(mockFlights: bool, args: FlightArgs, outbound: FlightRandom, inbound: FlightRandom)
    returns (result: Result<string>)
    requires ValidRandom(outbound) && ValidRandom(inbound)
    ensures result == SearchReply(mockFlights, args, outbound, inbound)
  {
    if !mockFlights {
      result := Err(FailedPrefix + NotConfigured);
      return;
    }
    var text := GetMockFlightData(Show(args.origin), Show(args.destination), Show(args.departureDate), args.returnDate,
                                  PassengersOf(args), ClassOf(args), outbound, inbound);
    result := Ok(text);
  }

  /** `executeFunction(functionCall)`: the parsed arguments, or the parse
      error, passed to `searchFlights`; its errors are rethrown unchanged. */
  method ExecuteFunction(mockFlights: bool, args: Result<FlightArgs>, outbound: FlightRandom, inbound: FlightRandom)
    returns (result: Result<string>)
    requires ValidRandom(outbound) && ValidRandom(inbound)
    ensures args.Err? ==> result == Err(args.error)
    ensures args.Ok? ==> result == SearchReply(mockFlights, args.value, outbound, inbound)
  {
    if args.Err? {
      result := Err(args.error);
      return;
    }
    result := SearchFlights(mockFlights, args.value, outbound, inbound);
  }

  /** With no optional arguments the search is one-way, for one passenger in
      economy. */
  lemma DefaultArguments(origin: Option<string>, destination: Option<string>, departureDate: Option<string>,
                         outbound: FlightRandom, inbound: FlightRandom)
    requires ValidRandom(outbound) && ValidRandom(inbound)
    ensures var args := FlightArgs(origin, destination, departureDate, None, None, None);
            SearchReply(true, args, outbound, inbound)
            == Ok(Listing(Show(origin), Show(destination), Show(departureDate), None, 1, "economy",
                          MockFlights(Airlines, AircraftTypes, "economy", outbound), []))
  {
  }
}
