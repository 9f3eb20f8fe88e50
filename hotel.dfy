/** The mock hotel search: the argument defaults, the generator of four to
    six hotels for a budget tier, the sort by rating, and the text listing
    each hotel with its total price.

    Every `Math.random()` is a draw in [0, 1) supplied by the caller, one
    per purpose (`HotelDraws`); the order in which the JavaScript engine
    consumes them is not modelled.  The shuffle `amenities.sort(() => 0.5 -
    Math.random())` rearranges the tier's amenity array in place and is
    given as the permutation it applies.  The number of nights, which the
    source computes from two dates, is a parameter. */
module Hotel {
  import opened Common

  const FailedPrefix: string := "Failed to search hotels: "
  const NotConfigured: string := "Real hotel API not configured"
  /** What reading `chains.length` of an unknown tier throws. */
  const LengthOfUndefined: string := "Cannot read properties of undefined (reading 'length')"

  const DefaultGuests: int := 2
  const DefaultRooms: int := 1
  const DefaultBudget: string := "mid-range"

  /** The tool definition offered to the language model. */
  const ToolDef: ToolDefinition :=
    ToolDefinition("search_hotels",
                   "Search for hotels and accommodations with pricing, ratings, and amenities",
                   [ToolParameter("location", "City or location to search for hotels (e.g., \"Paris\", \"New York\", \"London\")", None),
                    ToolParameter("check_in", "Check-in date in YYYY-MM-DD format", None),
                    ToolParameter("check_out", "Check-out date in YYYY-MM-DD format", None),
                    ToolParameter("guests", "Number of guests (default: 2)", None),
                    ToolParameter("rooms", "Number of rooms (default: 1)", None),
                    ToolParameter("budget_range", "Budget preference (budget, mid-range, luxury)", None)],
                   ["location", "check_in", "check_out"])

  datatype Tier = Budget | MidRange | Luxury

  /** The tiers the tables have entries for. */
  function TierOf(name: string): (t: Option<Tier>)
    ensures t == Some(Budget) <==> name == "budget"
    ensures t == Some(MidRange) <==> name == "mid-range"
    ensures t == Some(Luxury) <==> name == "luxury"
  {
    if name == "budget" then Some(Budget)
    else if name == "mid-range" then Some(MidRange)
    else if name == "luxury" then Some(Luxury)
    else None
  }

  /** The hotel chains of the three tiers. */
  datatype Chain =
    | HolidayInnExpress | BestWestern | ComfortInn | Ibis | PremierInn
    | HolidayInn | Marriott | HiltonGardenInn | Courtyard | Radisson
    | FourSeasons | RitzCarlton | StRegis | WaldorfAstoria | ParkHyatt

  datatype Amenity =
    | FreeWifi | BreakfastIncluded | FitnessCenter | FrontDesk | AirConditioning
    | Restaurant | Bar | BusinessCenter | Pool | RoomService
    | Concierge | Spa | FineDining | Butler | ValetParking | PremiumWifi

  datatype RoomType =
    | StandardRoom | QueenRoom | DoubleRoom | DeluxeRoom | ExecutiveRoom | JuniorSuite
    | ExecutiveSuite | PremiumSuite | PresidentialSuite

  /** The three descriptions of each tier, in table order. */
  datatype Description = Description(tier: Tier, index: nat)

  /** The tables of one tier: hotel chains, amenities, room types and
      descriptions, each entry standing for the text it is shown as. */
  datatype Tables = Tables(chains: seq<Chain>, amenities: seq<Amenity>, roomTypes: seq<RoomType>,
                           descriptions: seq<Description>)

  /** What the generator needs of the tables: something to pick from, and
      no amenity listed twice. */
  predicate Usable(tables: Tables)
  {
    |tables.chains| > 0 && |tables.roomTypes| > 0 && |tables.descriptions| > 0 && Distinct(tables.amenities)
  }

  function TablesOf(t: Tier): (tables: Tables)
    ensures Usable(tables)
    ensures |tables.chains| == 5 && |tables.roomTypes| == 3 && |tables.descriptions| == 3
    ensures |tables.amenities| == match t case Budget => 5 case MidRange => 7 case Luxury => 8
  {
    match t
    case Budget =>
      Tables([HolidayInnExpress, BestWestern, ComfortInn, Ibis, PremierInn],
             [FreeWifi, BreakfastIncluded, FitnessCenter, FrontDesk, AirConditioning],
             [StandardRoom, QueenRoom, DoubleRoom],
             [Description(Budget, 0), Description(Budget, 1), Description(Budget, 2)])
    case MidRange =>
      Tables([HolidayInn, Marriott, HiltonGardenInn, Courtyard, Radisson],
             [FreeWifi, Restaurant, Bar, FitnessCenter, BusinessCenter, Pool, RoomService],
             [DeluxeRoom, ExecutiveRoom, JuniorSuite],
             [Description(MidRange, 0), Description(MidRange, 1), Description(MidRange, 2)])
    case Luxury =>
      Tables([FourSeasons, RitzCarlton, StRegis, WaldorfAstoria, ParkHyatt],
             [Concierge, Spa, FineDining, RoomService, Butler, Pool, ValetParking, PremiumWifi],
             [ExecutiveSuite, PremiumSuite, PresidentialSuite],
             [Description(Luxury, 0), Description(Luxury, 1), Description(Luxury, 2)])
  }

  function ChainName(c: Chain): string
  {
    match c
    case HolidayInnExpress => "Holiday Inn Express"
    case BestWestern => "Best Western"
    case ComfortInn => "Comfort Inn"
    case Ibis => "Ibis"
    case PremierInn => "Premier Inn"
    case HolidayInn => "Holiday Inn"
    case Marriott => "Marriott"
    case HiltonGardenInn => "Hilton Garden Inn"
    case Courtyard => "Courtyard"
    case Radisson => "Radisson"
    case FourSeasons => "Four Seasons"
    case RitzCarlton => "Ritz-Carlton"
    case StRegis => "St. Regis"
    case WaldorfAstoria => "Waldorf Astoria"
    case ParkHyatt => "Park Hyatt"
  }

  function AmenityName(a: Amenity): string
  {
    match a
    case FreeWifi => "Free WiFi"
    case BreakfastIncluded => "Breakfast included"
    case FitnessCenter => "Fitness center"
    case FrontDesk => "24-hour front desk"
    case AirConditioning => "Air conditioning"
    case Restaurant => "Restaurant"
    case Bar => "Bar"
    case BusinessCenter => "Business center"
    case Pool => "Pool"
    case RoomService => "Room service"
    case Concierge => "Concierge service"
    case Spa => "Spa"
    case FineDining => "Fine dining restaurant"
    case Butler => "Butler service"
    case ValetParking => "Valet parking"
    case PremiumWifi => "Premium WiFi"
  }

  function RoomName(r: RoomType): string
  {
    match r
    case StandardRoom => "Standard Room"
    case QueenRoom => "Queen Room"
    case DoubleRoom => "Double Room"
    case DeluxeRoom => "Deluxe Room"
    case ExecutiveRoom => "Executive Room"
    case JuniorSuite => "Junior Suite"
    case ExecutiveSuite => "Executive Suite"
    case PremiumSuite => "Premium Suite"
    case PresidentialSuite => "Presidential Suite"
  }

  function DescriptionText(d: Description): string
  {
    match d.tier
    case Budget =>
      if d.index == 0 then "Clean and comfortable accommodations with essential amenities."
      else if d.index == 1 then "Modern rooms designed for budget-conscious travelers."
      else "Simple, well-maintained hotel perfect for short stays."
    case MidRange =>
      if d.index == 0 then "Stylish hotel combining comfort with excellent service."
      else if d.index == 1 then "Modern accommodations with business-friendly amenities."
      else "Well-appointed rooms in a convenient location."
    case Luxury =>
      if d.index == 0 then "Exceptional luxury with world-class service and amenities."
      else if d.index == 1 then "Elegant accommodations offering the finest hospitality."
      else "Prestigious hotel known for impeccable service and style."
  }

  /** The five areas named after the location. */
  function Areas(location: string): (r: seq<string>)
    ensures |r| == 5
  {
    ["Downtown " + location, location + " City Center", location + " Business District", "Historic " + location,
     location + " Airport Area"]
  }

  /** A hotel; its name is its chain followed by the location, and
      `rating` is in tenths (`Math.round(rating * 10) / 10`). */
  datatype Hotel = Hotel(chain: Chain, location: string, rating: int, reviews: int, area: string, pricePerNight: int,
                         amenities: seq<Amenity>, roomType: RoomType, description: Description)

  /** `${chain} ${location}`. */
  function Name(h: Hotel): string
  {
    ChainName(h.chain) + " " + h.location
  }

  /** The draws made for one hotel. */
  datatype HotelDraws = HotelDraws(chain: real, area: real, roomType: real, description: real, rating: real,
                                   price: real, shuffle: seq<nat>, amenityCount: real, reviews: real)

  /** The draw for the number of hotels, and the draws for the `i`-th. */
  datatype HotelRandom = HotelRandom(count: real, perHotel: nat -> HotelDraws)

  /** `p` lists each index below `n` once. */
  predicate IsPermutation(p: seq<nat>, n: nat)
  {
    |p| == n && (forall i :: 0 <= i < n ==> p[i] < n) && Distinct(p)
  }

  predicate ValidDraws(d: HotelDraws, catalogSize: nat)
  {
    && Unit(d.chain) && Unit(d.area) && Unit(d.roomType) && Unit(d.description) && Unit(d.rating)
    && Unit(d.price) && Unit(d.amenityCount) && Unit(d.reviews) && IsPermutation(d.shuffle, catalogSize)
  }

  /** What `Math.random` and the engine's sort can produce. */
  ghost predicate ValidRandom(random: HotelRandom, catalogSize: nat)
  {
    Unit(random.count) && forall i: nat :: ValidDraws(random.perHotel(i), catalogSize)
  }

  function MinRating(t: Tier): int { match t case Budget => 30 case MidRange => 35 case Luxury => 42 }
  function MaxRating(t: Tier): int { match t case Budget => 45 case MidRange => 50 case Luxury => 50 }
  function MinPrice(t: Tier): int { match t case Budget => 40 case MidRange => 80 case Luxury => 300 }
  function MaxPrice(t: Tier): int { match t case Budget => 119 case MidRange => 199 case Luxury => 799 }

  /** The rating in tenths, within the tier's range. */
  function RatingTenths(t: Tier, r: real): (tenths: int)
    requires Unit(r)
    ensures MinRating(t) <= tenths <= MaxRating(t)
  {
    var rating := match t
      case Luxury => 4.2 + r * 0.8
      case Budget => 3.0 + r * 1.5
      case MidRange => 3.5 + r * 1.5;
    Round(rating * 10.0)
  }

  /** `Math.floor(basePrice)`: a whole price within the tier's range. */
  function PricePerNight(t: Tier, r: real): (price: int)
    requires Unit(r)
    ensures MinPrice(t) <= price <= MaxPrice(t)
  {
    var base := match t
      case Budget => 40.0 + r * 80.0
      case Luxury => 300.0 + r * 500.0
      case MidRange => 80.0 + r * 120.0;
    base.Floor
  }

  /** `Math.floor(Math.random() * 3) + 4`. */
  function FourToSix(r: real): (n: int)
    requires Unit(r)
    ensures 4 <= n <= 6
  {
    Pick(r, 3) + 4
  }

  /** `p` applied to `s`: the element at `i` is the one `s` had at `p[i]`. */
  function Permuted<T>(s: seq<T>, p: seq<nat>): (r: seq<T>)
    requires IsPermutation(p, |s|)
    ensures |r| == |s|
    ensures forall i :: 0 <= i < |s| ==> r[i] == s[p[i]]
  {
    seq(|s|, i requires 0 <= i < |s| => s[p[i]])
  }

  /** A permutation of a list without repeats has none either, and holds
      only its elements. */
  lemma PermutedKeepsEntries<T>(s: seq<T>, p: seq<nat>)
    requires IsPermutation(p, |s|) && Distinct(s)
    ensures Distinct(Permuted(s, p))
    ensures forall x :: x in Permuted(s, p) ==> x in s
  {
  }

  /** The order of the amenity array after the first `i` shuffles. */
  function AmenityOrder(catalog: seq<Amenity>, random: HotelRandom, i: nat): (order: seq<Amenity>)
    requires ValidRandom(random, |catalog|)
    ensures |order| == |catalog|
  {
    if i == 0 then catalog else Permuted(AmenityOrder(catalog, random, i - 1), random.perHotel(i - 1).shuffle)
  }

  /** Every order is made of the catalog's entries, each once. */
  lemma {:induction false} AmenityOrderKeepsEntries(catalog: seq<Amenity>, random: HotelRandom, i: nat)
    requires ValidRandom(random, |catalog|) && Distinct(catalog)
    ensures Distinct(AmenityOrder(catalog, random, i))
    ensures forall x :: x in AmenityOrder(catalog, random, i) ==> x in catalog
  {
    if i > 0 {
      AmenityOrderKeepsEntries(catalog, random, i - 1);
      PermutedKeepsEntries(AmenityOrder(catalog, random, i - 1), random.perHotel(i - 1).shuffle);
    }
  }

  /** The hotel made from one set of draws, with the amenity array in
      `order` after its shuffle. */
  function MakeHotel(t: Tier, tables: Tables, location: string, d: HotelDraws, order: seq<Amenity>): Hotel
    requires Usable(tables) && ValidDraws(d, |tables.amenities|)
  {
    Hotel(tables.chains[Pick(d.chain, |tables.chains|)], location, RatingTenths(t, d.rating),
          Pick(d.reviews, 2000) + 100, Areas(location)[Pick(d.area, 5)], PricePerNight(t, d.price),
          order[..Min(FourToSix(d.amenityCount), |order|)],
          tables.roomTypes[Pick(d.roomType, |tables.roomTypes|)],
          tables.descriptions[Pick(d.description, |tables.descriptions|)])
  }

  /** The hotels in the order they are generated. */
  function GeneratedHotels(t: Tier, tables: Tables, location: string, random: HotelRandom, n: nat): (hotels: seq<Hotel>)
    requires Usable(tables) && ValidRandom(random, |tables.amenities|)
    ensures |hotels| == n
    ensures forall i :: 0 <= i < n ==>
              hotels[i] == MakeHotel(t, tables, location, random.perHotel(i), AmenityOrder(tables.amenities, random, i + 1))
  {
    seq(n, i requires 0 <= i < n => MakeHotel(t, tables, location, random.perHotel(i), AmenityOrder(tables.amenities, random, i + 1)))
  }

  /** What every listed hotel satisfies. */
  predicate WellFormed(h: Hotel, t: Tier, tables: Tables, location: string)
  {
    && h.chain in tables.chains && h.location == location
    && MinRating(t) <= h.rating <= MaxRating(t)
    && MinPrice(t) <= h.pricePerNight <= MaxPrice(t)
    && 100 <= h.reviews <= 2099
    && h.area in Areas(location)
    && h.roomType in tables.roomTypes
    && h.description in tables.descriptions
    && Distinct(h.amenities)
    && (forall a :: a in h.amenities ==> a in tables.amenities)
    && 4 <= |h.amenities| <= Min(6, |tables.amenities|)
  }

  /** One hotel is well formed when the amenity order it is cut from is. */
  lemma MakeHotelWellFormed(t: Tier, tables: Tables, location: string, d: HotelDraws, order: seq<Amenity>)
    requires Usable(tables) && ValidDraws(d, |tables.amenities|)
    requires |order| == |tables.amenities| >= 4 && Distinct(order) && forall x :: x in order ==> x in tables.amenities
    ensures WellFormed(MakeHotel(t, tables, location, d, order), t, tables, location)
  {
    var h := MakeHotel(t, tables, location, d, order);
    var k := Min(FourToSix(d.amenityCount), |order|);
    assert h.amenities == order[..k];
    assert forall a :: a in order[..k] ==> a in order;
  }

  /** Every generated hotel is well formed. */
  lemma GeneratedWellFormed(t: Tier, tables: Tables, location: string, random: HotelRandom, n: nat)
    requires Usable(tables) && |tables.amenities| >= 4 && ValidRandom(random, |tables.amenities|)
    ensures forall h :: h in GeneratedHotels(t, tables, location, random, n) ==> WellFormed(h, t, tables, location)
  {
    var hotels := GeneratedHotels(t, tables, location, random, n);
    forall i | 0 <= i < n ensures WellFormed(hotels[i], t, tables, location) {
      AmenityOrderKeepsEntries(tables.amenities, random, i + 1);
      MakeHotelWellFormed(t, tables, location, random.perHotel(i), AmenityOrder(tables.amenities, random, i + 1));
    }
  }

  function NegRating(h: Hotel): int
  {
    -h.rating
  }

  /** The hotels `generateMockHotels` returns for a known tier. */
  function MockHotels(t: Tier, location: string, random: HotelRandom): (hotels: seq<Hotel>)
    requires ValidRandom(random, |TablesOf(t).amenities|)
  {
    SortBy(GeneratedHotels(t, TablesOf(t), location, random, FourToSix(random.count)), NegRating)
  }

  /** `generateMockHotels(location, budgetRange)`. */
  method GenerateMockHotels(location: string, budgetRange: string, random: HotelRandom) returns (result: Result<seq<Hotel>>)
    requires TierOf(budgetRange).Some? ==> ValidRandom(random, |TablesOf(TierOf(budgetRange).value).amenities|)
    ensures result.Err? <==> TierOf(budgetRange).None?
    ensures result.Err? ==> result.error == LengthOfUndefined
    ensures result.Ok? ==> result.value == MockHotels(TierOf(budgetRange).value, location, random)
  {
    var tier := TierOf(budgetRange);
    if tier.None? {
      result := Err(LengthOfUndefined);
      return;
    }
    var hotels := Generate(tier.value, TablesOf(tier.value), location, random);
    result := Ok(hotels);
  }

  /** The loop of `generateMockHotels` over one tier's tables, then the sort. */
  method Generate(t: Tier, tables: Tables, location: string, random: HotelRandom) returns (hotels: seq<Hotel>)
    requires Usable(tables) && ValidRandom(random, |tables.amenities|)
    ensures hotels == SortBy(GeneratedHotels(t, tables, location, random, FourToSix(random.count)), NegRating)
  {
    var catalog := tables.amenities;
    var amenities := new Amenity[|catalog|](i requires 0 <= i < |catalog| => catalog[i]);
    assert amenities[..] == AmenityOrder(catalog, random, 0);
    var n := FourToSix(random.count);
    hotels := [];
    var i := 0;
    while i < n
      invariant 0 <= i <= n
      invariant amenities.Length == |catalog|
      invariant amenities[..] == AmenityOrder(catalog, random, i)
      invariant hotels == GeneratedHotels(t, tables, location, random, i)
    {
      var d := random.perHotel(i);
      assert ValidDraws(d, |catalog|);
      Shuffle(amenities, d.shuffle);
      var order := amenities[..];
      assert order == AmenityOrder(catalog, random, i + 1);
      var hotel := MakeHotel(t, tables, location, d, order);
      GeneratedSnoc(t, tables, location, random, i);
      hotels := hotels + [hotel];
      i := i + 1;
    }
    hotels := SortBy(hotels, NegRating);
  }

  /** One more hotel generated is one more at the end. */
  lemma GeneratedSnoc(t: Tier, tables: Tables, location: string, random: HotelRandom, n: nat)
    requires Usable(tables) && ValidRandom(random, |tables.amenities|)
    ensures GeneratedHotels(t, tables, location, random, n + 1)
            == GeneratedHotels(t, tables, location, random, n)
               + [MakeHotel(t, tables, location, random.perHotel(n), AmenityOrder(tables.amenities, random, n + 1))]
  {
    var longer := GeneratedHotels(t, tables, location, random, n + 1);
    var shorter := GeneratedHotels(t, tables, location, random, n);
    assert longer[..n] == shorter;
    assert longer == longer[..n] + [longer[n]];
  }

  /** `amenities.sort(...)` as the permutation it applies, in place. */
  method Shuffle(a: array<Amenity>, p: seq<nat>)
    requires IsPermutation(p, a.Length)
    modifies a
    ensures a[..] == Permuted(old(a[..]), p)
  {
    var before := a[..];
    var i := 0;
    while i < a.Length
      invariant 0 <= i <= a.Length
      invariant forall k :: 0 <= k < i ==> a[k] == before[p[k]]
    {
      a[i] := before[p[i]];
      i := i + 1;
    }
  }

  /** The generator's promises: four to six hotels, best rated first, each
      well formed. */
  predicate Promised(hotels: seq<Hotel>, t: Tier, tables: Tables, location: string)
  {
    && 4 <= |hotels| <= 6
    && (forall i, j :: 0 <= i < j < |hotels| ==> hotels[i].rating >= hotels[j].rating)
    && (forall h :: h in hotels ==> WellFormed(h, t, tables, location))
  }

  /** The generator keeps its promises for any usable tables. */
  lemma SortedGeneratedPromises(t: Tier, tables: Tables, location: string, random: HotelRandom)
    requires Usable(tables) && |tables.amenities| >= 4 && ValidRandom(random, |tables.amenities|)
    ensures Promised(SortBy(GeneratedHotels(t, tables, location, random, FourToSix(random.count)), NegRating),
                     t, tables, location)
  {
    var generated := GeneratedHotels(t, tables, location, random, FourToSix(random.count));
    var hotels := SortBy(generated, NegRating);
    assert 4 <= |hotels| <= 6;
    assert forall i, j :: 0 <= i < j < |hotels| ==> hotels[i].rating >= hotels[j].rating by {
      assert SortedBy(hotels, NegRating);
      assert forall i, j :: 0 <= i < j < |hotels| ==> NegRating(hotels[i]) <= NegRating(hotels[j]);
    }
    assert forall h :: h in hotels ==> WellFormed(h, t, tables, location) by {
      GeneratedWellFormed(t, tables, location, random, FourToSix(random.count));
      SortKeeps(generated, NegRating, h => WellFormed(h, t, tables, location));
    }
  }

  /** The same promises for the hotels of each tier. */
  lemma GeneratorPromises(t: Tier, location: string, random: HotelRandom)
    requires ValidRandom(random, |TablesOf(t).amenities|)
    ensures Promised(MockHotels(t, location, random), t, TablesOf(t), location)
  {
    SortedGeneratedPromises(t, TablesOf(t), location, random);
  }

  /** `${hotel.rating}` for a rating in tenths: "4.5", or "4" for a whole
      number. */
  function RatingText(tenths: int): string
  {
    var n := if tenths < 0 then -tenths else tenths;
    (if tenths < 0 then "-" else "") + NatToString(n / 10) + (if n % 10 == 0 then "" else "." + [DigitChar(n % 10)])
  }

  lemma RatingTextExamples()
    ensures RatingText(45) == "4.5" && RatingText(40) == "4" && RatingText(50) == "5"
  {
  }

  /** `night`, with an `s` exactly when there is more than one. */
  function NightsText(nights: int): string
  {
    IntToString(nights) + " night" + (if nights > 1 then "s" else "")
  }

  /** The duration ends in "nights" exactly when there is more than one. */
  lemma NightsPlural(nights: int)
    ensures var text := NightsText(nights); |text| > 0 && (text[|text| - 1] == 's' <==> nights > 1)
  {
  }

  function Header(location: string, checkIn: string, checkOut: string, nights: int, guests: int, rooms: int,
                  budgetRange: string): string
  {
    "\U{1F3E8}" + " **Hotel Search Results for " + location + "**\n\n" +
    "**Check-in:** " + checkIn + "\n" +
    "**Check-out:** " + checkOut + "\n" +
    "**Duration:** " + NightsText(nights) + "\n" +
    "**Guests:** " + IntToString(guests) + " | **Rooms:** " + IntToString(rooms) + "\n" +
    "**Budget Range:** " + Capitalize(budgetRange) + "\n\n---"
  }

  function Bullets(items: seq<string>): (r: seq<string>)
    ensures |r| == |items|
    ensures forall i :: 0 <= i < |items| ==> r[i] == "\U{2022} " + items[i]
  {
    seq(|items|, i requires 0 <= i < |items| => "\U{2022} " + items[i])
  }

  function AmenityNames(amenities: seq<Amenity>): (r: seq<string>)
    ensures |r| == |amenities|
    ensures forall i :: 0 <= i < |amenities| ==> r[i] == AmenityName(amenities[i])
  {
    seq(|amenities|, i requires 0 <= i < |amenities| => AmenityName(amenities[i]))
  }

  /** The price line: the price per night, then the total for the stay. */
  function PriceLine(h: Hotel, nights: int): string
  {
    PerNightText(h) + TotalText(h, nights) + "\n\n"
  }

  function PerNightText(h: Hotel): string
  {
    "\U{1F4B0}" + " **Price:** $" + IntToString(h.pricePerNight) + "/night \U{2022} "
  }

  /** The total for the stay: the price per night times the nights. */
  function TotalText(h: Hotel, nights: int): string
  {
    "**Total: $" + IntToString(h.pricePerNight * nights) + "**"
  }

  /** The section of the `number`-th hotel. */
  function Section(number: int, h: Hotel, nights: int): string
  {
    SectionHead(number, h) + PriceLine(h, nights) + SectionTail(h)
  }

  function SectionHead(number: int, h: Hotel): string
  {
    "\n\n## " + IntToString(number) + ". **" + Name(h) + "**\n" +
    "\U{2B50}" + " **Rating:** " + RatingText(h.rating) + "/5 (" + IntToString(h.reviews) + " reviews)\n" +
    "\U{1F4CD}" + " **Location:** " + h.area + "\n"
  }

  function SectionTail(h: Hotel): string
  {
    "**Amenities:**\n" + Join(Bullets(AmenityNames(h.amenities)), "\n") + "\n\n" +
    "**Room Type:** " + RoomName(h.roomType) + "\n" +
    "**Description:** " + DescriptionText(h.description)
  }

  /** Each section shows the hotel's total. */
  lemma SectionShowsTotal(number: int, h: Hotel, nights: int)
    ensures exists before, after :: Section(number, h, nights) == before + TotalText(h, nights) + after
  {
    Regroup(SectionHead(number, h), PerNightText(h), TotalText(h, nights), "\n\n", SectionTail(h));
    var before, after := SectionHead(number, h) + PerNightText(h), "\n\n" + SectionTail(h);
    assert Section(number, h, nights) == before + TotalText(h, nights) + after;
  }

  /** The section renderer handed to the loop over the hotels. */
  function SectionOf(nights: int): (int, Hotel) -> string
  {
    (number, h) => Section(number, h, nights)
  }

  /** The sections of all hotels, numbered from 1 in list order. */
  function Sections(hotels: seq<Hotel>, nights: int): string
  {
    Rendered(hotels, SectionOf(nights))
  }

  const Tips: string :=
    "\n\n## " + "\U{1F4A1}" + " **Booking Tips:**\n" +
    "\U{2022} Prices may vary based on exact dates and availability\n" +
    "\U{2022} Book directly with hotels for best rates and benefits\n" +
    "\U{2022} Check cancellation policies before booking\n" +
    "\U{2022} Consider location vs. price trade-offs\n" +
    "\U{2022} Read recent reviews for current conditions\n\n" +
    "**Popular Booking Sites:**\n" +
    "\U{2022} Booking.com, Hotels.com, Expedia\n" +
    "\U{2022} Hotel direct websites for member rates\n" +
    "\U{2022} Trivago for price comparison\n\n" +
    "*Note: These are sample results. For real bookings, please check actual hotel websites or booking platforms.*"

  /** The whole text: the header, one section per hotel, the tips. */
  function Listing(location: string, checkIn: string, checkOut: string, nights: int, guests: int, rooms: int,
                   budgetRange: string, hotels: seq<Hotel>): string
  {
    Header(location, checkIn, checkOut, nights, guests, rooms, budgetRange) + Sections(hotels, nights) + Tips
  }

  /** `getMockHotelData(...)`: the hotels of `generateMockHotels`, then the
      text built section by section. */
  method GetMockHotelData(location: string, checkIn: string, checkOut: string, guests: int, rooms: int,
                          budgetRange: string, nights: int, random: HotelRandom) returns (result: Result<string>)
    requires TierOf(budgetRange).Some? ==> ValidRandom(random, |TablesOf(TierOf(budgetRange).value).amenities|)
    ensures result.Err? <==> TierOf(budgetRange).None?
    ensures result.Err? ==> result.error == LengthOfUndefined
    ensures result.Ok? ==>
              result.value == Listing(location, checkIn, checkOut, nights, guests, rooms, budgetRange,
                                      MockHotels(TierOf(budgetRange).value, location, random))
  {
    var generated := GenerateMockHotels(location, budgetRange, random);
    if generated.Err? {
      result := Err(generated.error);
      return;
    }
    var response := AppendEach(Header(location, checkIn, checkOut, nights, guests, rooms, budgetRange),
                               generated.value, SectionOf(nights));
    result := Ok(response + Tips);
  }

  /** The arguments `searchHotels` reads. */
  datatype HotelArgs = HotelArgs(location: Option<string>, checkIn: Option<string>, checkOut: Option<string>,
                                 guests: Option<int>, rooms: Option<int>, budgetRange: Option<string>)

  /** The destructuring defaults, applied to a missing argument only. */
  function BudgetOf(args: HotelArgs): string
  {
    if args.budgetRange.Some? then args.budgetRange.value else DefaultBudget
  }

  function GuestsOf(args: HotelArgs): int
  {
    if args.guests.Some? then args.guests.value else DefaultGuests
  }

  function RoomsOf(args: HotelArgs): int
  {
    if args.rooms.Some? then args.rooms.value else DefaultRooms
  }

  /** What `searchHotels(args)` returns or throws. */
  function SearchReply(mockHotels: bool, args: HotelArgs, nights: int, random: HotelRandom): (r: Result<string>)
    requires TierOf(BudgetOf(args)).Some? ==> ValidRandom(random, |TablesOf(TierOf(BudgetOf(args)).value).amenities|)
    ensures !mockHotels ==> r == Err(FailedPrefix + NotConfigured)
    ensures mockHotels && TierOf(BudgetOf(args)).None? ==> r == Err(FailedPrefix + LengthOfUndefined)
    ensures mockHotels && TierOf(BudgetOf(args)).Some? ==> r.Ok?
  {
    if !mockHotels then Err(FailedPrefix + NotConfigured)
    else if TierOf(BudgetOf(args)).None? then Err(FailedPrefix + LengthOfUndefined)
    else
      var location := Show(args.location);
      Ok(Listing(location, Show(args.checkIn), Show(args.checkOut), nights, GuestsOf(args), RoomsOf(args), BudgetOf(args),
                 MockHotels(TierOf(BudgetOf(args)).value, location, random)))
  }

  /** `searchHotels(args)`; `mockHotels` is the flag the constructor sets
      (always true, which is also what `isAvailable()` returns). */
  method SearchHotels(mockHotels: bool, args: HotelArgs, nights: int, random: HotelRandom) returns (result: Result<string>)
    requires TierOf(BudgetOf(args)).Some? ==> ValidRandom(random, |TablesOf(TierOf(BudgetOf(args)).value).amenities|)
    ensures result == SearchReply(mockHotels, args, nights, random)
  {
    if !mockHotels {
      result := Err(FailedPrefix + NotConfigured);
      return;
    }
    result := GetMockHotelData(Show(args.location), Show(args.checkIn), Show(args.checkOut), GuestsOf(args), RoomsOf(args),
                               BudgetOf(args), nights, random);
    if result.Err? {
      result := Err(FailedPrefix + result.error);
    }
  }

  /** `executeFunction(functionCall)`: the parsed arguments, or the parse
      error, passed to `searchHotels`; its errors are rethrown unchanged. */
  method ExecuteFunction(mockHotels: bool, args: Result<HotelArgs>, nights: int, random: HotelRandom)
    returns (result: Result<string>)
    requires args.Ok? && TierOf(BudgetOf(args.value)).Some? ==>
               ValidRandom(random, |TablesOf(TierOf(BudgetOf(args.value)).value).amenities|)
    ensures args.Err? ==> result == Err(args.error)
    ensures args.Ok? ==> result == SearchReply(mockHotels, args.value, nights, random)
  {
    if args.Err? {
      result := Err(args.error);
      return;
    }
    result := SearchHotels(mockHotels, args.value, nights, random);
  }

  /** With no optional arguments the search is for two guests in one
      mid-range room. */
  lemma DefaultArguments(location: Option<string>, checkIn: Option<string>, checkOut: Option<string>, nights: int,
                         random: HotelRandom)
    requires ValidRandom(random, |TablesOf(MidRange).amenities|)
    ensures var args := HotelArgs(location, checkIn, checkOut, None, None, None);
            SearchReply(true, args, nights, random)
            == Ok(Listing(Show(location), Show(checkIn), Show(checkOut), nights, 2, 1, "mid-range",
                          MockHotels(MidRange, Show(location), random)))
  {
  }
}
