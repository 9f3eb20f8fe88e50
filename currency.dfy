/** The currency converter: upper-casing of the codes, the same-currency
    short cut, the one-hour rate cache keyed by the currency pair, the
    unsupported-currency check, the wrapping of every failure, and the list
    of supported currencies with its fixed fallback.

    The rate lookup is the parameter `fetch` (from a URL to the `rates`
    object of the answer, or an error).  The file never binds `axios`, so as written
    every lookup fails with a `ReferenceError`; `AsWrittenFetch` is that
    lookup.  The printing of amounts (`${amount}`, `toFixed`) is the
    parameter `render`, and the two readings of the clock are `now` (the
    freshness test) and `stampedAt` (the time written with a new rate). */
module Currency {
  import opened Common

  const BaseUrl: string := "https://api.exchangerate-api.com/v4/latest"
  /** Cached rates are used for an hour, in milliseconds. */
  const CacheExpiry: int := 3600000
  /** Request timeout, in milliseconds. */
  const Timeout: int := 10000

  const FailedPrefix: string := "Failed to convert currency: "
  /** What calling `toUpperCase` on a missing code throws. */
  const UpperOfUndefined: string := "Cannot read properties of undefined (reading 'toUpperCase')"
  /** What every use of the unbound `axios` throws. */
  const AxiosUndefined: string := "axios is not defined"

  /** The list returned when the rate lookup fails. */
  const FallbackCurrencies: seq<string> := ["USD", "EUR", "GBP", "JPY", "CAD", "AUD", "CHF", "CNY", "INR", "KRW"]

  /** `isAvailable()` is always true: the rate service needs no key. */
  const Available: bool := true

  /** The tool definition offered to the language model. */
  const ToolDef: ToolDefinition :=
    ToolDefinition("convert_currency",
                   "Convert currency amounts for travel planning and budgeting",
                   [ToolParameter("amount", "Amount to convert", None),
                    ToolParameter("from", "Source currency code (e.g., USD, EUR, GBP)", None),
                    ToolParameter("to", "Target currency code (e.g., USD, EUR, GBP)", None)],
                   ["amount", "from", "to"])

  datatype CacheEntry = CacheEntry(rate: real, timestamp: int)
  type Cache = map<string, CacheEntry>

  /** How numbers are printed: `${x}` and `x.toFixed(digits)`. */
  datatype Render = Render(show: real -> string, fixed: (real, nat) -> string)

  /** The new cache and the reply (or the message thrown). */
  datatype Conversion = Conversion(cache: Cache, result: Result<Reply>)

  /** What `executeFunction` reads from the parsed arguments. */
  datatype ConvertArgs = ConvertArgs(amount: real, from: Option<string>, to: Option<string>)

  /** `${from}_${to}`. */
  function CacheKey(from: string, to: string): (key: string)
    ensures |key| == |from| + 1 + |to| && key[|from|] == '_'
    ensures key[..|from|] == from && key[|from| + 1..] == to
  {
    from + "_" + to
  }

  /** The position of the first `c` in `s`, or `|s|` when there is none. */
  function IndexOf(s: string, c: char): (i: nat)
    ensures i <= |s|
    ensures i < |s| ==> s[i] == c
    ensures forall k :: 0 <= k < i ==> s[k] != c
  {
    if s == [] then 0 else if s[0] == c then 0 else 1 + IndexOf(s[1..], c)
  }

  /** The separator is the first underscore of a key whose source code has
      none. */
  lemma KeySplitsAtSeparator(from: string, to: string)
    requires '_' !in from
    ensures IndexOf(CacheKey(from, to), '_') == |from|
  {
    var key := CacheKey(from, to);
    var i := IndexOf(key, '_');
    assert forall k :: 0 <= k < |from| ==> key[k] == from[k];
  }

  /** For codes without an underscore, different pairs have different keys. */
  lemma CacheKeyInjective(from1: string, to1: string, from2: string, to2: string)
    requires '_' !in from1 && '_' !in from2
    requires CacheKey(from1, to1) == CacheKey(from2, to2)
    ensures from1 == from2 && to1 == to2
  {
    KeySplitsAtSeparator(from1, to1);
    KeySplitsAtSeparator(from2, to2);
  }

  /** An underscore inside a code makes two pairs share one cache entry. */
  lemma CacheKeysCanCollide()
    ensures CacheKey("A_B", "C") == CacheKey("A", "B_C")
  {
  }

  /** The freshness test: strictly younger than an hour. */
  predicate Fresh(entry: CacheEntry, now: int)
  {
    now - entry.timestamp < CacheExpiry
  }

  function Failed(message: string): (m: string)
    ensures FailedPrefix <= m
  {
    FailedPrefix + message
  }

  function NotSupported(to: string): string
  {
    "Currency " + to + " not supported"
  }

  /** What a successful conversion answers, before it is printed. */
  datatype Reply = SameCurrency(amount: real, code: string) | Converted(amount: real, from: string, to: string, rate: real)

  /** The text of a reply: the same-currency line, or
      `formatCurrencyResponse(...)`. */
  function Text(reply: Reply, render: Render): string
  {
    match reply
    case SameCurrency(amount, code) =>
      render.show(amount) + " " + code + " = " + render.show(amount) + " " + code + " (same currency)"
    case Converted(amount, from, to, rate) =>
      "\U{1F4B1}" + " **Currency Conversion**\n    \n" +
      "**" + render.show(amount) + " " + from + " = " + render.fixed(amount * rate, 2) + " " + to + "**\n\n" +
      "Exchange Rate: 1 " + from + " = " + render.fixed(rate, 4) + " " + to + "\n\n" +
      "*Rates are updated every hour. For real-time rates for large transactions, please check with your bank or financial institution.*"
  }

  /** The text returned, or the message thrown. */
  function Shown(result: Result<Reply>, render: Render): Result<string>
  {
    if result.Ok? then Ok(Text(result.value, render)) else Err(result.error)
  }

  /** The rate `rates[to]` of the lookup for `from`: the lookup's own failure,
      or "not supported" for a missing or zero rate. */
  function FetchRate(from: string, to: string, fetch: string -> HttpResult<map<string, real>>): (r: Result<real>)
    ensures var answer := fetch(BaseUrl + "/" + from);
            && (answer.HttpError? ==> r == Err(answer.message))
            && (answer.Response? && (to !in answer.data || answer.data[to] == 0.0) ==> r == Err(NotSupported(to)))
            && (r.Ok? <==> answer.Response? && to in answer.data && answer.data[to] != 0.0)
            && (r.Ok? ==> r.value == answer.data[to])
  {
    match fetch(BaseUrl + "/" + from)
    case HttpError(_, message) => Err(message)
    case Response(rates) => if to !in rates || rates[to] == 0.0 then Err(NotSupported(to)) else Ok(rates[to])
  }

  /** The conversion once both codes are upper-cased. */
  function ConvertCodes(cache: Cache, amount: real, from: string, to: string, now: int, stampedAt: int,
                        fetch: string -> HttpResult<map<string, real>>): (r: Conversion)
    ensures r.result.Err? ==> r.cache == cache && FailedPrefix <= r.result.error
    ensures r.cache != cache ==>
              FetchRate(from, to, fetch).Ok? && r.cache == cache[CacheKey(from, to) := CacheEntry(FetchRate(from, to, fetch).value, stampedAt)]
  {
    if from == to then Conversion(cache, Ok(SameCurrency(amount, from)))
    else
      var key := CacheKey(from, to);
      if key in cache && Fresh(cache[key], now) then Conversion(cache, Ok(Converted(amount, from, to, cache[key].rate)))
      else
        match FetchRate(from, to, fetch)
        case Err(message) => Conversion(cache, Err(Failed(message)))
        case Ok(rate) => Conversion(cache[key := CacheEntry(rate, stampedAt)], Ok(Converted(amount, from, to, rate)))
  }

  /** `convertCurrency(amount, fromCurrency, toCurrency)` on the cache it
      reads and writes. */
  function Convert(cache: Cache, amount: real, fromCurrency: Option<string>, toCurrency: Option<string>,
                   now: int, stampedAt: int, fetch: string -> HttpResult<map<string, real>>): (r: Conversion)
    ensures r.result.Err? ==> r.cache == cache && FailedPrefix <= r.result.error
    ensures fromCurrency.None? || toCurrency.None? ==> r == Conversion(cache, Err(Failed(UpperOfUndefined)))
    ensures fromCurrency.Some? && toCurrency.Some? ==>
              r == ConvertCodes(cache, amount, ToUpper(fromCurrency.value), ToUpper(toCurrency.value), now, stampedAt, fetch)
  {
    if fromCurrency.None? || toCurrency.None? then Conversion(cache, Err(Failed(UpperOfUndefined)))
    else ConvertCodes(cache, amount, ToUpper(fromCurrency.value), ToUpper(toCurrency.value), now, stampedAt, fetch)
  }

  /** Only a successful lookup writes the cache, and then only the entry of
      this pair, stamped with the time of the write and holding a non-zero
      rate. */
  lemma CacheWrittenOnlyAfterLookup(cache: Cache, amount: real, from: string, to: string, now: int, stampedAt: int,
                                    fetch: string -> HttpResult<map<string, real>>)
    requires ConvertCodes(cache, amount, from, to, now, stampedAt, fetch).cache != cache
    ensures var r := ConvertCodes(cache, amount, from, to, now, stampedAt, fetch);
            var key := CacheKey(from, to);
            && r.result.Ok? && from != to
            && (key !in cache || !Fresh(cache[key], now))
            && key in r.cache && r.cache[key].timestamp == stampedAt && r.cache[key].rate != 0.0
            && forall k :: k in cache && k != key ==> k in r.cache && r.cache[k] == cache[k]
  {
  }

  /** Equal codes (after upper-casing) answer at once: the cache is neither
      read nor written and no lookup is made. */
  lemma SameCurrencyShortCircuit(cache1: Cache, cache2: Cache, amount: real, code: string, now: int, stampedAt: int,
                                 f1: string -> HttpResult<map<string, real>>, f2: string -> HttpResult<map<string, real>>)
    ensures ConvertCodes(cache1, amount, code, code, now, stampedAt, f1) == Conversion(cache1, Ok(SameCurrency(amount, code)))
    ensures ConvertCodes(cache1, amount, code, code, now, stampedAt, f1).result
         == ConvertCodes(cache2, amount, code, code, now, stampedAt, f2).result
  {
  }

  /** A fresh entry answers without a lookup and leaves the cache as it is. */
  lemma FreshEntryMakesNoRequest(cache: Cache, amount: real, from: string, to: string, now: int, stampedAt: int,
                                 f1: string -> HttpResult<map<string, real>>, f2: string -> HttpResult<map<string, real>>)
    requires from != to && CacheKey(from, to) in cache && Fresh(cache[CacheKey(from, to)], now)
    ensures ConvertCodes(cache, amount, from, to, now, stampedAt, f1) == ConvertCodes(cache, amount, from, to, now, stampedAt, f2)
    ensures ConvertCodes(cache, amount, from, to, now, stampedAt, f1)
         == Conversion(cache, Ok(Converted(amount, from, to, cache[CacheKey(from, to)].rate)))
  {
  }

  /** A missing or stale entry is as good as none: the answer is the one an
      empty cache gives. */
  lemma StaleEntryIsIgnored(cache: Cache, amount: real, from: string, to: string, now: int, stampedAt: int,
                            fetch: string -> HttpResult<map<string, real>>)
    requires CacheKey(from, to) !in cache || !Fresh(cache[CacheKey(from, to)], now)
    ensures ConvertCodes(cache, amount, from, to, now, stampedAt, fetch).result
         == ConvertCodes(map[], amount, from, to, now, stampedAt, fetch).result
  {
  }

  /** A target currency the lookup has no (or a zero) rate for is reported
      by its code, and nothing is cached. */
  lemma UnsupportedCurrency(cache: Cache, amount: real, from: string, to: string, now: int, stampedAt: int,
                            fetch: string -> HttpResult<map<string, real>>)
    requires from != to
    requires CacheKey(from, to) !in cache || !Fresh(cache[CacheKey(from, to)], now)
    requires var answer := fetch(BaseUrl + "/" + from);
             answer.Response? && (to !in answer.data || answer.data[to] == 0.0)
    ensures ConvertCodes(cache, amount, from, to, now, stampedAt, fetch)
         == Conversion(cache, Err("Failed to convert currency: Currency " + to + " not supported"))
  {
    assert FailedPrefix + ("Currency " + to + " not supported") == "Failed to convert currency: Currency " + to + " not supported";
  }

  /** A rate fetched at `stampedAt` answers every request for the same pair
      made less than an hour later, whatever the lookup would say then. */
  lemma FetchedRateIsReused(cache: Cache, amount: real, from: string, to: string, now: int, stampedAt: int,
                            fetch: string -> HttpResult<map<string, real>>,
                            amount2: real, later: int, stamp2: int, fetch2: string -> HttpResult<map<string, real>>)
    requires from != to
    requires CacheKey(from, to) !in cache || !Fresh(cache[CacheKey(from, to)], now)
    requires FetchRate(from, to, fetch).Ok?
    requires later - stampedAt < CacheExpiry
    ensures var first := ConvertCodes(cache, amount, from, to, now, stampedAt, fetch);
            var rate := FetchRate(from, to, fetch).value;
            && first.result == Ok(Converted(amount, from, to, rate))
            && ConvertCodes(first.cache, amount2, from, to, later, stamp2, fetch2)
               == Conversion(first.cache, Ok(Converted(amount2, from, to, rate)))
  {
  }

  /** The rate lookup as the file is written: `axios` is never bound. */
  function AsWrittenFetch(url: string): (r: HttpResult<map<string, real>>)
    ensures r.HttpError? && r.status.None?
  {
    HttpError(None, AxiosUndefined)
  }

  /** One call of `convertCurrency`. */
  datatype Request = Request(amount: real, from: Option<string>, to: Option<string>, now: int, stampedAt: int)

  /** The cache after a sequence of calls. */
  function CacheAfter(cache: Cache, requests: seq<Request>, fetch: string -> HttpResult<map<string, real>>): Cache
    decreases |requests|
  {
    if requests == [] then cache
    else
      var q := requests[0];
      CacheAfter(Convert(cache, q.amount, q.from, q.to, q.now, q.stampedAt, fetch).cache, requests[1..], fetch)
  }

  /** As written, nothing is ever cached. */
  lemma {:induction false} AsWrittenCacheStaysEmpty(requests: seq<Request>)
    ensures CacheAfter(map[], requests, AsWrittenFetch) == map[]
    decreases |requests|
  {
    if requests != [] {
      var q := requests[0];
      if q.from.Some? && q.to.Some? {
        assert FetchRate(ToUpper(q.from.value), ToUpper(q.to.value), AsWrittenFetch).Err?;
      }
      assert Convert(map[], q.amount, q.from, q.to, q.now, q.stampedAt, AsWrittenFetch).cache == map[];
      AsWrittenCacheStaysEmpty(requests[1..]);
    }
  }

  /** As written, whatever came before, two different currencies are never
      converted: the answer is always the missing-`axios` failure. */
  lemma AsWrittenNeverConverts(history: seq<Request>, amount: real, fromCurrency: string, toCurrency: string,
                               now: int, stampedAt: int)
    requires ToUpper(fromCurrency) != ToUpper(toCurrency)
    ensures Convert(CacheAfter(map[], history, AsWrittenFetch), amount, Some(fromCurrency), Some(toCurrency), now, stampedAt, AsWrittenFetch)
            == Conversion(map[], Err("Failed to convert currency: axios is not defined"))
  {
    AsWrittenCacheStaysEmpty(history);
  }

  /** `a` sorts no later than `b` under the default comparison of strings,
      character by character. */
  predicate NoLater(a: string, b: string)
    decreases |a|
  {
    |a| == 0 || (|b| > 0 && (a[0] < b[0] || (a[0] == b[0] && NoLater(a[1..], b[1..]))))
  }

  lemma {:induction false} NoLaterTotal(a: string, b: string)
    ensures NoLater(a, b) || NoLater(b, a)
    decreases |a|
  {
    if |a| > 0 && |b| > 0 && a[0] == b[0] {
      NoLaterTotal(a[1..], b[1..]);
    }
  }

  lemma {:induction false} NoLaterAntisymmetric(a: string, b: string)
    requires NoLater(a, b) && NoLater(b, a)
    ensures a == b
    decreases |a|
  {
    if |a| > 0 {
      NoLaterAntisymmetric(a[1..], b[1..]);
      assert a == [a[0]] + a[1..] && b == [b[0]] + b[1..];
    }
  }

  lemma {:induction false} NoLaterTransitive(a: string, b: string, c: string)
    requires NoLater(a, b) && NoLater(b, c)
    ensures NoLater(a, c)
    decreases |a|
  {
    if |a| > 0 && a[0] == b[0] && b[0] == c[0] {
      NoLaterTransitive(a[1..], b[1..], c[1..]);
    }
  }

  /** Every non-empty finite set of strings has a first element. */
  lemma {:induction false} FirstExists(s: set<string>)
    requires s != {}
    ensures exists m :: m in s && forall x :: x in s ==> NoLater(m, x)
    decreases |s|
  {
    var y :| y in s;
    if s - {y} == {} {
      assert s == {y};
      assert forall x :: x in s ==> NoLater(y, x) by {
        forall x | x in s ensures NoLater(y, x) { NoLaterTotal(y, x); }
      }
    } else {
      FirstExists(s - {y});
      var m :| m in s - {y} && forall x :: x in s - {y} ==> NoLater(m, x);
      NoLaterTotal(m, y);
      if NoLater(m, y) {
        assert forall x :: x in s ==> NoLater(m, x);
      } else {
        forall x | x in s ensures NoLater(y, x) {
          if x != y { NoLaterTransitive(y, m, x); }
          else { NoLaterTotal(y, x); }
        }
      }
    }
  }

  /** The first element of a non-empty set of strings. */
  function First(s: set<string>): (m: string)
    requires s != {}
    ensures m in s && forall x :: x in s ==> NoLater(m, x)
  {
    FirstExists(s);
    forall a, b | NoLater(a, b) && NoLater(b, a) ensures a == b { NoLaterAntisymmetric(a, b); }
    var m :| m in s && forall x :: x in s ==> NoLater(m, x);
    m
  }

  /** `Object.keys(rates).sort()`: every key once, in ascending order. */
  function SortedKeys(keys: set<string>): (r: seq<string>)
    ensures |r| == |keys|
    ensures forall x :: x in keys <==> x in r
    ensures forall i, j :: 0 <= i < j < |r| ==> NoLater(r[i], r[j]) && r[i] != r[j]
    decreases |keys|
  {
    if keys == {} then []
    else
      var m := First(keys);
      [m] + SortedKeys(keys - {m})
  }

  /** `getSupportedCurrencies()`: the sorted codes of the rates for USD, or
      the fixed list when the lookup fails. */
  function GetSupportedCurrencies(fetch: string -> HttpResult<map<string, real>>): (r: seq<string>)
    ensures fetch(BaseUrl + "/USD").HttpError? ==> r == FallbackCurrencies
    ensures fetch(BaseUrl + "/USD").Response? ==> r == SortedKeys(fetch(BaseUrl + "/USD").data.Keys)
  {
    match fetch(BaseUrl + "/USD")
    case HttpError(_, _) => FallbackCurrencies
    case Response(rates) => SortedKeys(rates.Keys)
  }

  /** As written, the supported list is always the fixed fallback. */
  lemma AsWrittenSupportedIsFallback()
    ensures GetSupportedCurrencies(AsWrittenFetch) == FallbackCurrencies
  {
  }

  /** The fallback list has ten distinct codes. */
  lemma FallbackDistinct()
    ensures |FallbackCurrencies| == 10 && Distinct(FallbackCurrencies)
  {
  }

  class CurrencyService {
    var cache: Cache
    const cacheExpiry: int

    constructor()
      ensures cache == map[] && cacheExpiry == CacheExpiry
    {
      cache := map[];
      cacheExpiry := CacheExpiry;
    }

    /** `convertCurrency(amount, fromCurrency, toCurrency)`. */
    method ConvertCurrency(amount: real, fromCurrency: Option<string>, toCurrency: Option<string>, now: int, stampedAt: int,
                           fetch: string -> HttpResult<map<string, real>>, render: Render) returns (result: Result<string>)
      requires cacheExpiry == CacheExpiry
      modifies this
      ensures var c := Convert(old(cache), amount, fromCurrency, toCurrency, now, stampedAt, fetch);
              cache == c.cache && result == Shown(c.result, render)
    {
      if fromCurrency.None? || toCurrency.None? {
        result := Err(Failed(UpperOfUndefined));
        return;
      }
      var from := ToUpper(fromCurrency.value);
      var to := ToUpper(toCurrency.value);
      if from == to {
        result := Ok(Text(SameCurrency(amount, from), render));
        return;
      }
      var key := CacheKey(from, to);
      if key in cache && now - cache[key].timestamp < cacheExpiry {
        result := Ok(Text(Converted(amount, from, to, cache[key].rate), render));
        return;
      }
      var answer := fetch(BaseUrl + "/" + from);
      if answer.HttpError? {
        result := Err(Failed(answer.message));
        return;
      }
      var rates := answer.data;
      if to !in rates || rates[to] == 0.0 {
        result := Err(Failed(NotSupported(to)));
        return;
      }
      var rate := rates[to];
      cache := cache[key := CacheEntry(rate, stampedAt)];
      result := Ok(Text(Converted(amount, from, to, rate), render));
    }

    /** `executeFunction(functionCall)`: a parse failure is passed on as it
        is; otherwise the conversion's answer or failure. */
    method ExecuteFunction(args: Result<ConvertArgs>, now: int, stampedAt: int,
                           fetch: string -> HttpResult<map<string, real>>, render: Render) returns (result: Result<string>)
      requires cacheExpiry == CacheExpiry
      modifies this
      ensures args.Err? ==> result == Err(args.error) && cache == old(cache)
      ensures args.Ok? ==>
                var c := Convert(old(cache), args.value.amount, args.value.from, args.value.to, now, stampedAt, fetch);
                cache == c.cache && result == Shown(c.result, render)
    {
      if args.Err? {
        result := Err(args.error);
        return;
      }
      result := ConvertCurrency(args.value.amount, args.value.from, args.value.to, now, stampedAt, fetch, render);
    }
  }
}
