/**
 * The form's onPredict handler: it checks both selections, builds the cache key "day-airport",
 * answers from the in-memory cache when it can, and otherwise asks /predict, caching the body of
 * an OK response only.
 */
module PredictClient {
  import opened Wrappers
  import opened JsonData
  import Decimal

  /** Number(dayId) or Number(airportId) of a select value: a whole number, or NaN. */
  datatype FormNumber = NaN | Whole(n: int)

  /** !day is true of NaN and 0; every other number passes the guard. */
  predicate Truthy(x: FormNumber)
    ensures !Truthy(x) <==> x in {NaN, Whole(0)}
  {
    x.Whole? && x.n != 0
  }

  const SelectionMessage := "Please select a day and an airport."
  const DefaultFailure := "Prediction failed"

  /** The TypeError that reading `.error` off a null body throws. */
  const NullBodyMessage := "Cannot read properties of null (reading 'error')"

  /** What fetch and res.json() gave: a response with its `ok` flag and parsed body, or a rejection. */
  datatype FetchResult = Fetched(ok: bool, data: Json) | Rejected(message: string)

  /** One request onPredict actually sent, with what came back. */
  datatype Fetch = Fetch(day: int, airport: int, result: FetchResult)

  predicate Succeeded(f: Fetch) {
    f.result.Fetched? && f.result.ok
  }

  /** `${day}-${airport}`: a key that reads back as the selection it was built from. */
  function CacheKey(day: int, airport: int): (key: string)
    ensures ParseKey(key) == Some((day, airport))
  {
    KeyRoundTrip(day, airport);
    Decimal.IntText(day) + "-" + Decimal.IntText(airport)
  }

  function KeyOf(f: Fetch): string {
    CacheKey(f.day, f.airport)
  }

  /** The first '-' at or after index i. */
  function HyphenFrom(s: string, i: nat): (r: Option<nat>)
    requires i <= |s|
    ensures r.Some? ==> (i <= r.value < |s| && s[r.value] == '-'
                         && forall k :: i <= k < r.value ==> s[k] != '-')
    ensures r.None? ==> forall k :: i <= k < |s| ==> s[k] != '-'
    decreases |s| - i
  {
    if i == |s| then None else if s[i] == '-' then Some(i) else HyphenFrom(s, i + 1)
  }

  /** Reads a cache key back: the separator is the first '-' after the day's own sign. */
  function ParseKey(key: string): Option<(int, int)> {
    if key == [] then None
    else
      match HyphenFrom(key, 1)
      case None => None
      case Some(i) =>
        match (Decimal.ParseInt(key[..i]), Decimal.ParseInt(key[i + 1..]))
        case (Some(d), Some(a)) => Some((d, a))
        case _ => None
  }

  /** The decimal texts of a (day, airport) pair, joined by '-', read back as that pair. */
  lemma KeyRoundTrip(day: int, airport: int)
    ensures ParseKey(Decimal.IntText(day) + "-" + Decimal.IntText(airport)) == Some((day, airport))
  {
    var d, a := Decimal.IntText(day), Decimal.IntText(airport);
    var key := d + "-" + a;
    assert key[|d|] == '-';
    forall k | 1 <= k < |d| ensures key[k] != '-' {
      assert key[k] == d[k];
    }
    assert HyphenFrom(key, 1) == Some(|d|);
    assert key[..|d|] == d;
    assert key[|d| + 1..] == a;
    Decimal.ParseIntOfIntText(day);
    Decimal.ParseIntOfIntText(airport);
  }

  /** Two different selections never share a cache entry. */
  lemma KeyInjective(d1: int, a1: int, d2: int, a2: int)
    requires CacheKey(d1, a1) == CacheKey(d2, a2)
    ensures d1 == d2 && a1 == a2
  {
    assert ParseKey(CacheKey(d1, a1)) == ParseKey(CacheKey(d2, a2));
  }

  /**
   * The message of the Error thrown for a non-OK response: data.error when it is a non-empty
   * string, "Prediction failed" when it is missing or falsy.
   */
  function FailureText(data: Json): (m: string)
    ensures m != ""
    ensures (data.JObject? && "error" in data.fields && data.fields["error"].JString?
             && data.fields["error"].s != "") ==> m == data.fields["error"].s
    ensures !data.JNull? && !(data.JObject? && "error" in data.fields && data.fields["error"].JString?
                              && data.fields["error"].s != "")
            ==> m == DefaultFailure
    ensures data.JNull? ==> m == NullBodyMessage
  {
    match data
    case JNull => NullBodyMessage
    case JObject(fields) =>
      if "error" in fields && fields["error"].JString? && fields["error"].s != "" then fields["error"].s
      else DefaultFailure
    case _ => DefaultFailure
  }

  /** The cache a sequence of fetches leaves behind: the body of each OK response under its key. */
  function CacheFrom(log: seq<Fetch>): map<string, Json> {
    if log == [] then map[]
    else
      var prev := CacheFrom(log[..|log| - 1]);
      var last := log[|log| - 1];
      if Succeeded(last) then prev[KeyOf(last) := last.result.data] else prev
  }

  /** Every cache entry is the body of an OK response to a request for that very key. */
  lemma {:induction false} CachedEntryCameFromOkResponse(log: seq<Fetch>, key: string)
    requires key in CacheFrom(log)
    ensures exists i :: 0 <= i < |log| && Succeeded(log[i]) && KeyOf(log[i]) == key
                        && log[i].result.data == CacheFrom(log)[key]
    decreases |log|
  {
    var prev := log[..|log| - 1];
    var last := log[|log| - 1];
    if Succeeded(last) && KeyOf(last) == key {
      assert log[|log| - 1] == last;
    } else {
      CachedEntryCameFromOkResponse(prev, key);
      var i :| 0 <= i < |prev| && Succeeded(prev[i]) && KeyOf(prev[i]) == key
               && prev[i].result.data == CacheFrom(prev)[key];
      assert log[i] == prev[i];
    }
  }

  /** A key missing from the cache never had an OK response: failures leave no trace. */
  lemma {:induction false} UncachedKeyNeverSucceeded(log: seq<Fetch>, key: string)
    requires key !in CacheFrom(log)
    ensures forall i :: 0 <= i < |log| && Succeeded(log[i]) ==> KeyOf(log[i]) != key
    decreases |log|
  {
    if log != [] {
      var prev := log[..|log| - 1];
      UncachedKeyNeverSucceeded(prev, key);
      forall i | 0 <= i < |log| - 1 ensures log[i] == prev[i] { }
    }
  }

  /** Once a key has had an OK response, it is never requested again. */
  ghost predicate FetchedOnceWhenOk(log: seq<Fetch>) {
    forall i, j :: 0 <= i < j < |log| && Succeeded(log[i]) ==> KeyOf(log[j]) != KeyOf(log[i])
  }

  /**
   * With each key fetched no more after its OK response, the cache holds, for every OK response,
   * exactly the body that response carried.
   */
  lemma {:induction false} CacheAgreesWithOkResponses(log: seq<Fetch>, i: nat)
    requires FetchedOnceWhenOk(log)
    requires i < |log| && Succeeded(log[i])
    ensures KeyOf(log[i]) in CacheFrom(log) && CacheFrom(log)[KeyOf(log[i])] == log[i].result.data
    decreases |log|
  {
    var prev := log[..|log| - 1];
    if i < |log| - 1 {
      assert prev[i] == log[i];
      assert FetchedOnceWhenOk(prev) by {
        forall a, b | 0 <= a < b < |prev| && Succeeded(prev[a]) ensures KeyOf(prev[b]) != KeyOf(prev[a]) {
          assert prev[a] == log[a] && prev[b] == log[b];
        }
      }
      CacheAgreesWithOkResponses(prev, i);
      assert KeyOf(log[|log| - 1]) != KeyOf(log[i]);
    }
  }

  /** The App component's prediction state and its cache. */
  class PredictForm {
    var error: string
    var result: Option<Json>
    var predicting: bool
    var cache: map<string, Json>
    var fetches: seq<Fetch>

    ghost predicate Valid()
      reads this
    {
      cache == CacheFrom(fetches) && FetchedOnceWhenOk(fetches)
    }

    /** A freshly mounted component: no error, no result, an empty cache. */
    constructor ()
      ensures Valid()
      ensures error == "" && result == None && !predicting && cache == map[] && fetches == []
    {
      error, result, predicting := "", None, false;
      cache, fetches := map[], [];
    }

    /**
     * A submit of the form. `response` is what fetch would yield; it is consulted only when the
     * call gets past the guard and misses the cache.
     */
    method OnPredict(dayId: FormNumber, airportId: FormNumber, response: FetchResult)
      requires Valid()
      modifies this
      ensures Valid()
      ensures !Truthy(dayId) || !Truthy(airportId) ==>
        error == SelectionMessage && result == None && predicting == old(predicting)
        && cache == old(cache) && fetches == old(fetches)
      ensures Truthy(dayId) && Truthy(airportId) && CacheKey(dayId.n, airportId.n) in old(cache) ==>
        error == "" && result == Some(old(cache)[CacheKey(dayId.n, airportId.n)])
        && predicting == old(predicting) && cache == old(cache) && fetches == old(fetches)
      ensures Truthy(dayId) && Truthy(airportId) && CacheKey(dayId.n, airportId.n) !in old(cache) ==>
        !predicting && fetches == old(fetches) + [Fetch(dayId.n, airportId.n, response)]
        && (match response
            case Fetched(ok, data) =>
              if ok then error == "" && result == Some(data)
                         && cache == old(cache)[CacheKey(dayId.n, airportId.n) := data]
              else error == FailureText(data) && result == None && cache == old(cache)
            case Rejected(message) => error == message && result == None && cache == old(cache))
    {
      error := "";
      result := None;
      if !Truthy(dayId) || !Truthy(airportId) {
        error := SelectionMessage;
        return;
      }
      var day, airport := dayId.n, airportId.n;
      var key := CacheKey(day, airport);
      if key in cache {
        result := Some(cache[key]);
        return;
      }
      predicting := true;
      UncachedKeyNeverSucceeded(fetches, key);
      var f := Fetch(day, airport, response);
      assert CacheFrom(fetches + [f]) == if Succeeded(f) then cache[key := f.result.data] else cache by {
        assert (fetches + [f])[..|fetches|] == fetches;
      }
      fetches := fetches + [f];
      match response {
        case Fetched(ok, data) =>
          if !ok {
            error := FailureText(data);
          } else {
            cache := cache[key := data];
            result := Some(data);
          }
        case Rejected(message) =>
          error := message;
      }
      predicting := false;
    }
  }
}
