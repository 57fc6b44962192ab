/** The lookup pipeline of the web client: the in-memory cache consulted by
    `callGeminiAPI` and the `handleSearch` flow, with the view reduced to the
    screen shown and the state of the results panel (loading, error, loaded). */
module Client {
  import opened Wrappers
  import opened JsString
  import opened Render

  /** What the request to the text proxy would produce if it were issued: the
      parsed entry, or a failure of any kind (a rejected fetch, a non-ok
      status, a body that is not JSON). */
  datatype FetchOutcome = Fetched(entry: DictionaryEntry) | FetchFailed

  /** The localized messages, by their key in the translation tables. */
  datatype Message = ErrorGeneric | ErrorNoWord

  datatype Screen = Home | Results

  /** The results panel: spinner, error message, or the rendered entry. */
  datatype Status = Idle | Loading | Failed(message: Message) | Loaded(page: Page)

  /** The cache key `${word}_${currentLang}`. */
  function CacheKey(word: string, lang: Lang): (k: string)
    ensures |k| == |word| + 3
    ensures k[..|word|] == word && k[|word|] == '_' && k[|word| + 1..] == lang.Tag()
  {
    word + "_" + lang.Tag()
  }

  /** Distinct (word, language) pairs never share a cache entry: since the
      language tag has a fixed length, the key determines both parts. */
  lemma CacheKeyInjective(w1: string, l1: Lang, w2: string, l2: Lang)
    requires CacheKey(w1, l1) == CacheKey(w2, l2)
    ensures w1 == w2 && l1 == l2
  {
    var k := CacheKey(w1, l1);
    assert |w1| == |w2|;
    assert l1.Tag() == k[|w1| + 1..] == l2.Tag();
    assert w1 == k[..|w1|] == w2;
  }

  /** One `callGeminiAPI` call as a value: the cache afterwards, what the call
      returns (None for `null`) and whether a request was issued. */
  datatype Lookup = Lookup(cache: map<string, DictionaryEntry>, data: Option<DictionaryEntry>, fetched: bool)

  /** The cache logic of `callGeminiAPI`. A hit returns the stored entry and
      issues no request; a miss issues one; only a successful request stores an
      entry; nothing stored before is ever removed or replaced. */
  function LookupStep(cache: map<string, DictionaryEntry>, word: string, lang: Lang, outcome: FetchOutcome): (r: Lookup)
    ensures CacheKey(word, lang) in cache ==>
      r.cache == cache && r.data == Some(cache[CacheKey(word, lang)]) && !r.fetched
    ensures CacheKey(word, lang) !in cache ==> r.fetched
    ensures forall k :: k in cache ==> k in r.cache && r.cache[k] == cache[k]
    ensures r.cache != cache ==>
      outcome.Fetched? && r.cache == cache[CacheKey(word, lang) := outcome.entry]
    ensures r.data.None? <==> CacheKey(word, lang) !in cache && outcome.FetchFailed?
    ensures r.data.None? ==> r.cache == cache
    ensures r.data.Some? ==> CacheKey(word, lang) in r.cache && r.data.value == r.cache[CacheKey(word, lang)]
  {
    var key := CacheKey(word, lang);
    if key in cache then Lookup(cache, Some(cache[key]), false)
    else
      match outcome
      case Fetched(entry) => Lookup(cache[key := entry], Some(entry), true)
      case FetchFailed => Lookup(cache, None, true)
  }

  /** Two lookups of the same word in the same language issue at most one
      request once the first one succeeded, and the second returns what the
      first did, whatever its own request would have produced. */
  lemma SecondLookupHits(cache: map<string, DictionaryEntry>, word: string, lang: Lang, o1: FetchOutcome, o2: FetchOutcome)
    requires LookupStep(cache, word, lang, o1).data.Some?
    ensures var first := LookupStep(cache, word, lang, o1);
      var second := LookupStep(first.cache, word, lang, o2);
      && !second.fetched && second.data == first.data && second.cache == first.cache
  {
  }

  // ---- A session: any sequence of lookups ----

  datatype Query = Query(word: string, lang: Lang, outcome: FetchOutcome)

  /** A record of a fetch the session issued: its cache key and whether it
      succeeded. */
  datatype FetchRecord = FetchRecord(key: string, ok: bool)

  datatype Trace = Trace(cache: map<string, DictionaryEntry>, requests: seq<FetchRecord>)

  /** The cache after a sequence of lookups, and the requests they issued. */
  function Session(cache: map<string, DictionaryEntry>, queries: seq<Query>): Trace
    decreases |queries|
  {
    if queries == [] then Trace(cache, [])
    else
      var q := queries[0];
      var step := LookupStep(cache, q.word, q.lang, q.outcome);
      var rest := Session(step.cache, queries[1..]);
      Trace(rest.cache, Issued(cache, q) + rest.requests)
  }

  /** The keys of the requests that succeeded. */
  function Succeeded(requests: seq<FetchRecord>): set<string>
    decreases |requests|
  {
    if requests == [] then {}
    else (if requests[0].ok then {requests[0].key} else {}) + Succeeded(requests[1..])
  }

  /** The number of successful requests for `key`. */
  function SuccessCount(requests: seq<FetchRecord>, key: string): nat
    decreases |requests|
  {
    if requests == [] then 0
    else (if requests[0].ok && requests[0].key == key then 1 else 0) + SuccessCount(requests[1..], key)
  }

  /** Over any session, entries are never removed or replaced. */
  lemma {:induction false} SessionKeepsEntries(cache: map<string, DictionaryEntry>, queries: seq<Query>)
    ensures forall k :: k in cache ==> k in Session(cache, queries).cache && Session(cache, queries).cache[k] == cache[k]
    decreases |queries|
  {
    if queries != [] {
      var q := queries[0];
      SessionKeepsEntries(LookupStep(cache, q.word, q.lang, q.outcome).cache, queries[1..]);
    }
  }

  /** The requests one lookup issues: none on a hit, one otherwise. */
  function Issued(cache: map<string, DictionaryEntry>, q: Query): seq<FetchRecord> {
    var step := LookupStep(cache, q.word, q.lang, q.outcome);
    if step.fetched then [FetchRecord(CacheKey(q.word, q.lang), step.data.Some?)] else []
  }

  /** One lookup adds to the cache exactly the key of its successful request;
      such a key was not cached before. */
  lemma LookupIssued(cache: map<string, DictionaryEntry>, q: Query)
    ensures var step := LookupStep(cache, q.word, q.lang, q.outcome);
      && step.cache.Keys == cache.Keys + Succeeded(Issued(cache, q))
      && forall k :: SuccessCount(Issued(cache, q), k) == (if k in step.cache && k !in cache then 1 else 0)
  {
  }

  /** Over any session, the cache grows by exactly the keys whose request
      succeeded. */
  lemma {:induction false} SessionKeys(cache: map<string, DictionaryEntry>, queries: seq<Query>)
    ensures Session(cache, queries).cache.Keys == cache.Keys + Succeeded(Session(cache, queries).requests)
    decreases |queries|
  {
    if queries != [] {
      var q := queries[0];
      var step := LookupStep(cache, q.word, q.lang, q.outcome);
      SessionKeys(step.cache, queries[1..]);
      LookupIssued(cache, q);
      SucceededAppend(Issued(cache, q), Session(step.cache, queries[1..]).requests);
    }
  }

  /** Over any session, each key is requested successfully at most once, and
      never when it was cached to begin with. */
  lemma {:induction false} SessionFetchesOnce(cache: map<string, DictionaryEntry>, queries: seq<Query>)
    ensures forall k :: SuccessCount(Session(cache, queries).requests, k) <= (if k in cache then 0 else 1)
    decreases |queries|
  {
    if queries != [] {
      var q := queries[0];
      var step := LookupStep(cache, q.word, q.lang, q.outcome);
      var rest := Session(step.cache, queries[1..]);
      SessionFetchesOnce(step.cache, queries[1..]);
      LookupIssued(cache, q);
      forall k ensures SuccessCount(Session(cache, queries).requests, k) <= (if k in cache then 0 else 1) {
        SuccessCountAppend(Issued(cache, q), rest.requests, k);
      }
    }
  }

  lemma {:induction false} SucceededAppend(a: seq<FetchRecord>, b: seq<FetchRecord>)
    ensures Succeeded(a + b) == Succeeded(a) + Succeeded(b)
    decreases |a|
  {
    if a == [] {
      assert a + b == b;
    } else {
      assert (a + b)[0] == a[0] && (a + b)[1..] == a[1..] + b;
      SucceededAppend(a[1..], b);
    }
  }

  lemma {:induction false} SuccessCountAppend(a: seq<FetchRecord>, b: seq<FetchRecord>, key: string)
    ensures SuccessCount(a + b, key) == SuccessCount(a, key) + SuccessCount(b, key)
    decreases |a|
  {
    if a == [] {
      assert a + b == b;
    } else {
      assert (a + b)[0] == a[0] && (a + b)[1..] == a[1..] + b;
      SuccessCountAppend(a[1..], b, key);
    }
  }

  /** The client's state: the interface language, the cache, the screen shown,
      the results panel and the alerts raised so far. */
  class Client {
    var lang: Lang
    var cache: map<string, DictionaryEntry>
    var screen: Screen
    var status: Status
    var alerts: seq<Message>

    /** The state declared on page load (script.js:28-29): an empty cache on
        the home screen. The script declares Arabic; the language is a
        parameter because the language switch sets only this field. The
        page-load `setLanguage('ar')` (script.js:343), with its word-of-the-day
        lookup, comes after this point. */
    constructor (lang: Lang)
      ensures this.lang == lang && cache == map[] && screen == Home && status == Idle && alerts == []
    {
      this.lang := lang;
      cache := map[];
      screen := Home;
      status := Idle;
      alerts := [];
    }

    /** `callGeminiAPI(word)`: the cache is consulted first; on a miss the
        request is issued, its entry stored on success, and on failure the
        generic error is shown and `null` returned. */
    method CallGeminiAPI(word: string, outcome: FetchOutcome) returns (data: Option<DictionaryEntry>, fetched: bool)
      modifies this
      ensures var step := LookupStep(old(cache), word, old(lang), outcome);
        cache == step.cache && data == step.data && fetched == step.fetched
      ensures lang == old(lang) && screen == old(screen) && alerts == old(alerts)
      ensures status == if data.None? then Failed(ErrorGeneric) else old(status)
    {
      var key := CacheKey(word, lang);
      if key in cache {
        return Some(cache[key]), false;
      }
      fetched := true;
      match outcome {
        case Fetched(entry) =>
          cache := cache[key := entry];
          data := Some(entry);
        case FetchFailed =>
          status := Failed(ErrorGeneric);
          data := None;
      }
    }

    /** `handleSearch(word)`: a word that is empty after trimming raises the
        no-word alert and changes nothing else, issuing no request. Otherwise
        the results screen is shown, loading, and the lookup (with the word as
        typed, untrimmed) ends in the rendered entry or the generic error. */
    method HandleSearch(word: string, outcome: FetchOutcome) returns (fetched: bool)
      modifies this
      ensures lang == old(lang)
      ensures Trim(word) == [] ==>
        && alerts == old(alerts) + [ErrorNoWord] && !fetched
        && cache == old(cache) && screen == old(screen) && status == old(status)
      ensures Trim(word) != [] ==>
        var step := LookupStep(old(cache), word, old(lang), outcome);
        && alerts == old(alerts) && screen == Results
        && cache == step.cache && fetched == step.fetched
        && status == match step.data
                     case Some(entry) => Loaded(RenderResults(entry, old(lang)))
                     case None => Failed(ErrorGeneric)
    {
      if Trim(word) == [] {
        alerts := alerts + [ErrorNoWord];
        return false;
      }
      screen := Results;
      status := Loading;
      var data;
      data, fetched := CallGeminiAPI(word, outcome);
      if data.Some? {
        status := Loaded(RenderResults(data.value, lang));
      }
    }
  }

  /** A client of the class: searching the same word twice in a session issues
      one request once the first search succeeded, and blank input never
      reaches the cache. */
  method SearchTwice(word: string, lang: Lang, o1: FetchOutcome, o2: FetchOutcome) returns (requests: nat)
    requires o1.Fetched?
    ensures Trim(word) == [] ==> requests == 0
    ensures Trim(word) != [] ==> requests == 1
  {
    var c := new Client(lang);
    var f1 := c.HandleSearch(word, o1);
    var f2 := c.HandleSearch(word, o2);
    requests := (if f1 then 1 else 0) + (if f2 then 1 else 0);
  }
}
