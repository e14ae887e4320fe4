/**
 * The three strategy executors. Each reads and writes one cache generation and
 * consults the network at most once. The pure `...Outcome` functions say what a
 * run produces from the generation's entries and the network's answer; the
 * methods run against a `Cache` object and a `Network` and are proved to
 * produce exactly that; the lemmas state what the strategies promise.
 */
module Executors {
  import opened Http
  import opened Storage
  import opened Classifier

  /** The effect of one run: what comes back, the generation's entries afterwards, and the number of fetches. */
  datatype Outcome = Outcome(reply: Reply, entries: map<Request, Response>, fetches: nat)

  /** `if (networkResponse.ok) cache.put(request, networkResponse.clone())`. */
  function StoreIfOk(entries: map<Request, Response>, request: Request, response: Response): (r: map<Request, Response>)
    ensures forall k :: k != request ==> (k in r <==> k in entries) && (k in r ==> r[k] == entries[k])
    ensures response.Ok() ==> request in r && r[request] == response
    ensures !response.Ok() ==> r == entries
  {
    if response.Ok() then entries[request := response] else entries
  }

  /** Cache-first: a hit is served without the network; a miss is fetched, stored when ok, or answered offline. */
  function CacheFirstOutcome(entries: map<Request, Response>, request: Request, answer: FetchResult): Outcome {
    if request in entries then
      Outcome(Serve(entries[request]), entries, 0)
    else
      match answer
      case Fetched(response) => Outcome(Serve(response), StoreIfOk(entries, request, response), 1)
      case NetworkError => Outcome(Offline, entries, 1)
  }

  /** Network-first: the network answer is served (and stored when ok); on failure the cache, else offline. */
  function NetworkFirstOutcome(entries: map<Request, Response>, request: Request, answer: FetchResult): Outcome {
    match answer
    case Fetched(response) => Outcome(Serve(response), StoreIfOk(entries, request, response), 1)
    case NetworkError =>
      Outcome(if request in entries then Serve(entries[request]) else Offline, entries, 1)
  }

  /**
   * Stale-while-revalidate: the cached snapshot if there is one, else what the
   * fetch settles to; the fetch always happens and stores an ok response.
   * A failed fetch settles to the cached snapshot, which on a miss is `undefined`.
   */
  function StaleWhileRevalidateOutcome(entries: map<Request, Response>, request: Request, answer: FetchResult): Outcome {
    var settled := match answer
      case Fetched(response) => Serve(response)
      case NetworkError => if request in entries then Serve(entries[request]) else Undefined;
    var refreshed := match answer
      case Fetched(response) => StoreIfOk(entries, request, response)
      case NetworkError => entries;
    Outcome(if request in entries then Serve(entries[request]) else settled, refreshed, 1)
  }

  /** The executor a strategy selects. */
  function Run(strategy: Strategy, entries: map<Request, Response>, request: Request, answer: FetchResult): Outcome {
    match strategy
    case CacheFirst => CacheFirstOutcome(entries, request, answer)
    case NetworkFirst => NetworkFirstOutcome(entries, request, answer)
    case StaleWhileRevalidate => StaleWhileRevalidateOutcome(entries, request, answer)
  }

  /** `cacheFirst(request, cache)`. */
  method ServeCacheFirst(request: Request, cache: Cache, network: Network) returns (r: Reply)
    modifies cache, network`calls
    ensures var o := CacheFirstOutcome(old(cache.entries), request, network.answer);
            r == o.reply && cache.entries == o.entries && network.calls == old(network.calls) + o.fetches
  {
    var cached := cache.Match(request);
    if cached.Some? {
      return Serve(cached.value);
    }
    var fetched := network.Fetch(request);
    match fetched
    case Fetched(response) =>
      if response.Ok() {
        cache.Put(request, response);
      }
      r := Serve(response);
    case NetworkError =>
      r := Offline;
  }

  /** `networkFirst(request, cache)`. */
  method ServeNetworkFirst(request: Request, cache: Cache, network: Network) returns (r: Reply)
    modifies cache, network`calls
    ensures var o := NetworkFirstOutcome(old(cache.entries), request, network.answer);
            r == o.reply && cache.entries == o.entries && network.calls == old(network.calls) + o.fetches
  {
    var fetched := network.Fetch(request);
    match fetched
    case Fetched(response) =>
      if response.Ok() {
        cache.Put(request, response);
      }
      r := Serve(response);
    case NetworkError =>
      var cached := cache.Match(request);
      r := if cached.Some? then Serve(cached.value) else Offline;
  }

  /** `staleWhileRevalidate(request, cache)`, with the background refresh run to completion as one step. */
  method ServeStaleWhileRevalidate(request: Request, cache: Cache, network: Network) returns (r: Reply)
    modifies cache, network`calls
    ensures var o := StaleWhileRevalidateOutcome(old(cache.entries), request, network.answer);
            r == o.reply && cache.entries == o.entries && network.calls == old(network.calls) + o.fetches
  {
    var cached := cache.Match(request);
    var fetched := network.Fetch(request);
    var settled: Reply;
    match fetched {
      case Fetched(response) =>
        if response.Ok() {
          cache.Put(request, response);
        }
        settled := Serve(response);
      case NetworkError =>
        settled := if cached.Some? then Serve(cached.value) else Undefined;
    }
    r := if cached.Some? then Serve(cached.value) else settled;
  }

  /** Every snapshot in the generation is an ok response. */
  predicate AllOk(entries: map<Request, Response>) {
    forall k :: k in entries ==> entries[k].Ok()
  }

  /** Cache-first consults the network exactly on a miss; a hit returns the snapshot whatever the network would say. */
  lemma CacheFirstHitSkipsNetwork(entries: map<Request, Response>, request: Request, answer: FetchResult)
    ensures var o := CacheFirstOutcome(entries, request, answer);
            (o.fetches == 0 <==> request in entries)
            && (request in entries ==> o == Outcome(Serve(entries[request]), entries, 0))
  {
  }

  /**
   * On a miss, cache-first returns exactly the network response, stores it only
   * when ok, and turns a network failure into the offline response.
   */
  lemma CacheFirstMissReturnsNetworkAnswer(entries: map<Request, Response>, request: Request, answer: FetchResult)
    requires request !in entries
    ensures var o := CacheFirstOutcome(entries, request, answer);
            (answer.Fetched? ==>
               o.reply == Serve(answer.response)
               && (request in o.entries <==> answer.response.Ok())
               && (answer.response.Ok() ==> o.entries == entries[request := answer.response])
               && (!answer.response.Ok() ==> o.entries == entries))
            && (answer.NetworkError? ==> o.reply == Offline && o.entries == entries)
  {
  }

  /**
   * Network-first serves a live answer whenever there is one, and an ok one
   * replaces whatever was cached; on failure the snapshot, else offline, cache untouched.
   */
  lemma NetworkFirstPrefersNetwork(entries: map<Request, Response>, request: Request, answer: FetchResult)
    ensures var o := NetworkFirstOutcome(entries, request, answer);
            o.fetches == 1
            && (answer.Fetched? ==>
                  o.reply == Serve(answer.response)
                  && (answer.response.Ok() ==> o.entries == entries[request := answer.response])
                  && (!answer.response.Ok() ==> o.entries == entries))
            && (answer.NetworkError? ==>
                  o.entries == entries
                  && o.reply == if request in entries then Serve(entries[request]) else Offline)
  {
  }

  /**
   * Stale-while-revalidate returns the snapshot on a hit whatever the network does,
   * and the caller never sees the refreshed copy; the next run does.
   */
  lemma StaleServesSnapshotAndRefreshesForNext(entries: map<Request, Response>, request: Request, response: Response, next: FetchResult)
    requires request in entries && response.Ok()
    ensures var o := StaleWhileRevalidateOutcome(entries, request, Fetched(response));
            o.reply == Serve(entries[request])
            && StaleWhileRevalidateOutcome(o.entries, request, next).reply == Serve(response)
  {
  }

  /**
   * On a hit, stale-while-revalidate returns the snapshot whatever the fetch
   * does (ok, not ok, or failed); the fetch still happens, and only an ok
   * answer replaces the snapshot.
   */
  lemma StaleHitServesSnapshotWhateverNetwork(entries: map<Request, Response>, request: Request, answer: FetchResult)
    requires request in entries
    ensures var o := StaleWhileRevalidateOutcome(entries, request, answer);
            o.reply == Serve(entries[request])
            && o.fetches == 1
            && (answer.Fetched? && answer.response.Ok() ==> o.entries == entries[request := answer.response])
            && (answer.NetworkError? || !answer.response.Ok() ==> o.entries == entries)
  {
  }

  /** On a miss with a failed fetch, stale-while-revalidate resolves to `undefined`, not to the offline response. */
  lemma StaleMissWithoutNetworkIsUndefined(entries: map<Request, Response>, request: Request)
    requires request !in entries
    ensures StaleWhileRevalidateOutcome(entries, request, NetworkError) == Outcome(Undefined, entries, 1)
    ensures CacheFirstOutcome(entries, request, NetworkError).reply == Offline
  {
  }

  /** Only the requested key can change, only by gaining the network response, and only when it is ok. */
  lemma OnlyTheRequestKeyChanges(strategy: Strategy, entries: map<Request, Response>, request: Request, answer: FetchResult)
    ensures var o := Run(strategy, entries, request, answer);
            o.entries == entries
            || (answer.Fetched? && answer.response.Ok() && o.entries == entries[request := answer.response])
  {
  }

  /** No strategy ever stores a non-ok response. */
  lemma OnlyOkResponsesAreStored(strategy: Strategy, entries: map<Request, Response>, request: Request, answer: FetchResult)
    requires AllOk(entries)
    ensures AllOk(Run(strategy, entries, request, answer).entries)
  {
    OnlyTheRequestKeyChanges(strategy, entries, request, answer);
  }

  /** The offline response comes only from cache-first or network-first, when neither cache nor network can answer. */
  lemma OfflineOnlyWhenNothingAnswers(strategy: Strategy, entries: map<Request, Response>, request: Request, answer: FetchResult)
    ensures Run(strategy, entries, request, answer).reply == Offline
            <==> strategy != StaleWhileRevalidate && request !in entries && answer.NetworkError?
  {
  }

  /**
   * `undefined` comes only from stale-while-revalidate on a miss with a failed
   * fetch; every other run hands the page a response object.
   */
  lemma UndefinedOnlyFromStaleMiss(strategy: Strategy, entries: map<Request, Response>, request: Request, answer: FetchResult)
    ensures Run(strategy, entries, request, answer).reply == Undefined
            <==> strategy == StaleWhileRevalidate && request !in entries && answer.NetworkError?
    ensures Run(strategy, entries, request, answer).reply.AsResponse().None?
            <==> strategy == StaleWhileRevalidate && request !in entries && answer.NetworkError?
  {
  }

  /** On a miss with a network response, all three strategies behave the same. */
  lemma StrategiesAgreeOnMiss(strategy: Strategy, entries: map<Request, Response>, request: Request, response: Response)
    requires request !in entries
    ensures Run(strategy, entries, request, Fetched(response))
            == Outcome(Serve(response), StoreIfOk(entries, request, response), 1)
  {
  }

  /** With the network down, cache-first and network-first give the same answer and leave the cache alone. */
  lemma OfflineFallbacksAgree(entries: map<Request, Response>, request: Request)
    ensures CacheFirstOutcome(entries, request, NetworkError).reply == NetworkFirstOutcome(entries, request, NetworkError).reply
    ensures CacheFirstOutcome(entries, request, NetworkError).entries == entries
    ensures NetworkFirstOutcome(entries, request, NetworkError).entries == entries
  {
  }

  /** After a cache-first miss that fetched an ok response, the next cache-first run is a hit with the same answer. */
  lemma CacheFirstRepeatIsAHit(entries: map<Request, Response>, request: Request, response: Response, next: FetchResult)
    requires response.Ok()
    ensures var first := CacheFirstOutcome(entries, request, Fetched(response));
            CacheFirstOutcome(first.entries, request, next) == Outcome(first.reply, first.entries, 0)
  {
  }

  /** One request handled by the engine: the strategy it was classified under and what the network answered. */
  datatype Visit = Visit(strategy: Strategy, request: Request, answer: FetchResult)

  /** The generation's entries after handling `visits` in order. */
  function Replay(entries: map<Request, Response>, visits: seq<Visit>): map<Request, Response>
    decreases |visits|
  {
    if visits == [] then entries
    else
      var v := visits[0];
      Replay(Run(v.strategy, entries, v.request, v.answer).entries, visits[1..])
  }

  /** However many requests are handled, a generation that held only ok responses still holds only ok responses. */
  lemma {:induction false} ReplayKeepsOnlyOk(entries: map<Request, Response>, visits: seq<Visit>)
    requires AllOk(entries)
    ensures AllOk(Replay(entries, visits))
    decreases |visits|
  {
    if visits != [] {
      var v := visits[0];
      OnlyOkResponsesAreStored(v.strategy, entries, v.request, v.answer);
      ReplayKeepsOnlyOk(Run(v.strategy, entries, v.request, v.answer).entries, visits[1..]);
    }
  }

  /** The executors never evict: every cached request stays cached across any sequence of requests. */
  lemma {:induction false} ReplayNeverEvicts(entries: map<Request, Response>, visits: seq<Visit>)
    ensures entries.Keys <= Replay(entries, visits).Keys
    decreases |visits|
  {
    if visits != [] {
      var v := visits[0];
      OnlyTheRequestKeyChanges(v.strategy, entries, v.request, v.answer);
      ReplayNeverEvicts(Run(v.strategy, entries, v.request, v.answer).entries, visits[1..]);
    }
  }
}
