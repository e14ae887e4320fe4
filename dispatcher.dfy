/**
 * The request dispatcher and the fetch listener in front of it: skip
 * browser-internal requests, classify the URL, open the dynamic generation and
 * run the executor the strategy label selects.
 */
module Dispatcher {
  import opened Http
  import opened Storage
  import opened Classifier
  import opened Executors

  /** The `switch (strategy)` of the dispatcher: two labels have their own executor, every other one goes to stale-while-revalidate. */
  function SelectStrategy(strategyLabel: string): Strategy {
    if strategyLabel == "cache-first" then CacheFirst
    else if strategyLabel == "network-first" then NetworkFirst
    else StaleWhileRevalidate
  }

  /** Every label the classifier produces reaches the executor of its own strategy. */
  lemma SelectStrategyInvertsLabel(s: Strategy)
    ensures SelectStrategy(Label(s)) == s
  {
  }

  /** The dispatcher's default branch and the classifier's default agree. */
  lemma UnknownLabelsGetTheClassifierDefault(strategyLabel: string)
    requires strategyLabel != Label(CacheFirst) && strategyLabel != Label(NetworkFirst)
    ensures SelectStrategy(strategyLabel) == DEFAULT_STRATEGY
  {
  }

  /** `handleRequest(request, strategy)`: the dynamic generation is opened (created if missing) and the selected executor runs on it. */
  method HandleRequest(storage: CacheStorage, request: Request, strategyLabel: string, network: Network) returns (r: Reply)
    requires storage.Valid()
    modifies storage, storage.generations.Values, network`calls
    ensures storage.Valid()
    ensures DYNAMIC_CACHE_NAME in storage.generations
    ensures storage.generations.Keys == old(storage.generations.Keys) + {DYNAMIC_CACHE_NAME}
    ensures forall n :: n in old(storage.generations) ==> storage.generations[n] == old(storage.generations[n])
    ensures storage.names == if DYNAMIC_CACHE_NAME in old(storage.generations) then old(storage.names)
                             else old(storage.names) + [DYNAMIC_CACHE_NAME]
    ensures forall n :: n != DYNAMIC_CACHE_NAME ==> storage.EntriesOf(n) == old(storage.EntriesOf(n))
    ensures var o := Run(SelectStrategy(strategyLabel), old(storage.EntriesOf(DYNAMIC_CACHE_NAME)), request, network.answer);
            r == o.reply
            && storage.EntriesOf(DYNAMIC_CACHE_NAME) == o.entries
            && network.calls == old(network.calls) + o.fetches
  {
    var cache := storage.Open(DYNAMIC_CACHE_NAME);
    if strategyLabel == "cache-first" {
      r := ServeCacheFirst(request, cache, network);
    } else if strategyLabel == "network-first" {
      r := ServeNetworkFirst(request, cache, network);
    } else {
      r := ServeStaleWhileRevalidate(request, cache, network);
    }
  }

  /** URL schemes whose requests the worker leaves to the browser. */
  predicate IsIgnoredProtocol(protocol: string) {
    protocol == "chrome-extension:" || protocol == "devtools:"
  }

  /**
   * The fetch listener. `protocol` is the scheme of the parsed request URL.
   * An ignored request gets no answer from the worker (`None`) and touches
   * nothing; any other is classified and handled.
   */
  method OnFetch(storage: CacheStorage, request: Request, protocol: string, network: Network) returns (r: Option<Reply>)
    requires storage.Valid()
    modifies storage, storage.generations.Values, network`calls
    ensures storage.Valid()
    ensures IsIgnoredProtocol(protocol) ==>
              r == None
              && storage.names == old(storage.names) && storage.generations == old(storage.generations)
              && (forall n :: storage.EntriesOf(n) == old(storage.EntriesOf(n)))
              && network.calls == old(network.calls)
    ensures !IsIgnoredProtocol(protocol) ==>
              var o := Run(GetCacheStrategy(request.url), old(storage.EntriesOf(DYNAMIC_CACHE_NAME)), request, network.answer);
              r == Some(o.reply)
              && storage.EntriesOf(DYNAMIC_CACHE_NAME) == o.entries
              && network.calls == old(network.calls) + o.fetches
    ensures !IsIgnoredProtocol(protocol) ==>
              storage.names == (if DYNAMIC_CACHE_NAME in old(storage.generations) then old(storage.names)
                                else old(storage.names) + [DYNAMIC_CACHE_NAME])
              && (forall n :: n != DYNAMIC_CACHE_NAME ==> storage.EntriesOf(n) == old(storage.EntriesOf(n)))
  {
    if IsIgnoredProtocol(protocol) {
      return None;
    }
    var strategy := GetCacheStrategy(request.url);
    SelectStrategyInvertsLabel(strategy);
    var reply := HandleRequest(storage, request, Label(strategy), network);
    r := Some(reply);
  }

  /**
   * End to end: a script under `/blog` that is already cached is answered from
   * the cache without touching the network, because the cache-first group
   * outranks the network-first `/blog` pattern.
   */
  lemma CachedBlogScriptNeedsNoNetwork(entries: map<Request, Response>, verb: string, answer: FetchResult)
    requires Request(verb, "/blog/app.js") in entries
    ensures var request := Request(verb, "/blog/app.js");
            Run(GetCacheStrategy(request.url), entries, request, answer)
            == Outcome(Serve(entries[request]), entries, 0)
  {
    BlogScriptIsCacheFirst();
  }
}
