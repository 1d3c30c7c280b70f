/**
 * The single-transaction lookup `GET /transactions/:id`: a cache check in front
 * of the router (app.js) and the router's own cache-aside read of the record
 * store (routes/transactions.js). The Redis cache and the MongoDB store are
 * two maps; a read of either may throw, which is a reachability flag.
 */
module CacheAside {
  import opened Wrappers
  import opened TransactionModel

  /** The store's own identity of a record (what `findById` looks up), not its `transaction_id`. */
  type Id = string

  /** What `JSON.stringify` of a record and `JSON.parse` back give to the client. */
  datatype Snapshot = Snapshot(record: Transaction)

  function Serialize(t: Transaction): Snapshot { Snapshot(t) }

  /** Expiry in seconds passed with every cache write (`'EX', 3600`). */
  const TtlSeconds: nat := 3600

  datatype CacheEntry = CacheEntry(value: Snapshot, ttlSeconds: nat)

  const KeyPrefix: string := "transaction:"

  /** The cache key, `transaction:${id}`, built the same way by both readers and the writer. */
  function CacheKey(id: Id): string { KeyPrefix + id }

  /** Distinct ids never share a cache entry. */
  lemma CacheKeyInjective(a: Id, b: Id)
    requires CacheKey(a) == CacheKey(b)
    ensures a == b
  {
    assert a == CacheKey(a)[|KeyPrefix|..];
    assert b == CacheKey(b)[|KeyPrefix|..];
  }

  const NotFoundMessage: string := "Transaction non trouvée"
  const InternalErrorMessage: string := "Erreur interne du serveur"

  datatype Body = Document(snapshot: Snapshot) | Message(text: string)

  datatype Response = Response(status: nat, body: Body)

  /** What the router's lookup found. */
  datatype Outcome = Hit(cached: Snapshot) | Found(record: Transaction) | NotFound | Failed

  /** What the middleware does: answer the request, or hand it on with `next()`. */
  datatype Step = Respond(response: Response) | Next

  /** The router's response for each outcome. */
  function Render(outcome: Outcome): (r: Response)
    ensures r.status == 200 <==> outcome.Hit? || outcome.Found?
    ensures r.status == 200 ==> r.body.Document?
    ensures outcome.Found? ==> r.body == Document(Serialize(outcome.record))
    ensures outcome.Hit? ==> r.body == Document(outcome.cached)
    ensures outcome.NotFound? ==> r == Response(404, Message(NotFoundMessage))
    ensures outcome.Failed? ==> r == Response(500, Message(InternalErrorMessage))
  {
    match outcome
    case Hit(s) => Response(200, Document(s))
    case Found(t) => Response(200, Document(Serialize(t)))
    case NotFound => Response(404, Message(NotFoundMessage))
    case Failed => Response(500, Message(InternalErrorMessage))
  }

  class TransactionLookup {
    var cache: map<string, CacheEntry>
    var store: map<Id, Transaction>
    /** Whether a cache read succeeds; when false, `redisClient.get` rejects. */
    var cacheReachable: bool
    /** Whether a store read succeeds; when false, `findById` rejects. */
    var storeReachable: bool
    /** How many times the store has been read. */
    ghost var storeReads: nat

    constructor(cache: map<string, CacheEntry>, store: map<Id, Transaction>, cacheReachable: bool, storeReachable: bool)
      ensures this.cache == cache && this.store == store
      ensures this.cacheReachable == cacheReachable && this.storeReachable == storeReachable
      ensures storeReads == 0
    {
      this.cache := cache;
      this.store := store;
      this.cacheReachable := cacheReachable;
      this.storeReachable := storeReachable;
      storeReads := 0;
    }

    /**
     * The middleware: a cached record is answered straight away and the router
     * never runs; a miss hands on to the router and answers nothing; a failed
     * cache read is a 500 and does not hand on either.
     */
    method CheckCache(id: Id) returns (step: Step)
      ensures !cacheReachable ==> step == Respond(Response(500, Message(InternalErrorMessage)))
      ensures cacheReachable && CacheKey(id) in cache ==>
                step == Respond(Response(200, Document(cache[CacheKey(id)].value)))
      ensures cacheReachable && CacheKey(id) !in cache ==> step == Next
    {
      if !cacheReachable {
        return Respond(Response(500, Message(InternalErrorMessage)));
      }
      var key := CacheKey(id);
      if key in cache {
        step := Respond(Response(200, Document(cache[key].value)));
      } else {
        step := Next;
      }
    }

    /**
     * The router: a cached record is returned without reading the store; on a
     * miss the store is read once, an absent record leaves the cache as it was,
     * and a present one is written back under its key with the one-hour expiry,
     * leaving every other key alone. The write is not awaited, and is modelled
     * as always landing.
     */
    method Lookup(id: Id) returns (outcome: Outcome)
      modifies this`cache, this`storeReads
      ensures !cacheReachable ==> outcome == Failed && cache == old(cache) && storeReads == old(storeReads)
      ensures cacheReachable && CacheKey(id) in old(cache) ==>
                outcome == Hit(old(cache)[CacheKey(id)].value) && cache == old(cache) && storeReads == old(storeReads)
      ensures cacheReachable && CacheKey(id) !in old(cache) ==> storeReads == old(storeReads) + 1
      ensures cacheReachable && CacheKey(id) !in old(cache) && !storeReachable ==>
                outcome == Failed && cache == old(cache)
      ensures cacheReachable && CacheKey(id) !in old(cache) && storeReachable && id !in store ==>
                outcome == NotFound && cache == old(cache)
      ensures cacheReachable && CacheKey(id) !in old(cache) && storeReachable && id in store ==>
                outcome == Found(store[id]) &&
                cache == old(cache)[CacheKey(id) := CacheEntry(Serialize(store[id]), TtlSeconds)]
    {
      if !cacheReachable {
        return Failed;
      }
      var key := CacheKey(id);
      if key in cache {
        return Hit(cache[key].value);
      }
      storeReads := storeReads + 1;
      if !storeReachable {
        return Failed;
      }
      if id !in store {
        return NotFound;
      }
      var t := store[id];
      cache := cache[key := CacheEntry(Serialize(t), TtlSeconds)];
      outcome := Found(t);
    }

    /**
     * One request through the middleware and then, on `next()`, the router.
     * Writes made by other requests between the two cache reads are
     * `concurrentWrites`. The router reports a hit only when such a write put
     * the key there: a hit already present is answered by the middleware.
     */
    method HandleRequest(id: Id, concurrentWrites: map<string, CacheEntry>) returns (response: Response, routed: Option<Outcome>)
      modifies this`cache, this`storeReads
      ensures !old(cacheReachable) ==> response == Response(500, Message(InternalErrorMessage)) && routed == None
      ensures old(cacheReachable) && CacheKey(id) in old(cache) ==>
                response == Response(200, Document(old(cache)[CacheKey(id)].value)) && routed == None &&
                cache == old(cache) && storeReads == old(storeReads)
      ensures routed.Some? ==> response == Render(routed.value)
      ensures routed.Some? && routed.value.Hit? ==> CacheKey(id) in concurrentWrites
      ensures old(cacheReachable) && CacheKey(id) !in old(cache) ==> routed.Some?
      ensures routed.None? ==> cache == old(cache) && storeReads == old(storeReads)
      ensures old(cacheReachable) && CacheKey(id) !in old(cache) && CacheKey(id) in old(cache) + concurrentWrites ==>
                routed == Some(Hit((old(cache) + concurrentWrites)[CacheKey(id)].value)) &&
                cache == old(cache) + concurrentWrites && storeReads == old(storeReads)
      ensures old(cacheReachable) && CacheKey(id) !in old(cache) + concurrentWrites ==>
                storeReads == old(storeReads) + 1
      ensures old(cacheReachable) && CacheKey(id) !in old(cache) + concurrentWrites && !storeReachable ==>
                routed == Some(Failed) && cache == old(cache) + concurrentWrites
      ensures old(cacheReachable) && CacheKey(id) !in old(cache) + concurrentWrites && storeReachable && id !in store ==>
                routed == Some(NotFound) && cache == old(cache) + concurrentWrites
      ensures old(cacheReachable) && CacheKey(id) !in old(cache) + concurrentWrites && storeReachable && id in store ==>
                routed == Some(Found(store[id])) &&
                cache == (old(cache) + concurrentWrites)[CacheKey(id) := CacheEntry(Serialize(store[id]), TtlSeconds)]
    {
      var step := CheckCache(id);
      if step.Respond? {
        return step.response, None;
      }
      cache := cache + concurrentWrites;
      var outcome := Lookup(id);
      response := Render(outcome);
      routed := Some(outcome);
    }
  }

  /**
   * Looking the same record up twice, with nothing in between, gives the same
   * response both times: the cache holds exactly what the store returned, and
   * a record found on the first read is not read from the store again.
   */
  method LookupTwice(l: TransactionLookup, id: Id) returns (first: Response, second: Response)
    requires l.cacheReachable && l.storeReachable
    modifies l`cache, l`storeReads
    ensures first == second
    ensures id in l.store || CacheKey(id) in old(l.cache) ==> l.storeReads <= old(l.storeReads) + 1
    ensures id in l.store && CacheKey(id) !in old(l.cache) ==>
              first == Response(200, Document(Serialize(l.store[id])))
  {
    var o1 := l.Lookup(id);
    first := Render(o1);
    var o2 := l.Lookup(id);
    second := Render(o2);
  }
}
