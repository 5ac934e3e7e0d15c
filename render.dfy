/** `MapnikSource.prototype._renderMetatile` and `getImage` of lib/render.js
    over a source object whose counters and solid cache change in place and a
    pool of map objects that lends and takes back. The engine's work
    (acquiring, resizing, rendering, probing and encoding) arrives as input;
    the asynchronous callbacks are taken in one order of arrival. */
module Render {
  import opened Common
  import opened Metatile
  import opened Headers
  import opened SolidCache
  import opened Slicing

  /** The answers the engine gives for one tile: `isSolid`, `painted()` and `encode`. */
  datatype TileAnswers = TileAnswers(probe: Result<Probe, EngineError>, painted: bool, encode: Result<seq<bv8>, EngineError>)

  /** What the pool lends: a map object, or an `Error` its factory produced. */
  datatype Resource = MapObject | ErrorObject(error: EngineError)

  /** The outcome of `this._pool.acquire()`. */
  datatype Acquisition = Rejected(error: EngineError) | Lent(resource: Resource)

  /** The request fields `_renderMetatile` reads. */
  datatype Request = Request(format: string, z: nat, x: nat, y: nat, metatile: nat, tileSize: int)

  /** Everything the engine answers during one `_renderMetatile` call: the
      acquisition; an exception from `map.resize`/`map.extent`; an exception
      thrown synchronously by `map.render`; the error its callback reports;
      the answers for each tile; and the order in which the tiles' `getImage`
      callbacks arrive. */
  datatype EngineRun = EngineRun(acquisition: Acquisition, configure: Option<EngineError>,
                                 renderThrows: Option<EngineError>, rendered: Option<EngineError>,
                                 answers: seq<TileAnswers>, order: seq<nat>)

  /** What the caller and the pool observe, in order. */
  datatype Event = Acquired | Released | Called(delivery: Delivery)

  /** The run gives an answer for every tile and, for a metatile of several
      tiles, the callbacks arrive once per tile. A single tile (or an empty
      metatile) is encoded from the first answer. */
  predicate Fits(run: EngineRun, n: nat) {
    && |run.answers| == (if n <= 1 then 1 else n)
    && |run.order| == n
    && (forall k :: 0 <= k < |run.order| ==> run.order[k] < n)
    && (forall k, l :: 0 <= k < l < |run.order| ==> run.order[k] != run.order[l])
    && (forall i :: 0 <= i < n ==> Listed(run.order, i))
  }

  predicate Listed(order: seq<nat>, i: nat) {
    exists k :: 0 <= k < |order| && order[k] == i
  }

  /** The counters, cache and tile results after the first `k` arrivals, each
      arrival being one `getImage` step. */
  datatype Run = Run(stats: Stats, cache: map<string, Buffer>, arrivals: seq<Arrival>)

  function ImageRun(format: string, stats: Stats, cache: map<string, Buffer>,
                    answers: seq<TileAnswers>, order: seq<nat>, k: nat): (r: Run)
    requires k <= |order| && forall i :: 0 <= i < |order| ==> order[i] < |answers|
    ensures |r.arrivals| == k && forall i :: 0 <= i < k ==> r.arrivals[i].tile == order[i]
  {
    if k == 0 then Run(stats, cache, [])
    else
      var r := ImageRun(format, stats, cache, answers, order, k - 1);
      var a := answers[order[k - 1]];
      var st := ImageStep(format, r.stats, r.cache, a.probe, a.painted, a.encode);
      Run(st.stats, st.cache, r.arrivals + [Arrival(order[k - 1], st.result)])
  }

  /** A run of `getImage` steps keeps the counters in order and the cache consistent. */
  lemma {:induction false} ImageRunValid(format: string, stats: Stats, cache: map<string, Buffer>,
                                         answers: seq<TileAnswers>, order: seq<nat>, k: nat)
    requires k <= |order| && forall i :: 0 <= i < |order| ==> order[i] < |answers|
    requires CountersValid(stats) && Consistent(cache)
    ensures var r := ImageRun(format, stats, cache, answers, order, k);
            CountersValid(r.stats) && Consistent(r.cache) && r.stats.render == stats.render
  {
    if k > 0 {
      ImageRunValid(format, stats, cache, answers, order, k - 1);
      var r := ImageRun(format, stats, cache, answers, order, k - 1);
      var a := answers[order[k - 1]];
      ImageStepCounters(format, r.stats, r.cache, a.probe, a.painted, a.encode);
      ImageStepTags(format, r.stats, r.cache, a.probe, a.painted, a.encode);
    }
  }

  /** The map is lent and configured, so `_stats.render` goes up (line 207). */
  predicate Reached(run: EngineRun) {
    run.acquisition == Lent(MapObject) && run.configure.None?
  }

  /** The render call neither threw nor reported an error. */
  predicate RenderedOk(run: EngineRun) {
    Reached(run) && run.renderThrows.None? && run.rendered.None?
  }

  /** The tiles whose `getImage` runs: all of them in arrival order, or the one
      tile an unsliced metatile is encoded as. */
  function TileOrder(run: EngineRun, n: nat): seq<nat> {
    if n > 1 then run.order else [0]
  }

  /** The `getImage` steps of a rendered metatile. */
  function TileRun(format: string, meta: Metatile, run: EngineRun, stats: Stats, cache: map<string, Buffer>): (r: Run)
    requires Fits(run, |meta.tiles|)
    ensures |r.arrivals| == |TileOrder(run, |meta.tiles|)|
  {
    var order := TileOrder(run, |meta.tiles|);
    ImageRun(format, stats, cache, run.answers, order, |order|)
  }

  /** What the caller receives once the metatile is rendered. */
  function Deliveries(format: string, z: nat, meta: Metatile, headers: ContentType, r: Run): seq<Delivery>
    requires |meta.tiles| > 1 ==> InRange(|meta.tiles|, r.arrivals)
    requires |r.arrivals| >= 1
  {
    if |meta.tiles| > 1 then Delivered(format, meta.tiles, headers, r.arrivals, |r.arrivals|)
    else [EncodeSingleTile(format, z, meta.x, meta.y, headers, r.arrivals[0].result)]
  }

  /** What the caller receives once the metatile is rendered, with the slicing
      as written. */
  function DeliveriesAsWritten(format: string, z: nat, meta: Metatile, headers: ContentType, r: Run): seq<Delivery>
    requires |meta.tiles| > 1 ==> InRange(|meta.tiles|, r.arrivals)
    requires |r.arrivals| >= 1
  {
    if |meta.tiles| > 1 then DeliveredAsWritten(format, meta.tiles, headers, r.arrivals, |r.arrivals|)
    else [EncodeSingleTile(format, z, meta.x, meta.y, headers, r.arrivals[0].result)]
  }

  /** The callbacks of the render path as written (lines 193-228), followed by
      `rest`, what slicing or single-tile encoding delivers. A failed acquire
      only reaches `.catch`; an `Error` from the pool is released; a throw from
      `resize` or `extent`, outside the `try`, reaches `.catch` without a release. */
  function RenderEventsAsWritten(run: EngineRun, rest: seq<Delivery>): seq<Event> {
    match run.acquisition
    case Rejected(e) => [Called(Failure(e))]
    case Lent(ErrorObject(e)) => [Acquired, Released, Called(Failure(e))]
    case Lent(MapObject) =>
      if run.configure.Some? then [Acquired, Called(Failure(run.configure.value))]
      else if run.renderThrows.Some? then [Acquired, Released, Called(Failure(run.renderThrows.value))]
      else if run.rendered.Some? then [Acquired, Released, Called(Failure(run.rendered.value))]
      else [Acquired, Released] + Calls(rest)
  }

  /** The render path with `resize` and `extent` inside the `try`: their
      exception releases the map like any other. */
  function RenderEvents(run: EngineRun, rest: seq<Delivery>): seq<Event> {
    match run.acquisition
    case Rejected(e) => [Called(Failure(e))]
    case Lent(ErrorObject(e)) => [Acquired, Released, Called(Failure(e))]
    case Lent(MapObject) =>
      if run.configure.Some? then [Acquired, Released, Called(Failure(run.configure.value))]
      else if run.renderThrows.Some? then [Acquired, Released, Called(Failure(run.renderThrows.value))]
      else if run.rendered.Some? then [Acquired, Released, Called(Failure(run.rendered.value))]
      else [Acquired, Released] + Calls(rest)
  }

  function Calls(ds: seq<Delivery>): (es: seq<Event>)
    ensures |es| == |ds| && forall i :: 0 <= i < |ds| ==> es[i] == Called(ds[i])
  {
    seq(|ds|, i requires 0 <= i < |ds| => Called(ds[i]))
  }

  /** The number of times `e` occurs in `es`. */
  function Count(es: seq<Event>, e: Event): nat {
    multiset(es)[e]
  }

  /** As written, every path gives back what it acquired except a throw from
      `resize` or `extent`, which keeps the map lent for good. */
  lemma ReleasesAsWritten(run: EngineRun, rest: seq<Delivery>)
    ensures var es := RenderEventsAsWritten(run, rest);
            Count(es, Released) == Count(es, Acquired) <==> !(run.acquisition == Lent(MapObject) && run.configure.Some?)
  {
    assert Acquired !in Calls(rest) && Released !in Calls(rest);
  }

  /** A concrete leak: the map is acquired, `resize` throws, the caller hears
      the error and the map is never released. */
  lemma ResizeThrowLeaks(e: EngineError, rest: seq<Delivery>)
    ensures RenderEventsAsWritten(EngineRun(Lent(MapObject), Some(e), None, None, [], []), rest)
              == [Acquired, Called(Failure(e))]
  {
  }

  /** With the scoped release, every acquired resource is released exactly
      once, before the caller is called, and nothing is released that was not
      acquired. */
  lemma ReleasesBalanced(run: EngineRun, rest: seq<Delivery>)
    ensures var es := RenderEvents(run, rest);
            && Count(es, Released) == Count(es, Acquired)
            && Count(es, Acquired) == (if run.acquisition.Lent? then 1 else 0)
            && (run.acquisition.Lent? ==> es[0] == Acquired && es[1] == Released)
            && (run.acquisition.Rejected? ==> es == [Called(Failure(run.acquisition.error))])
  {
    assert Acquired !in Calls(rest) && Released !in Calls(rest);
  }

  /** The fix changes only the `resize`/`extent` path. */
  lemma ScopedAgreesElsewhere(run: EngineRun, rest: seq<Delivery>)
    ensures RenderEvents(run, rest) == RenderEventsAsWritten(run, rest) <==>
              !(run.acquisition == Lent(MapObject) && run.configure.Some?)
  {
    if run.acquisition == Lent(MapObject) && run.configure.Some? {
      assert RenderEvents(run, rest)[1] == Released;
    }
  }

  /** A pool of map objects; only the number lent out is modelled. */
  class Pool {
    var lent: nat

    constructor()
      ensures lent == 0
    {
      lent := 0;
    }

    method Acquire()
      modifies this
      ensures lent == old(lent) + 1
    {
      lent := lent + 1;
    }

    method Release()
      requires lent > 0
      modifies this
      ensures lent == old(lent) - 1
    {
      lent := lent - 1;
    }
  }

  /** The parts of a `MapnikSource` the render path updates: `_stats` and
      `solidCache`, and the pool it draws maps from. */
  class Source {
    var stats: Stats
    var solidCache: map<string, Buffer>
    const pool: Pool

    predicate Valid()
      reads this
    {
      CountersValid(stats) && Consistent(solidCache)
    }

    constructor(pool: Pool)
      ensures Valid() && stats == Stats(0, 0, 0, 0, 0) && solidCache == map[] && this.pool == pool
    {
      stats := Stats(0, 0, 0, 0, 0);
      solidCache := map[];
      this.pool := pool;
    }

    /** `getImage` (lines 102-155) for one tile of the rendered image. */
    method GetImage(format: string, answers: TileAnswers) returns (result: Result<Buffer, EngineError>)
      requires Valid()
      modifies this
      ensures Valid()
      ensures Step(stats, solidCache, result) == ImageStep(format, old(stats), old(solidCache), answers.probe, answers.painted, answers.encode)
    {
      ImageStepCounters(format, stats, solidCache, answers.probe, answers.painted, answers.encode);
      ImageStepTags(format, stats, solidCache, answers.probe, answers.painted, answers.encode);
      if answers.probe.Failure? {
        return Failure(answers.probe.error);
      }
      var p := answers.probe.value;
      var pixelKey := PixelKey(format, p);
      stats := stats.(total := stats.total + 1);
      if p.solid {
        stats := stats.(solid := stats.solid + 1);
      }
      if p.solid && answers.painted {
        stats := stats.(solidPainted := stats.solidPainted + 1);
      }
      if p.solid && pixelKey in solidCache {
        return Success(solidCache[pixelKey]);
      }
      stats := stats.(encoded := stats.encoded + 1);
      match answers.encode {
        case Failure(e) =>
          result := Failure(e);
        case Success(bytes) =>
          var buffer := Buffer(bytes, None);
          if p.solid {
            buffer := buffer.(solid := Some(pixelKey));
            if format != "utf" {
              solidCache := solidCache[pixelKey := buffer];
            }
          }
          result := Success(buffer);
      }
    }

    /** The `getImage` calls of `sliceMetatile` (line 64), in their order of
        arrival: each tile's result, with the counters and cache it leaves. */
    method RunTiles(format: string, answers: seq<TileAnswers>, order: seq<nat>)
      returns (arrivals: seq<Arrival>)
      requires Valid()
      requires forall i :: 0 <= i < |order| ==> order[i] < |answers|
      modifies this
      ensures Valid()
      ensures var r := ImageRun(format, old(stats), old(solidCache), answers, order, |order|);
              stats == r.stats && solidCache == r.cache && arrivals == r.arrivals
    {
      arrivals := [];
      var k := 0;
      while k < |order|
        invariant k <= |order| && Valid()
        invariant var r := ImageRun(format, old(stats), old(solidCache), answers, order, k);
                  stats == r.stats && solidCache == r.cache && arrivals == r.arrivals
      {
        var result := GetImage(format, answers[order[k]]);
        arrivals := arrivals + [Arrival(order[k], result)];
        k := k + 1;
      }
    }

    /** The `getImage` calls of `sliceMetatile`, then the corrected slicing of
        their results. */
    method SliceTiles(format: string, tiles: seq<Tile>, headers: ContentType, answers: seq<TileAnswers>, order: seq<nat>)
      returns (delivered: seq<Delivery>)
      requires Valid()
      requires forall i :: 0 <= i < |order| ==> order[i] < |answers| && order[i] < |tiles|
      modifies this
      ensures Valid()
      ensures var r := ImageRun(format, old(stats), old(solidCache), answers, order, |order|);
              && stats == r.stats && solidCache == r.cache
              && delivered == Delivered(format, tiles, headers, r.arrivals, |order|)
    {
      var arrivals := RunTiles(format, answers, order);
      delivered := SliceMetatile(format, tiles, headers, arrivals);
    }

    /** The `getImage` calls of `sliceMetatile`, then the slicing of their
        results as written: every error reported, a partial map after one. */
    method SliceTilesAsWritten(format: string, tiles: seq<Tile>, headers: ContentType, answers: seq<TileAnswers>, order: seq<nat>)
      returns (delivered: seq<Delivery>)
      requires Valid()
      requires forall i :: 0 <= i < |order| ==> order[i] < |answers| && order[i] < |tiles|
      modifies this
      ensures Valid()
      ensures var r := ImageRun(format, old(stats), old(solidCache), answers, order, |order|);
              && stats == r.stats && solidCache == r.cache
              && delivered == DeliveredAsWritten(format, tiles, headers, r.arrivals, |order|)
    {
      var arrivals := RunTiles(format, answers, order);
      delivered := SliceMetatileAsWritten(format, tiles, headers, arrivals);
    }

    /** Lines 215-221: a rendered metatile of several tiles is sliced, a
        single tile encoded on its own. */
    method EncodeTiles(format: string, z: nat, meta: Metatile, headers: ContentType, run: EngineRun)
      returns (delivered: seq<Delivery>)
      requires Valid() && Fits(run, |meta.tiles|)
      modifies this
      ensures Valid()
      ensures var r := TileRun(format, meta, run, old(stats), old(solidCache));
              && stats == r.stats && solidCache == r.cache
              && delivered == Deliveries(format, z, meta, headers, r)
    {
      if |meta.tiles| > 1 {
        delivered := SliceTiles(format, meta.tiles, headers, run.answers, run.order);
      } else {
        assert TileOrder(run, |meta.tiles|) == [0];
        assert ImageRun(format, stats, solidCache, run.answers, [0], 0).arrivals == [];
        var result := GetImage(format, run.answers[0]);
        delivered := [EncodeSingleTile(format, z, meta.x, meta.y, headers, result)];
      }
    }

    /** `_renderMetatile` (lines 158-235) with the first-error slicing and the
        scoped release. It returns the keys of the metatile's tiles. */
    method RenderMetatile(req: Request, run: EngineRun) returns (keys: seq<string>, events: seq<Event>)
      requires Valid() && req.metatile >= 1
      requires Fits(run, |MetatileOf(req.z, req.x, req.y, req.metatile, req.tileSize).tiles|)
      modifies this, pool
      ensures Valid()
      ensures keys == TileKeys(req.format, MetatileOf(req.z, req.x, req.y, req.metatile, req.tileSize).tiles)
      ensures pool.lent == old(pool.lent)
      ensures var meta := MetatileOf(req.z, req.x, req.y, req.metatile, req.tileSize);
              var counted := old(stats).(render := old(stats).render + (if Reached(run) then 1 else 0));
              var r := TileRun(req.format, meta, run, counted, old(solidCache));
              && events == RenderEvents(run, Deliveries(req.format, req.z, meta, ContentTypeFor(req.format), r))
              && (RenderedOk(run) ==> stats == r.stats && solidCache == r.cache)
              && (!RenderedOk(run) ==> stats == counted && solidCache == old(solidCache))
    {
      var meta := CalculateMetatile(req.z, req.x, req.y, req.metatile, req.tileSize);
      var headers := ContentTypeFor(req.format);
      keys := TileKeys(req.format, meta.tiles);
      match run.acquisition {
        case Rejected(e) =>
          events := [Called(Failure(e))];
        case Lent(resource) =>
          pool.Acquire();
          events := [Acquired];
          if resource.ErrorObject? {
            pool.Release();
            events := events + [Released, Called(Failure(resource.error))];
          } else if run.configure.Some? {
            pool.Release();
            events := events + [Released, Called(Failure(run.configure.value))];
          } else {
            stats := stats.(render := stats.render + 1);
            pool.Release();
            events := events + [Released];
            if run.renderThrows.Some? {
              events := events + [Called(Failure(run.renderThrows.value))];
            } else if run.rendered.Some? {
              events := events + [Called(Failure(run.rendered.value))];
            } else {
              var delivered := EncodeTiles(req.format, req.z, meta, headers, run);
              events := events + Calls(delivered);
            }
          }
      }
    }

    /** Lines 215-221 with the slicing as written. */
    method EncodeTilesAsWritten(format: string, z: nat, meta: Metatile, headers: ContentType, run: EngineRun)
      returns (delivered: seq<Delivery>)
      requires Valid() && Fits(run, |meta.tiles|)
      modifies this
      ensures Valid()
      ensures var r := TileRun(format, meta, run, old(stats), old(solidCache));
              && stats == r.stats && solidCache == r.cache
              && delivered == DeliveriesAsWritten(format, z, meta, headers, r)
    {
      if |meta.tiles| > 1 {
        delivered := SliceTilesAsWritten(format, meta.tiles, headers, run.answers, run.order);
      } else {
        assert TileOrder(run, |meta.tiles|) == [0];
        assert ImageRun(format, stats, solidCache, run.answers, [0], 0).arrivals == [];
        var result := GetImage(format, run.answers[0]);
        delivered := [EncodeSingleTile(format, z, meta.x, meta.y, headers, result)];
      }
    }

    /** `_renderMetatile` (lines 158-235) as written: `resize` and `extent` run
        outside the `try`, so their exception reaches the `.catch` of line 228
        with the map still lent, and the slicing reports every error. */
    method RenderMetatileAsWritten(req: Request, run: EngineRun) returns (keys: seq<string>, events: seq<Event>)
      requires Valid() && req.metatile >= 1
      requires Fits(run, |MetatileOf(req.z, req.x, req.y, req.metatile, req.tileSize).tiles|)
      modifies this, pool
      ensures Valid()
      ensures keys == TileKeys(req.format, MetatileOf(req.z, req.x, req.y, req.metatile, req.tileSize).tiles)
      ensures pool.lent == old(pool.lent) + (if run.acquisition == Lent(MapObject) && run.configure.Some? then 1 else 0)
      ensures var meta := MetatileOf(req.z, req.x, req.y, req.metatile, req.tileSize);
              var counted := old(stats).(render := old(stats).render + (if Reached(run) then 1 else 0));
              var r := TileRun(req.format, meta, run, counted, old(solidCache));
              && events == RenderEventsAsWritten(run, DeliveriesAsWritten(req.format, req.z, meta, ContentTypeFor(req.format), r))
              && (RenderedOk(run) ==> stats == r.stats && solidCache == r.cache)
              && (!RenderedOk(run) ==> stats == counted && solidCache == old(solidCache))
    {
      var meta := CalculateMetatile(req.z, req.x, req.y, req.metatile, req.tileSize);
      var headers := ContentTypeFor(req.format);
      keys := TileKeys(req.format, meta.tiles);
      match run.acquisition {
        case Rejected(e) =>
          events := [Called(Failure(e))];
        case Lent(resource) =>
          pool.Acquire();
          events := [Acquired];
          if resource.ErrorObject? {
            pool.Release();
            events := events + [Released, Called(Failure(resource.error))];
          } else if run.configure.Some? {
            events := events + [Called(Failure(run.configure.value))];
          } else {
            stats := stats.(render := stats.render + 1);
            pool.Release();
            events := events + [Released];
            if run.renderThrows.Some? {
              events := events + [Called(Failure(run.renderThrows.value))];
            } else if run.rendered.Some? {
              events := events + [Called(Failure(run.rendered.value))];
            } else {
              var delivered := EncodeTilesAsWritten(req.format, req.z, meta, headers, run);
              events := events + Calls(delivered);
            }
          }
      }
    }
  }

  /** The key `encodeSingleTile` stores a one-tile metatile under is the one
      key `_renderMetatile` returns for it. */
  lemma SingleTileKey(req: Request)
    requires req.metatile >= 1 && |MetatileOf(req.z, req.x, req.y, req.metatile, req.tileSize).tiles| == 1
    ensures var meta := MetatileOf(req.z, req.x, req.y, req.metatile, req.tileSize);
            TileKeys(req.format, meta.tiles) == [TileKey(req.format, Tile(req.z, meta.x, meta.y))]
  {
    var meta := MetatileOf(req.z, req.x, req.y, req.metatile, req.tileSize);
    MetatileLayout(req.z, req.x, req.y, req.metatile, req.tileSize);
    var w := Span(req.metatile, Pow2(req.z), meta.x);
    var h := Span(req.metatile, Pow2(req.z), meta.y);
    assert Clamp(w) * Clamp(h) == 1;
    OneByOne(Clamp(w), Clamp(h));
    assert meta.tiles[Offset(0, 0, Clamp(h))] == Tile(req.z, meta.x, meta.y);
  }

  lemma OneByOne(w: nat, h: nat)
    requires w * h == 1
    ensures w == 1 && h == 1
  {
    if w > 1 {
      MulMonotone(2, w, h);
    }
  }
}
