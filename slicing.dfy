/** How `_renderMetatile` hands the encoded tiles to its caller
    (lib/render.js:49-100): `sliceMetatile` cuts a rendered metatile into its
    tiles and gathers them in a map from tile key to tile, `encodeSingleTile`
    does the same for a metatile of one tile. Each tile's `getImage` result is
    delivered asynchronously; the model takes the results in their order of
    arrival. */
module Slicing {
  import opened Common
  import opened Metatile
  import opened Headers
  import opened SolidCache

  /** The value stored for a tile: its image and its headers. The timing
      statistics attached to it are not part of this model. */
  datatype TileEntry = TileEntry(image: Buffer, headers: ContentType)

  /** One invocation of the caller's callback: an error, or the map of tiles. */
  type Delivery = Result<map<string, TileEntry>, EngineError>

  /** The `getImage` callback for the tile at index `tile` of the metatile. */
  datatype Arrival = Arrival(tile: nat, result: Result<Buffer, EngineError>)

  /** Every tile of an n-tile metatile reports exactly once. */
  predicate Arrivals(n: nat, arrivals: seq<Arrival>) {
    && |arrivals| == n
    && (forall k :: 0 <= k < |arrivals| ==> arrivals[k].tile < n)
    && (forall k, l :: 0 <= k < l < |arrivals| ==> arrivals[k].tile != arrivals[l].tile)
    && (forall i :: 0 <= i < n ==> Reported(arrivals, i))
  }

  /** Some arrival is the report of tile `i`. */
  predicate Reported(arrivals: seq<Arrival>, i: nat) {
    exists k :: 0 <= k < |arrivals| && arrivals[k].tile == i
  }

  /** Tile indices in range. */
  predicate InRange(n: nat, arrivals: seq<Arrival>) {
    forall k :: 0 <= k < |arrivals| ==> arrivals[k].tile < n
  }

  /** The map of the successful tiles among the first `k` arrivals (line 79). */
  function Collected(format: string, tiles: seq<Tile>, headers: ContentType, arrivals: seq<Arrival>, k: nat): map<string, TileEntry>
    requires k <= |arrivals| && InRange(|tiles|, arrivals)
  {
    if k == 0 then map[]
    else
      var m := Collected(format, tiles, headers, arrivals, k - 1);
      var a := arrivals[k - 1];
      if a.result.Success? then m[TileKey(format, tiles[a.tile]) := TileEntry(a.result.value, headers)]
      else m
  }

  /** Lines 50-85 as written: the callbacks made once the first `k` results
      have arrived. An empty metatile is answered at once with `{}`; every
      failed result is reported, since `err_num` stays 0 (lines 56 and 67); and
      the map of successes so far goes out when the result that arrives last
      succeeds, because `tile_num` counts failures too (lines 65 and 80). */
  function DeliveredAsWritten(format: string, tiles: seq<Tile>, headers: ContentType, arrivals: seq<Arrival>, k: nat): seq<Delivery>
    requires k <= |arrivals| && InRange(|tiles|, arrivals)
  {
    if k == 0 then (if |tiles| == 0 then [Success(map[])] else [])
    else
      var d := DeliveredAsWritten(format, tiles, headers, arrivals, k - 1);
      var a := arrivals[k - 1];
      if a.result.Failure? then d + [Failure(a.result.error)]
      else if k == |tiles| then d + [Success(Collected(format, tiles, headers, arrivals, k))]
      else d
  }

  /** `sliceMetatile` as written, with its `tile_num` counter and `tiles` map. */
  method SliceMetatileAsWritten(format: string, tiles: seq<Tile>, headers: ContentType, arrivals: seq<Arrival>)
    returns (delivered: seq<Delivery>)
    requires InRange(|tiles|, arrivals)
    ensures delivered == DeliveredAsWritten(format, tiles, headers, arrivals, |arrivals|)
  {
    var tilesLength := |tiles|;
    delivered := [];
    if tilesLength == 0 {
      delivered := delivered + [Success(map[])];
    }
    var collected: map<string, TileEntry> := map[];
    var tileNum := 0;
    var k := 0;
    while k < |arrivals|
      invariant k <= |arrivals| && tileNum == k
      invariant collected == Collected(format, tiles, headers, arrivals, k)
      invariant delivered == DeliveredAsWritten(format, tiles, headers, arrivals, k)
    {
      var a := arrivals[k];
      tileNum := tileNum + 1;
      if a.result.Failure? {
        delivered := delivered + [Failure(a.result.error)];
      } else {
        collected := collected[TileKey(format, tiles[a.tile]) := TileEntry(a.result.value, headers)];
        if tileNum == tilesLength {
          delivered := delivered + [Success(collected)];
        }
      }
      k := k + 1;
    }
  }

  /** The number of failed results among the first `k`. */
  function Failures(arrivals: seq<Arrival>, k: nat): nat
    requires k <= |arrivals|
  {
    if k == 0 then 0 else Failures(arrivals, k - 1) + (if arrivals[k - 1].result.Failure? then 1 else 0)
  }

  function ErrorCount(ds: seq<Delivery>): nat {
    if ds == [] then 0 else ErrorCount(ds[..|ds| - 1]) + (if ds[|ds| - 1].Failure? then 1 else 0)
  }

  lemma ErrorCountAppend(ds: seq<Delivery>, d: Delivery)
    ensures ErrorCount(ds + [d]) == ErrorCount(ds) + (if d.Failure? then 1 else 0)
  {
    assert (ds + [d])[..|ds|] == ds;
  }

  /** As written, the caller hears of every failed tile, and gets a map as
      well exactly when the last result to arrive is a success; for a
      non-empty metatile that is `1 + failures` callbacks or `failures`. */
  lemma {:induction false} AsWrittenCallbacks(format: string, tiles: seq<Tile>, headers: ContentType, arrivals: seq<Arrival>, k: nat)
    requires |tiles| > 0 && k <= |arrivals| && |arrivals| == |tiles| && InRange(|tiles|, arrivals)
    ensures var d := DeliveredAsWritten(format, tiles, headers, arrivals, k);
            && ErrorCount(d) == Failures(arrivals, k)
            && |d| == Failures(arrivals, k) + (if k == |tiles| && arrivals[k - 1].result.Success? then 1 else 0)
  {
    if k > 0 {
      AsWrittenCallbacks(format, tiles, headers, arrivals, k - 1);
      var d := DeliveredAsWritten(format, tiles, headers, arrivals, k - 1);
      var a := arrivals[k - 1];
      if a.result.Failure? {
        ErrorCountAppend(d, Failure(a.result.error));
      } else if k == |tiles| {
        ErrorCountAppend(d, Success(Collected(format, tiles, headers, arrivals, k)));
      }
    }
  }

  /** With two tiles whose first result fails and second succeeds, the caller
      is called twice: with the error, then with a map that lacks the failed
      tile. */
  lemma AsWrittenPartialMap(format: string, t0: Tile, t1: Tile, headers: ContentType, e: EngineError, b: Buffer)
    ensures DeliveredAsWritten(format, [t0, t1], headers, [Arrival(0, Failure(e)), Arrival(1, Success(b))], 2)
              == [Failure(e), Success(map[TileKey(format, t1) := TileEntry(b, headers)])]
  {
    var arrivals := [Arrival(0, Failure(e)), Arrival(1, Success(b))];
    assert Collected(format, [t0, t1], headers, arrivals, 1) == map[];
    assert DeliveredAsWritten(format, [t0, t1], headers, arrivals, 1) == [Failure(e)];
  }

  /** With two tiles that both fail, the caller is called twice with errors. */
  lemma AsWrittenTwoErrors(format: string, t0: Tile, t1: Tile, headers: ContentType, e0: EngineError, e1: EngineError)
    ensures DeliveredAsWritten(format, [t0, t1], headers, [Arrival(0, Failure(e0)), Arrival(1, Failure(e1))], 2)
              == [Failure(e0), Failure(e1)]
  {
    var arrivals := [Arrival(0, Failure(e0)), Arrival(1, Failure(e1))];
    assert DeliveredAsWritten(format, [t0, t1], headers, arrivals, 1) == [Failure(e0)];
  }

  /** The first failed result among the first `k`, if any. */
  function FirstFailure(arrivals: seq<Arrival>, k: nat): (f: Option<EngineError>)
    requires k <= |arrivals|
    ensures f.None? <==> Failures(arrivals, k) == 0
  {
    if k == 0 then None
    else
      var f := FirstFailure(arrivals, k - 1);
      if f.None? && arrivals[k - 1].result.Failure? then Some(arrivals[k - 1].result.error) else f
  }

  /** The first failure is an arrival that failed with that error after only
      successes. */
  lemma {:induction false} FirstFailureIsFirst(arrivals: seq<Arrival>, k: nat)
    requires k <= |arrivals| && FirstFailure(arrivals, k).Some?
    ensures exists l :: 0 <= l < k && arrivals[l].result == Failure(FirstFailure(arrivals, k).value) && Failures(arrivals, l) == 0
  {
    if FirstFailure(arrivals, k - 1).Some? {
      FirstFailureIsFirst(arrivals, k - 1);
    } else {
      assert arrivals[k - 1].result == Failure(FirstFailure(arrivals, k).value) && Failures(arrivals, k - 1) == 0;
    }
  }

  /** The callbacks of the evidently intended `sliceMetatile` after the first
      `k` results: the first failure is reported and nothing after it; the map
      goes out when the last result arrives and none has failed. */
  function Delivered(format: string, tiles: seq<Tile>, headers: ContentType, arrivals: seq<Arrival>, k: nat): seq<Delivery>
    requires k <= |arrivals| && InRange(|tiles|, arrivals)
  {
    if k == 0 then (if |tiles| == 0 then [Success(map[])] else [])
    else
      var d := Delivered(format, tiles, headers, arrivals, k - 1);
      var a := arrivals[k - 1];
      var clean := FirstFailure(arrivals, k - 1).None?;
      if a.result.Failure? then (if clean then d + [Failure(a.result.error)] else d)
      else if k == |tiles| && clean then d + [Success(Collected(format, tiles, headers, arrivals, k))]
      else d
  }

  /** `sliceMetatile` with its error counter doing what it is evidently meant
      to do: only the first error is reported, and no map follows it. */
  method SliceMetatile(format: string, tiles: seq<Tile>, headers: ContentType, arrivals: seq<Arrival>)
    returns (delivered: seq<Delivery>)
    requires InRange(|tiles|, arrivals)
    ensures delivered == Delivered(format, tiles, headers, arrivals, |arrivals|)
  {
    var tilesLength := |tiles|;
    delivered := [];
    if tilesLength == 0 {
      delivered := delivered + [Success(map[])];
    }
    var collected: map<string, TileEntry> := map[];
    var errNum := 0;
    var tileNum := 0;
    var k := 0;
    while k < |arrivals|
      invariant k <= |arrivals| && tileNum == k
      invariant errNum == Failures(arrivals, k)
      invariant collected == Collected(format, tiles, headers, arrivals, k)
      invariant delivered == Delivered(format, tiles, headers, arrivals, k)
    {
      var a := arrivals[k];
      tileNum := tileNum + 1;
      if a.result.Failure? {
        if errNum == 0 {
          delivered := delivered + [Failure(a.result.error)];
        }
        errNum := errNum + 1;
      } else {
        collected := collected[TileKey(format, tiles[a.tile]) := TileEntry(a.result.value, headers)];
        if tileNum == tilesLength && errNum == 0 {
          delivered := delivered + [Success(collected)];
        }
      }
      k := k + 1;
    }
  }

  /** Before the last result arrives, the corrected slicer has called back at
      most once, and only with the first error. */
  lemma {:induction false} DeliveredSoFar(format: string, tiles: seq<Tile>, headers: ContentType, arrivals: seq<Arrival>, k: nat)
    requires |tiles| > 0 && k <= |arrivals| && |arrivals| == |tiles| && InRange(|tiles|, arrivals)
    ensures Delivered(format, tiles, headers, arrivals, k) ==
              if FirstFailure(arrivals, k).Some? then [Failure(FirstFailure(arrivals, k).value)]
              else if k == |tiles| then [Success(Collected(format, tiles, headers, arrivals, k))]
              else []
  {
    if k > 0 {
      DeliveredSoFar(format, tiles, headers, arrivals, k - 1);
    }
  }

  /** The corrected slicer calls back exactly once: with `{}` for an empty
      metatile, with the first error in arrival order if any tile failed, and
      otherwise with the map of all tiles. */
  lemma DeliveredOnce(format: string, tiles: seq<Tile>, headers: ContentType, arrivals: seq<Arrival>)
    requires Arrivals(|tiles|, arrivals)
    ensures Delivered(format, tiles, headers, arrivals, |arrivals|) ==
              if |tiles| == 0 then [Success(map[])]
              else if FirstFailure(arrivals, |arrivals|).Some? then [Failure(FirstFailure(arrivals, |arrivals|).value)]
              else [Success(Collected(format, tiles, headers, arrivals, |arrivals|))]
  {
    if |tiles| > 0 {
      DeliveredSoFar(format, tiles, headers, arrivals, |arrivals|);
    }
  }

  /** The keys of the map are the keys of the tiles that reported success
      among the first `k`, each holding that tile's image and the headers. */
  lemma {:induction false} CollectedEntries(format: string, tiles: seq<Tile>, headers: ContentType, arrivals: seq<Arrival>, k: nat)
    requires k <= |arrivals| && Arrivals(|tiles|, arrivals)
    requires forall i, j :: 0 <= i < j < |tiles| ==> tiles[i] != tiles[j]
    ensures forall l :: 0 <= l < k && arrivals[l].result.Success? ==>
              && TileKey(format, tiles[arrivals[l].tile]) in Collected(format, tiles, headers, arrivals, k)
              && Collected(format, tiles, headers, arrivals, k)[TileKey(format, tiles[arrivals[l].tile])]
                   == TileEntry(arrivals[l].result.value, headers)
    ensures forall key :: key in Collected(format, tiles, headers, arrivals, k) ==>
              exists l :: 0 <= l < k && arrivals[l].result.Success? && key == TileKey(format, tiles[arrivals[l].tile])
  {
    if k > 0 {
      CollectedEntries(format, tiles, headers, arrivals, k - 1);
      var a := arrivals[k - 1];
      forall l | 0 <= l < k - 1 && arrivals[l].result.Success?
        ensures TileKey(format, tiles[arrivals[l].tile]) != TileKey(format, tiles[a.tile])
      {
        if TileKey(format, tiles[arrivals[l].tile]) == TileKey(format, tiles[a.tile]) {
          TileKeyInjective(format, tiles[arrivals[l].tile], tiles[a.tile]);
        }
      }
    }
  }

  /** When no tile fails, the map holds every tile of the metatile under its
      key, and nothing else, each with the image its `getImage` delivered. */
  lemma CollectedAll(format: string, tiles: seq<Tile>, headers: ContentType, arrivals: seq<Arrival>)
    requires Arrivals(|tiles|, arrivals) && Failures(arrivals, |arrivals|) == 0
    requires forall i, j :: 0 <= i < j < |tiles| ==> tiles[i] != tiles[j]
    ensures var m := Collected(format, tiles, headers, arrivals, |arrivals|);
            && (forall i :: 0 <= i < |tiles| ==> TileKey(format, tiles[i]) in m)
            && (forall key :: key in m ==> exists i :: 0 <= i < |tiles| && key == TileKey(format, tiles[i]))
            && (forall l :: 0 <= l < |arrivals| ==>
                  && arrivals[l].result.Success?
                  && m[TileKey(format, tiles[arrivals[l].tile])] == TileEntry(arrivals[l].result.value, headers))
  {
    var m := Collected(format, tiles, headers, arrivals, |arrivals|);
    CollectedEntries(format, tiles, headers, arrivals, |arrivals|);
    NoFailures(arrivals, |arrivals|);
    forall i | 0 <= i < |tiles|
      ensures TileKey(format, tiles[i]) in m
    {
      assert Reported(arrivals, i);
      var l :| 0 <= l < |arrivals| && arrivals[l].tile == i;
      assert arrivals[l].result.Success?;
    }
    forall key | key in m
      ensures exists i :: 0 <= i < |tiles| && key == TileKey(format, tiles[i])
    {
      var l :| 0 <= l < |arrivals| && arrivals[l].result.Success? && key == TileKey(format, tiles[arrivals[l].tile]);
      assert arrivals[l].tile < |tiles|;
    }
  }

  /** No failure among the first `k` means each of them succeeded. */
  lemma {:induction false} NoFailures(arrivals: seq<Arrival>, k: nat)
    requires k <= |arrivals| && Failures(arrivals, k) == 0
    ensures forall l :: 0 <= l < k ==> arrivals[l].result.Success?
  {
    if k > 0 {
      NoFailures(arrivals, k - 1);
    }
  }

  /** When no tile fails, the code as written and the corrected code call back
      alike: the fix only changes what happens after an error. */
  lemma {:induction false} CleanRunsAgree(format: string, tiles: seq<Tile>, headers: ContentType, arrivals: seq<Arrival>, k: nat)
    requires k <= |arrivals| && InRange(|tiles|, arrivals) && Failures(arrivals, k) == 0
    ensures DeliveredAsWritten(format, tiles, headers, arrivals, k) == Delivered(format, tiles, headers, arrivals, k)
  {
    if k > 0 {
      CleanRunsAgree(format, tiles, headers, arrivals, k - 1);
    }
  }

  /** Lines 89-100: a metatile of one tile is answered with the error, or with
      the map holding that tile alone under the key of `options.z`, `options.x`
      and `options.y`. */
  function EncodeSingleTile(format: string, z: nat, x: nat, y: nat, headers: ContentType, result: Result<Buffer, EngineError>): (d: Delivery)
    ensures d.Failure? <==> result.Failure?
    ensures d.Success? ==> d.value.Keys == {TileKey(format, Tile(z, x, y))}
  {
    match result
    case Failure(e) => Failure(e)
    case Success(b) => Success(map[TileKey(format, Tile(z, x, y)) := TileEntry(b, headers)])
  }

  /** For a one-tile metatile, `encodeSingleTile` calls back just as slicing
      would, as written or corrected. */
  lemma SingleTileAgrees(format: string, t: Tile, headers: ContentType, result: Result<Buffer, EngineError>)
    ensures [EncodeSingleTile(format, t.z, t.x, t.y, headers, result)] == Delivered(format, [t], headers, [Arrival(0, result)], 1)
    ensures [EncodeSingleTile(format, t.z, t.x, t.y, headers, result)] == DeliveredAsWritten(format, [t], headers, [Arrival(0, result)], 1)
  {
    assert Collected(format, [t], headers, [Arrival(0, result)], 0) == map[];
  }
}
