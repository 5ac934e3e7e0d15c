/** `getImage` of lib/render.js:102-155: one tile of a rendered metatile is
    probed for solidity, counted, and either served from the source's
    `solidCache` or encoded, solid encodings being tagged with their fingerprint
    and cached. The engine's answers (`isSolid`, `painted`, `encode`) are inputs. */
module SolidCache {
  import opened Common
  import opened Strings

  /** An error raised or reported by the rendering engine. */
  datatype EngineError = EngineError(message: string)

  /** What `view.isSolid` reports: whether every pixel of the view is the same,
      and that pixel (a 32-bit RGBA value for images, a grid key for `utf`). */
  datatype Probe = Probe(solid: bool, pixel: int)

  /** An encoded tile: its bytes and the `solid` fingerprint tag, if one was set. */
  datatype Buffer = Buffer(bytes: seq<bv8>, solid: Option<string>)

  /** The counters of `source._stats`. */
  datatype Stats = Stats(total: nat, solid: nat, solidPainted: nat, encoded: nat, render: nat)

  /** The order the counters keep: a counted tile is first counted in `total`. */
  predicate CountersValid(s: Stats) {
    s.solidPainted <= s.solid <= s.total && s.encoded <= s.total
  }

  /** The four colour channels of a pixel. */
  datatype Rgba = Rgba(r: nat, g: nat, b: nat, a: nat)

  const Two32: nat := 0x1_0000_0000

  /** ECMAScript ToUint32 on an integer, which `>>>` applies to its left operand;
      `&` applies ToInt32, which has the same low 8 bits. */
  function Uint32(p: int): (u: nat)
    ensures u < Two32
  {
    p % Two32
  }

  /** Lines 113-116: `r = p & 0xff`, `g = (p >>> 8) & 0xff`,
      `b = (p >>> 16) & 0xff`, `a = (p >>> 24) & 0xff`. The channels are bytes
      and together they are the 32-bit pixel again. */
  function Unpack(p: int): (c: Rgba)
    ensures c.r < 256 && c.g < 256 && c.b < 256 && c.a < 256
    ensures c.r + 256 * c.g + 65536 * c.b + 16777216 * c.a == Uint32(p)
  {
    var u := Uint32(p);
    ShiftSplit(u);
    Rgba(u % 256, (u / 256) % 256, (u / 65536) % 256, (u / 16777216) % 256)
  }

  /** Shifting right by 8, 16 and 24 bits peels off one byte at a time. */
  lemma ShiftSplit(u: nat)
    requires u < Two32
    ensures u == u % 256 + 256 * ((u / 256) % 256) + 65536 * ((u / 65536) % 256) + 16777216 * ((u / 16777216) % 256)
  {
    var q1, q2, q3 := u / 256, u / 65536, u / 16777216;
    assert q2 == q1 / 256;
    assert q3 == q2 / 256;
    assert q3 < 256;
  }

  /** Line 117: the format name followed directly by `r,g,b,a`. */
  function Fingerprint(format: string, c: Rgba): string {
    format + JoinNats([c.r, c.g, c.b, c.a])
  }

  /** Lines 106-119: the cache key of a probed tile, empty when it is not solid;
      for `utf` grids it is the pixel's decimal text. */
  function PixelKey(format: string, p: Probe): string {
    if !p.solid then ""
    else if format == "utf" then IntToString(p.pixel)
    else Fingerprint(format, Unpack(p.pixel))
  }

  /** What one `getImage` call leaves behind: the counters, the cache, and what
      it passes to its callback. */
  datatype Step = Step(stats: Stats, cache: map<string, Buffer>, result: Result<Buffer, EngineError>)

  /** Lines 104-154. `probe` is what `isSolid` reports, `painted` what
      `image.painted()` returns, and `encode` what `view.encode` delivers or
      throws. */
  function ImageStep(format: string, stats: Stats, cache: map<string, Buffer>,
                     probe: Result<Probe, EngineError>, painted: bool,
                     encode: Result<seq<bv8>, EngineError>): Step
  {
    match probe
    case Failure(e) => Step(stats, cache, Failure(e))
    case Success(p) =>
      var key := PixelKey(format, p);
      var counted := stats.(total := stats.total + 1,
                            solid := stats.solid + (if p.solid then 1 else 0),
                            solidPainted := stats.solidPainted + (if p.solid && painted then 1 else 0));
      if p.solid && key in cache then Step(counted, cache, Success(cache[key]))
      else
        var encoding := counted.(encoded := counted.encoded + 1);
        match encode
        case Failure(e) => Step(encoding, cache, Failure(e))
        case Success(bytes) =>
          if !p.solid then Step(encoding, cache, Success(Buffer(bytes, None)))
          else
            var tagged := Buffer(bytes, Some(key));
            Step(encoding, if format != "utf" then cache[key := tagged] else cache, Success(tagged))
  }

  /** Every cached buffer is tagged with the key it is cached under. */
  predicate Consistent(cache: map<string, Buffer>) {
    forall k :: k in cache ==> cache[k].solid == Some(k)
  }

  /** Lines 121-127: a probed tile adds one to `total`, one to `solid` exactly when
      solid, one to `solidPainted` exactly when solid and painted, and one to
      `encoded` exactly when it is not served from the cache; a failed probe
      counts nothing. The counters keep their order. */
  lemma ImageStepCounters(format: string, stats: Stats, cache: map<string, Buffer>,
                          probe: Result<Probe, EngineError>, painted: bool,
                          encode: Result<seq<bv8>, EngineError>)
    requires CountersValid(stats)
    ensures var s := ImageStep(format, stats, cache, probe, painted, encode).stats;
            && CountersValid(s)
            && s.render == stats.render
            && (probe.Failure? ==> s == stats)
            && (probe.Success? ==>
                  var p := probe.value;
                  var hit := p.solid && PixelKey(format, p) in cache;
                  && s.total == stats.total + 1
                  && s.solid == stats.solid + (if p.solid then 1 else 0)
                  && s.solidPainted == stats.solidPainted + (if p.solid && painted then 1 else 0)
                  && s.encoded == stats.encoded + (if hit then 0 else 1))
  {
  }

  /** Line 125: a solid tile whose fingerprint is cached is served the cached
      buffer, whatever the encoder would have produced, and the cache is left as it is. */
  lemma CacheHit(format: string, stats: Stats, cache: map<string, Buffer>,
                 p: Probe, painted: bool, encode: Result<seq<bv8>, EngineError>)
    requires p.solid && PixelKey(format, p) in cache
    ensures var st := ImageStep(format, stats, cache, Success(p), painted, encode);
            && st.result == Success(cache[PixelKey(format, p)])
            && st.cache == cache
            && st.stats.encoded == stats.encoded
            && st == ImageStep(format, stats, cache, Success(p), painted, Failure(EngineError("")))
  {
  }

  /** Lines 133-143: the cache changes only by the entry for the tile's own
      fingerprint, and only after a successful encode of a solid tile of a
      format other than `utf`; that entry is the buffer returned. */
  lemma CacheWrite(format: string, stats: Stats, cache: map<string, Buffer>,
                   probe: Result<Probe, EngineError>, painted: bool,
                   encode: Result<seq<bv8>, EngineError>)
    ensures var st := ImageStep(format, stats, cache, probe, painted, encode);
            st.cache != cache <==>
              && probe.Success? && probe.value.solid && format != "utf" && encode.Success?
              && (PixelKey(format, probe.value) !in cache)
    ensures var st := ImageStep(format, stats, cache, probe, painted, encode);
            st.cache != cache ==>
              var key := PixelKey(format, probe.value);
              && st.result.Success?
              && st.cache == cache[key := st.result.value]
              && st.result.value == Buffer(encode.value, Some(key))
  {
    var st := ImageStep(format, stats, cache, probe, painted, encode);
    if probe.Success? && probe.value.solid && format != "utf" && encode.Success? && PixelKey(format, probe.value) !in cache {
      var key := PixelKey(format, probe.value);
      assert key in st.cache;
    }
  }

  /** `utf` grids are never cached (line 139). */
  lemma UtfNeverCached(stats: Stats, cache: map<string, Buffer>,
                       probe: Result<Probe, EngineError>, painted: bool,
                       encode: Result<seq<bv8>, EngineError>)
    ensures ImageStep("utf", stats, cache, probe, painted, encode).cache == cache
  {
  }

  /** The cache stays consistent, and every buffer served for a solid tile from
      a consistent cache carries that tile's fingerprint; a tile that is not
      solid is served untagged. */
  lemma ImageStepTags(format: string, stats: Stats, cache: map<string, Buffer>,
                      probe: Result<Probe, EngineError>, painted: bool,
                      encode: Result<seq<bv8>, EngineError>)
    requires Consistent(cache)
    ensures var st := ImageStep(format, stats, cache, probe, painted, encode);
            && Consistent(st.cache)
            && (st.result.Success? ==> probe.Success?)
            && (st.result.Success? && probe.value.solid ==> st.result.value.solid == Some(PixelKey(format, probe.value)))
            && (st.result.Success? && !probe.value.solid ==> st.result.value.solid == None)
  {
  }

  /** A failed probe or encode reaches the callback as that error. */
  lemma ImageStepErrors(format: string, stats: Stats, cache: map<string, Buffer>,
                        probe: Result<Probe, EngineError>, painted: bool,
                        encode: Result<seq<bv8>, EngineError>)
    ensures var st := ImageStep(format, stats, cache, probe, painted, encode);
            && (probe.Failure? ==> st.result == Failure(probe.error))
            && (probe.Success? && !(probe.value.solid && PixelKey(format, probe.value) in cache) ==>
                  (st.result.Failure? <==> encode.Failure?) && (encode.Failure? ==> st.result == Failure(encode.error)))
  {
  }

  /** A non-solid tile has the empty key, a solid one a non-empty key. */
  lemma PixelKeyEmpty(format: string, p: Probe)
    ensures PixelKey(format, p) == "" <==> !p.solid
  {
    if p.solid && format != "utf" {
      var c := Unpack(p.pixel);
      assert |JoinNats([c.r, c.g, c.b, c.a])| > 0 by {
        assert JoinNats([c.r, c.g, c.b, c.a]) == NatToString(c.r) + "," + JoinNats([c.g, c.b, c.a]);
      }
    }
  }

  /** The channels determine the pixel modulo 2^32. */
  lemma UnpackInjective(p1: int, p2: int)
    requires Unpack(p1) == Unpack(p2)
    ensures Uint32(p1) == Uint32(p2)
  {
  }

  /** For one image format, solid tiles share a fingerprint exactly when their
      pixels agree as 32-bit values. */
  lemma FingerprintInjective(format: string, p1: Probe, p2: Probe)
    requires format != "utf" && p1.solid && p2.solid
    ensures PixelKey(format, p1) == PixelKey(format, p2) <==> Uint32(p1.pixel) == Uint32(p2.pixel)
  {
    var c1 := Unpack(p1.pixel);
    var c2 := Unpack(p2.pixel);
    if PixelKey(format, p1) == PixelKey(format, p2) {
      PrefixCancel(format, JoinNats([c1.r, c1.g, c1.b, c1.a]), JoinNats([c2.r, c2.g, c2.b, c2.a]));
      JoinNatsInjective([c1.r, c1.g, c1.b, c1.a], [c2.r, c2.g, c2.b, c2.a]);
      assert c1 == c2 by {
        assert [c1.r, c1.g, c1.b, c1.a][0] == [c2.r, c2.g, c2.b, c2.a][0];
        assert [c1.r, c1.g, c1.b, c1.a][1] == [c2.r, c2.g, c2.b, c2.a][1];
        assert [c1.r, c1.g, c1.b, c1.a][2] == [c2.r, c2.g, c2.b, c2.a][2];
        assert [c1.r, c1.g, c1.b, c1.a][3] == [c2.r, c2.g, c2.b, c2.a][3];
      }
      UnpackInjective(p1.pixel, p2.pixel);
    }
    if Uint32(p1.pixel) == Uint32(p2.pixel) {
      assert Unpack(p1.pixel) == Unpack(p2.pixel);
    }
  }

  /** The fingerprint does not separate the format from the channels, so two
      formats can share one: `png` with red 80 and `png8` with red 0 both give
      `png80,0,0,255`. A source renders one image format, which keeps its own
      cache apart. */
  lemma FingerprintAcrossFormats()
    ensures Fingerprint("png", Rgba(80, 0, 0, 255)) == Fingerprint("png8", Rgba(0, 0, 0, 255))
  {
    assert NatToString(80) == "80" by {
      assert NatToString(8) == "8";
    }
    assert NatToString(255) == "255" by {
      assert NatToString(25) == "25" by {
        assert NatToString(2) == "2";
      }
    }
    assert NatToString(0) == "0";
    assert JoinNats([0, 0, 255]) == "0,0,255" by {
      assert JoinNats([0, 255]) == "0,255" by {
        assert JoinNats([255]) == "255";
      }
    }
  }
}
