// Google's Encoded Polyline Algorithm Format at precision 5. Integers carry the int64 arithmetic:
// `n & 0x1f` is n % 32, `0x20 | low` is 32 + low for a 5-bit value, `n >> 5` is n / 32, `n << 1` is 2n
// wrapped, `^n` is -n - 1, and or-ing disjoint chunks into a result is adding them modulo 2^64.
module Polyline {
  import opened Wrappers
  import opened Sequences
  import opened Simplify
  import Int64

  /** A byte of the text, held as an integer. */
  type Byte = int

  // ---- Encoding ------------------------------------------------------------------------------

  /** round1e5: half away from zero. */
  function Round(v: real): int {
    if v >= 0.0 then (v * 100000.0 + 0.5).Floor else -((-(v * 100000.0 - 0.5)).Floor)
  }

  function ZigZag(n: int): int {
    if n < 0 then -Int64.Wrap(2 * n) - 1 else Int64.Wrap(2 * n)
  }

  function EncodeUnsigned(n: int): (s: seq<Byte>) {
    if n >= 32 then [32 + n % 32 + 63] + EncodeUnsigned(n / 32) else [(n + 63) % 256]
  }

  function EncodeSigned(n: int): seq<Byte> {
    EncodeUnsigned(ZigZag(n))
  }

  /** One point as the difference to the one before; the subtraction wraps. */
  function EncodeStep(lat: int, lon: int, lat': int, lon': int): seq<Byte> {
    EncodeSigned(Int64.Wrap(lat' - lat)) + EncodeSigned(Int64.Wrap(lon' - lon))
  }

  /** The encoding of the points after one with rounded coordinates `lat`, `lon`. */
  function Encode(track: seq<Coordinate>, lat: int, lon: int): seq<Byte> {
    if track == [] then []
    else
      var lat', lon' := Round(track[0].lat), Round(track[0].lon);
      EncodeStep(lat, lon, lat', lon') + Encode(track[1..], lat', lon')
  }

  method EncodeUnsignedNumber(sb: seq<Byte>, n: int) returns (s: seq<Byte>)
    ensures s == sb + EncodeUnsigned(n)
  {
    s := sb;
    var rest := n;
    while rest >= 32
      invariant s + EncodeUnsigned(rest) == sb + EncodeUnsigned(n)
    {
      var chunk := 32 + rest % 32 + 63;
      assert s + EncodeUnsigned(rest) == (s + [chunk]) + EncodeUnsigned(rest / 32);
      s := s + [chunk];
      rest := rest / 32;
    }
    s := s + [(rest + 63) % 256];
  }

  /** Taking one point off the front of what is left of the track. */
  lemma EncodeNext(s: seq<Byte>, track: seq<Coordinate>, i: nat, lat: int, lon: int)
    requires i < |track|
    ensures var lat', lon' := Round(track[i].lat), Round(track[i].lon);
      s + Encode(track[i..], lat, lon) ==
      s + EncodeSigned(Int64.Wrap(lat' - lat)) + EncodeSigned(Int64.Wrap(lon' - lon)) + Encode(track[i + 1..], lat', lon')
  {
    var lat', lon' := Round(track[i].lat), Round(track[i].lon);
    assert track[i..][0] == track[i] && track[i..][1..] == track[i + 1..];
    Associate(s, EncodeStep(lat, lon, lat', lon'), Encode(track[i + 1..], lat', lon'));
    Associate(s, EncodeSigned(Int64.Wrap(lat' - lat)), EncodeSigned(Int64.Wrap(lon' - lon)));
  }

  lemma NothingLeft(s: seq<Byte>, track: seq<Coordinate>, lat: int, lon: int)
    ensures s + Encode(track[|track|..], lat, lon) == s
  {
  }

  method EncodePolyline(track: seq<Coordinate>) returns (s: seq<Byte>)
    ensures s == Encode(track, 0, 0)
  {
    s := [];
    var prevLat, prevLon := 0, 0;
    var i := 0;
    ghost var all := Encode(track, 0, 0);
    assert [] + all == all && track[0..] == track;
    while i < |track|
      invariant 0 <= i <= |track|
      invariant s + Encode(track[i..], prevLat, prevLon) == all
    {
      var lat, lon := Round(track[i].lat), Round(track[i].lon);
      EncodeNext(s, track, i, prevLat, prevLon);
      s := EncodeUnsignedNumber(s, ZigZag(Int64.Wrap(lat - prevLat)));
      s := EncodeUnsignedNumber(s, ZigZag(Int64.Wrap(lon - prevLon)));
      prevLat, prevLon := lat, lon;
      i := i + 1;
    }
    NothingLeft(s, track, prevLat, prevLon);
  }

  // ---- Decoding ------------------------------------------------------------------------------

  /** What a byte carries: five bits and, from 32 on, the mark that another byte follows. */
  function Chunk(b: Byte): int {
    b as int - 63
  }

  /** The chunks of one number and how many bytes they take; nothing when the text ends inside it. */
  function DecodeUnsigned(s: seq<Byte>): (r: Option<(int, nat)>)
    ensures r.Some? ==> 0 < r.value.1 <= |s|
  {
    if s == [] then None
    else
      var b := Chunk(s[0]);
      if b < 32 then Some((b % 32, 1))
      else
        match DecodeUnsigned(s[1..])
        case None => None
        case Some((high, n)) => Some((b % 32 + 32 * high, n + 1))
  }

  /** Undoes the zig-zag on the int64 that the chunks amount to. */
  function UnZigZag(raw: int): int {
    var r := Int64.Wrap(raw);
    if r % 2 == 1 then -(r / 2) - 1 else r / 2
  }

  function DecodeSigned(s: seq<Byte>): (r: Option<(int, nat)>)
    ensures r.Some? ==> 0 < r.value.1 <= |s|
  {
    match DecodeUnsigned(s)
    case None => None
    case Some((raw, n)) => Some((UnZigZag(raw), n))
  }

  /** Two numbers in a row and the bytes they take together. */
  function DecodePair(s: seq<Byte>): (r: Option<(int, int, nat)>)
    ensures r.Some? ==> 0 < r.value.2 <= |s|
  {
    match DecodeSigned(s)
    case None => None
    case Some((a, n)) =>
      match DecodeSigned(s[n..])
      case None => None
      case Some((b, m)) => Some((a, b, n + m))
  }

  function Degrees(lat: int, lon: int): Coordinate {
    Coordinate(lat as real / 100000.0, lon as real / 100000.0)
  }

  function Prepend(c: Coordinate, rest: Option<seq<Coordinate>>): Option<seq<Coordinate>> {
    if rest.None? then None else Some([c] + rest.value)
  }

  /** Decoding stops with nothing where the program would index past the end of the text. */
  function Decode(s: seq<Byte>, lat: int, lon: int): Option<seq<Coordinate>>
    decreases |s|
  {
    if s == [] then Some([])
    else
      match DecodePair(s)
      case None => None
      case Some((a, b, n)) =>
        var lat', lon' := Int64.Wrap(lat + a), Int64.Wrap(lon + b);
        Prepend(Degrees(lat', lon'), Decode(s[n..], lat', lon'))
  }

  /** One turn of the decoding loop. */
  lemma DecodeNext(s: seq<Byte>, lat: int, lon: int, a: int, b: int, rest: seq<Byte>)
    requires DecodePair(s) == Some((a, b, |s| - |rest|)) && |rest| <= |s| && s[|s| - |rest|..] == rest
    ensures var lat', lon' := Int64.Wrap(lat + a), Int64.Wrap(lon + b);
      Decode(s, lat, lon) == Prepend(Degrees(lat', lon'), Decode(rest, lat', lon'))
  {
    assert s != [];
  }

  /** `x << 5k`, before it is cut down to 64 bits. */
  function Shifted(x: int, k: nat): int {
    if k == 0 then x else 32 * Shifted(x, k - 1)
  }

  lemma {:induction false} ShiftedSum(chunk: int, high: int, k: nat)
    ensures Shifted(chunk + 32 * high, k) == Shifted(chunk, k) + Shifted(high, k + 1)
  {
    if k > 0 {
      ShiftedSum(chunk, high, k - 1);
    }
  }

  /** What a number amounts to when its first `k` chunks, `used` bytes, add up to `low`. */
  function Resumed(low: int, k: nat, used: nat, rest: Option<(int, nat)>): Option<(int, nat)> {
    if rest.None? then None else Some((low + Shifted(rest.value.0, k), used + rest.value.1))
  }

  lemma TakeChunk(low: int, k: nat, used: nat, s: seq<Byte>)
    requires s != []
    ensures var b := Chunk(s[0]); var low' := low + Shifted(b % 32, k);
      Resumed(low, k, used, DecodeUnsigned(s)) ==
        if b < 32 then Some((low', used + 1)) else Resumed(low', k + 1, used + 1, DecodeUnsigned(s[1..]))
  {
    if Chunk(s[0]) >= 32 && DecodeUnsigned(s[1..]).Some? {
      ShiftedSum(Chunk(s[0]) % 32, DecodeUnsigned(s[1..]).value.0, k);
    }
  }

  method DecodeSignedNumber(s: seq<Byte>, index: nat) returns (value: int, next: nat, ok: bool)
    requires index <= |s|
    ensures ok == DecodeSigned(s[index..]).Some?
    ensures ok ==> index <= next && DecodeSigned(s[index..]) == Some((value, next - index))
  {
    var result, k := 0, 0;
    ghost var exact := 0;
    next := index;
    var more := true;
    while more
      invariant index <= next <= |s|
      invariant result == Int64.Wrap(exact)
      invariant DecodeUnsigned(s[index..]) ==
        if more then Resumed(exact, k, next - index, DecodeUnsigned(s[next..])) else Some((exact, next - index))
      decreases |s| - next, more
    {
      if next == |s| {
        return 0, next, false;
      }
      var b := Chunk(s[next]);
      TakeChunk(exact, k, next - index, s[next..]);
      assert s[next..][1..] == s[next + 1..];
      Int64.WrapAbsorbs(exact, Shifted(b % 32, k));
      result := Int64.Wrap(result + Shifted(b % 32, k));
      exact := exact + Shifted(b % 32, k);
      next := next + 1;
      k := k + 1;
      more := b >= 32;
    }
    return if result % 2 == 1 then -(result / 2) - 1 else result / 2, next, true;
  }

  /** The points decoded so far in front of what the rest decodes to. */
  function Joined(coords: seq<Coordinate>, rest: Option<seq<Coordinate>>): Option<seq<Coordinate>> {
    if rest.None? then None else Some(coords + rest.value)
  }

  lemma Joins(coords: seq<Coordinate>, rest: Option<seq<Coordinate>>)
    requires coords == []
    ensures Joined(coords, rest) == rest
  {
    if rest.Some? {
      assert coords + rest.value == rest.value;
    }
  }

  lemma Appends(coords: seq<Coordinate>, c: Coordinate, rest: Option<seq<Coordinate>>)
    ensures Joined(coords, Prepend(c, rest)) == Joined(coords + [c], rest)
  {
    if rest.Some? {
      assert coords + ([c] + rest.value) == (coords + [c]) + rest.value;
    }
  }

  /** One turn of the loop: the pair at `index` becomes a point, and decoding goes on at `next`. */
  lemma Turn(coords: seq<Coordinate>, s: seq<Byte>, index: nat, next: nat, lat: int, lon: int, a: int, b: int)
    requires index < next <= |s| && DecodePair(s[index..]) == Some((a, b, next - index))
    ensures var lat', lon' := Int64.Wrap(lat + a), Int64.Wrap(lon + b);
      Joined(coords, Decode(s[index..], lat, lon)) ==
      Joined(coords + [Degrees(lat', lon')], Decode(s[next..], lat', lon'))
  {
    var lat', lon' := Int64.Wrap(lat + a), Int64.Wrap(lon + b);
    assert s[index..][next - index..] == s[next..];
    DecodeNext(s[index..], lat, lon, a, b, s[next..]);
    Appends(coords, Degrees(lat', lon'), Decode(s[next..], lat', lon'));
  }

  /** A text that breaks off in its first or second number decodes to nothing. */
  lemma NoPair(s: seq<Byte>)
    requires s != [] && DecodePair(s).None?
    ensures forall lat, lon :: Decode(s, lat, lon).None?
  {
  }

  lemma AllDecoded(coords: seq<Coordinate>, s: seq<Byte>, lat: int, lon: int)
    requires s == []
    ensures Joined(coords, Decode(s, lat, lon)) == Some(coords)
  {
    assert coords + [] == coords;
  }

  /** The two calls that open a turn of the decoding loop. */
  method DecodeDeltas(s: seq<Byte>, index: nat) returns (dLat: int, dLon: int, next: nat, ok: bool)
    requires index < |s|
    ensures ok ==> index < next <= |s| && DecodePair(s[index..]) == Some((dLat, dLon, next - index)) &&
                   s[index..][next - index..] == s[next..]
    ensures !ok ==> forall lat, lon :: Decode(s[index..], lat, lon).None?
  {
    dLat, next, ok := DecodeSignedNumber(s, index);
    if !ok {
      NoPair(s[index..]);
      return 0, 0, index, false;
    }
    assert s[index..][next - index..] == s[next..];
    dLon, next, ok := DecodeSignedNumber(s, next);
    if !ok {
      NoPair(s[index..]);
      return 0, 0, index, false;
    }
    assert s[index..][next - index..] == s[next..];
  }

  method DecodePolyline(s: seq<Byte>) returns (coords: seq<Coordinate>, ok: bool)
    ensures Decode(s, 0, 0) == if ok then Some(coords) else None
  {
    coords := [];
    var index, lat, lon := 0, 0, 0;
    ghost var all := Decode(s, 0, 0);
    assert s[0..] == s;
    Joins([], all);
    while index < |s|
      invariant 0 <= index <= |s|
      invariant Joined(coords, Decode(s[index..], lat, lon)) == all
      decreases |s| - index
    {
      var dLat, dLon, next;
      dLat, dLon, next, ok := DecodeDeltas(s, index);
      if !ok {
        return coords, false;
      }
      Turn(coords, s, index, next, lat, lon, dLat, dLon);
      index := next;
      lat := Int64.Wrap(lat + dLat);
      lon := Int64.Wrap(lon + dLon);
      coords := coords + [Degrees(lat, lon)];
    }
    AllDecoded(coords, s[index..], lat, lon);
    return coords, true;
  }

  // ---- One number ----------------------------------------------------------------------------

  lemma LowAndHigh(n: nat)
    ensures Chunk(32 + n % 32 + 63) == 32 + n % 32 && (32 + n % 32) % 32 == n % 32 && n % 32 + 32 * (n / 32) == n
  {
  }

  /** Any text may follow a number: the decoder takes exactly its bytes. */
  lemma {:induction false} UnsignedRoundTrip(n: nat, rest: seq<Byte>)
    ensures DecodeUnsigned(EncodeUnsigned(n) + rest) == Some((n, |EncodeUnsigned(n)|))
  {
    var s := EncodeUnsigned(n) + rest;
    if n >= 32 {
      UnsignedRoundTrip(n / 32, rest);
      LowAndHigh(n);
      assert s[0] == 32 + n % 32 + 63 && s[1..] == EncodeUnsigned(n / 32) + rest;
    }
  }

  lemma {:induction false} ZigZagRoundTrip(n: int)
    requires -Int64.TWO_63 <= 2 * n < Int64.TWO_63
    ensures 0 <= ZigZag(n) < Int64.TWO_63 && UnZigZag(ZigZag(n)) == n
  {
    assert Int64.Wrap(2 * n) == 2 * n;
    var z := if n < 0 then -2 * n - 1 else 2 * n;
    assert ZigZag(n) == z && Int64.Wrap(z) == z;
    if n < 0 {
      assert z % 2 == 1 && z / 2 == -n - 1;
    } else {
      assert z % 2 == 0 && z / 2 == n;
    }
  }

  /** Every byte of an encoded number is printable: between '?' and '~'. */
  lemma {:induction false} BytesArePrintable(n: nat)
    ensures forall i :: 0 <= i < |EncodeUnsigned(n)| ==> 63 <= EncodeUnsigned(n)[i] <= 126
  {
    if n >= 32 {
      BytesArePrintable(n / 32);
    }
  }

  lemma {:induction false} EncodedLength(n: nat, k: nat)
    requires 1 <= k && n < Shifted(1, k)
    ensures 1 <= |EncodeUnsigned(n)| <= k
  {
    if n >= 32 {
      EncodedLength(n / 32, k - 1);
    }
  }

  // ---- Whole tracks --------------------------------------------------------------------------

  predicate Valid(c: Coordinate) {
    -90.0 <= c.lat <= 90.0 && -180.0 <= c.lon <= 180.0
  }

  lemma {:induction false} RoundingError(v: real)
    ensures -0.000005 <= Round(v) as real / 100000.0 - v <= 0.000005
  {
    var w := v * 100000.0;
    if v >= 0.0 {
      assert (w + 0.5).Floor as real <= w + 0.5 < (w + 0.5).Floor as real + 1.0;
    } else {
      assert (-(w - 0.5)).Floor as real <= -(w - 0.5) < (-(w - 0.5)).Floor as real + 1.0;
    }
  }

  lemma RoundingRange(v: real, bound: int)
    requires 0 <= bound && -(bound as real) <= v <= bound as real
    ensures -(bound * 100000) <= Round(v) <= bound * 100000
  {
    var w := v * 100000.0;
    if v >= 0.0 {
      assert w + 0.5 < (bound * 100000 + 1) as real;
    } else {
      assert -(w - 0.5) < (bound * 100000 + 1) as real;
    }
  }

  /** The rounded coordinate that the decoder gives back for `c`. */
  function Rounded(c: Coordinate): Coordinate {
    Degrees(Round(c.lat), Round(c.lon))
  }

  predicate InMap(lat: int, lon: int) {
    -9_000_000 <= lat <= 9_000_000 && -18_000_000 <= lon <= 18_000_000
  }

  lemma ValidInMap(c: Coordinate)
    requires Valid(c)
    ensures InMap(Round(c.lat), Round(c.lon))
  {
    RoundingRange(c.lat, 90);
    RoundingRange(c.lon, 180);
  }

  /** A delta between valid coordinates takes at most six printable bytes. */
  lemma {:induction false} DeltaIsShort(d: int)
    requires -36_000_000 <= d <= 36_000_000
    ensures 1 <= |EncodeSigned(d)| <= 6
    ensures forall i :: 0 <= i < |EncodeSigned(d)| ==> 63 <= EncodeSigned(d)[i] <= 126
  {
    ZigZagRoundTrip(d);
    assert Shifted(1, 6) == 32 * 32 * 32 * 32 * 32 * 32 by {
      assert Shifted(1, 2) == 32 * 32 && Shifted(1, 4) == 32 * 32 * Shifted(1, 2);
    }
    EncodedLength(ZigZag(d), 6);
    BytesArePrintable(ZigZag(d));
  }

  /** The difference that is left after one bit was spent on its sign. */
  predicate Doubles(d: int) {
    Int64.InRange(2 * d)
  }

  predicate ShortStep(lat: int, lon: int, lat': int, lon': int) {
    Doubles(Int64.Wrap(lat' - lat)) && Doubles(Int64.Wrap(lon' - lon))
  }

  lemma PairRoundTrip(a: int, b: int, rest: seq<Byte>)
    requires Doubles(a) && Doubles(b)
    ensures var s := EncodeSigned(a) + EncodeSigned(b) + rest;
      && DecodePair(s) == Some((a, b, |EncodeSigned(a)| + |EncodeSigned(b)|))
      && s[|EncodeSigned(a)| + |EncodeSigned(b)|..] == rest
  {
    var x, y := EncodeSigned(a), EncodeSigned(b);
    ZigZagRoundTrip(a);
    ZigZagRoundTrip(b);
    UnsignedRoundTrip(ZigZag(a), y + rest);
    UnsignedRoundTrip(ZigZag(b), rest);
    assert x + y + rest == x + (y + rest);
    assert (x + (y + rest))[|x|..] == y + rest;
  }

  lemma DecodesPair(a: int, b: int, rest: seq<Byte>, lat: int, lon: int)
    requires Doubles(a) && Doubles(b)
    ensures var lat', lon' := Int64.Wrap(lat + a), Int64.Wrap(lon + b);
      Decode(EncodeSigned(a) + EncodeSigned(b) + rest, lat, lon) == Prepend(Degrees(lat', lon'), Decode(rest, lat', lon'))
  {
    PairRoundTrip(a, b, rest);
    DecodeNext(EncodeSigned(a) + EncodeSigned(b) + rest, lat, lon, a, b, rest);
  }

  /** The point that the decoder, standing where the encoder stood, gets to. */
  lemma DecodesToPoint(lat: int, lon: int, lat': int, lon': int, rest: seq<Byte>)
    requires Int64.InRange(lat') && Int64.InRange(lon')
    requires ShortStep(lat, lon, lat', lon')
    ensures Decode(EncodeStep(lat, lon, lat', lon') + rest, lat, lon) ==
            Prepend(Degrees(lat', lon'), Decode(rest, lat', lon'))
  {
    var a, b := Int64.Wrap(lat' - lat), Int64.Wrap(lon' - lon);
    Int64.DifferenceLeadsBack(lat, lat');
    Int64.DifferenceLeadsBack(lon, lon');
    DecodesPair(a, b, rest, lat, lon);
  }

  /** Whatever the text, a decoded number leaves room for its sign. */
  lemma DecodedDoubles(s: seq<Byte>)
    ensures DecodeSigned(s).Some? ==> Doubles(DecodeSigned(s).value.0)
  {
  }

  lemma WrapSumInjective(at: int, a: int, d: int)
    requires Int64.InRange(a) && Int64.InRange(d) && Int64.Wrap(at + a) == Int64.Wrap(at + d)
    ensures a == d
  {
    var j := Int64.WrapIsCongruent(at + a);
    var k := Int64.WrapIsCongruent(at + d);
    assert a - d == (k - j) * Int64.TWO_64;
  }

  /** A difference that does not fit comes out wrong, or not at all. */
  lemma MissesPoint(s: seq<Byte>, lat: int, lon: int, lat': int, lon': int)
    requires s != [] && Int64.InRange(lat') && Int64.InRange(lon') && !ShortStep(lat, lon, lat', lon')
    ensures var r := Decode(s, lat, lon); r.Some? ==> |r.value| > 0 && r.value[0] != Degrees(lat', lon')
  {
    if DecodePair(s).Some? {
      var (a, b, n) := DecodePair(s).value;
      DecodedDoubles(s);
      DecodedDoubles(s[DecodeSigned(s).value.1..]);
      Int64.DifferenceLeadsBack(lat, lat');
      Int64.DifferenceLeadsBack(lon, lon');
      if Int64.Wrap(lat + a) == lat' {
        WrapSumInjective(lat, a, Int64.Wrap(lat' - lat));
      }
      if Int64.Wrap(lon + b) == lon' {
        WrapSumInjective(lon, b, Int64.Wrap(lon' - lon));
      }
    }
  }

  predicate IsRounded(r: Option<seq<Coordinate>>, track: seq<Coordinate>) {
    r.Some? && |r.value| == |track| && forall i :: 0 <= i < |track| ==> r.value[i] == Rounded(track[i])
  }

  predicate AllValid(track: seq<Coordinate>) {
    forall i :: 0 <= i < |track| ==> Valid(track[i])
  }

  /** The rounded coordinates are int64, as the conversion from floating point demands. */
  predicate Fits(c: Coordinate) {
    Int64.InRange(Round(c.lat)) && Int64.InRange(Round(c.lon))
  }

  predicate AllFit(track: seq<Coordinate>) {
    forall i :: 0 <= i < |track| ==> Fits(track[i])
  }

  /** Every difference from one point to the next, as the machine computes it, can be doubled. */
  predicate ShortSteps(track: seq<Coordinate>, lat: int, lon: int) {
    track == [] ||
    var lat', lon' := Round(track[0].lat), Round(track[0].lon);
    ShortStep(lat, lon, lat', lon') && ShortSteps(track[1..], lat', lon')
  }

  lemma PrependRounded(track: seq<Coordinate>, rest: Option<seq<Coordinate>>)
    requires track != []
    ensures IsRounded(Prepend(Rounded(track[0]), rest), track) <==> IsRounded(rest, track[1..])
  {
    if rest.Some? {
      var all := [Rounded(track[0])] + rest.value;
      assert forall i :: 0 <= i < |rest.value| ==> all[i + 1] == rest.value[i];
      if IsRounded(rest, track[1..]) {
        forall i | 0 <= i < |track| ensures all[i] == Rounded(track[i]) {
          if i > 0 {
            assert track[i] == track[1..][i - 1];
          }
        }
      }
      if IsRounded(Some(all), track) {
        forall i | 0 <= i < |track[1..]| ensures rest.value[i] == Rounded(track[1..][i]) {
          assert all[i + 1] == Rounded(track[i + 1]);
        }
      }
    }
  }

  lemma {:induction false} DecodesToRoundedIff(track: seq<Coordinate>, lat: int, lon: int)
    requires AllFit(track)
    ensures IsRounded(Decode(Encode(track, lat, lon), lat, lon), track) <==> ShortSteps(track, lat, lon)
  {
    if track != [] {
      var lat', lon' := Round(track[0].lat), Round(track[0].lon);
      assert Fits(track[0]);
      if ShortStep(lat, lon, lat', lon') {
        DecodesToPoint(lat, lon, lat', lon', Encode(track[1..], lat', lon'));
        DecodesToRoundedIff(track[1..], lat', lon');
        PrependRounded(track, Decode(Encode(track[1..], lat', lon'), lat', lon'));
      } else {
        MissesPoint(Encode(track, lat, lon), lat, lon, lat', lon');
      }
    }
  }

  /**
   * Decoding an encoded track gives back exactly its rounded points when every difference between
   * neighbours, starting from 0, leaves a bit for its sign; otherwise it does not.
   */
  lemma {:induction false} RoundTripIff(track: seq<Coordinate>)
    requires AllFit(track)
    ensures IsRounded(Decode(Encode(track, 0, 0), 0, 0), track) <==> ShortSteps(track, 0, 0)
  {
    DecodesToRoundedIff(track, 0, 0);
  }

  /**
   * The points that come back are off by at most half a unit in the fifth decimal: rounding errors do
   * not add up along the track.
   */
  lemma {:induction false} RoundTrip(track: seq<Coordinate>)
    requires AllFit(track) && ShortSteps(track, 0, 0)
    ensures var r := Decode(Encode(track, 0, 0), 0, 0);
      && r.Some? && |r.value| == |track|
      && forall i :: 0 <= i < |track| ==>
           && r.value[i] == Rounded(track[i])
           && -0.000005 <= r.value[i].lat - track[i].lat <= 0.000005
           && -0.000005 <= r.value[i].lon - track[i].lon <= 0.000005
  {
    RoundTripIff(track);
    forall i | 0 <= i < |track|
      ensures -0.000005 <= Rounded(track[i]).lat - track[i].lat <= 0.000005 &&
              -0.000005 <= Rounded(track[i]).lon - track[i].lon <= 0.000005
    {
      RoundingError(track[i].lat);
      RoundingError(track[i].lon);
    }
  }

  /** Fifty million million degrees away, though the number itself is a fine int64. */
  lemma HugeStepIsLost()
    ensures var track := [Coordinate(50_000_000_000_000.0, 0.0)];
      AllFit(track) && !IsRounded(Decode(Encode(track, 0, 0), 0, 0), track)
  {
    var track := [Coordinate(50_000_000_000_000.0, 0.0)];
    assert Round(50_000_000_000_000.0) == 5_000_000_000_000_000_000 && Round(0.0) == 0;
    RoundTripIff(track);
  }

  lemma {:induction false} ValidStepsAreShort(track: seq<Coordinate>, lat: int, lon: int)
    requires InMap(lat, lon) && AllValid(track)
    ensures AllFit(track) && ShortSteps(track, lat, lon)
  {
    if track != [] {
      ValidInMap(track[0]);
      ValidStepsAreShort(track[1..], Round(track[0].lat), Round(track[0].lon));
      forall i | 0 <= i < |track| ensures Fits(track[i]) {
        if i > 0 {
          assert track[i] == track[1..][i - 1];
        }
      }
    }
  }

  /** Every track of points on the map comes back. */
  lemma {:induction false} ValidRoundTrip(track: seq<Coordinate>)
    requires AllValid(track)
    ensures IsRounded(Decode(Encode(track, 0, 0), 0, 0), track)
  {
    ValidStepsAreShort(track, 0, 0);
    RoundTripIff(track);
  }

  /** An encoded track is printable and takes at most twelve bytes a point. */
  lemma {:induction false} EncodingIsCompact(track: seq<Coordinate>, lat: int, lon: int)
    requires InMap(lat, lon) && AllValid(track)
    ensures |Encode(track, lat, lon)| <= 12 * |track|
    ensures forall i :: 0 <= i < |Encode(track, lat, lon)| ==> 63 <= Encode(track, lat, lon)[i] <= 126
  {
    if track != [] {
      var lat', lon' := Round(track[0].lat), Round(track[0].lon);
      ValidInMap(track[0]);
      DeltaIsShort(lat' - lat);
      DeltaIsShort(lon' - lon);
      EncodingIsCompact(track[1..], lat', lon');
    }
  }

  /** Tracks that round differently have different encodings. */
  lemma {:induction false} EncodingIsInjective(s: seq<Coordinate>, t: seq<Coordinate>)
    requires AllFit(s) && ShortSteps(s, 0, 0)
    requires AllFit(t) && ShortSteps(t, 0, 0)
    requires Encode(s, 0, 0) == Encode(t, 0, 0)
    ensures |s| == |t| && forall i :: 0 <= i < |s| ==> Rounded(s[i]) == Rounded(t[i])
  {
    RoundTripIff(s);
    RoundTripIff(t);
    forall i | 0 <= i < |s| ensures Rounded(s[i]) == Rounded(t[i]) {
      assert Decode(Encode(s, 0, 0), 0, 0).value[i] == Rounded(s[i]);
    }
  }

  /** A text as its bytes. */
  function Bytes(text: string): (s: seq<Byte>)
    ensures |s| == |text|
  {
    seq(|text|, i requires 0 <= i < |text| => text[i] as int)
  }

  lemma FirstLatitude()
    ensures EncodeSigned(3850000) == Bytes("_p~iF")
  {
    assert ZigZag(3850000) == 7700000;
    assert EncodeUnsigned(7) == [70];
    assert EncodeUnsigned(234) == [105, 70];
    assert EncodeUnsigned(7519) == [126, 105, 70];
    assert EncodeUnsigned(240625) == [112, 126, 105, 70];
  }

  lemma FirstLongitude()
    ensures EncodeSigned(-12020000) == Bytes("~ps|U")
  {
    assert ZigZag(-12020000) == 24039999;
    assert EncodeUnsigned(22) == [85];
    assert EncodeUnsigned(733) == [124, 85];
    assert EncodeUnsigned(23476) == [115, 124, 85];
    assert EncodeUnsigned(751249) == [112, 115, 124, 85];
  }

  lemma SecondLatitude()
    ensures EncodeSigned(220000) == Bytes("_ulL")
  {
    assert ZigZag(220000) == 440000;
    assert EncodeUnsigned(13) == [76];
    assert EncodeUnsigned(429) == [108, 76];
    assert EncodeUnsigned(13750) == [117, 108, 76];
  }

  lemma SecondLongitude()
    ensures EncodeSigned(-75000) == Bytes("nnqC")
  {
    assert ZigZag(-75000) == 149999;
    assert EncodeUnsigned(4) == [67];
    assert EncodeUnsigned(146) == [113, 67];
    assert EncodeUnsigned(4687) == [110, 113, 67];
  }

  lemma ThirdLatitude()
    ensures EncodeSigned(255200) == Bytes("_mqN")
  {
    assert ZigZag(255200) == 510400;
    assert EncodeUnsigned(15) == [78];
    assert EncodeUnsigned(498) == [113, 78];
    assert EncodeUnsigned(15950) == [109, 113, 78];
  }

  lemma ThirdLongitude()
    ensures EncodeSigned(-550300) == Bytes("vxq`@")
  {
    assert ZigZag(-550300) == 1100599;
    assert EncodeUnsigned(1) == [64];
    assert EncodeUnsigned(33) == [96, 64];
    assert EncodeUnsigned(1074) == [113, 96, 64];
    assert EncodeUnsigned(34393) == [120, 113, 96, 64];
  }

  const FIRST := Coordinate(38.5, -120.2)
  const SECOND := Coordinate(40.7, -120.95)
  const THIRD := Coordinate(43.252, -126.453)

  const LAST_PART := "_mqN" + "vxq`@" + ""
  const LATER_PARTS := "_ulL" + "nnqC" + LAST_PART
  const PUBLISHED := "_p~iF" + "~ps|U" + LATER_PARTS

  /** The format's published example: three points, latitude before longitude. */
  lemma {:induction false} PublishedExample()
    ensures Encode([FIRST, SECOND, THIRD], 0, 0) == Bytes(PUBLISHED)
  {
    PublishedRounding();
    FirstLatitude();
    FirstLongitude();
    PublishedRest();
    assert [FIRST, SECOND, THIRD][1..] == [SECOND, THIRD];
    PointIs([FIRST, SECOND, THIRD], 0, 0, "_p~iF", "~ps|U", LATER_PARTS);
  }

  lemma PublishedRest()
    ensures Encode([SECOND, THIRD], 3850000, -12020000) == Bytes(LATER_PARTS)
  {
    PublishedRounding();
    SecondLatitude();
    SecondLongitude();
    PublishedLast();
    assert [SECOND, THIRD][1..] == [THIRD];
    PointIs([SECOND, THIRD], 3850000, -12020000, "_ulL", "nnqC", LAST_PART);
  }

  lemma PublishedLast()
    ensures Encode([THIRD], 4070000, -12095000) == Bytes(LAST_PART)
  {
    PublishedRounding();
    ThirdLatitude();
    ThirdLongitude();
    assert [THIRD][1..] == [] && Bytes("") == [];
    PointIs([THIRD], 4070000, -12095000, "_mqN", "vxq`@", "");
  }

  /** The text of a track from those of its first point and of the rest. */
  lemma PointIs(track: seq<Coordinate>, lat: int, lon: int, a: string, b: string, rest: string)
    requires track != [] && Doubles(lat) && Doubles(lon) && Doubles(Round(track[0].lat)) && Doubles(Round(track[0].lon))
    requires var lat', lon' := Round(track[0].lat), Round(track[0].lon);
      EncodeSigned(lat' - lat) == Bytes(a) && EncodeSigned(lon' - lon) == Bytes(b) && Encode(track[1..], lat', lon') == Bytes(rest)
    ensures Encode(track, lat, lon) == Bytes(a + b + rest)
  {
    BytesJoin(a, b, rest);
  }

  lemma BytesJoin(a: string, b: string, c: string)
    ensures Bytes(a) + Bytes(b) + Bytes(c) == Bytes(a + b + c)
  {
  }

  lemma PublishedRounding()
    ensures Round(FIRST.lat) == 3850000 && Round(SECOND.lat) == 4070000 && Round(THIRD.lat) == 4325200
    ensures Round(FIRST.lon) == -12020000 && Round(SECOND.lon) == -12095000 && Round(THIRD.lon) == -12645300
  {
  }
}
