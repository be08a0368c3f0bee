/** The three audio remixers (DOWNMIX, UPMIX, PASSTHROUGH) over `java.nio.ShortBuffer`s,
    with Kotlin `Int` and `toShort()` semantics written out. */
module AudioRemixer {
  import opened Common

  /** `after` is `before` with `produced` written at index `at` and nothing else changed. */
  ghost predicate WrittenAt(after: seq<short>, before: seq<short>, at: nat, produced: seq<short>) {
    && |after| == |before|
    && at + |produced| <= |before|
    && (forall k :: 0 <= k < |produced| ==> after[at + k] == produced[k])
    && (forall j :: 0 <= j < |before| && !(at <= j < at + |produced|) ==> after[j] == before[j])
  }

  /** A `java.nio.ShortBuffer`: backing array (its length is the capacity), position and limit. */
  class ShortBuffer {
    var data: array<short>
    var position: nat
    var limit: nat

    ghost predicate Valid()
      reads this
    {
      position <= limit <= data.Length
    }

    /** `remaining()`. */
    function Remaining(): (r: nat)
      reads this
      requires Valid()
      ensures position + r == limit
    {
      limit - position
    }

    /** A buffer over a copy of `contents`, position 0 and limit at the end. */
    constructor Wrap(contents: seq<short>)
      ensures Valid() && fresh(data)
      ensures data[..] == contents && position == 0 && limit == |contents|
    {
      data := new short[|contents|](i requires 0 <= i < |contents| => contents[i]);
      position, limit := 0, |contents|;
    }

    /** `allocateDirect(...).asShortBuffer()`: zero-filled, position 0, limit = capacity. */
    constructor Allocate(capacity: nat)
      ensures Valid() && fresh(data)
      ensures data.Length == capacity && position == 0 && limit == capacity
      ensures forall i :: 0 <= i < capacity ==> data[i] == 0
    {
      data := new short[capacity](_ => 0);
      position, limit := 0, capacity;
    }

    /** `clear()`: position 0, limit = capacity; contents untouched. */
    method Clear()
      modifies this
      ensures Valid() && data == old(data)
      ensures position == 0 && limit == data.Length
    {
      position, limit := 0, data.Length;
    }

    /** `flip()`: the limit becomes the position and the position 0. */
    method Flip()
      requires Valid()
      modifies this
      ensures Valid() && data == old(data)
      ensures limit == old(position) && position == 0
    {
      position, limit := 0, position;
    }

    /** `limit(newLimit)`: a position beyond the new limit is pulled back to it. */
    method SetLimit(newLimit: nat)
      requires Valid() && newLimit <= data.Length
      modifies this
      ensures Valid() && data == old(data) && limit == newLimit
      ensures position == if old(position) > newLimit then newLimit else old(position)
    {
      limit := newLimit;
      if position > newLimit {
        position := newLimit;
      }
    }

    /** Bulk `put(src)`: copies all of `src`'s remaining shorts, or throws
        `BufferOverflowException` (ok == false) before copying anything. */
    method Put(src: ShortBuffer) returns (ok: bool)
      requires Valid() && src.Valid() && src.data != data
      modifies this, data, src
      ensures Valid() && src.Valid()
      ensures data == old(data) && src.data == old(src.data)
      ensures limit == old(limit) && src.limit == old(src.limit)
      ensures ok == (old(src.Remaining()) <= old(Remaining()))
      ensures ok ==> position == old(position) + old(src.Remaining()) && src.position == src.limit
      ensures ok ==> WrittenAt(data[..], old(data[..]), old(position), old(src.data[src.position..src.limit]))
      ensures !ok ==> position == old(position) && src.position == old(src.position) && data[..] == old(data[..])
    {
      var n := src.limit - src.position;
      if n > limit - position {
        return false;
      }
      ghost var copied := src.data[src.position..src.limit];
      forall k | 0 <= k < n {
        data[position + k] := src.data[src.position + k];
      }
      position := position + n;
      src.position := src.limit;
      ok := true;
    }
  }

  const SIGNED_SHORT_LIMIT: int := 32768
  const UNSIGNED_SHORT_MAX: int := 65535

  /** The `Int` value `m` that DOWNMIX computes from one stereo pair, before the clamp:
      every `Int` operation wraps to 32 bits and `/` truncates toward zero. */
  function MixLevel(left: short, right: short): int {
    var a := left as int + SIGNED_SHORT_LIMIT;
    var b := right as int + SIGNED_SHORT_LIMIT;
    if a < SIGNED_SHORT_LIMIT || b < SIGNED_SHORT_LIMIT then
      TruncDiv(Wrap32(a * b), SIGNED_SHORT_LIMIT)
    else
      Wrap32(Wrap32(2 * (a + b) - TruncDiv(Wrap32(a * b), SIGNED_SHORT_LIMIT)) - UNSIGNED_SHORT_MAX)
  }

  /** The mono sample DOWNMIX writes for one stereo pair: only m == 65536 is clamped,
      then `(m - 32768).toShort()`. */
  function DownmixSample(left: short, right: short): short {
    var m := MixLevel(left, right);
    var clamped := if m == UNSIGNED_SHORT_MAX + 1 then UNSIGNED_SHORT_MAX else m;
    Wrap16(clamped - SIGNED_SHORT_LIMIT)
  }

  /** Which formula DOWNMIX picks, and what it computes, for unsigned a = left + 32768, b = right + 32768. */
  lemma DownmixBranches(left: short, right: short)
    ensures var a, b := left as int + 32768, right as int + 32768;
      && 0 <= a <= 65535 && 0 <= b <= 65535
      && ((a < 32768 || b < 32768) ==> MixLevel(left, right) == a * b / 32768)
      && ((a >= 32768 && b >= 32768) ==>
            MixLevel(left, right) == 2 * (a + b) - TruncDiv(Wrap32(a * b), 32768) - 65535)
      && ((a >= 32768 && b >= 32768 && a * b <= INT_MAX) ==>
            MixLevel(left, right) == 2 * (a + b) - a * b / 32768 - 65535)
  {
    var a, b := left as int + 32768, right as int + 32768;
    if a < 32768 || b < 32768 {
      QuietProductFits(a, b);
    } else {
      LoudProductBounds(a, b);
      var q := TruncDiv(Wrap32(a * b), 32768);
      assert -65536 <= q <= 65535;
    }
  }

  lemma QuietProductFits(a: int, b: int)
    requires 0 <= a <= 65535 && 0 <= b <= 65535 && (a < 32768 || b < 32768)
    ensures 0 <= a * b <= 32767 * 65535 < INT_MAX
  {
    MulNonneg(a, b);
    if a < 32768 {
      MulMono(a, 32767, b);
      MulMono(b, 65535, 32767);
      assert b * 32767 == 32767 * b;
    } else {
      MulMono(b, 32767, a);
      MulMono(a, 65535, 32767);
      assert a * b == b * a;
    }
  }

  lemma LoudProductBounds(a: int, b: int)
    requires 32768 <= a <= 65535 && 32768 <= b <= 65535
    ensures 32768 * 32768 <= a * b <= 65535 * 65535
  {
    MulMono(32768, a, 32768);
    MulMono(32768, b, a);
    assert a * 32768 == 32768 * a;
    MulMono(a, 65535, b);
    MulMono(b, 65535, 65535);
    assert 65535 * b == b * 65535;
  }

  lemma Wrap32Above(x: int)
    requires INT_MAX < x < 0x1_8000_0000
    ensures Wrap32(x) == x - 0x1_0000_0000
  {
  }

  /** Quiet branch: a*b fits a 32-bit Int, m is in [0, 65533], and the output is m - 32768
      in [-32768, 32765] with no wrap-around. */
  lemma QuietBranchInRange(left: short, right: short)
    requires left < 0 || right < 0
    ensures 0 <= MixLevel(left, right) <= 65533
    ensures DownmixSample(left, right) as int == MixLevel(left, right) - 32768
    ensures -32768 <= DownmixSample(left, right) as int <= 32765
  {
    var a, b := left as int + 32768, right as int + 32768;
    QuietProductFits(a, b);
    DownmixBranches(left, right);
    assert MixLevel(left, right) == a * b / 32768;
  }

  /** Loud branch: once both unsigned values reach 46341 the product overflows a 32-bit Int. */
  lemma LoudProductOverflows(left: short, right: short)
    requires left as int + 32768 >= 46341 && right as int + 32768 >= 46341
    ensures (left as int + 32768) * (right as int + 32768) > INT_MAX
    ensures Wrap32((left as int + 32768) * (right as int + 32768)) < 0
  {
    var a, b := left as int + 32768, right as int + 32768;
    MulMono(46341, a, 46341);
    MulMono(46341, b, a);
    assert 46341 * a == a * 46341;
    LoudProductBounds(a, b);
    Wrap32Above(a * b);
  }

  /** Only m == 65536 is clamped; every other m goes through the 16-bit wrap of `toShort()`. */
  lemma DownmixConversion(left: short, right: short)
    ensures MixLevel(left, right) == 65536 ==> DownmixSample(left, right) == 32767
    ensures MixLevel(left, right) != 65536 ==>
      (DownmixSample(left, right) as int - (MixLevel(left, right) - 32768)) % 65536 == 0
    ensures 0 <= MixLevel(left, right) <= 65535 ==>
      DownmixSample(left, right) as int == MixLevel(left, right) - 32768
  {
  }

  /** The number of mono samples DOWNMIX produces: min(in.remaining() / 2, out.remaining()). */
  function DownmixCount(inRemaining: nat, outRemaining: nat): (n: nat)
    ensures 2 * n <= inRemaining && n <= outRemaining
    ensures n == outRemaining || inRemaining - 2 * n <= 1
  {
    if inRemaining / 2 < outRemaining then inRemaining / 2 else outRemaining
  }

  /** The number of mono samples UPMIX consumes: min(in.remaining(), out.remaining() / 2). */
  function UpmixCount(inRemaining: nat, outRemaining: nat): (n: nat)
    ensures n <= inRemaining && 2 * n <= outRemaining
    ensures n == inRemaining || outRemaining - 2 * n <= 1
  {
    if inRemaining < outRemaining / 2 then inRemaining else outRemaining / 2
  }

  /** Interleaved stereo pairs downmixed to mono; an odd trailing short is ignored. */
  function Downmixed(s: seq<short>): (r: seq<short>)
    ensures |r| == |s| / 2
  {
    seq(|s| / 2, k requires 0 <= k < |s| / 2 => DownmixSample(s[2 * k], s[2 * k + 1]))
  }

  /** Each mono sample written twice, consecutively. */
  function Upmixed(s: seq<short>): (r: seq<short>)
    ensures |r| == 2 * |s|
  {
    seq(2 * |s|, j requires 0 <= j < 2 * |s| => s[j / 2])
  }

  /** Downmixing a stream chunk by chunk, each chunk whole stereo pairs, is downmixing it
      at once. */
  lemma DownmixedConcat(a: seq<short>, b: seq<short>)
    requires |a| % 2 == 0
    ensures Downmixed(a + b) == Downmixed(a) + Downmixed(b)
  {
    var ab := a + b;
    forall k | |a| / 2 <= k < |ab| / 2
      ensures Downmixed(ab)[k] == Downmixed(b)[k - |a| / 2]
    {
      var j := k - |a| / 2;
      assert ab[2 * k] == b[2 * j] && ab[2 * k + 1] == b[2 * j + 1];
    }
  }

  /** Upmixing a stream chunk by chunk is upmixing it at once. */
  lemma UpmixedConcat(a: seq<short>, b: seq<short>)
    ensures Upmixed(a + b) == Upmixed(a) + Upmixed(b)
  {
    var ab := a + b;
    forall j | 2 * |a| <= j < 2 * |ab|
      ensures Upmixed(ab)[j] == Upmixed(b)[j - 2 * |a|]
    {
      assert (j - 2 * |a|) / 2 == j / 2 - |a|;
    }
  }

  /** The DOWNMIX loop on the backing arrays: `n` stereo pairs from `ip0` mixed into `n` mono
      shorts at `op0`. */
  method DownmixLoop(inData: array<short>, ip0: nat, outData: array<short>, op0: nat, n: nat)
    requires inData != outData && ip0 + 2 * n <= inData.Length && op0 + n <= outData.Length
    modifies outData
    ensures WrittenAt(outData[..], old(outData[..]), op0, Downmixed(inData[ip0..ip0 + 2 * n]))
  {
    ghost var before := outData[..];
    for i := 0 to n
      invariant forall k :: 0 <= k < i ==> outData[op0 + k] == DownmixSample(inData[ip0 + 2 * k], inData[ip0 + 2 * k + 1])
      invariant forall j :: 0 <= j < outData.Length && !(op0 <= j < op0 + i) ==> outData[j] == before[j]
    {
      var left := inData[ip0 + 2 * i];
      var right := inData[ip0 + 2 * i + 1];
      outData[op0 + i] := DownmixSample(left, right);
    }
    ghost var taken := inData[ip0..ip0 + 2 * n];
    ghost var produced := Downmixed(taken);
    forall k | 0 <= k < n ensures outData[op0 + k] == produced[k] {
      assert taken[2 * k] == inData[ip0 + 2 * k] && taken[2 * k + 1] == inData[ip0 + 2 * k + 1];
    }
  }

  /** DOWNMIX: reads two shorts per mono short written, min(in.remaining()/2, out.remaining()) times. */
  method DownmixRemix(inBuf: ShortBuffer, outBuf: ShortBuffer)
    requires inBuf.Valid() && outBuf.Valid() && inBuf.data != outBuf.data
    modifies inBuf, outBuf, outBuf.data
    ensures inBuf.Valid() && outBuf.Valid()
    ensures inBuf.data == old(inBuf.data) && outBuf.data == old(outBuf.data)
    ensures inBuf.limit == old(inBuf.limit) && outBuf.limit == old(outBuf.limit)
    ensures var n := DownmixCount(old(inBuf.Remaining()), old(outBuf.Remaining()));
      && inBuf.position == old(inBuf.position) + 2 * n
      && outBuf.position == old(outBuf.position) + n
      && WrittenAt(outBuf.data[..], old(outBuf.data[..]), old(outBuf.position),
                   Downmixed(inBuf.data[old(inBuf.position)..inBuf.position]))
  {
    var n := DownmixCount(inBuf.limit - inBuf.position, outBuf.limit - outBuf.position);
    DownmixLoop(inBuf.data, inBuf.position, outBuf.data, outBuf.position, n);
    inBuf.position, outBuf.position := inBuf.position + 2 * n, outBuf.position + n;
  }

  /** The UPMIX loop on the backing arrays: `n` mono shorts from `ip0` each written twice at `op0`. */
  method UpmixLoop(inData: array<short>, ip0: nat, outData: array<short>, op0: nat, n: nat)
    requires inData != outData && ip0 + n <= inData.Length && op0 + 2 * n <= outData.Length
    modifies outData
    ensures WrittenAt(outData[..], old(outData[..]), op0, Upmixed(inData[ip0..ip0 + n]))
  {
    ghost var before := outData[..];
    for i := 0 to n
      invariant forall k :: 0 <= k < i ==> outData[op0 + 2 * k] == inData[ip0 + k] && outData[op0 + 2 * k + 1] == inData[ip0 + k]
      invariant forall j :: 0 <= j < outData.Length && !(op0 <= j < op0 + 2 * i) ==> outData[j] == before[j]
    {
      var sample := inData[ip0 + i];
      outData[op0 + 2 * i] := sample;
      outData[op0 + 2 * i + 1] := sample;
    }
    ghost var taken := inData[ip0..ip0 + n];
    ghost var produced := Upmixed(taken);
    forall k | 0 <= k < 2 * n ensures outData[op0 + k] == produced[k] {
      var h := k / 2;
      assert produced[k] == taken[h] == inData[ip0 + h];
      assert k == 2 * h || k == 2 * h + 1;
    }
  }

  /** UPMIX: writes each of min(in.remaining(), out.remaining()/2) shorts twice. */
  method UpmixRemix(inBuf: ShortBuffer, outBuf: ShortBuffer)
    requires inBuf.Valid() && outBuf.Valid() && inBuf.data != outBuf.data
    modifies inBuf, outBuf, outBuf.data
    ensures inBuf.Valid() && outBuf.Valid()
    ensures inBuf.data == old(inBuf.data) && outBuf.data == old(outBuf.data)
    ensures inBuf.limit == old(inBuf.limit) && outBuf.limit == old(outBuf.limit)
    ensures var n := UpmixCount(old(inBuf.Remaining()), old(outBuf.Remaining()));
      && inBuf.position == old(inBuf.position) + n
      && outBuf.position == old(outBuf.position) + 2 * n
      && WrittenAt(outBuf.data[..], old(outBuf.data[..]), old(outBuf.position),
                   Upmixed(inBuf.data[old(inBuf.position)..inBuf.position]))
  {
    var n := UpmixCount(inBuf.limit - inBuf.position, outBuf.limit - outBuf.position);
    UpmixLoop(inBuf.data, inBuf.position, outBuf.data, outBuf.position, n);
    inBuf.position, outBuf.position := inBuf.position + n, outBuf.position + 2 * n;
  }

  /** The remixer `AudioChannel` selects (a closed set of three objects in the source). */
  datatype Remixer = Downmix | Upmix | Passthrough

  /** Input shorts a remixer consumes from buffers with these remaining counts,
      when it does not throw. */
  function ConsumedCount(r: Remixer, inRemaining: nat, outRemaining: nat): nat {
    match r
    case Downmix => 2 * DownmixCount(inRemaining, outRemaining)
    case Upmix => UpmixCount(inRemaining, outRemaining)
    case Passthrough => inRemaining
  }

  /** What a remixer writes for the input shorts it consumed. */
  function RemixOutput(r: Remixer, consumed: seq<short>): seq<short> {
    match r
    case Downmix => Downmixed(consumed)
    case Upmix => Upmixed(consumed)
    case Passthrough => consumed
  }

  /** Only PASSTHROUGH can throw: its bulk put overflows when out has less room than in holds. */
  predicate RemixThrows(r: Remixer, inRemaining: nat, outRemaining: nat) {
    r == Passthrough && inRemaining > outRemaining
  }

  /** `remix(in, out)` on the selected remixer; ok == false is PASSTHROUGH's BufferOverflowException,
      after which neither buffer has changed. */
  method Remix(r: Remixer, inBuf: ShortBuffer, outBuf: ShortBuffer) returns (ok: bool)
    requires inBuf.Valid() && outBuf.Valid() && inBuf.data != outBuf.data
    modifies inBuf, outBuf, outBuf.data
    ensures inBuf.Valid() && outBuf.Valid()
    ensures inBuf.data == old(inBuf.data) && outBuf.data == old(outBuf.data)
    ensures inBuf.limit == old(inBuf.limit) && outBuf.limit == old(outBuf.limit)
    ensures ok == !RemixThrows(r, old(inBuf.Remaining()), old(outBuf.Remaining()))
    ensures ok ==>
      && inBuf.position == old(inBuf.position) + ConsumedCount(r, old(inBuf.Remaining()), old(outBuf.Remaining()))
      && outBuf.position == old(outBuf.position) + |RemixOutput(r, inBuf.data[old(inBuf.position)..inBuf.position])|
      && WrittenAt(outBuf.data[..], old(outBuf.data[..]), old(outBuf.position),
                   RemixOutput(r, inBuf.data[old(inBuf.position)..inBuf.position]))
    ensures !ok ==> (inBuf.position == old(inBuf.position) && outBuf.position == old(outBuf.position)
      && outBuf.data[..] == old(outBuf.data[..]))
  {
    match r
    case Downmix =>
      DownmixRemix(inBuf, outBuf);
      ok := true;
    case Upmix =>
      UpmixRemix(inBuf, outBuf);
      ok := true;
    case Passthrough =>
      ok := outBuf.Put(inBuf);
  }

  /** A remixer never writes more than the output buffer had room for, and the output length is
      the input length scaled by outputChannels / inputChannels (pairs for DOWNMIX). */
  lemma RemixLengths(r: Remixer, consumed: seq<short>)
    ensures r == Downmix ==> 2 * |RemixOutput(r, consumed)| + |consumed| % 2 == |consumed|
    ensures r == Upmix ==> |RemixOutput(r, consumed)| == 2 * |consumed|
    ensures r == Passthrough ==> RemixOutput(r, consumed) == consumed
  {
  }

  /** The shorts written fit the room the output buffer had. */
  lemma {:induction false} RemixFits(r: Remixer, inRemaining: nat, outRemaining: nat, consumed: seq<short>)
    requires !RemixThrows(r, inRemaining, outRemaining)
    requires |consumed| == ConsumedCount(r, inRemaining, outRemaining)
    ensures ConsumedCount(r, inRemaining, outRemaining) <= inRemaining
    ensures |RemixOutput(r, consumed)| <= outRemaining
    ensures outRemaining == 0 ==> |consumed| == 0 || r == Passthrough
  {
    match r
    case Downmix =>
      assert |Downmixed(consumed)| == |consumed| / 2 == DownmixCount(inRemaining, outRemaining);
    case Upmix =>
    case Passthrough =>
  }

  /** The downmix DOWNMIX evidently intends: the product in a wide integer and m clamped
      to [0, 65535], so the output never wraps. */
  function CorrectedDownmixSample(left: short, right: short): short {
    var a := left as int + SIGNED_SHORT_LIMIT;
    var b := right as int + SIGNED_SHORT_LIMIT;
    var m := if a < SIGNED_SHORT_LIMIT || b < SIGNED_SHORT_LIMIT then a * b / SIGNED_SHORT_LIMIT
             else 2 * (a + b) - a * b / SIGNED_SHORT_LIMIT - UNSIGNED_SHORT_MAX;
    var clamped := if m > UNSIGNED_SHORT_MAX then UNSIGNED_SHORT_MAX else if m < 0 then 0 else m;
    (clamped - SIGNED_SHORT_LIMIT) as short
  }

  /** As written, two full-scale in-phase samples overflow the 32-bit product and come out
      as the most negative short instead of the loudest positive one. */
  lemma FullScaleDownmixWraps()
    ensures MixLevel(32767, 32767) == 196608
    ensures DownmixSample(32767, 32767) == -32768
  {
    assert Wrap32(65535 * 65535) == -131071;
    assert TruncDiv(-131071, 32768) == -3;
  }

  /** The corrected downmix: full-scale in-phase input gives full scale, the loud branch never
      falls below either input, and it agrees with the as-written formula wherever that one
      neither overflows nor leaves [0, 65535]. */
  lemma CorrectedDownmixInRange(left: short, right: short)
    ensures CorrectedDownmixSample(32767, 32767) == 32767
    ensures left >= 0 && right >= 0 ==>
      CorrectedDownmixSample(left, right) >= left && CorrectedDownmixSample(left, right) >= right
    ensures (left as int + 32768) * (right as int + 32768) <= INT_MAX && 0 <= MixLevel(left, right) <= 65535 ==>
      CorrectedDownmixSample(left, right) == DownmixSample(left, right)
  {
    if left >= 0 && right >= 0 {
      CorrectedLoudAtLeastInputs(left, right);
    }
    CorrectedAgrees(left, right);
  }

  lemma CorrectedLoudAtLeastInputs(left: short, right: short)
    requires left >= 0 && right >= 0
    ensures CorrectedDownmixSample(left, right) >= left && CorrectedDownmixSample(left, right) >= right
  {
    var x, y := left as int, right as int;
    var a, b := x + 32768, y + 32768;
    assert a * b == 32768 * (32768 + x + y) + x * y;
    MulNonneg(x, y);
    MulMono(x, 32767, y);
    MulMono(y, 32767, x);
    assert y * x == x * y;
    var q := x * y / 32768;
    assert q <= y && q <= x;
    assert a * b / 32768 == 32768 + x + y + q;
    var m := 2 * (a + b) - a * b / 32768 - 65535;
    assert m == 32769 + x + y - q;
  }

  lemma CorrectedAgrees(left: short, right: short)
    ensures (left as int + 32768) * (right as int + 32768) <= INT_MAX && 0 <= MixLevel(left, right) <= 65535 ==>
      CorrectedDownmixSample(left, right) == DownmixSample(left, right)
  {
    var a, b := left as int + 32768, right as int + 32768;
    DownmixBranches(left, right);
    if a < 32768 || b < 32768 {
      QuietProductFits(a, b);
    } else {
      LoudProductBounds(a, b);
    }
  }
}
