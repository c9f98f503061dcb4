/** Messages to DATA payloads and back.

    A message is cut into chunks of `max_frame - 1` bytes; each chunk travels
    behind one flag byte, compressed when that makes it smaller. */
module Fragments {
  import opened MuxTypes

  const FLAG_COMPRESSED: byte := 1
  const FLAG_MORE: byte := 2
  const FLAGS_KNOWN: byte := 3
  const DECOMPRESS_CAP_FACTOR := 8
  const MIN_COMPRESS_LEN := 1024
  const ENTROPY_SAMPLE := 4096

  /** One decoded fragment. */
  datatype Frag = Frag(more: bool, data: Bytes)
  datatype FragError = BadFlags | BadBody

  // ---------------------------------------------------------------- sending

  function NFrags(len: nat, k: nat): nat
    requires k > 0
  { Max((len + k - 1) / k, 1) }

  function Chunks(msg: Bytes, k: nat): (r: seq<Bytes>)
    requires k > 0
    ensures |r| >= 1
    decreases |msg|
  {
    if |msg| <= k then [msg] else [msg[..k]] + Chunks(msg[k..], k)
  }

  function ShouldCompress(env: Env, stance: Compress, class_: Class, chunk: Bytes): bool {
    stance != Never && class_ != Realtime && |chunk| >= MIN_COMPRESS_LEN
    && env.worthIt(chunk[..Min(|chunk|, ENTROPY_SAMPLE)])
  }

  function FragPayload(env: Env, stance: Compress, class_: Class, chunk: Bytes, more: bool): Bytes {
    var flag: byte := if more then FLAG_MORE else 0;
    var squeezed := if ShouldCompress(env, stance, class_, chunk) then env.compress(chunk) else None;
    if squeezed.Some? && |squeezed.value| < |chunk|
    then [flag | FLAG_COMPRESSED] + squeezed.value
    else [flag] + chunk
  }

  /** The payloads of a chunk list; every chunk but the last carries MORE. */
  function Payloads(env: Env, stance: Compress, class_: Class, chunks: seq<Bytes>): (r: seq<Bytes>)
    ensures |r| == |chunks|
  {
    if chunks == [] then []
    else [FragPayload(env, stance, class_, chunks[0], |chunks| > 1)]
         + Payloads(env, stance, class_, chunks[1..])
  }

  function Fragment(env: Env, stance: Compress, class_: Class, msg: Bytes, maxFrame: nat): seq<Bytes>
    requires maxFrame >= 2
  { Payloads(env, stance, class_, Chunks(msg, maxFrame - 1)) }

  function TotalBytes(ps: seq<Bytes>): nat {
    if ps == [] then 0 else |ps[0]| + TotalBytes(ps[1..])
  }

  // -------------------------------------------------------------- receiving

  function DecodeFrag(env: Env, maxFrame: nat, p: Bytes): Result<Frag, FragError> {
    if |p| == 0 || p[0] & !FLAGS_KNOWN != 0 then Err(BadFlags)
    else
      var more := p[0] & FLAG_MORE != 0;
      if p[0] & FLAG_COMPRESSED != 0 then
        match env.decompress(p[1..], maxFrame * DECOMPRESS_CAP_FACTOR)
        case Some(d) => Ok(Frag(more, d))
        case None => Err(BadBody)
      else Ok(Frag(more, p[1..]))
  }

  /** What an honest sender sends: a fragment that is not the last is not empty. */
  predicate Good(env: Env, mf: nat, p: Bytes) {
    DecodeFrag(env, mf, p).Ok? && 1 <= |p| <= mf && (Dec(env, mf, p).more ==> Dec(env, mf, p).data != [])
  }

  function Dec(env: Env, mf: nat, p: Bytes): Frag {
    match DecodeFrag(env, mf, p)
    case Ok(f) => f
    case Err(_) => Frag(false, [])
  }

  /** The messages completed by payloads `ps` on top of the partial message `acc`. */
  function Msgs(env: Env, mf: nat, acc: Bytes, ps: seq<Bytes>): seq<Bytes>
    decreases |ps|
  {
    if ps == [] then [] else
      var f := Dec(env, mf, ps[0]);
      if f.more then Msgs(env, mf, acc + f.data, ps[1..])
      else [acc + f.data] + Msgs(env, mf, [], ps[1..])
  }

  /** The partial message left after them. */
  function Left(env: Env, mf: nat, acc: Bytes, ps: seq<Bytes>): Bytes
    decreases |ps|
  {
    if ps == [] then acc else
      var f := Dec(env, mf, ps[0]);
      Left(env, mf, if f.more then acc + f.data else [], ps[1..])
  }

  /** No partial message on the way exceeds `max`, and every payload decodes. */
  predicate Fits(env: Env, mf: nat, max: nat, acc: Bytes, ps: seq<Bytes>)
    decreases |ps|
  {
    if ps == [] then true else
      var f := Dec(env, mf, ps[0]);
      Good(env, mf, ps[0]) && |acc| + |f.data| <= max
      && Fits(env, mf, max, if f.more then acc + f.data else [], ps[1..])
  }

  // ----------------------------------------------------------------- lemmas

  lemma {:induction false} TotalAppend(a: seq<Bytes>, b: seq<Bytes>)
    ensures TotalBytes(a + b) == TotalBytes(a) + TotalBytes(b)
  {
    if a == [] {
      assert a + b == b;
    } else {
      assert (a + b)[1..] == a[1..] + b;
      TotalAppend(a[1..], b);
    }
  }

  /** Reassembly of a concatenation goes through the partial message in between. */
  lemma {:induction false} ReassembleAppend(env: Env, mf: nat, max: nat, acc: Bytes, a: seq<Bytes>, b: seq<Bytes>)
    ensures var mid := Left(env, mf, acc, a);
            && Msgs(env, mf, acc, a + b) == Msgs(env, mf, acc, a) + Msgs(env, mf, mid, b)
            && Left(env, mf, acc, a + b) == Left(env, mf, mid, b)
            && (Fits(env, mf, max, acc, a + b) <==> Fits(env, mf, max, acc, a) && Fits(env, mf, max, mid, b))
    decreases |a|
  {
    if a == [] {
      assert a + b == b;
    } else {
      assert (a + b)[0] == a[0] && (a + b)[1..] == a[1..] + b;
      var f := Dec(env, mf, a[0]);
      ReassembleAppend(env, mf, max, if f.more then acc + f.data else [], a[1..], b);
    }
  }

  lemma {:induction false} ChunkCount(msg: Bytes, k: nat)
    requires k > 0
    ensures |Chunks(msg, k)| == NFrags(|msg|, k)
    decreases |msg|
  {
    if |msg| > k {
      ChunkCount(msg[k..], k);
      var n := |msg|;
      assert (n + k - 1) / k == (n - k + k - 1) / k + 1 by { DivStep(n - 1, k); }
      assert NFrags(n - k, k) >= 1;
      assert (n - k + k - 1) / k >= 1 by { DivAtLeastOne(n - 1, k); }
    } else if |msg| >= 1 {
      DivIsOne(|msg|, k);
    } else {
      assert (k - 1) / k == 0 by { DivZero(k); }
    }
  }

  lemma DivStep(n: nat, k: nat)
    requires k > 0
    ensures (n + k) / k == n / k + 1
  {
    var q, r := n / k, n % k;
    assert n + k == (q + 1) * k + r by { assert n == q * k + r; }
    DivUnique(n + k, k, q + 1, r);
  }

  lemma DivUnique(n: nat, k: nat, q: nat, r: nat)
    requires 0 <= r < k && n == q * k + r
    ensures n / k == q
  {
    var q', r' := n / k, n % k;
    assert n == q' * k + r' && 0 <= r' < k;
    assert q' < q ==> (q' + 1) * k <= q * k;
    assert q' > q ==> (q + 1) * k <= q' * k;
  }

  lemma DivAtLeastOne(n: nat, k: nat)
    requires k > 0 && n >= k
    ensures n / k >= 1
  { DivStep(n - k, k); }

  lemma DivIsOne(n: nat, k: nat)
    requires 1 <= n <= k
    ensures (n + k - 1) / k == 1
  { DivUnique(n + k - 1, k, 1, n - 1); }

  lemma DivZero(k: nat)
    requires k > 0
    ensures (k - 1) / k == 0
  { DivUnique(k - 1, k, 0, k - 1); }

  lemma FlagBits(more: bool, comp: bool, flag: byte)
    requires flag == (if more then FLAG_MORE else 0) | (if comp then FLAG_COMPRESSED else 0)
    ensures flag & !FLAGS_KNOWN == 0
    ensures (flag & FLAG_MORE != 0) == more
    ensures (flag & FLAG_COMPRESSED != 0) == comp
  {}

  /** A payload decodes to the chunk and flag it was made from, within `max_frame` bytes. */
  lemma PayloadDecodes(env: Env, stance: Compress, class_: Class, chunk: Bytes, more: bool, mf: nat)
    requires mf >= 2 && |chunk| <= mf - 1
    ensures var p := FragPayload(env, stance, class_, chunk, more);
            DecodeFrag(env, mf, p) == Ok(Frag(more, chunk)) && 1 <= |p| <= |chunk| + 1
  {
    var p := FragPayload(env, stance, class_, chunk, more);
    var squeezed := if ShouldCompress(env, stance, class_, chunk) then env.compress(chunk) else None;
    if squeezed.Some? && |squeezed.value| < |chunk| {
      FlagBits(more, true, p[0]);
      assert p[1..] == squeezed.value;
      var cap: nat := mf * DECOMPRESS_CAP_FACTOR;
      assert env.compress(chunk).Some? && |chunk| <= cap;
    } else {
      assert p[0] == (if more then FLAG_MORE else 0) | 0;
      FlagBits(more, false, p[0]);
      assert p[1..] == chunk;
    }
  }

  function Flatten(chunks: seq<Bytes>): Bytes {
    if chunks == [] then [] else chunks[0] + Flatten(chunks[1..])
  }

  lemma {:induction false} ChunksFlatten(msg: Bytes, k: nat)
    requires k > 0
    ensures Flatten(Chunks(msg, k)) == msg
    ensures forall i | 0 <= i < |Chunks(msg, k)| ::
      |Chunks(msg, k)[i]| <= k && (i < |Chunks(msg, k)| - 1 ==> Chunks(msg, k)[i] != [])
    decreases |msg|
  {
    if |msg| <= k {
      assert Flatten([msg]) == msg + Flatten([]) == msg;
    } else {
      ChunksFlatten(msg[k..], k);
      var rest := Chunks(msg[k..], k);
      assert Chunks(msg, k)[1..] == rest;
      assert Chunks(msg, k) == [msg[..k]] + rest;
      assert msg == msg[..k] + msg[k..];
    }
  }

  /** The payloads of a nonempty chunk list reassemble to exactly one message. */
  lemma {:induction false} PayloadsReassemble(env: Env, stance: Compress, class_: Class, acc: Bytes, chunks: seq<Bytes>, mf: nat, max: nat)
    requires mf >= 2 && chunks != []
    requires forall i | 0 <= i < |chunks| :: |chunks[i]| <= mf - 1 && (i < |chunks| - 1 ==> chunks[i] != [])
    requires |acc| + |Flatten(chunks)| <= max
    ensures var ps := Payloads(env, stance, class_, chunks);
            && Msgs(env, mf, acc, ps) == [acc + Flatten(chunks)]
            && Left(env, mf, acc, ps) == []
            && Fits(env, mf, max, acc, ps)
            && TotalBytes(ps) <= |Flatten(chunks)| + |chunks|
            && (forall i | 0 <= i < |ps| :: Good(env, mf, ps[i]))
    decreases |chunks|
  {
    var ps := Payloads(env, stance, class_, chunks);
    var more := |chunks| > 1;
    PayloadDecodes(env, stance, class_, chunks[0], more, mf);
    assert ps[0] == FragPayload(env, stance, class_, chunks[0], more);
    assert ps[1..] == Payloads(env, stance, class_, chunks[1..]);
    assert Good(env, mf, ps[0]) && Dec(env, mf, ps[0]) == Frag(more, chunks[0]);
    hide FragPayload, DecodeFrag, Dec, Good, ShouldCompress;
    if more {
      var acc' := acc + chunks[0];
      PayloadsReassemble(env, stance, class_, acc', chunks[1..], mf, max);
      assert acc' + Flatten(chunks[1..]) == acc + Flatten(chunks);
    } else {
      assert chunks[1..] == [] && ps[1..] == [];
      assert Flatten(chunks) == chunks[0];
    }
  }

  /** Fragmentation is invertible: whatever the frame size and whichever
      fragments were compressed, the payloads carry the message whole, within
      the cost `send` charges for it. */
  lemma FragmentReassembles(env: Env, stance: Compress, class_: Class, msg: Bytes, mf: nat, max: nat)
    requires mf >= 2 && |msg| <= max
    ensures var ps := Fragment(env, stance, class_, msg, mf);
            && Msgs(env, mf, [], ps) == [msg]
            && Left(env, mf, [], ps) == []
            && Fits(env, mf, max, [], ps)
            && 1 <= TotalBytes(ps) <= |msg| + NFrags(|msg|, mf - 1)
            && |ps| >= 1
            && (forall i | 0 <= i < |ps| :: Good(env, mf, ps[i]))
  {
    var chunks := Chunks(msg, mf - 1);
    ChunksFlatten(msg, mf - 1);
    ChunkCount(msg, mf - 1);
    PayloadsReassemble(env, stance, class_, [], chunks, mf, max);
    assert [] + Flatten(chunks) == msg;
    var ps := Payloads(env, stance, class_, chunks);
    assert Good(env, mf, ps[0]);
  }
}
