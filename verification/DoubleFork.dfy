/** host/start-vmm/fork.c: the child sends an int through a pipe, and the two do-while loops that
    write and read it add up the results of calls that may be short, interrupted or fail. */
module DoubleFork {
  import opened Bytes

  const INT_SIZE := 4
  const SIZE_MOD := U64_MOD  // size_t wraps here

  /** What one read or write call does: it moves up to k bytes, or fails with EINTR or otherwise. */
  datatype Io = Moves(k: nat) | Interrupted | Fails

  /** No call fails, not even with EINTR. */
  predicate Smooth(calls: seq<Io>) {
    forall i :: 0 <= i < |calls| ==> calls[i].Moves?
  }

  /** Every call moves at least one byte, and there are enough calls. */
  predicate Clean(calls: seq<Io>) {
    |calls| >= INT_SIZE && Busy(calls)
  }

  predicate Busy(calls: seq<Io>) {
    forall i :: 0 <= i < |calls| ==> calls[i].Moves? && calls[i].k > 0
  }

  function Min(a: nat, b: nat): nat {
    if a < b then a else b
  }

  /** The bytes a call moves. */
  function Moved(io: Io, room: nat): (k: nat)
    ensures k <= room
  {
    if io.Moves? then Min(io.k, room) else 0
  }

  /** acc += r in size_t arithmetic, r being -1 for an interrupted call: that takes 0 to the
      largest size_t. */
  function Advance(acc: nat, io: Io, room: nat): nat {
    match io
    case Moves(_) => acc + Moved(io, room)
    case Interrupted => if acc == 0 then SIZE_MOD - 1 else acc - 1
    case Fails => acc
  }

  /** How a loop stands after some calls: done, ended with r == -1, or still looping. */
  datatype Outcome = Complete | Aborted | Looping

  function Verdict(acc: nat, last: Io): Outcome {
    if last.Fails? then Aborted
    else if acc < INT_SIZE then Looping
    else if last.Interrupted? then Aborted
    else Complete
  }

  // ---- the child's loop -------------------------------------------------------------------

  /** `used`: calls made before the loop ended; `smooth`: none of them failed. */
  datatype Writer = Writer(acc: nat, sent: seq<byte>, out: Outcome, used: nat, smooth: bool)

  function WriteCall(v: seq<byte>, w: Writer, io: Io): Writer
    requires |v| == INT_SIZE && w.acc < INT_SIZE
  {
    var room := INT_SIZE - w.acc;
    var acc := Advance(w.acc, io, room);
    Writer(acc, w.sent + v[w.acc..w.acc + Moved(io, room)], Verdict(acc, io), w.used + 1, w.smooth && io.Moves?)
  }

  function Wrote(v: seq<byte>, calls: seq<Io>): (w: Writer)
    requires |v| == INT_SIZE
    ensures w.used <= |calls| && (w.out.Looping? ==> w.acc < INT_SIZE && w.used == |calls|)
  {
    if calls == [] then Writer(0, [], Looping, 0, true)
    else
      var w := Wrote(v, calls[..|calls| - 1]);
      if w.out.Looping? then WriteCall(v, w, calls[|calls| - 1]) else w
  }

  /** What has been sent is what acc counts, unless a call was interrupted: then it is more. */
  ghost predicate WriterOk(v: seq<byte>, w: Writer)
    requires |v| == INT_SIZE
  {
    match w.out
    case Looping => w.acc < INT_SIZE && if w.smooth then w.sent == v[..w.acc] else w.acc < |w.sent|
    case Complete => if w.smooth then w.sent == v else |w.sent| > INT_SIZE
    case Aborted => !w.smooth
  }

  lemma WriteCallOk(v: seq<byte>, w: Writer, io: Io)
    requires |v| == INT_SIZE && w.out.Looping? && WriterOk(v, w)
    ensures WriterOk(v, WriteCall(v, w, io))
  {
    if io.Moves? {
      var n := w.acc + Moved(io, INT_SIZE - w.acc);
      assert v[..w.acc] + v[w.acc..n] == v[..n];
      assert n == INT_SIZE ==> v[..n] == v;
    }
  }

  lemma {:induction false} WroteOk(v: seq<byte>, calls: seq<Io>)
    requires |v| == INT_SIZE
    ensures WriterOk(v, Wrote(v, calls))
  {
    if calls != [] {
      var front := calls[..|calls| - 1];
      WroteOk(v, front);
      if Wrote(v, front).out.Looping? { WriteCallOk(v, Wrote(v, front), calls[|calls| - 1]); }
    }
  }

  lemma {:induction false} WroteSmooth(v: seq<byte>, calls: seq<Io>)
    requires |v| == INT_SIZE
    ensures var w := Wrote(v, calls); w.smooth <==> Smooth(calls[..w.used])
  {
    if calls != [] {
      var front, io := calls[..|calls| - 1], calls[|calls| - 1];
      WroteSmooth(v, front);
      SmoothSnoc(calls, Wrote(v, front).used);
    }
  }

  lemma SmoothSnoc(calls: seq<Io>, n: nat)
    requires 0 < |calls| && n <= |calls| - 1
    ensures calls[..|calls| - 1][..n] == calls[..n]
    ensures n == |calls| - 1 ==> (Smooth(calls[..n + 1]) <==> Smooth(calls[..n]) && calls[n].Moves?)
  {
    if n == |calls| - 1 {
      assert forall i :: 0 <= i < n ==> calls[..n][i] == calls[..n + 1][i];
      assert calls[..n + 1][n] == calls[n];
    }
  }

  lemma {:induction false} WroteMoves(v: seq<byte>, calls: seq<Io>)
    requires |v| == INT_SIZE && Busy(calls)
    ensures var w := Wrote(v, calls); w.out.Looping? ==> |calls| <= w.acc
  {
    if calls != [] {
      var front := calls[..|calls| - 1];
      WroteMoves(v, front);
    }
  }

  lemma {:induction false} WroteStays(v: seq<byte>, calls: seq<Io>, n: nat)
    requires |v| == INT_SIZE && n <= |calls| && !Wrote(v, calls[..n]).out.Looping?
    ensures Wrote(v, calls) == Wrote(v, calls[..n])
  {
    if n == |calls| {
      assert calls[..n] == calls;
    } else {
      assert calls[..|calls| - 1][..n] == calls[..n];
      WroteStays(v, calls[..|calls| - 1], n);
    }
  }

  /** A completed loop has sent exactly v if and only if no call was interrupted; otherwise it has
      sent bytes twice. When every call moves bytes, it completes within four of them. */
  method WriteLoop(v: seq<byte>, calls: seq<Io>) returns (out: Outcome, sent: seq<byte>, used: nat)
    requires |v| == INT_SIZE
    ensures out == Wrote(v, calls).out && sent == Wrote(v, calls).sent && used == Wrote(v, calls).used <= |calls|
    ensures out.Complete? ==> (Smooth(calls[..used]) <==> sent == v)
    ensures out.Complete? && !Smooth(calls[..used]) ==> |sent| > INT_SIZE
    ensures out.Aborted? ==> !Smooth(calls[..used])
    ensures Smooth(calls) ==> sent <= v
    ensures Clean(calls) ==> out.Complete?
  {
    var w := Writer(0, [], Looping, 0, true);
    assert calls[..0] == [];
    while w.used < |calls| && w.out.Looping?
      invariant w.used <= |calls| && w == Wrote(v, calls[..w.used])
    {
      assert calls[..w.used + 1][..w.used] == calls[..w.used];
      w := WriteCall(v, w, calls[w.used]);
    }
    if w.out.Looping? { assert calls[..w.used] == calls; } else { WroteStays(v, calls, w.used); }
    WroteOk(v, calls);
    WroteSmooth(v, calls);
    if Clean(calls) { WroteMoves(v, calls); }
    return w.out, w.sent, w.used;
  }

  lemma WroteSnoc(v: seq<byte>, front: seq<Io>, io: Io)
    requires |v| == INT_SIZE && Wrote(v, front).out.Looping?
    ensures Wrote(v, front + [io]) == WriteCall(v, Wrote(v, front), io)
  {
    assert (front + [io])[..|front|] == front;
  }

  lemma InterruptedOnce(v: seq<byte>)
    requires |v| == INT_SIZE
    ensures Wrote(v, [Moves(2), Interrupted]) == Writer(1, [v[0], v[1]], Looping, 2, false)
  {
    WroteSnoc(v, [], Moves(2));
    WroteSnoc(v, [] + [Moves(2)], Interrupted);
    assert [] + [Moves(2)] + [Interrupted] == [Moves(2), Interrupted];
    assert [] + v[0..2] + v[2..2] == [v[0], v[1]];
  }

  /** Interrupted after two bytes, the loop goes back by one and sends that byte again. */
  lemma InterruptedWrite(v: seq<byte>)
    requires |v| == INT_SIZE
    ensures var w := Wrote(v, [Moves(2), Interrupted, Moves(3)]);
            w.out.Complete? && w.sent == [v[0], v[1], v[1], v[2], v[3]]
  {
    InterruptedOnce(v);
    WroteSnoc(v, [Moves(2), Interrupted], Moves(3));
    assert [Moves(2), Interrupted] + [Moves(3)] == [Moves(2), Interrupted, Moves(3)];
    assert [v[0], v[1]] + v[1..4] == [v[0], v[1], v[1], v[2], v[3]];
  }

  // ---- the grandparent's loop -------------------------------------------------------------

  /** `pos`: bytes taken from the pipe. */
  datatype Reader = Reader(acc: nat, pos: nat, v: seq<byte>, out: Outcome, used: nat, smooth: bool)

  /** v with new bytes from n on. */
  function Spliced(v: seq<byte>, n: nat, b: seq<byte>): (w: seq<byte>)
    requires n + |b| <= |v|
    ensures |w| == |v|
  {
    v[..n] + b + v[n + |b|..]
  }

  function ReadCall(pipe: seq<byte>, r: Reader, io: Io): Reader
    requires r.acc < INT_SIZE == |r.v| && r.pos <= |pipe|
  {
    var room := Min(INT_SIZE - r.acc, |pipe| - r.pos);
    var acc := Advance(r.acc, io, room);
    var k := Moved(io, room);
    Reader(acc, r.pos + k, Spliced(r.v, r.acc, pipe[r.pos..r.pos + k]), Verdict(acc, io),
           r.used + 1, r.smooth && io.Moves?)
  }

  function DidRead(pipe: seq<byte>, junk: seq<byte>, calls: seq<Io>): (r: Reader)
    requires |junk| == INT_SIZE
    ensures |r.v| == INT_SIZE && r.pos <= |pipe|
    ensures r.used <= |calls| && (r.out.Looping? ==> r.acc < INT_SIZE && r.used == |calls|)
  {
    if calls == [] then Reader(0, 0, junk, Looping, 0, true)
    else
      var r := DidRead(pipe, junk, calls[..|calls| - 1]);
      if r.out.Looping? then ReadCall(pipe, r, calls[|calls| - 1]) else r
  }

  /** What has been taken is what acc counts, unless a call was interrupted: then it is more. */
  ghost predicate ReaderOk(pipe: seq<byte>, r: Reader)
    requires |r.v| == INT_SIZE && r.pos <= |pipe|
  {
    match r.out
    case Looping =>
      r.acc < INT_SIZE && if r.smooth then r.acc == r.pos && r.v[..r.acc] == pipe[..r.acc] else r.acc < r.pos
    case Complete => if r.smooth then r.pos == INT_SIZE && r.v == pipe[..INT_SIZE] else r.pos > INT_SIZE
    case Aborted => !r.smooth
  }

  lemma SplicedPrefix(v: seq<byte>, pipe: seq<byte>, n: nat, k: nat)
    requires n + k <= |v| && n + k <= |pipe| && v[..n] == pipe[..n]
    ensures Spliced(v, n, pipe[n..n + k])[..n + k] == pipe[..n + k]
  {
  }

  lemma ReadCallOk(pipe: seq<byte>, r: Reader, io: Io)
    requires |r.v| == INT_SIZE && r.pos <= |pipe| && r.out.Looping? && ReaderOk(pipe, r)
    ensures ReaderOk(pipe, ReadCall(pipe, r, io))
  {
    var room := Min(INT_SIZE - r.acc, |pipe| - r.pos);
    if r.smooth && io.Moves? {
      SplicedPrefix(r.v, pipe, r.acc, Moved(io, room));
    }
  }

  lemma {:induction false} DidReadOk(pipe: seq<byte>, junk: seq<byte>, calls: seq<Io>)
    requires |junk| == INT_SIZE
    ensures ReaderOk(pipe, DidRead(pipe, junk, calls))
  {
    if calls != [] {
      var front := calls[..|calls| - 1];
      DidReadOk(pipe, junk, front);
      if DidRead(pipe, junk, front).out.Looping? {
        ReadCallOk(pipe, DidRead(pipe, junk, front), calls[|calls| - 1]);
      }
    }
  }

  lemma {:induction false} DidReadSmooth(pipe: seq<byte>, junk: seq<byte>, calls: seq<Io>)
    requires |junk| == INT_SIZE
    ensures var r := DidRead(pipe, junk, calls); r.smooth <==> Smooth(calls[..r.used])
  {
    if calls != [] {
      var front := calls[..|calls| - 1];
      DidReadSmooth(pipe, junk, front);
      SmoothSnoc(calls, DidRead(pipe, junk, front).used);
    }
  }

  lemma {:induction false} DidReadMoves(pipe: seq<byte>, junk: seq<byte>, calls: seq<Io>)
    requires |junk| == INT_SIZE <= |pipe| && Busy(calls)
    ensures var r := DidRead(pipe, junk, calls); r.out.Looping? ==> |calls| <= r.acc == r.pos
  {
    if calls != [] {
      var front, io := calls[..|calls| - 1], calls[|calls| - 1];
      DidReadMoves(pipe, junk, front);
    }
  }

  lemma {:induction false} DidReadStays(pipe: seq<byte>, junk: seq<byte>, calls: seq<Io>, n: nat)
    requires |junk| == INT_SIZE && n <= |calls| && !DidRead(pipe, junk, calls[..n]).out.Looping?
    ensures DidRead(pipe, junk, calls) == DidRead(pipe, junk, calls[..n])
  {
    if n == |calls| {
      assert calls[..n] == calls;
    } else {
      assert calls[..|calls| - 1][..n] == calls[..n];
      DidReadStays(pipe, junk, calls[..|calls| - 1], n);
    }
  }

  lemma ReadFacts(pipe: seq<byte>, junk: seq<byte>, calls: seq<Io>)
    requires |junk| == INT_SIZE
    ensures var r := DidRead(pipe, junk, calls);
            var smooth := Smooth(calls[..r.used]);
            && (r.out.Complete? && smooth ==> |pipe| >= INT_SIZE && r.v == pipe[..INT_SIZE])
            && (r.out.Complete? && |pipe| <= INT_SIZE ==> smooth)
            && (r.out.Aborted? ==> !smooth)
            && (Clean(calls) && |pipe| >= INT_SIZE ==> r.out.Complete?)
  {
    DidReadOk(pipe, junk, calls);
    DidReadSmooth(pipe, junk, calls);
    if Clean(calls) && |pipe| >= INT_SIZE { DidReadMoves(pipe, junk, calls); }
  }

  /** From a pipe holding just one int the loop completes only if no call was interrupted, and then
      it has read that int. When every call moves bytes, it completes within four of them. */
  method ReadLoop(pipe: seq<byte>, junk: seq<byte>, calls: seq<Io>) returns (out: Outcome, v: seq<byte>, used: nat)
    requires |junk| == INT_SIZE
    ensures out == DidRead(pipe, junk, calls).out && v == DidRead(pipe, junk, calls).v
    ensures |v| == INT_SIZE && used <= |calls|
    ensures out.Complete? && Smooth(calls[..used]) ==> |pipe| >= INT_SIZE && v == pipe[..INT_SIZE]
    ensures out.Complete? && |pipe| <= INT_SIZE ==> Smooth(calls[..used])
    ensures out.Aborted? ==> !Smooth(calls[..used])
    ensures Clean(calls) && |pipe| >= INT_SIZE ==> out.Complete?
  {
    var r := Reader(0, 0, junk, Looping, 0, true);
    assert calls[..0] == [];
    while r.used < |calls| && r.out.Looping?
      invariant r.used <= |calls| && r == DidRead(pipe, junk, calls[..r.used])
    {
      assert calls[..r.used + 1][..r.used] == calls[..r.used];
      r := ReadCall(pipe, r, calls[r.used]);
    }
    if r.out.Looping? { assert calls[..r.used] == calls; } else { DidReadStays(pipe, junk, calls, r.used); }
    ReadFacts(pipe, junk, calls);
    return r.out, r.v, r.used;
  }

  lemma ReadSnoc(pipe: seq<byte>, junk: seq<byte>, front: seq<Io>, io: Io)
    requires |junk| == INT_SIZE && DidRead(pipe, junk, front).out.Looping?
    ensures DidRead(pipe, junk, front + [io]) == ReadCall(pipe, DidRead(pipe, junk, front), io)
  {
    assert (front + [io])[..|front|] == front;
  }

  lemma InterruptedReadOnce(pipe: seq<byte>, junk: seq<byte>)
    requires |junk| == INT_SIZE && |pipe| >= 2
    ensures DidRead(pipe, junk, [Moves(2), Interrupted]) ==
            Reader(1, 2, [pipe[0], pipe[1], junk[2], junk[3]], Looping, 2, false)
  {
    FirstCall(junk, pipe, junk, Moves(2));
    TwoSpliced(junk, pipe);
    var v := [pipe[0], pipe[1], junk[2], junk[3]];
    assert DidRead(pipe, junk, [Moves(2)]) == Reader(2, 2, v, Looping, 1, true);
    ReadSnoc(pipe, junk, [Moves(2)], Interrupted);
    assert [Moves(2)] + [Interrupted] == [Moves(2), Interrupted];
    NoneSpliced(v, 2, pipe);
  }

  lemma TwoSpliced(v: seq<byte>, pipe: seq<byte>)
    requires |v| == INT_SIZE && |pipe| >= 2
    ensures Spliced(v, 0, pipe[0..2]) == [pipe[0], pipe[1], v[2], v[3]]
  {
  }

  lemma NoneSpliced(v: seq<byte>, n: nat, pipe: seq<byte>)
    requires n <= |v| && n <= |pipe|
    ensures Spliced(v, n, pipe[n..n]) == v
  {
  }

  /** Interrupted after two bytes, the loop goes back by one and overwrites the second with the third. */
  lemma InterruptedRead(pipe: seq<byte>, junk: seq<byte>)
    requires |junk| == INT_SIZE && |pipe| >= 5
    ensures var r := DidRead(pipe, junk, [Moves(2), Interrupted, Moves(3)]);
            r.out.Complete? && r.v == [pipe[0], pipe[2], pipe[3], pipe[4]] && r.pos == 5
  {
    InterruptedReadOnce(pipe, junk);
    ReadSnoc(pipe, junk, [Moves(2), Interrupted], Moves(3));
    assert [Moves(2), Interrupted] + [Moves(3)] == [Moves(2), Interrupted, Moves(3)];
    assert pipe[2..5] == [pipe[2], pipe[3], pipe[4]];
  }

  /** Interrupted before the first byte, either loop gives up, and so it does when a call fails
      otherwise; a call that moves nothing is repeated. */
  lemma AtOnce(v: seq<byte>, pipe: seq<byte>, junk: seq<byte>)
    requires |v| == |junk| == INT_SIZE
    ensures Wrote(v, [Interrupted]) == Writer(SIZE_MOD - 1, [], Aborted, 1, false)
    ensures Wrote(v, [Fails]).out == Aborted && Wrote(v, [Moves(0)]).out == Looping
    ensures var r := DidRead(pipe, junk, [Interrupted]); r.out.Aborted? && r.v == junk && r.pos == 0
    ensures DidRead(pipe, junk, [Fails]).out == Aborted && DidRead(pipe, junk, [Moves(0)]).out == Looping
  {
    FirstCall(v, pipe, junk, Interrupted);
    FirstCall(v, pipe, junk, Fails);
    FirstCall(v, pipe, junk, Moves(0));
  }

  /** One more call of the child's loop: a failure ends it, an interruption takes it back by a byte,
      or ends it if it has none, and anything else sends on from where it is. */
  lemma WriteLaws(v: seq<byte>, front: seq<Io>, k: nat)
    requires |v| == INT_SIZE && Wrote(v, front).out.Looping?
    ensures var w := Wrote(v, front);
            var f, i, m := Wrote(v, front + [Fails]), Wrote(v, front + [Interrupted]), Wrote(v, front + [Moves(k)]);
            && f.out == Aborted && f.sent == i.sent == w.sent
            && (if w.acc == 0 then i.out == Aborted else i.out == Looping && i.acc == w.acc - 1)
            && var to := if w.acc + k < 4 then w.acc + k else 4;
              m.acc == to && m.sent == w.sent + v[w.acc..to] && m.out == if to == 4 then Complete else Looping
  {
    WroteSnoc(v, front, Fails);
    WroteSnoc(v, front, Interrupted);
    WroteSnoc(v, front, Moves(k));
  }

  /** And so for the grandparent's, */
  lemma ReadStops(pipe: seq<byte>, junk: seq<byte>, front: seq<Io>)
    requires |junk| == INT_SIZE && DidRead(pipe, junk, front).out.Looping?
    ensures var r := DidRead(pipe, junk, front);
            var f, i := DidRead(pipe, junk, front + [Fails]), DidRead(pipe, junk, front + [Interrupted]);
            && f.out == Aborted && f.v == i.v == r.v && f.pos == i.pos == r.pos
            && if r.acc == 0 then i.out == Aborted else i.out == Looping && i.acc == r.acc - 1
  {
    var r := DidRead(pipe, junk, front);
    ReadSnoc(pipe, junk, front, Fails);
    ReadSnoc(pipe, junk, front, Interrupted);
    NothingLands(pipe, r, Fails);
    NothingLands(pipe, r, Interrupted);
  }

  lemma NothingLands(pipe: seq<byte>, r: Reader, io: Io)
    requires r.acc < INT_SIZE == |r.v| && r.pos <= |pipe| && !io.Moves?
    ensures ReadCall(pipe, r, io).v == r.v && ReadCall(pipe, r, io).pos == r.pos
  {
  }

  /** which otherwise reads on, over what is there. */
  lemma ReadLands(pipe: seq<byte>, junk: seq<byte>, front: seq<Io>, k: nat, j: nat)
    requires |junk| == INT_SIZE && DidRead(pipe, junk, front).out.Looping? && j < 4
    ensures Lands(pipe, DidRead(pipe, junk, front), DidRead(pipe, junk, front + [Moves(k)]), k, j)
  {
    var r := DidRead(pipe, junk, front);
    ReadSnoc(pipe, junk, front, Moves(k));
    CallLands(pipe, r, k, j);
  }

  lemma CallLands(pipe: seq<byte>, r: Reader, k: nat, j: nat)
    requires r.acc < INT_SIZE == |r.v| && r.pos <= |pipe| && j < 4
    ensures Lands(pipe, r, ReadCall(pipe, r, Moves(k)), k, j)
  {
    CountsUp(pipe, r, k);
    ReadAt(pipe, r, Moves(k), j);
  }

  /** From r to m a call moved as much as it could of k bytes, and byte j is what that makes it. */
  ghost predicate Lands(pipe: seq<byte>, r: Reader, m: Reader, k: nat, j: nat)
    requires j < 4 == |r.v| == |m.v| && r.pos <= |pipe|
  {
    var left := |pipe| - r.pos;
    var most := if left < 4 - r.acc then left else 4 - r.acc;
    var n := if k < most then k else most;
    && m.acc == r.acc + n && m.pos == r.pos + n && (m.out == if m.acc == 4 then Complete else Looping)
    && m.v[j] == if r.acc <= j < r.acc + n then pipe[r.pos + (j - r.acc)] else r.v[j]
  }

  lemma CountsUp(pipe: seq<byte>, r: Reader, k: nat)
    requires r.acc < INT_SIZE == |r.v| && r.pos <= |pipe|
    ensures var n := Moved(Moves(k), Min(INT_SIZE - r.acc, |pipe| - r.pos));
            var m := ReadCall(pipe, r, Moves(k));
            m.acc == r.acc + n && m.pos == r.pos + n && (m.out == if m.acc == 4 then Complete else Looping)
  {
  }

  lemma FirstCall(v: seq<byte>, pipe: seq<byte>, junk: seq<byte>, io: Io)
    requires |v| == |junk| == INT_SIZE
    ensures Wrote(v, [io]) == WriteCall(v, Writer(0, [], Looping, 0, true), io)
    ensures DidRead(pipe, junk, [io]) == ReadCall(pipe, Reader(0, 0, junk, Looping, 0, true), io)
  {
    var none: seq<Io> := [];
    WroteSnoc(v, none, io);
    ReadSnoc(pipe, junk, none, io);
    assert none + [io] == [io];
  }

  // ---- double_fork ------------------------------------------------------------------------

  const INT_MIN := -0x8000_0000
  const INT_MAX := 0x7fff_ffff

  predicate IsInt(v: int) {
    INT_MIN <= v <= INT_MAX
  }

  /** The memory of a two's complement int. */
  function Memory(v: int): (b: seq<byte>)
    requires IsInt(v)
    ensures |b| == INT_SIZE
  {
    ToLe(if v < 0 then v + U32_MOD else v, INT_SIZE)
  }

  function IntOf(b: seq<byte>): int {
    var n := FromLe(b);
    if n < 0x8000_0000 then n else n - U32_MOD
  }

  lemma MemoryRoundTrip(v: int)
    requires IsInt(v)
    ensures IntOf(Memory(v)) == v
  {
    assert Pow256(INT_SIZE) == U32_MOD;
    LeRoundTrip(if v < 0 then v + U32_MOD else v, INT_SIZE);
  }

  /** Its bytes, the least significant first. */
  lemma MemoryBytes(v: int)
    requires IsInt(v)
    ensures var o := Octets(if v < 0 then v + 0x1_0000_0000 else v); Memory(v) == [o[3], o[2], o[1], o[0]]
  {
    ToLe4(if v < 0 then v + U32_MOD else v);
  }

  /** What the system grants: each fork gives a positive pid, or fails with a positive errno. */
  datatype Grant = Pid(pid: int) | Errno(errno: int)

  predicate Granted(g: Grant) {
    if g.Pid? then 0 < g.pid <= INT_MAX else 0 < g.errno <= INT_MAX
  }

  /** The caller's loop may also not have ended. */
  datatype Result = Returns(value: int) | Waiting

  /** What the child has to say: the grandchild's pid, or the negated errno. */
  function Message(grandchild: Grant): int {
    if grandchild.Pid? then grandchild.pid else -grandchild.errno
  }

  /** What the caller gets when the child is to send m. */
  function Answer(m: int, outs: seq<Io>, ins: seq<Io>, junk: seq<byte>): Result
    requires IsInt(m) && |junk| == INT_SIZE
  {
    var r := DidRead(Wrote(Memory(m), outs).sent, junk, ins);
    if r.out.Looping? then Waiting else Returns(IntOf(r.v))
  }

  /** double_fork as seen by the caller, for any schedules of the two loops' calls. Without a failed
      call it returns nothing but the child's message, however short the calls are, and when every
      call moves bytes it does return. So it is then the grandchild's pid, or negative exactly if
      pipe or a fork failed, which is when create_vm reports an error; never 0, which marks the
      grandchild. What it returns otherwise is the subject of AlwaysRightIff and ToldZeroIff. */
  method CallerResult(pipeOk: bool, child: Grant, grandchild: Grant, outs: seq<Io>, ins: seq<Io>, junk: seq<byte>)
    returns (r: Result)
    requires Granted(child) && Granted(grandchild) && |junk| == INT_SIZE
    ensures !pipeOk || child.Errno? ==> r == Returns(-1)
    ensures pipeOk && child.Pid? ==> r == Answer(Message(grandchild), outs, ins, junk)
    ensures pipeOk && child.Pid? && Smooth(outs) && Smooth(ins) && r.Returns? ==>
              r.value == if grandchild.Pid? then grandchild.pid else -grandchild.errno
    ensures Clean(outs) && Clean(ins) ==> r.Returns?
    ensures Smooth(outs) && Smooth(ins) && r.Returns? ==>
              && r.value != 0
              && (r.value < 0 <==> !pipeOk || child.Errno? || grandchild.Errno?)
  {
    if !pipeOk || child.Errno? { return Returns(-1); }
    var v := Message(grandchild);
    var out, sent, used := WriteLoop(Memory(v), outs);
    var got;
    out, got, used := ReadLoop(sent, junk, ins);
    if out.Looping? { return Waiting; }
    MemoryRoundTrip(v);
    assert |sent| >= INT_SIZE && sent <= Memory(v) ==> sent[..INT_SIZE] == Memory(v);
    return Returns(IntOf(got));
  }

  // ---- interrupted calls ------------------------------------------------------------------

  // The loops move bytes without looking at them. So one run with a marked message and marked
  // junk tells where every byte of the caller's int comes from, whatever the message.

  const MARKS: seq<byte> := [0, 1, 2, 3]
  const JUNK_MARKS: seq<byte> := [4, 5, 6, 7]
  const MARKED := 0x0302_0100  // the int with these bytes

  /** The byte that a mark stands for. */
  function Unmark(v: seq<byte>, junk: seq<byte>, mark: byte): byte
    requires |v| == |junk| == INT_SIZE
  {
    if mark < 4 then v[mark] else if mark < 8 then junk[mark - 4] else 0
  }

  ghost predicate StandFor(v: seq<byte>, junk: seq<byte>, marks: seq<byte>, b: seq<byte>)
    requires |v| == |junk| == INT_SIZE
  {
    |b| == |marks| && forall i :: 0 <= i < |b| ==> b[i] == Unmark(v, junk, marks[i])
  }

  lemma WriteCallMarked(v: seq<byte>, junk: seq<byte>, w: Writer, sent: seq<byte>, io: Io)
    requires |v| == |junk| == INT_SIZE && w.acc < INT_SIZE && StandFor(v, junk, w.sent, sent)
    ensures var x, y := WriteCall(MARKS, w, io), WriteCall(v, w.(sent := sent), io);
            y == x.(sent := y.sent) && StandFor(v, junk, x.sent, y.sent)
  {
  }

  lemma {:induction false} WroteMarked(v: seq<byte>, junk: seq<byte>, calls: seq<Io>)
    requires |v| == |junk| == INT_SIZE
    ensures var x, y := Wrote(MARKS, calls), Wrote(v, calls);
            y == x.(sent := y.sent) && StandFor(v, junk, x.sent, y.sent)
  {
    if calls != [] {
      var front := calls[..|calls| - 1];
      WroteMarked(v, junk, front);
      if Wrote(v, front).out.Looping? {
        WriteCallMarked(v, junk, Wrote(MARKS, front), Wrote(v, front).sent, calls[|calls| - 1]);
      }
    }
  }

  /** Byte i of the caller's int after a call. */
  lemma ReadAt(pipe: seq<byte>, r: Reader, io: Io, i: nat)
    requires r.acc < INT_SIZE == |r.v| && r.pos <= |pipe| && i < INT_SIZE
    ensures var k := Moved(io, Min(INT_SIZE - r.acc, |pipe| - r.pos));
            ReadCall(pipe, r, io).v[i] == if r.acc <= i < r.acc + k then pipe[r.pos + (i - r.acc)] else r.v[i]
  {
  }

  /** Only the bytes of the int depend on what is in the pipe and in memory. */
  lemma OtherBytes(pipe: seq<byte>, data: seq<byte>, r: Reader, b: seq<byte>, io: Io)
    requires |data| == |pipe| && |b| == INT_SIZE && r.acc < INT_SIZE == |r.v| && r.pos <= |pipe|
    ensures var y := ReadCall(data, r.(v := b), io); y == ReadCall(pipe, r, io).(v := y.v)
  {
  }

  lemma ReadAtMarked(v: seq<byte>, junk: seq<byte>, pipe: seq<byte>, data: seq<byte>, r: Reader, b: seq<byte>, io: Io,
                     i: nat)
    requires |v| == |junk| == INT_SIZE && r.acc < INT_SIZE == |r.v| && r.pos <= |pipe| && i < INT_SIZE
    requires StandFor(v, junk, pipe, data) && StandFor(v, junk, r.v, b)
    ensures ReadCall(data, r.(v := b), io).v[i] == Unmark(v, junk, ReadCall(pipe, r, io).v[i])
  {
    ReadAt(pipe, r, io, i);
    ReadAt(data, r.(v := b), io, i);
  }

  lemma ReadCallMarked(v: seq<byte>, junk: seq<byte>, pipe: seq<byte>, data: seq<byte>, r: Reader, b: seq<byte>, io: Io)
    requires |v| == |junk| == INT_SIZE && r.acc < INT_SIZE == |r.v| && r.pos <= |pipe|
    requires StandFor(v, junk, pipe, data) && StandFor(v, junk, r.v, b)
    ensures StandFor(v, junk, ReadCall(pipe, r, io).v, ReadCall(data, r.(v := b), io).v)
  {
    forall i | 0 <= i < INT_SIZE
      ensures ReadCall(data, r.(v := b), io).v[i] == Unmark(v, junk, ReadCall(pipe, r, io).v[i])
    {
      ReadAtMarked(v, junk, pipe, data, r, b, io, i);
    }
  }

  lemma {:induction false} ReadMarked(v: seq<byte>, junk: seq<byte>, pipe: seq<byte>, data: seq<byte>, calls: seq<Io>)
    requires |v| == |junk| == INT_SIZE && StandFor(v, junk, pipe, data)
    ensures var x, y := DidRead(pipe, JUNK_MARKS, calls), DidRead(data, junk, calls);
            y == x.(v := y.v) && StandFor(v, junk, x.v, y.v)
  {
    if calls != [] {
      var front := calls[..|calls| - 1];
      ReadMarked(v, junk, pipe, data, front);
      var r := DidRead(pipe, JUNK_MARKS, front);
      if r.out.Looping? {
        OtherBytes(pipe, data, r, DidRead(data, junk, front).v, calls[|calls| - 1]);
        ReadCallMarked(v, junk, pipe, data, r, DidRead(data, junk, front).v, calls[|calls| - 1]);
      }
    }
  }

  /** Where the bytes of the caller's int come from. */
  function Traced(outs: seq<Io>, ins: seq<Io>): (r: Reader)
    ensures |r.v| == INT_SIZE
  {
    DidRead(Wrote(MARKS, outs).sent, JUNK_MARKS, ins)
  }

  /** Whether the caller returns is a matter of the schedules, and what it returns is what the
      marks say. */
  lemma AnswerTraced(m: int, outs: seq<Io>, ins: seq<Io>, junk: seq<byte>) returns (got: seq<byte>)
    requires IsInt(m) && |junk| == INT_SIZE
    ensures StandFor(Memory(m), junk, Traced(outs, ins).v, got)
    ensures Answer(m, outs, ins, junk) == if Traced(outs, ins).out.Looping? then Waiting else Returns(IntOf(got))
  {
    WroteMarked(Memory(m), junk, outs);
    ReadMarked(Memory(m), junk, Wrote(MARKS, outs).sent, Wrote(Memory(m), outs).sent, ins);
    got := DidRead(Wrote(Memory(m), outs).sent, junk, ins).v;
  }

  predicate Right(m: int, outs: seq<Io>, ins: seq<Io>, junk: seq<byte>)
    requires IsInt(m) && |junk| == INT_SIZE
  {
    var r := Answer(m, outs, ins, junk);
    r.Returns? ==> r.value == m
  }

  lemma IntOfInjective(a: seq<byte>, b: seq<byte>)
    requires |a| == |b| == INT_SIZE && IntOf(a) == IntOf(b)
    ensures a == b
  {
    LeRoundTripBack(a);
    LeRoundTripBack(b);
    assert Pow256(INT_SIZE) == U32_MOD;
  }

  lemma MemoryMarked()
    ensures Memory(MARKED) == MARKS
  {
  }

  /** Two schedules give the caller every message right, whatever was in its memory, if and only if
      they give it this one message right. */
  lemma AlwaysRightIff(outs: seq<Io>, ins: seq<Io>)
    ensures (forall g, junk :: Granted(g) && |junk| == INT_SIZE ==> Right(Message(g), outs, ins, junk))
       <==> Right(MARKED, outs, ins, JUNK_MARKS)
  {
    if Right(MARKED, outs, ins, JUNK_MARKS) {
      forall g, junk | Granted(g) && |junk| == INT_SIZE ensures Right(Message(g), outs, ins, junk) {
        RightAlways(Message(g), outs, ins, junk);
      }
    } else {
      assert Granted(Pid(MARKED)) && Message(Pid(MARKED)) == MARKED;
    }
  }

  lemma RightAlways(m: int, outs: seq<Io>, ins: seq<Io>, junk: seq<byte>)
    requires IsInt(m) && |junk| == INT_SIZE && Right(MARKED, outs, ins, JUNK_MARKS)
    ensures Right(m, outs, ins, junk)
  {
    var r := Traced(outs, ins);
    MemoryMarked();
    var got := AnswerTraced(m, outs, ins, junk);
    if !r.out.Looping? {
      MemoryRoundTrip(MARKED);
      IntOfInjective(r.v, MARKS);
      MemoryRoundTrip(m);
      assert got == Memory(m);
    }
  }

  /** The caller returns, and byte k of the message has no place in its int. */
  predicate Loses(outs: seq<Io>, ins: seq<Io>, k: nat) {
    var r := Traced(outs, ins);
    !r.out.Looping? && forall i :: 0 <= i < INT_SIZE ==> r.v[i] != k
  }

  const ZEROS: seq<byte> := [0, 0, 0, 0]

  lemma IntOfZero(b: seq<byte>)
    requires |b| == INT_SIZE
    ensures IntOf(b) == 0 <==> b == ZEROS
  {
    assert ZEROS == Memory(0);
    MemoryRoundTrip(0);
    if IntOf(b) == 0 { IntOfInjective(b, ZEROS); }
  }

  lemma ZeroLoses(m: int, outs: seq<Io>, ins: seq<Io>, junk: seq<byte>)
    requires IsInt(m) && m != 0 && |junk| == INT_SIZE && Answer(m, outs, ins, junk) == Returns(0)
    ensures exists k :: 0 <= k < INT_SIZE && Loses(outs, ins, k)
  {
    var r := Traced(outs, ins);
    var got := AnswerTraced(m, outs, ins, junk);
    IntOfZero(got);
    MemoryRoundTrip(m);
    IntOfZero(Memory(m));
    var k :| 0 <= k < INT_SIZE && Memory(m)[k] != ZEROS[k];
    assert Loses(outs, ins, k) by {
      forall i | 0 <= i < INT_SIZE ensures r.v[i] != k {
        assert got[i] == Unmark(Memory(m), junk, r.v[i]);
      }
    }
  }

  lemma PowerMemory(k: nat)
    requires k < INT_SIZE
    ensures 0 < Pow256(k) <= INT_MAX && Memory(Pow256(k)) == ZEROS[k := 1]
  {
    assert Memory(1) == [1, 0, 0, 0] && Memory(0x100) == [0, 1, 0, 0];
    assert Memory(0x1_0000) == [0, 0, 1, 0] && Memory(0x100_0000) == [0, 0, 0, 1];
    assert Pow256(0) == 1 && Pow256(1) == 0x100 && Pow256(2) == 0x1_0000 && Pow256(3) == 0x100_0000;
  }

  /** The power of 256 whose only byte gets lost. */
  lemma LossZero(outs: seq<Io>, ins: seq<Io>, k: nat)
    requires k < INT_SIZE && Loses(outs, ins, k)
    ensures 0 < Pow256(k) <= INT_MAX && Answer(Pow256(k), outs, ins, ZEROS) == Returns(0)
  {
    var r := Traced(outs, ins);
    PowerMemory(k);
    var got := AnswerTraced(Pow256(k), outs, ins, ZEROS);
    forall i | 0 <= i < INT_SIZE ensures got[i] == 0 {
      assert got[i] == Unmark(Memory(Pow256(k)), ZEROS, r.v[i]);
    }
    IntOfZero(got);
  }

  /** Told of this grandchild, the caller returns 0. */
  predicate ToldZero(g: Grant, junk: seq<byte>, outs: seq<Io>, ins: seq<Io>) {
    Granted(g) && |junk| == INT_SIZE && Answer(Message(g), outs, ins, junk) == Returns(0)
  }

  /** For some grandchild the caller returns 0, which marks the grandchild itself, if and only if it
      returns and some byte of the message has no place in its int. */
  lemma ToldZeroIff(outs: seq<Io>, ins: seq<Io>)
    ensures (exists g, junk :: ToldZero(g, junk, outs, ins)) <==> (exists k :: 0 <= k < INT_SIZE && Loses(outs, ins, k))
  {
    if g, junk :| ToldZero(g, junk, outs, ins) {
      ZeroLoses(Message(g), outs, ins, junk);
    }
    if k :| 0 <= k < INT_SIZE && Loses(outs, ins, k) {
      LossZero(outs, ins, k);
      assert ToldZero(Pid(Pow256(k)), ZEROS, outs, ins);
    }
  }

  const TWICE := [Moves(2), Interrupted, Moves(1), Interrupted, Moves(3)]

  lemma TwiceInterrupted(v: seq<byte>)
    requires |v| == INT_SIZE
    ensures Wrote(v, TWICE).sent == [v[0], v[1], v[1], v[1], v[2], v[3]]
  {
    var b := [Moves(2), Interrupted];
    InterruptedOnce(v);
    WroteSnoc(v, b, Moves(1));
    assert Wrote(v, b + [Moves(1)]) == Writer(2, [v[0], v[1], v[1]], Looping, 3, false);
    WroteSnoc(v, b + [Moves(1)], Interrupted);
    assert Wrote(v, b + [Moves(1)] + [Interrupted]) == Writer(1, [v[0], v[1], v[1]], Looping, 4, false);
    WroteSnoc(v, b + [Moves(1)] + [Interrupted], Moves(3));
    assert b + [Moves(1)] + [Interrupted] + [Moves(3)] == TWICE;
  }

  /** So it is for pid 65536 when the child is interrupted twice. */
  lemma InterruptedZero(junk: seq<byte>)
    requires |junk| == INT_SIZE
    ensures ToldZero(Pid(65536), junk, TWICE, [Moves(4)])
  {
    var v, ins := Memory(65536), [Moves(4)];
    assert v == ZEROS[2 := 1] by { PowerMemory(2); assert Pow256(2) == 65536; }
    TwiceInterrupted(v);
    var pipe := Wrote(v, TWICE).sent;
    assert ins[..0] == [] && pipe[0..4] == ZEROS;
    assert DidRead(pipe, junk, ins) == Reader(4, 4, ZEROS, Complete, 1, true);
    IntOfZero(ZEROS);
  }
}
