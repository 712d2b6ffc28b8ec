/** The GPU device's shared memory window: the VMM reserves it, and the vhost-user backend has
    files mapped into it and unmapped again. */
module Shmem {
  import opened Bytes
  import opened Options

  const PAGE := 4096

  function CheckedAdd(a: nat, b: nat): Option<nat> {
    if a + b < U64_MOD then Some(a + b) else None
  }

  /** mmap works in whole pages. */
  function RoundUp(n: nat): nat {
    (n + PAGE - 1) / PAGE * PAGE
  }

  /** The contents of one byte of the VMM's address space. */
  datatype Cell =
    | Foreign(x: nat)                                       // whatever else is there
    | Reserved                                              // PROT_NONE, anonymous
    | Mapped(fd: int, offset: nat, flags: nat, shared: bool)

  datatype What = File(fd: int, offset: nat, flags: nat) | Nothing

  /** A successful mmap with MAP_FIXED. */
  datatype Op = Op(addr: nat, len: nat, what: What)

  /** A call of mmap and whether it succeeded. */
  datatype Call = Call(op: Op, ok: bool)

  predicate Covers(op: Op, x: nat) {
    op.addr <= x < op.addr + RoundUp(op.len)
  }

  /** PROT_WRITE is 2; only writable mappings are shared with the file. */
  function CellAt(op: Op, x: nat): Cell
    requires Covers(op, x)
  {
    match op.what
    case File(fd, offset, flags) => Mapped(fd, offset + (x - op.addr), flags, flags / 2 % 2 == 1)
    case Nothing => Reserved
  }

  function Initial(base: nat, size: nat, x: nat): Cell {
    if base <= x < base + RoundUp(size) then Reserved else Foreign(x)
  }

  /** is_req_valid */
  predicate IsReqValid(size: nat, offset: nat, len: nat) {
    match CheckedAdd(offset, len)
    case None => false
    case Some(end) => !(offset >= size || end > size)
  }

  datatype Reply = Ok | Invalid | OsError

  class Window {
    const base: nat     // mmap_cache_addr
    const size: nat     // cache_size
    var mem: nat -> Cell
    ghost var calls: seq<Call>  // of mmap, since the reservation

    /** The reservation made with the device: the kernel picks a page-aligned address. */
    constructor (base: nat, size: nat)
      requires base % PAGE == 0 && size < U64_MOD && base + size <= U64_MOD
      ensures Valid() && this.base == base && this.size == size
      ensures calls == []
      ensures forall x: nat :: mem(x) == if base <= x < base + RoundUp(size) then Reserved else Foreign(x)
    {
      this.base, this.size, calls := base, size, [];
      mem := (x: nat) => Initial(base, size, x);
    }

    predicate Valid() {
      base % PAGE == 0 && size < U64_MOD && base + size <= U64_MOD
    }

    /** mmap with MAP_FIXED. It refuses an empty length and anything unaligned, and may fail
        otherwise; on failure nothing changes. */
    method Mmap(op: Op) returns (ok: bool)
      modifies this
      ensures ok ==>
                && op.len > 0 && op.addr % PAGE == 0 && (op.what.File? ==> op.what.offset % PAGE == 0)
                && (forall x :: mem(x) == if Covers(op, x) then CellAt(op, x) else old(mem)(x))
      ensures !ok ==> mem == old(mem)
      ensures calls == old(calls) + [Call(op, ok)]
    {
      ok := *;
      if op.len == 0 || op.addr % PAGE != 0 || (op.what.File? && op.what.offset % PAGE != 0) {
        ok := false;
      }
      if ok {
        var was := mem;
        mem := (x: nat) => if Covers(op, x) then CellAt(op, x) else was(x);
      }
      calls := calls + [Call(op, ok)];
    }

    /** What shmem_map and shmem_unmap share: the range check, then the call. */
    method Request(offset: nat, len: nat, what: What) returns (r: Reply)
      requires Valid() && offset < U64_MOD && len < U64_MOD
      modifies this
      ensures r.Invalid? <==> !(offset < size && offset + len <= size)
      ensures r.Ok? ==>
                && Requested(base, size, Op(base + offset, len, what))
                && forall x :: mem(x) == if Covers(Op(base + offset, len, what), x)
                                         then CellAt(Op(base + offset, len, what), x) else old(mem)(x)
      ensures !r.Ok? ==> mem == old(mem)
      ensures calls == old(calls) + if r.Invalid? then [] else [Call(Op(base + offset, len, what), r.Ok?)]
    {
      if !IsReqValid(size, offset, len) { return Invalid; }
      var addr := (base + offset) % U64_MOD;  // never wraps, as the contract shows
      var op := Op(addr, len, what);
      var ok := Mmap(op);
      if !ok { return OsError; }
      return Ok;
    }

    /** shmem_map: on success byte i of the range is byte fdOffset + i of the file, to the end of
        the last page, and every other byte of the address space is what it was. */
    method ShmemMap(offset: nat, fdOffset: nat, len: nat, flags: nat, fd: int) returns (r: Reply)
      requires Valid() && offset < U64_MOD && len < U64_MOD && fdOffset < U64_MOD
      modifies this
      ensures r.Invalid? <==> !(offset < size && offset + len <= size)
      ensures r.Ok? ==>
                forall x: nat :: mem(x) == if base + offset <= x < base + offset + RoundUp(len)
                                           then Mapped(fd, fdOffset + (x - base - offset), flags, flags / 2 % 2 == 1)
                                           else old(mem)(x)
      ensures !r.Ok? ==> mem == old(mem)
      ensures calls == old(calls) + if r.Invalid? then []
                                    else [Call(Op(base + offset, len, File(fd, fdOffset, flags)), r.Ok?)]
    {
      r := Request(offset, len, File(fd, fdOffset, flags));
    }

    /** shmem_unmap: on success the range is reserved again. */
    method ShmemUnmap(offset: nat, len: nat) returns (r: Reply)
      requires Valid() && offset < U64_MOD && len < U64_MOD
      modifies this
      ensures r.Invalid? <==> !(offset < size && offset + len <= size)
      ensures r.Ok? ==>
                forall x: nat :: mem(x) == if base + offset <= x < base + offset + RoundUp(len)
                                           then Reserved else old(mem)(x)
      ensures !r.Ok? ==> mem == old(mem)
      ensures calls == old(calls) + if r.Invalid? then [] else [Call(Op(base + offset, len, Nothing), r.Ok?)]
    {
      r := Request(offset, len, Nothing);
    }

    /** Any run of requests: the address space is the fold over the successful ones, whose
        meaning LastWriterWins, NeverWritten and OutsideUntouched give. */
    method Serve(reqs: seq<Req>) returns (replies: seq<Reply>)
      requires Valid() && forall i :: 0 <= i < |reqs| ==> reqs[i].offset < U64_MOD && reqs[i].len < U64_MOD
      modifies this
      ensures |replies| == |reqs|
      ensures forall i :: 0 <= i < |reqs| ==> Judged(base, size, reqs[i], replies[i])
      ensures forall x: nat :: mem(x) == After(base, old(mem), reqs, replies, x)
      ensures calls == old(calls) + Issued(base, reqs, replies)
    {
      replies := [];
      for i := 0 to |reqs|
        invariant |replies| == i
        invariant forall j :: 0 <= j < i ==> Judged(base, size, reqs[j], replies[j])
        invariant forall x: nat :: mem(x) == After(base, old(mem), reqs[..i], replies, x)
        invariant calls == old(calls) + Issued(base, reqs[..i], replies)
      {
        var r := Request(reqs[i].offset, reqs[i].len, reqs[i].what);
        IssuedMore(base, reqs, replies, r);
        forall x ensures mem(x) == After(base, old(mem), reqs[..i + 1], replies + [r], x) {
          AfterMore(base, old(mem), reqs, replies, r, x);
        }
        replies := replies + [r];
      }
      assert reqs[..|reqs|] == reqs;
    }
  }

  datatype Req = Req(offset: nat, len: nat, what: What)

  function OpOf(base: nat, q: Req): Op {
    Op(base + q.offset, q.len, q.what)
  }

  /** A request is turned away exactly if it is out of range, and succeeds only if it is well formed. */
  ghost predicate Judged(base: nat, size: nat, q: Req, r: Reply) {
    && (r.Invalid? <==> !(q.offset < size && q.offset + q.len <= size))
    && (r.Ok? ==> Requested(base, size, OpOf(base, q)))
  }

  /** One byte after a run of requests, starting from `was`. */
  function After(base: nat, was: nat -> Cell, reqs: seq<Req>, replies: seq<Reply>, x: nat): Cell
    requires |reqs| == |replies|
  {
    if reqs == [] then was(x)
    else
      var n := |reqs| - 1;
      var op := OpOf(base, reqs[n]);
      if replies[n].Ok? && Covers(op, x) then CellAt(op, x)
      else After(base, was, reqs[..n], replies[..n], x)
  }

  /** The calls a run of requests makes: one for each that is not turned away. */
  function Issued(base: nat, reqs: seq<Req>, replies: seq<Reply>): seq<Call>
    requires |reqs| == |replies|
  {
    if reqs == [] then []
    else
      var n := |reqs| - 1;
      Issued(base, reqs[..n], replies[..n]) +
      if replies[n].Invalid? then [] else [Call(OpOf(base, reqs[n]), replies[n].Ok?)]
  }

  lemma {:induction false} AfterMore(base: nat, was: nat -> Cell, reqs: seq<Req>, replies: seq<Reply>, r: Reply, x: nat)
    requires |replies| < |reqs|
    ensures var i := |replies|; var op := OpOf(base, reqs[i]);
            After(base, was, reqs[..i + 1], replies + [r], x) ==
            if r.Ok? && Covers(op, x) then CellAt(op, x) else After(base, was, reqs[..i], replies, x)
  {
    var i := |replies|;
    assert reqs[..i + 1][..i] == reqs[..i] && (replies + [r])[..i] == replies;
  }

  lemma {:induction false} IssuedMore(base: nat, reqs: seq<Req>, replies: seq<Reply>, r: Reply)
    requires |replies| < |reqs|
    ensures var i := |replies|;
            Issued(base, reqs[..i + 1], replies + [r]) ==
            Issued(base, reqs[..i], replies) + if r.Invalid? then [] else [Call(OpOf(base, reqs[i]), r.Ok?)]
  {
    var i := |replies|;
    assert reqs[..i + 1][..i] == reqs[..i] && (replies + [r])[..i] == replies;
  }

  /** The k-th request succeeded and covered x. */
  predicate Wrote(base: nat, reqs: seq<Req>, replies: seq<Reply>, x: nat, k: int) {
    0 <= k < |reqs| == |replies| && replies[k].Ok? && Covers(OpOf(base, reqs[k]), x)
  }

  /** Last writer wins: a byte holds what the last successful request to cover it put there. */
  lemma {:induction false} LastWriterWins(base: nat, was: nat -> Cell, reqs: seq<Req>, replies: seq<Reply>,
                                          x: nat, k: nat)
    requires |reqs| == |replies|
    requires Wrote(base, reqs, replies, x, k) && forall j :: k < j ==> !Wrote(base, reqs, replies, x, j)
    ensures After(base, was, reqs, replies, x) == CellAt(OpOf(base, reqs[k]), x)
  {
    var n := |reqs| - 1;
    if k < n {
      assert !Wrote(base, reqs, replies, x, n);
      forall j | k < j ensures !Wrote(base, reqs[..n], replies[..n], x, j) {
        assert !Wrote(base, reqs, replies, x, j);
      }
      LastWriterWins(base, was, reqs[..n], replies[..n], x, k);
    }
  }

  lemma {:induction false} NeverWritten(base: nat, was: nat -> Cell, reqs: seq<Req>, replies: seq<Reply>, x: nat)
    requires |reqs| == |replies| && forall j :: !Wrote(base, reqs, replies, x, j)
    ensures After(base, was, reqs, replies, x) == was(x)
  {
    if reqs != [] {
      var n := |reqs| - 1;
      assert !Wrote(base, reqs, replies, x, n);
      forall j ensures !Wrote(base, reqs[..n], replies[..n], x, j) {
        assert !Wrote(base, reqs, replies, x, j);
      }
      NeverWritten(base, was, reqs[..n], replies[..n], x);
    }
  }

  /** A window of whole pages keeps to itself: no run changes a byte outside it. */
  lemma OutsideUntouched(base: nat, size: nat, was: nat -> Cell, reqs: seq<Req>, replies: seq<Reply>, x: nat)
    requires base % PAGE == 0 && size % PAGE == 0 && |reqs| == |replies|
    requires forall i :: 0 <= i < |reqs| && replies[i].Ok? ==> Requested(base, size, OpOf(base, reqs[i]))
    requires !(base <= x < base + size)
    ensures After(base, was, reqs, replies, x) == was(x)
  {
    forall j ensures !Wrote(base, reqs, replies, x, j) {
      if Wrote(base, reqs, replies, x, j) {
        RoundingStays(base, size, OpOf(base, reqs[j]));
      }
    }
    NeverWritten(base, was, reqs, replies, x);
  }

  /** What every successful request satisfies. */
  ghost predicate Requested(base: nat, size: nat, op: Op) {
    && op.len > 0 && op.addr % PAGE == 0
    && base <= op.addr && op.addr + op.len <= base + size
  }

  lemma RoundUpBounds(n: nat)
    ensures n <= RoundUp(n) < n + PAGE && RoundUp(n) % PAGE == 0
    ensures n % PAGE == 0 ==> RoundUp(n) == n
  {
  }

  /** A page-aligned window contains the pages of every request it admits. */
  lemma RoundingStays(base: nat, size: nat, op: Op)
    requires base % PAGE == 0 && size % PAGE == 0 && Requested(base, size, op)
    ensures op.addr + RoundUp(op.len) <= base + size
  {
    RoundUpBounds(op.len);
    var a, b, c := base / PAGE, size / PAGE, op.addr / PAGE;
    assert base == PAGE * a && size == PAGE * b && op.addr == PAGE * c;
    assert RoundUp(op.len) == PAGE * (RoundUp(op.len) / PAGE);
  }

  /** Every request that passes the range check and that mmap may accept stays inside the
      window, last page included. */
  ghost predicate PagesStay(size: nat) {
    forall offset: nat, len: nat ::
      offset % PAGE == 0 && len > 0 && IsReqValid(size, offset, len) ==> offset + RoundUp(len) <= size
  }

  /** That is so exactly when the window is a whole number of pages. Nothing in the
      request handler checks the length the backend reports for its region. */
  lemma PagesStayIff(size: nat)
    requires size < U64_MOD
    ensures PagesStay(size) <==> size % PAGE == 0
  {
    if size % PAGE == 0 {
      forall offset: nat, len: nat | offset % PAGE == 0 && len > 0 && IsReqValid(size, offset, len)
        ensures offset + RoundUp(len) <= size
      {
        RoundingStays(0, size, Op(offset, len, Nothing));
      }
    } else {
      var offset := size / PAGE * PAGE;
      var len := size - offset;
      RoundUpBounds(len);
      assert offset % PAGE == 0 && len > 0 && IsReqValid(size, offset, len);
      assert offset + RoundUp(len) > size;
    }
  }
}
