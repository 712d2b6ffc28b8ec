/** The guest program's number parser and write loop. */
module PortalGuest {
  import opened Bytes
  import opened Decimal
  import opened Options

  const LONG_MAX := 0x7fff_ffff_ffff_ffff

  /** strtol's digits. */
  function LeadingDigits(s: string): (n: nat)
    ensures n <= |s| && AllDigits(s[..n])
    ensures n < |s| ==> !IsDigit(s[n])
  {
    if s == [] || !IsDigit(s[0]) then 0
    else
      var n := LeadingDigits(s[1..]);
      assert s[..n + 1] == [s[0]] + s[1..][..n];
      n + 1
  }

  /** parse_u32: strtol fails only beyond LONG_MAX, and the result is cut to 32 bits. */
  function ParseU32(s: Option<string>): Option<nat> {
    if s.None? || s.value == [] || !IsDigit(s.value[0]) then None
    else
      var n := LeadingDigits(s.value);
      var v := Value(s.value[..n]);
      if v > LONG_MAX || n < |s.value| then None else Some(v % U32_MOD)
  }

  /** What the parser accepts, and what it makes of it. */
  lemma ParseU32Accepts(s: string, v: nat)
    ensures ParseU32(None) == None
    ensures ParseU32(Some(s)) == Some(v) <==>
            s != [] && AllDigits(s) && Value(s) <= LONG_MAX && v == Value(s) % U32_MOD
  {
    var n := LeadingDigits(s);
    assert n == |s| ==> s[..n] == s;
  }

  /** Every u32 the bus can print is read back. */
  lemma ParseU32RoundTrip(n: nat)
    requires n < U32_MOD
    ensures ParseU32(Some(Show(n))) == Some(n)
  {
    ShowThenValue(n);
    ParseU32Accepts(Show(n), n);
  }

  lemma CutExact(v: nat)
    ensures v % U32_MOD == v <==> v < U32_MOD
  {
  }

  /** The value read is the value written exactly below 2^32: above it, and up to LONG_MAX, the
      parser succeeds with another number instead of refusing. */
  lemma ParseU32Exact(s: string)
    requires ParseU32(Some(s)).Some?
    ensures AllDigits(s) && (ParseU32(Some(s)).value == Value(s) <==> Value(s) < U32_MOD)
  {
    var v := ParseU32(Some(s)).value;
    ParseU32Accepts(s, v);
    CutExact(Value(s));
  }

  /** The host prints the port it was sent: this is the text the guest was given exactly if that was
      the plain decimal form of a u32. */
  lemma PrintedBack(s: string)
    requires ParseU32(Some(s)).Some?
    ensures Show(ParseU32(Some(s)).value) == s <==> Canonical(s) && Value(s) < U32_MOD
  {
    var v := ParseU32(Some(s)).value;
    ParseU32Accepts(s, v);
    ParseU32Exact(s);
    ShowThenValue(v);
    if Canonical(s) { ValueThenShow(s); }
  }

  lemma ParseU32Wraps()
    ensures ParseU32(Some(Show(U32_MOD))) == Some(0)
  {
    ShowThenValue(U32_MOD);
    ParseU32Accepts(Show(U32_MOD), 0);
  }

  /** What one write does: it moves as much as it can of the bytes it is given, up to k + 1, or
      fails. */
  datatype Io = Moves(k: nat) | Fails

  /** The bytes of a buffer of n that are written by the first i of the given calls. */
  function Written(n: nat, calls: nat -> Io, i: nat): (w: nat)
    ensures w <= n
  {
    if i == 0 then 0
    else
      var w := Written(n, calls, i - 1);
      match calls(i - 1)
      case Fails => w
      case Moves(k) => if w + k + 1 < n then w + k + 1 else n
  }

  /** Call i neither fails nor completes the buffer. */
  predicate GoesOn(n: nat, calls: nat -> Io, i: nat) {
    calls(i).Moves? && Written(n, calls, i + 1) < n
  }

  /** write_all, for any way in which the calls of write turn out. It makes at least one, stops at the
      first that fails or completes the buffer, and fails exactly if that one does. */
  method WriteAll(buf: seq<byte>, calls: nat -> Io) returns (ok: bool, written: seq<byte>, used: nat)
    ensures used > 0 && forall i :: 0 <= i < used - 1 ==> GoesOn(|buf|, calls, i)
    ensures ok <==> calls(used - 1).Moves?
    ensures ok ==> written == buf
    ensures written == buf[..Written(|buf|, calls, used)]
  {
    var done, len := 0, |buf|;
    used := 0;
    while true
      invariant done + len == |buf| && done == Written(|buf|, calls, used)
      invariant used > 0 ==> len > 0
      invariant forall i :: 0 <= i < used ==> GoesOn(|buf|, calls, i)
      decreases len, used == 0
    {
      var r := calls(used);
      used := used + 1;
      if r.Fails? { return false, buf[..done], used; }
      var n := if r.k + 1 < len then r.k + 1 else len;
      done, len := done + n, len - n;
      if len == 0 { return true, buf, used; }
    }
  }
}
