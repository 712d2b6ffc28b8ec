/** The host program's socket reading: read_exact over short reads, the fields of the handshake,
    the VMM's "OK n" reply, and the search for the VMM's own socket path. */
module HostSocket {
  import opened Bytes
  import opened Decimal
  import opened Options
  import opened Paths
  import opened Seqs
  import Portal

  const NEWLINE: byte := 10
  const UNDERSCORE: byte := 95

  predicate DigitByte(b: byte) {
    48 <= b <= 57
  }

  /** A number in network byte order at the front of some bytes. */
  ghost function Number(b: seq<byte>): nat
    requires 4 <= |b|
  {
    0x100_0000 * b[0] as int + 0x1_0000 * b[1] as int + 0x100 * b[2] as int + b[3] as int
  }

  class Conn {
    var input: seq<byte>   // all that the peer will still send before it closes
    var output: seq<byte>

    /** read_exact: however the bytes arrive, it takes exactly n of them, or runs into the end. */
    method ReadExact(n: nat) returns (r: Option<seq<byte>>)
      modifies this`input
      ensures if n <= |old(input)|
              then r == Some(old(input)[..n]) && input == old(input)[n..]
              else r == None && input == []
    {
      var buf := [];
      while |buf| < n
        invariant |buf| <= n && |buf| <= |old(input)|
        invariant buf == old(input)[..|buf|] && input == old(input)[|buf|..]
      {
        if input == [] { return None; }
        var most := if n - |buf| < |input| then n - |buf| else |input|;
        var k :| 1 <= k <= most;  // a short read
        buf, input := buf + input[..k], input[k..];
      }
      return Some(buf);
    }

    method ReceiveU32() returns (r: Option<nat>)
      modifies this`input
      ensures if 4 <= |old(input)|
              then r == Some(Number(old(input))) && input == old(input)[4..]
              else r == None && input == []
    {
      var b := ReadExact(4);
      if b.Some? {
        FromBe4(b.value);
      }
      return match b case None => None case Some(v) => Some(FromBe(v));
    }

    method ReceiveBytestring() returns (r: Option<seq<byte>>)
      modifies this`input
      ensures r.Some? <==> 4 <= |old(input)| && 4 + Number(old(input)) <= |old(input)|
      ensures r.Some? ==>
                var n := Number(old(input));
                r.value == old(input)[4..4 + n] && input == old(input)[4 + n..]
      ensures r.None? ==> input == []
    {
      var n := ReceiveU32();
      if n.None? { return None; }
      r := ReadExact(n.value);
    }

    /** negotiate_version: it answers, with 1, exactly if 1 is among the versions offered. */
    method NegotiateVersion() returns (ok: bool)
      modifies this
      ensures ok <==>
                && old(input) != [] && 1 + old(input)[0] as int <= |old(input)|
                && 1 in old(input)[1..1 + old(input)[0] as int]
      ensures ok ==> output == old(output) + [1]
      ensures !ok ==> output == old(output)
      ensures input == if old(input) != [] && 1 + old(input)[0] as int <= |old(input)|
                       then old(input)[1 + old(input)[0] as int..] else []
    {
      var count := ReadExact(1);
      if count.None? { return false; }
      assert count.value[0] == old(input)[0];
      var versions := ReadExact(count.value[0] as int);
      if versions.None? || 1 !in versions.value { return false; }
      output := output + [1];
      return true;
    }

    /** run_guest_connection up to the share root, on the bytes of the machine in Portal and
        whatever follows them: it gets the port and the root exactly if version 1 is on offer, and
        leaves what follows. */
    method ReceiveHello(ghost h: Portal.Hello, ghost rest: seq<byte>) returns (r: Option<(nat, seq<byte>)>)
      requires Portal.Sendable(h) && input == Portal.Stream(Portal.Encode(h)) + rest
      modifies this
      ensures r.Some? <==> 1 in h.versions
      ensures r.Some? ==> r.value == (h.port, h.root) && input == rest
      ensures output == old(output) + if r.Some? then [1] else []
    {
      Layout(h, rest);
      ghost var t := input[1 + |h.versions|..];
      var ok := NegotiateVersion();
      assert input == t;
      if !ok { return None; }
      var port := ReceiveU32();
      assert port == Some(h.port) && input == t[4..];
      var root := ReceiveBytestring();
      assert root == Some(h.root) && input == rest;
      return Some((port.value, root.value));
    }

    /** The reply loop of connect_to_guest. Whatever arrives, it stops within 14 bytes and leaves
        what follows unread. */
    method ReadReply() returns (ok: bool, used: nat)
      modifies this`input
      ensures ok <==> (exists n :: Ends(old(input), n)) && old(input)[..3] == OK
      ensures used <= 14
      ensures (exists n :: Ends(old(input), n)) ==> Ends(old(input), used) && input == old(input)[used..]
      ensures !(exists n :: Ends(old(input), n)) ==> |old(input)| < 14 && input == []
    {
      var response := seq(14, _ => 0 as byte);
      used := 0;
      while (used == 0 || response[used - 1] != NEWLINE) && used < |response|
        invariant |response| == 14
        invariant used == 0 || 5 <= used <= 14
        invariant used <= |old(input)| && response[..used] == old(input)[..used] && input == old(input)[used..]
        invariant forall i :: 4 <= i < used - 1 ==> old(input)[i] != NEWLINE
      {
        var minRemaining := if 5 < used then 0 else 5 - used;
        var end := if minRemaining > used + 1 then minRemaining else used + 1;
        assert used > 0 ==> response[used - 1] == old(input)[used - 1];
        var dest := ReadExact(end - used);
        if dest.None? { return false, used; }
        response := response[..used] + dest.value + response[end..];
        assert response[..end] == old(input)[..end];
        used := end;
      }
      assert response[..3] == response[..used][..3] == old(input)[..used][..3] == old(input)[..3];
      assert response[used - 1] == old(input)[used - 1];
      assert Ends(old(input), used);
      ok := response[..3] == OK;
    }
  }

  /** Where the fields of a hello are. */
  lemma Layout(h: Portal.Hello, rest: seq<byte>)
    requires Portal.Sendable(h)
    ensures var s := Portal.Stream(Portal.Encode(h)) + rest;
            var n, m := |h.versions|, |h.root|;
            && |s| >= 1 + n + 8 + m && s[0] as int == n && s[1..1 + n] == h.versions
            && var t := s[1 + n..];
               && Number(t) == h.port
               && Number(t[4..]) == m && t[4..][4..4 + m] == h.root && t[4..][4 + m..] == rest
  {
    Portal.EncodeOk(h);
    Portal.Limits();
    Portal.OneByte(|h.versions|);
    var w := Portal.Encode(h);
    var u := w.length + (h.root + rest);
    var t := w.port + u;
    Nested(w.count, h.versions, w.port, w.length, h.root, rest);
    Halves([|h.versions|], h.versions, t);
    Halves(w.length, h.root, rest);
    Cut(w.port, u);
    NumberOf(w.port, u);
    NumberOf(w.length, h.root + rest);
  }

  lemma Halves<T>(a: seq<T>, b: seq<T>, c: seq<T>)
    ensures var s := a + (b + c); s[|a|..|a| + |b|] == b && s[|a| + |b|..] == c && s[..|a|] == a
  {
  }

  lemma NumberOf(b: seq<byte>, rest: seq<byte>)
    requires |b| == 4
    ensures Number(b + rest) == FromBe(b)
  {
    FromBe4(b);
  }

  const OK: seq<byte> := [79, 75, 32]  // "OK "

  /** Where a reply ends: at the first newline from the fifth byte on, at the latest after 14. */
  predicate Ends(s: seq<byte>, n: nat) {
    && 5 <= n <= 14 && n <= |s|
    && (s[n - 1] == NEWLINE || n == 14)
    && forall i :: 4 <= i < n - 1 ==> s[i] != NEWLINE
  }

  function Reply(n: nat): seq<byte> {
    OK + Digits(n) + [NEWLINE]
  }

  function Digits(n: nat): (b: seq<byte>)
    ensures |b| == |Show(n)| && |b| > 0
    ensures forall i :: 0 <= i < |b| ==> DigitByte(b[i]) && b[i] as char == Show(n)[i]
  {
    ShowThenValue(n);
    seq(|Show(n)|, i requires 0 <= i < |Show(n)| => Show(n)[i] as byte)
  }

  /** For every u32 the loop takes exactly "OK n" and the newline, and leaves the D-Bus bytes. */
  lemma ReplyEnds(n: nat, rest: seq<byte>, used: nat)
    requires n < U32_MOD
    ensures Ends(Reply(n) + rest, used) <==> used == |Reply(n)|
    ensures (Reply(n) + rest)[..3] == OK && (Reply(n) + rest)[|Reply(n)|..] == rest
  {
    assert Pow10(10) == 10_000_000_000;
    ShowLength(n, 10);
    var s := Reply(n) + rest;
    assert s[|Reply(n)| - 1] == NEWLINE;
    assert forall i :: 3 <= i < |Reply(n)| - 1 ==> s[i] == Digits(n)[i - 3];
  }

  // ---- the VMM's socket -------------------------------------------------------------------

  /** path is q, an underscore, and digits. */
  predicate Splits(path: seq<byte>, q: seq<byte>) {
    && 0 < |q| < |path| && path[..|q|] == q && path[|q|] == UNDERSCORE
    && forall i :: |q| < i < |path| ==> DigitByte(path[i])
  }

  /** listening_vsock_path finds the one way to split the path, if there is one. The address is
      never empty, being a pathname, and the index stays in bounds. */
  method ListeningVsockPath(path: seq<byte>) returns (r: Option<seq<byte>>)
    requires path != []
    ensures forall q :: Splits(path, q) <==> r == Some(q)
  {
    var i := |path| - 1;
    while true
      invariant 0 <= i < |path|
      invariant forall j :: i < j < |path| ==> DigitByte(path[j])
      decreases i
    {
      if i != 0 && DigitByte(path[i]) {
        i := i - 1;
      } else if i != 0 && path[i] == UNDERSCORE {
        assert Splits(path, path[..i]);
        return Some(path[..i]);
      } else {
        return None;
      }
    }
  }

  const RUN_VM: seq<byte> := [47, 114, 117, 110, 47, 118, 109]  // "/run/vm"
  const VSOCK: seq<byte> := [118, 115, 111, 99, 107]            // "vsock"

  /** The path s6-ipcserver-socketbinder binds: /run/vm/${1}/vsock_219. */
  function ServicePath(name: seq<byte>): seq<byte> {
    RUN_VM + [SLASH] + name + [SLASH] + VSOCK + [UNDERSCORE] + [50, 49, 57]
  }

  /** start-vmm joins its directory to the VM's name, and vm_config joins the socket's to that. */
  function VmmSocket(name: seq<byte>): seq<byte> {
    Join(Join(RUN_VM, name), VSOCK)
  }

  lemma ServiceSplits(name: seq<byte>)
    ensures Splits(ServicePath(name), RUN_VM + [SLASH] + name + [SLASH] + VSOCK)
  {
    var path, q := ServicePath(name), RUN_VM + [SLASH] + name + [SLASH] + VSOCK;
    assert path[..|q|] == q && path[|q|..] == [UNDERSCORE, 50, 49, 57];
    assert forall i :: |q| < i < |path| ==> path[i] == path[|q|..][i - |q|];
  }

  /** The portal finds the socket the VMM was given exactly if the VM's name is not empty and has
      no slash at either end. */
  method FindVmmSocket(name: seq<byte>) returns (r: Option<seq<byte>>)
    ensures r.Some?
    ensures r == Some(VmmSocket(name)) <==> name != [] && name[0] != SLASH && name[|name| - 1] != SLASH
  {
    r := ListeningVsockPath(ServicePath(name));
    ServiceSplits(name);
    assert r == Some(RUN_VM + [SLASH] + name + [SLASH] + VSOCK);
    if name != [] && name[0] != SLASH {
      var dir := RUN_VM + [SLASH] + name;
      assert Join(RUN_VM, name) == dir && dir[|dir| - 1] == name[|name| - 1];
    }
  }
}
