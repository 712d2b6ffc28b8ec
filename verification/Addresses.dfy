/** Each VM's MAC addresses come from start-vmm's pid, and its IP address from its MAC address. */
module Addresses {
  import opened Bytes
  import opened Decimal
  import opened Options
  import Hex
  import opened Seqs

  /** The octets 0A:B3:EC:80 or 0A:B3:EC:00 and the low 16 bits of the pid. */
  function Mac(router: bool, pid: nat): (m: seq<byte>)
    ensures |m| == 6
  {
    [0x0A, 0xB3, 0xEC, if router then 0x80 else 0x00, pid / 256 % 256, pid % 256]
  }

  function Hex2(upper: bool, b: byte): string {
    [Hex.Digit(upper, b / 16) as char, Hex.Digit(upper, b % 16) as char]
  }

  /** A field read as two hexadecimal digits. */
  function FromHex2(s: string): Option<byte> {
    if |s| != 2 then None
    else
      var a, b := Hex.Value(s[0] as int), Hex.Value(s[1] as int);
      if a.Some? && b.Some?  then Some(16 * a.value + b.value) else None
  }

  lemma Hex2RoundTrip(upper: bool, b: byte)
    ensures FromHex2(Hex2(upper, b)) == Some(b) && ':' !in Hex2(upper, b)
  {
    Hex.RoundTrip(upper, b / 16);
    Hex.RoundTrip(upper, b % 16);
  }

  /** The address as start-vmm prints it, in capitals, or as Linux shows it under /sys. */
  function MacText(upper: bool, m: seq<byte>): string
    requires m != []
  {
    if |m| == 1 then Hex2(upper, m[0]) else Hex2(upper, m[0]) + [':'] + MacText(upper, m[1..])
  }

  function Bytes2(fields: seq<string>): Option<seq<byte>> {
    if fields == [] then Some([])
    else
      var b, rest := FromHex2(fields[0]), Bytes2(fields[1..]);
      if b.Some? && rest.Some? then Some([b.value] + rest.value) else None
  }

  function ParseMac(text: string): Option<seq<byte>> {
    Bytes2(Split(':', text))
  }

  lemma {:induction false} MacFields(upper: bool, m: seq<byte>)
    requires m != []
    ensures var fields := Split(':', MacText(upper, m));
            |fields| == |m| && forall i :: 0 <= i < |m| ==> fields[i] == Hex2(upper, m[i])
  {
    Hex2RoundTrip(upper, m[0]);
    if |m| == 1 {
      SplitWhole(':', Hex2(upper, m[0]));
    } else {
      MacFields(upper, m[1..]);
      SplitFirst(':', Hex2(upper, m[0]), MacText(upper, m[1..]));
    }
  }

  lemma {:induction false} ReadFields(upper: bool, fields: seq<string>, m: seq<byte>)
    requires |fields| == |m| && forall i :: 0 <= i < |m| ==> fields[i] == Hex2(upper, m[i])
    ensures Bytes2(fields) == Some(m)
  {
    if m != [] {
      Hex2RoundTrip(upper, m[0]);
      ReadFields(upper, fields[1..], m[1..]);
      assert m == [m[0]] + m[1..];
    }
  }

  /** Printing and then parsing an address is the identity, in either case of letters. */
  lemma MacRoundTrip(upper: bool, m: seq<byte>)
    requires m != []
    ensures ParseMac(MacText(upper, m)) == Some(m)
  {
    MacFields(upper, m);
    ReadFields(upper, Split(':', MacText(upper, m)), m);
  }

  /** What both guests' awk programs make of an address: fields 5 and 6 in decimal. */
  function IpText(mac: string): Option<string> {
    var f := Split(':', mac);
    if |f| >= 6 && FromHex2(f[4]).Some? && FromHex2(f[5]).Some?
    then Some("100.64." + Show(FromHex2(f[4]).value) + ['.'] + Show(FromHex2(f[5]).value))
    else None
  }

  function Ip(pid: nat): string {
    "100.64." + Show(pid / 256 % 256) + ['.'] + Show(pid % 256)
  }

  /** The address a client gives itself is the one its router installs a route to. */
  lemma ClientMatchesRouter(pid: nat, upper: bool, router: bool)
    ensures IpText(MacText(upper, Mac(router, pid))) ==
            Some("100.64." + Show(pid / 256 % 256) + ['.'] + Show(pid % 256))
    ensures IpText(MacText(upper, Mac(router, pid))) == Some(Ip(pid))
  {
    var m := Mac(router, pid);
    MacFields(upper, m);
    Hex2RoundTrip(upper, m[4]);
    Hex2RoundTrip(upper, m[5]);
  }

  lemma DotsApart(a: nat, b: nat)
    ensures Split('.', Show(a) + ['.'] + Show(b)) == [Show(a), Show(b)]
  {
    ShowThenValue(a);
    ShowThenValue(b);
    SplitFirst('.', Show(a), Show(b));
    SplitWhole('.', Show(b));
  }

  lemma Residue(p: nat, k: nat, r: nat)
    requires p == 65536 * k + r && r < 65536
    ensures p % 65536 == r
  {
  }

  lemma TwoOctets(p: nat, m: nat, k: nat, b: nat, c: nat)
    requires p == 256 * m + c && m == 256 * k + b && b < 256 && c < 256
    ensures p % 65536 == 256 * b + c
  {
    Residue(p, k, 256 * b + c);
  }

  lemma OctetsUnique(a: nat, b: nat, c: nat, d: nat)
    requires b < 256 && d < 256
    ensures 256 * a + b == 256 * c + d <==> a == c && b == d
  {
  }

  lemma LowBits(p: nat, q: nat)
    ensures p % 65536 == q % 65536 <==> p / 256 % 256 == q / 256 % 256 && p % 256 == q % 256
  {
    TwoOctets(p, p / 256, p / 256 / 256, p / 256 % 256, p % 256);
    TwoOctets(q, q / 256, q / 256 / 256, q / 256 % 256, q % 256);
    OctetsUnique(p / 256 % 256, p % 256, q / 256 % 256, q % 256);
  }

  /** Two MAC addresses agree exactly when they are for the same side and the pids agree in their
      low 16 bits, */
  lemma MacsCollideIff(r: bool, p: nat, s: bool, q: nat)
    ensures Mac(r, p) == Mac(s, q) <==> r == s && p % 65536 == q % 65536
  {
    LowBits(p, q);
    var m, n := Mac(r, p), Mac(s, q);
    assert m == n ==> m[3] == n[3] && m[4] == n[4] && m[5] == n[5];
  }

  /** and so do two IP addresses. */
  lemma IpsCollideIff(p: nat, q: nat)
    ensures Ip(p) == Ip(q) <==> p % 65536 == q % 65536
  {
    LowBits(p, q);
    if Ip(p) == Ip(q) {
      var a, b := Show(p / 256 % 256) + ['.'] + Show(p % 256), Show(q / 256 % 256) + ['.'] + Show(q % 256);
      assert Ip(p)[7..] == a && Ip(q)[7..] == b;
      DotsApart(p / 256 % 256, p % 256);
      DotsApart(q / 256 % 256, q % 256);
      ShowInjective(p / 256 % 256, q / 256 % 256);
      ShowInjective(p % 256, q % 256);
    }
  }

  /** Two pids beyond 16 bits for which they do collide. */
  lemma CollidingPids()
    ensures Mac(false, 1) == Mac(false, 65537) && Mac(true, 1) == Mac(true, 65537) && Ip(1) == Ip(65537)
  {
    MacsCollideIff(false, 1, false, 65537);
    MacsCollideIff(true, 1, true, 65537);
    IpsCollideIff(1, 65537);
  }

  /** The address in print: the two sides' differ in the fourth octet. */
  lemma MacPrinted(router: bool, pid: nat)
    ensures MacText(true, Mac(router, pid)) ==
            (if router then "0A:B3:EC:80" else "0A:B3:EC:00")
            + [':'] + Hex2(true, pid / 256 % 256) + [':'] + Hex2(true, pid % 256)
  {
    Unrolled(true, Mac(router, pid));
    assert Hex2(true, 0x0A) == "0A" && Hex2(true, 0xB3) == "B3" && Hex2(true, 0xEC) == "EC";
    assert Hex2(true, 0x80) == "80" && Hex2(true, 0x00) == "00";
  }

  /** The router tells a VM's interface by the first three octets, in the letters Linux shows. */
  lemma MacRecognised(router: bool, pid: nat)
    ensures "0a:b3:ec:" <= MacText(false, Mac(router, pid))
  {
    Unrolled(false, Mac(router, pid));
    assert Hex2(false, 0x0A) == "0a" && Hex2(false, 0xB3) == "b3" && Hex2(false, 0xEC) == "ec";
  }

  lemma Unrolled(upper: bool, m: seq<byte>)
    requires |m| == 6
    ensures MacText(upper, m) ==
            Hex2(upper, m[0]) + [':'] + Hex2(upper, m[1]) + [':'] + Hex2(upper, m[2]) + [':'] + Hex2(upper, m[3])
            + [':'] + Hex2(upper, m[4]) + [':'] + Hex2(upper, m[5])
  {
    var d := m[3..];
    FirstThree(upper, m);
    FirstThree(upper, d);
    assert MacText(upper, m) == Hex2(upper, m[0]) + [':'] + Hex2(upper, m[1]) + [':'] + Hex2(upper, m[2]) + [':']
                                + (Hex2(upper, m[3]) + [':'] + Hex2(upper, m[4]) + [':'] + Hex2(upper, m[5]));
  }

  lemma FirstThree(upper: bool, m: seq<byte>)
    requires |m| >= 3
    ensures var three := Hex2(upper, m[0]) + [':'] + Hex2(upper, m[1]) + [':'] + Hex2(upper, m[2]);
            MacText(upper, m) == if |m| == 3 then three else three + [':'] + MacText(upper, m[3..])
  {
    var a, b := m[1..], m[2..];
    assert a[1..] == b && b[1..] == m[3..];
    Flat(Hex2(upper, m[0]) + [':'], Hex2(upper, m[1]), [':'], MacText(upper, b));
    if |m| > 3 {
      Flat(Hex2(upper, m[0]) + [':'] + Hex2(upper, m[1]) + [':'], Hex2(upper, m[2]), [':'], MacText(upper, m[3..]));
    }
  }

  lemma Flat<T>(p: seq<T>, a: seq<T>, b: seq<T>, c: seq<T>)
    ensures p + (a + b + c) == p + a + b + c
  {
  }

  /** Two digits, the high one first. */
  lemma Hex2Digits(b: byte)
    ensures Hex2(true, b) == ["0123456789ABCDEF"[b / 16], "0123456789ABCDEF"[b % 16]]
    ensures Hex2(false, b) == ["0123456789abcdef"[b / 16], "0123456789abcdef"[b % 16]]
  {
    Hex.Digits(b / 16);
    Hex.Digits(b % 16);
  }
}
