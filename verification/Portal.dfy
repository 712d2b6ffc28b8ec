/** The handshake between xdg-desktop-portal-spectrum (guest) and
    xdg-desktop-portal-spectrum-host, as two programs that exchange bytes in arbitrary portions. */
module Portal {
  import opened Bytes
  import opened Paths

  /** What the guest has to say: protocol versions, D-Bus port, share root. */
  datatype Hello = Hello(versions: seq<byte>, port: nat, root: seq<byte>)

  ghost predicate Sendable(h: Hello) {
    |h.versions| < Pow256(1) && h.port < Pow256(4) && |h.root| < Pow256(4)
  }

  /** The five fields as the guest puts them on the wire. */
  datatype Wire = Wire(count: seq<byte>, versions: seq<byte>, port: seq<byte>, length: seq<byte>, root: seq<byte>)

  /** connect_to_host writes the first two fields, send_info the last three. */
  function Encode(h: Hello): Wire {
    Wire(ToBe(|h.versions|, 1), h.versions, ToBe(h.port, 4), ToBe(|h.root|, 4), h.root)
  }

  ghost predicate WellFormed(w: Wire) {
    && |w.count| == 1 && FromBe(w.count) == |w.versions|
    && |w.port| == 4
    && |w.length| == 4 && FromBe(w.length) == |w.root|
  }

  lemma EncodeOk(h: Hello)
    requires Sendable(h)
    ensures WellFormed(Encode(h)) && FromBe(Encode(h).port) == h.port
  {
    BeRoundTrip(|h.versions|, 1);
    BeRoundTrip(h.port, 4);
    BeRoundTrip(|h.root|, 4);
  }

  /** The bytes on the wire: counts and numbers have their most significant octet first. */
  lemma StreamBytes(h: Hello)
    requires Sendable(h)
    ensures Stream(Encode(h)) == [|h.versions|] + h.versions + Octets(h.port) + Octets(|h.root|) + h.root
    ensures h.port < 0x1_0000_0000 && |h.root| < 0x1_0000_0000 && |h.versions| < 0x100
  {
    Limits();
    ToBe4(h.port);
    ToBe4(|h.root|);
    OneByte(|h.versions|);
  }

  lemma Limits()
    ensures Pow256(1) == 0x100 && Pow256(4) == 0x1_0000_0000
  {
    assert Pow256(4) == 256 * (256 * (256 * (256 * Pow256(0))));
  }

  lemma OneByte(n: nat)
    requires n < 0x100
    ensures ToBe(n, 1) == [n]
  {
    assert ToBe(n, 1) == ToBe(n / 256, 0) + [n % 256];
  }

  datatype Field = Count | Versions | Port | Length | Root

  function FieldBytes(w: Wire, f: Field): seq<byte> {
    match f
    case Count => w.count
    case Versions => w.versions
    case Port => w.port
    case Length => w.length
    case Root => w.root
  }

  function Greeting(w: Wire): seq<byte> {
    w.count + w.versions
  }

  function Stream(w: Wire): seq<byte> {
    w.count + w.versions + w.port + w.length + w.root
  }

  // ---- the two programs -------------------------------------------------------------------

  datatype Guest =
    | Writing                // write_all
    | AwaitVersion           // read of the chosen version
    | AwaitResult            // read of the result byte
    | Finished(result: byte)
    | BadVersion
    | NoByte                 // a read found the connection closed; the source goes on undefined

  datatype Host =
    | Reading(field: Field, got: seq<byte>)  // read_exact
    | Replying                               // write of the chosen version
    | SettingUp                              // connecting back to the guest's bus
    | Reporting(ok: bool)                    // write of the result byte
    | Served(ok: bool)
    | Rejected                               // no common version: the connection is dropped

  datatype State = State(
    guest: Guest, sent: nat,       // bytes of the stream written so far
    host: Host,
    count: nat, port: nat, length: nat, root: seq<byte>,  // what the host has read
    toHost: seq<byte>, toGuest: seq<byte>)

  const INIT := State(Writing, 0, Reading(Count, []), 0, 0, 0, [], [], [])

  datatype Event =
    | GuestWrite(k: nat) | GuestRead | GuestEof
    | HostRead(k: nat) | HostWrite | SetUp(ok: bool)

  /** How much the guest may have written before it must read. */
  function Limit(w: Wire, s: State): nat
  {
    if s.sent < |Greeting(w)| then |Greeting(w)| else |Stream(w)|
  }

  function Need(s: State, f: Field): nat {
    match f
    case Count => 1
    case Versions => s.count
    case Port | Length => 4
    case Root => s.length
  }

  /** The host has dropped the connection. */
  predicate Closed(host: Host) {
    host.Rejected? || host.Served?
  }

  predicate Enabled(w: Wire, s: State, e: Event)
  {
    match e
    case GuestWrite(k) => s.guest.Writing? && k > 0 && s.sent + k <= Limit(w, s)
    case GuestRead => (s.guest.AwaitVersion? || s.guest.AwaitResult?) && s.toGuest != []
    case GuestEof => (s.guest.AwaitVersion? || s.guest.AwaitResult?) && s.toGuest == [] && Closed(s.host)
    case HostRead(k) => s.host.Reading? && 0 < k <= |s.toHost| && |s.host.got| + k <= Need(s, s.host.field)
    case HostWrite => s.host.Replying? || s.host.Reporting?
    case SetUp(ok) => s.host.SettingUp? && (ok ==> Absolute(s.root))
  }

  /** A field has been read; an empty one is read at once. */
  function Finish(s: State, f: Field, got: seq<byte>): State {
    match f
    case Count =>
      var n := FromBe(got);
      s.(count := n, host := if n == 0 then Rejected else Reading(Versions, []))
    case Versions => s.(host := if 1 in got then Replying else Rejected)
    case Port => s.(port := FromBe(got), host := Reading(Length, []))
    case Length =>
      var n := FromBe(got);
      s.(length := n, root := [], host := if n == 0 then SettingUp else Reading(Root, []))
    case Root => s.(root := got, host := SettingUp)
  }

  function ResultByte(ok: bool): byte {
    if ok then 0 else 1
  }

  function Apply(w: Wire, s: State, e: Event): State
    requires Enabled(w, s, e)
  {
    match e
    case GuestWrite(k) =>
      var t := s.(sent := s.sent + k, toHost := s.toHost + Stream(w)[s.sent..s.sent + k]);
      if t.sent == |Greeting(w)| then t.(guest := AwaitVersion)
      else if t.sent == |Stream(w)| then t.(guest := AwaitResult) else t
    case GuestRead =>
      var b := s.toGuest[0];
      var t := s.(toGuest := s.toGuest[1..]);
      if s.guest.AwaitResult? then t.(guest := Finished(b))
      else t.(guest := if b == 1 then Writing else BadVersion)
    case GuestEof => s.(guest := NoByte)
    case HostRead(k) =>
      var got := s.host.got + s.toHost[..k];
      var t := s.(toHost := s.toHost[k..]);
      if |got| == Need(s, s.host.field) then Finish(t, s.host.field, got)
      else t.(host := Reading(s.host.field, got))
    case HostWrite =>
      if s.host.Replying? then s.(toGuest := s.toGuest + [1], host := Reading(Port, []))
      else s.(toGuest := s.toGuest + [ResultByte(s.host.ok)], host := Served(s.host.ok))
    case SetUp(ok) => s.(host := Reporting(ok))
  }

  ghost predicate IsRun(w: Wire, run: seq<State>, events: seq<Event>)
  {
    && |run| == |events| + 1 && run[0] == INIT
    && forall i :: 0 <= i < |events| ==> Enabled(w, run[i], events[i]) && run[i + 1] == Apply(w, run[i], events[i])
  }

  // ---- what every reachable state satisfies -----------------------------------------------

  function Offset(w: Wire, f: Field): nat
  {
    match f
    case Count => 0
    case Versions => |w.count|
    case Port => |w.count| + |w.versions|
    case Length => |w.count| + |w.versions| + |w.port|
    case Root => |w.count| + |w.versions| + |w.port| + |w.length|
  }

  /** Each field sits at its offset in the stream. */
  lemma FieldAt(w: Wire, f: Field)
    ensures |Greeting(w)| <= |Stream(w)| && (WellFormed(w) ==> |Greeting(w)| < |Stream(w)|)
    ensures var o := Offset(w, f); var b := FieldBytes(w, f);
            o + |b| <= |Stream(w)| && Stream(w)[o..o + |b|] == b
  {
  }

  ghost function Consumed(w: Wire, host: Host): nat
  {
    match host
    case Reading(f, got) => Offset(w, f) + |got|
    case Replying | Rejected => |Greeting(w)|
    case _ => |Stream(w)|
  }

  /** The host before it has answered the greeting. */
  ghost predicate Early(host: Host) {
    host.Replying? || host.Rejected? || (host.Reading? && (host.field.Count? || host.field.Versions?))
  }

  ghost predicate HostOk(w: Wire, s: State)
  {
    && (s.host.Rejected? ==> 1 !in w.versions)
    && (s.host.Replying? || !Early(s.host) ==> 1 in w.versions)
    && (s.host.Reading? ==>
          && |s.host.got| < |FieldBytes(w, s.host.field)|
          && s.host.got == FieldBytes(w, s.host.field)[..|s.host.got|]
          && Need(s, s.host.field) == |FieldBytes(w, s.host.field)|)
    && (s.host.Reading? && (s.host.field.Length? || s.host.field.Root?) ==> s.port == FromBe(w.port))
    && (s.host.SettingUp? || s.host.Reporting? || s.host.Served? ==> s.port == FromBe(w.port) && s.root == w.root)
    && (s.host.Reporting? || s.host.Served? ==> s.host.ok ==> Absolute(w.root))
  }

  ghost predicate GuestOk(w: Wire, s: State)
  {
    match s.guest
    case Writing =>
      && s.toGuest == [] && s.sent < |Stream(w)| && s.host.Reading?
      && (s.sent < |Greeting(w)| <==> Early(s.host))
    case AwaitVersion =>
      && s.sent == |Greeting(w)|
      && (if Early(s.host) then s.toGuest == [] else s.host == Reading(Port, []) && s.toGuest == [1])
    case AwaitResult =>
      && s.sent == |Stream(w)| && !Early(s.host)
      && s.toGuest == if s.host.Served? then [ResultByte(s.host.ok)] else []
    case Finished(r) =>
      s.sent == |Stream(w)| && s.host.Served? && r == ResultByte(s.host.ok) && s.toGuest == []
    case NoByte => s.sent == |Greeting(w)| && s.host.Rejected? && s.toGuest == []
    case BadVersion => false
  }

  ghost predicate Inv(w: Wire, s: State)
  {
    && HostOk(w, s) && GuestOk(w, s)
    && Consumed(w, s.host) <= s.sent <= |Stream(w)|
    && s.toHost == Stream(w)[Consumed(w, s.host)..s.sent]
  }

  /** Reading on inside a field b that starts at o in the stream. */
  lemma Portion(stream: seq<byte>, o: nat, b: seq<byte>, g: nat, k: nat, end: nat)
    requires o + |b| <= |stream| && stream[o..o + |b|] == b && g + k <= |b| && o + g + k <= end <= |stream|
    ensures b[..g] + stream[o + g..end][..k] == b[..g + k]
    ensures stream[o + g..end][k..] == stream[o + g + k..end]
  {
    var x, y := stream[o + g..end][..k], b[g..g + k];
    forall i | 0 <= i < k ensures x[i] == y[i] {
      assert stream[o..o + |b|][g + i] == stream[o + g + i];
    }
    assert x == y;
  }

  /** A portion read is the next portion of the field being read. */
  lemma ReadsField(w: Wire, s: State, k: nat)
    requires Inv(w, s) && Enabled(w, s, HostRead(k))
    ensures var b := FieldBytes(w, s.host.field); var n := |s.host.got| + k;
            n <= |b| && s.host.got + s.toHost[..k] == b[..n]
    ensures s.toHost[k..] == Stream(w)[Consumed(w, s.host) + k..s.sent]
  {
    FieldAt(w, s.host.field);
    Portion(Stream(w), Offset(w, s.host.field), FieldBytes(w, s.host.field), |s.host.got|, k, s.sent);
  }

  /** The host after the last portion of a field. */
  lemma FinishOk(w: Wire, s: State, f: Field)
    requires WellFormed(w) && HostOk(w, s) && s.host.Reading? && s.host.field == f
    ensures HostOk(w, Finish(s, f, FieldBytes(w, f)))
    ensures Consumed(w, Finish(s, f, FieldBytes(w, f)).host) == Offset(w, f) + |FieldBytes(w, f)|
    ensures Early(Finish(s, f, FieldBytes(w, f)).host) <==> f.Count? || f.Versions?
    ensures !Finish(s, f, FieldBytes(w, f)).host.Served?
  {
    FieldAt(w, f);
  }

  lemma KeepHostReadsOn(w: Wire, s: State, k: nat)
    requires WellFormed(w) && Inv(w, s) && Enabled(w, s, HostRead(k))
    requires |s.host.got| + k < |FieldBytes(w, s.host.field)|
    ensures Inv(w, Apply(w, s, HostRead(k)))
  {
    ReadsField(w, s, k);
    FieldAt(w, s.host.field);
  }

  /** What is unread does not matter to the host's state. */
  lemma UnreadAside(w: Wire, s: State, toHost: seq<byte>)
    requires HostOk(w, s)
    ensures HostOk(w, s.(toHost := toHost))
  {
  }

  /** Once the field is whole, the host goes on to Finish. */
  lemma FieldWhole(w: Wire, s: State, k: nat, b: seq<byte>)
    requires Enabled(w, s, HostRead(k)) && |b| == Need(s, s.host.field) && s.host.got + s.toHost[..k] == b
    ensures Apply(w, s, HostRead(k)) == Finish(s.(toHost := s.toHost[k..]), s.host.field, b)
  {
  }

  /** The last portion. */
  lemma LastPortion(w: Wire, s: State, k: nat)
    requires WellFormed(w) && Inv(w, s) && Enabled(w, s, HostRead(k))
    requires |s.host.got| + k == |FieldBytes(w, s.host.field)|
    ensures var t := s.(toHost := s.toHost[k..]);
            && HostOk(w, t)
            && Apply(w, s, HostRead(k)) == Finish(t, s.host.field, FieldBytes(w, s.host.field))
            && t.toHost == Stream(w)[Offset(w, s.host.field) + |FieldBytes(w, s.host.field)|..s.sent]
  {
    LastRead(w, s, k);
    UnreadAside(w, s, s.toHost[k..]);
    FieldWhole(w, s, k, FieldBytes(w, s.host.field));
  }

  lemma LastRead(w: Wire, s: State, k: nat)
    requires Inv(w, s) && Enabled(w, s, HostRead(k)) && |s.host.got| + k == |FieldBytes(w, s.host.field)|
    ensures s.host.got + s.toHost[..k] == FieldBytes(w, s.host.field)
    ensures s.toHost[k..] == Stream(w)[Offset(w, s.host.field) + |FieldBytes(w, s.host.field)|..s.sent]
  {
    ReadsField(w, s, k);
    Whole(FieldBytes(w, s.host.field));
  }

  lemma Whole<T>(b: seq<T>)
    ensures b[..|b|] == b
  {
  }

  lemma KeepHostRead(w: Wire, s: State, k: nat)
    requires WellFormed(w) && Inv(w, s) && Enabled(w, s, HostRead(k))
    ensures Inv(w, Apply(w, s, HostRead(k)))
  {
    if |s.host.got| + k == |FieldBytes(w, s.host.field)| {
      LastPortion(w, s, k);
      FinishOk(w, s.(toHost := s.toHost[k..]), s.host.field);
      FieldAt(w, s.host.field);
    } else {
      KeepHostReadsOn(w, s, k);
    }
  }

  lemma KeepGuestWrite(w: Wire, s: State, k: nat)
    requires WellFormed(w) && Inv(w, s) && Enabled(w, s, GuestWrite(k))
    ensures Inv(w, Apply(w, s, GuestWrite(k)))
  {
    FieldAt(w, Count);
    var stream := Stream(w);
    Adjoin(stream, Consumed(w, s.host), s.sent, s.sent + k);
  }

  lemma Adjoin<T>(s: seq<T>, a: nat, b: nat, c: nat)
    requires a <= b <= c <= |s|
    ensures s[a..b] + s[b..c] == s[a..c]
  {
  }

  lemma KeepGuest(w: Wire, s: State, e: Event)
    requires WellFormed(w) && Inv(w, s) && Enabled(w, s, e) && (e.GuestRead? || e.GuestEof?)
    ensures Inv(w, Apply(w, s, e))
  {
    FieldAt(w, Count);
  }

  lemma KeepHost(w: Wire, s: State, e: Event)
    requires WellFormed(w) && Inv(w, s) && Enabled(w, s, e) && (e.HostWrite? || e.SetUp?)
    ensures Inv(w, Apply(w, s, e))
  {
    FieldAt(w, Count);
  }

  lemma Keep(w: Wire, s: State, e: Event)
    requires WellFormed(w) && Inv(w, s) && Enabled(w, s, e)
    ensures Inv(w, Apply(w, s, e))
  {
    match e
    case GuestWrite(k) => KeepGuestWrite(w, s, k);
    case GuestRead | GuestEof => KeepGuest(w, s, e);
    case HostRead(k) => KeepHostRead(w, s, k);
    case HostWrite | SetUp(_) => KeepHost(w, s, e);
  }

  lemma {:induction false} RunInv(w: Wire, run: seq<State>, events: seq<Event>, i: nat)
    requires WellFormed(w) && IsRun(w, run, events) && i < |run|
    ensures Inv(w, run[i])
  {
    if i == 0 {
      FieldAt(w, Count);
    } else {
      RunInv(w, run, events, i - 1);
      Keep(w, run[i - 1], events[i - 1]);
    }
  }

  // ---- the protocol's promises ------------------------------------------------------------

  /** The host turns a guest away exactly for want of version 1, and then sends nothing; only then
      does the guest read from a closed connection. */
  lemma VersionNegotiated(h: Hello, run: seq<State>, events: seq<Event>, i: nat)
    requires Sendable(h) && IsRun(Encode(h), run, events) && i < |run|
    ensures run[i].host.Rejected? ==> 1 !in h.versions
    ensures 1 !in h.versions ==> run[i].toGuest == [] && !run[i].guest.Finished?
    ensures run[i].guest.NoByte? ==> 1 !in h.versions
    ensures !run[i].guest.BadVersion?
    ensures 1 !in h.versions ==> run[i].sent <= 1 + |h.versions|
  {
    EncodeOk(h);
    RunInv(Encode(h), run, events, i);
  }

  /** The guest says no more than its versions until it has read the host's choice. */
  lemma {:induction false} WaitsForVersion(h: Hello, run: seq<State>, events: seq<Event>, i: nat)
    requires Sendable(h) && IsRun(Encode(h), run, events) && i < |run|
    ensures run[i].sent > 1 + |h.versions| ==> GuestRead in events[..i]
    ensures run[i].guest.Writing? && run[i].sent >= 1 + |h.versions| ==> GuestRead in events[..i]
  {
    EncodeOk(h);
    if i > 0 {
      WaitsForVersion(h, run, events, i - 1);
      assert events[..i] == events[..i - 1] + [events[i - 1]];
    }
  }

  /** What the guest reads is version 1, and then 0 or 1 for how the set-up went. */
  lemma BytesToGuest(h: Hello, run: seq<State>, events: seq<Event>, i: nat)
    requires Sendable(h) && IsRun(Encode(h), run, events) && i < |events| && events[i] == GuestRead
    ensures run[i].guest.AwaitVersion? ==> run[i].toGuest == [1]
    ensures run[i].guest.AwaitResult? ==>
              run[i].host.Served? && run[i].toGuest == [if run[i].host.ok then 0 else 1]
  {
    EncodeOk(h);
    RunInv(Encode(h), run, events, i);
  }

  /** Whenever the host has read everything, it has the guest's port and root, byte for byte, and
      nothing is left over on the connection. */
  lemma HostRecovers(h: Hello, run: seq<State>, events: seq<Event>, i: nat)
    requires Sendable(h) && IsRun(Encode(h), run, events) && i < |run|
    requires run[i].host.SettingUp? || run[i].host.Reporting? || run[i].host.Served?
    ensures run[i].port == h.port && run[i].root == h.root && run[i].toHost == []
  {
    EncodeOk(h);
    RunInv(Encode(h), run, events, i);
  }

  /** A delivered result byte 0 means that the host set up its bus connection, for an absolute
      root; any other result means that it did not. */
  lemma ResultIsTrue(h: Hello, run: seq<State>, events: seq<Event>, i: nat)
    requires Sendable(h) && IsRun(Encode(h), run, events) && i < |run|
    requires run[i].guest.Finished?
    ensures run[i].host.Served? && (run[i].guest.result == 0 <==> run[i].host.ok)
    ensures run[i].guest.result == 0 ==> SetUp(true) in events[..i] && Absolute(h.root)
  {
    EncodeOk(h);
    RunInv(Encode(h), run, events, i);
    if run[i].host.ok { SetUpHappened(Encode(h), run, events, i); }
  }

  lemma {:induction false} SetUpHappened(w: Wire, run: seq<State>, events: seq<Event>, i: nat)
    requires IsRun(w, run, events) && i < |run|
    requires (run[i].host.Reporting? || run[i].host.Served?) && run[i].host.ok
    ensures SetUp(true) in events[..i]
  {
    assert i > 0 ==> events[..i] == events[..i - 1] + [events[i - 1]];
    if i > 0 && events[i - 1] != SetUp(true) {
      SetUpHappened(w, run, events, i - 1);
    }
  }

  /** Both programs are done. */
  ghost predicate Over(s: State) {
    Closed(s.host) && !Active(s.guest)
  }

  ghost predicate Active(guest: Guest) {
    guest.Writing? || guest.AwaitVersion? || guest.AwaitResult?
  }

  /** No reachable state is stuck: until both programs are done, one of them can go on. */
  lemma NeverStuck(h: Hello, run: seq<State>, events: seq<Event>, i: nat)
    requires Sendable(h) && IsRun(Encode(h), run, events) && i < |run|
    requires !Over(run[i])
    ensures exists e :: Enabled(Encode(h), run[i], e)
  {
    var w := Encode(h);
    var s := run[i];
    EncodeOk(h);
    RunInv(w, run, events, i);
    FieldAt(w, Count);
    if s.guest.Writing? {
      assert Enabled(w, s, GuestWrite(1));
    } else if s.toGuest != [] {
      assert Enabled(w, s, GuestRead);
    } else if s.host.Reading? {
      FieldAt(w, s.host.field);
      assert Enabled(w, s, HostRead(1));
    } else if s.host.SettingUp? {
      assert Enabled(w, s, SetUp(false));
    } else if Closed(s.host) {
      assert Enabled(w, s, GuestEof);
    } else {
      assert Enabled(w, s, HostWrite);
    }
  }

  /** How it ends: with a result delivered exactly if the guest offered version 1. */
  lemma HowItEnds(h: Hello, run: seq<State>, events: seq<Event>, i: nat)
    requires Sendable(h) && IsRun(Encode(h), run, events) && i < |run| && Over(run[i])
    ensures run[i].guest.Finished? <==> 1 in h.versions
    ensures run[i].host.Served? <==> 1 in h.versions
    ensures run[i].toGuest == [] && run[i].toHost == []
  {
    EncodeOk(h);
    RunInv(Encode(h), run, events, i);
  }

  /** Work left; every event reduces it, so every run ends. */
  ghost function Work(w: Wire, s: State): int
  {
    (|Stream(w)| - s.sent) + (|Stream(w)| - Consumed(w, s.host)) + 2 * Steps(s.host) + |s.toGuest|
    + (if Active(s.guest) then 1 else 0)
  }

  ghost function Steps(host: Host): nat {
    match host
    case Reading(f, _) => if f.Count? || f.Versions? then 4 else 3
    case Replying => 4
    case SettingUp => 2
    case Reporting(_) => 1
    case _ => 0
  }

  lemma ReadWorks(w: Wire, s: State, k: nat)
    requires WellFormed(w) && Inv(w, s) && Enabled(w, s, HostRead(k))
    ensures Work(w, Apply(w, s, HostRead(k))) < Work(w, s)
  {
    if |s.host.got| + k == |FieldBytes(w, s.host.field)| {
      LastPortion(w, s, k);
      FinishOk(w, s.(toHost := s.toHost[k..]), s.host.field);
    }
  }

  lemma RunsEnd(h: Hello, run: seq<State>, events: seq<Event>, i: nat)
    requires Sendable(h) && IsRun(Encode(h), run, events) && i < |events|
    ensures 0 <= Work(Encode(h), run[i + 1]) < Work(Encode(h), run[i])
  {
    EncodeOk(h);
    RunInv(Encode(h), run, events, i);
    RunInv(Encode(h), run, events, i + 1);
    StepWorks(Encode(h), run[i], events[i]);
  }

  lemma StepWorks(w: Wire, s: State, e: Event)
    requires WellFormed(w) && Inv(w, s) && Enabled(w, s, e)
    ensures Work(w, Apply(w, s, e)) < Work(w, s)
  {
    FieldAt(w, Count);
    if e.HostRead? { ReadWorks(w, s, e.k); }
  }
}
