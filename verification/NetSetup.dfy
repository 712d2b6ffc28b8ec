/** net_setup as one process runs it: the calls of host/start-vmm/net-util.c on the kernel's
    interface table and on the caller's descriptor table, and the rollback of net.c. Every
    system call may fail. */
module NetSetup {
  import opened IfNames
  import opened NetKernel
  import opened Options

  datatype Desc = TunDesc(ix: Ix) | PipeReadEnd | PipeWriteEnd | Other

  function HeldBy(fds: map<int, Desc>, lent: set<Ix>): set<Ix> {
    (set f | f in fds && fds[f].TunDesc? :: fds[f].ix) + lent
  }

  /** Indices are fresh, every tap has a descriptor, and no port belongs to a bridge to come. */
  ghost predicate TableOk<K>(ifs: Ifs<K>, held: set<Ix>, nextIx: Ix) {
    && (forall n :: n in ifs ==>
          && ifs[n].ix < nextIx
          && (ifs[n].Tap? ==> ifs[n].ix in held && (ifs[n].master.Some? ==> ifs[n].master.value < nextIx)))
    && (forall ix :: ix in held ==> ix < nextIx)
  }

  // Which calls are made.

  datatype Sys =
    | Socket
    | GetFlags(name: string) | SetFlags(name: string, up: bool)
    | NameToIndex(name: string)
    | BrAdd(name: string) | BrAddIf(bridge: string, port: Ix) | BrDel(name: string)
    | OpenTun | TunSetIff(name: string)
    | AddNet(id: string)
    | MakePipe | Fork

  /** A call and whether it succeeded. */
  datatype Done = Done(call: Sys, ok: bool)

  /** The calls of a plan, made in order up to the first that fails, which comes after k others. */
  function Ran(plan: seq<Sys>, k: nat): seq<Done> {
    if plan == [] then []
    else if k == 0 then [Done(plan[0], false)]
    else [Done(plan[0], true)] + Ran(plan[1..], k - 1)
  }

  lemma {:induction false} RanOn(p: seq<Sys>, q: seq<Sys>, k: nat)
    ensures Ran(p, |p|) + Ran(q, k) == Ran(p + q, |p| + k)
  {
    if p == [] {
      assert p + q == q;
    } else {
      assert (p + q)[1..] == p[1..] + q;
      RanOn(p[1..], q, k);
    }
  }

  lemma {:induction false} RanNot(p: seq<Sys>, q: seq<Sys>, k: nat)
    requires k < |p|
    ensures Ran(p, k) == Ran(p + q, k)
  {
    if k > 0 {
      assert (p + q)[1..] == p[1..] + q;
      RanNot(p[1..], q, k - 1);
    }
  }

  /** Two plans one after the other, in a log. */
  lemma LogOn(log: seq<Done>, p: seq<Sys>, q: seq<Sys>, k: nat)
    ensures log + Ran(p, |p|) + Ran(q, k) == log + Ran(p + q, |p| + k)
  {
    RanOn(p, q, k);
    assert log + Ran(p, |p|) + Ran(q, k) == log + (Ran(p, |p|) + Ran(q, k));
  }

  lemma RanOne(log: seq<Done>, a: Sys, ok: bool)
    ensures log + [Done(a, ok)] == log + Ran([a], if ok then 1 else 0)
  {
    assert [Done(a, true)] + Ran([a][1..], 0) == [Done(a, true)];
  }

  function FlagPlan(name: string, up: bool): seq<Sys> {
    [Socket, GetFlags(name), SetFlags(name, up)]
  }

  function DeletePlan(name: string): seq<Sys> {
    [Socket, BrDel(name)]
  }

  function JoinPlan(bridge: string, name: string, ix: Ix): seq<Sys> {
    [NameToIndex(name), Socket, BrAddIf(bridge, ix)]
  }

  function AttachPlan(bridge: string, name: string, ix: Ix): seq<Sys> {
    JoinPlan(bridge, name, ix) + FlagPlan(name, true)
  }

  /** setup_tap, for a tap that gets the index ix. */
  function TapPlan(bridge: string, name: string, ix: Ix): seq<Sys> {
    [OpenTun, TunSetIff(name)] + AttachPlan(bridge, name, ix)
  }

  function ClientPlan(br: string, cl: string, ix: Ix): seq<Sys> {
    FlagPlan(br, true) + TapPlan(br, cl, ix)
  }

  function RouterPlan(br: string, ro: string, ix: Ix): seq<Sys> {
    TapPlan(br, ro, ix) + [AddNet(ro)]
  }

  function ListenerPlan(): seq<Sys> {
    [MakePipe, Fork]
  }

  function PortsPlan(br: string, cl: string, ro: string, ix: Ix): seq<Sys> {
    ClientPlan(br, cl, ix + 1) + (RouterPlan(br, ro, ix + 2) + ListenerPlan())
  }

  /** net_setup, if all goes well and the new interfaces get the indices from ix on. */
  function SetupPlan(br: string, cl: string, ro: string, ix: Ix): seq<Sys> {
    [Socket, BrAdd(br)] + PortsPlan(br, cl, ro, ix)
  }

  /** bridge_delete: taking the bridge down may fail; deleting it is tried all the same. */
  function Undo(br: string, down: nat, del: nat): seq<Done> {
    Ran(FlagPlan(br, false), down) + Ran(DeletePlan(br), del)
  }

  predicate Legal(name: string) {
    |name| < IFNAMSIZ && '%' !in name
  }

  class Host {
    const self: Serial
    const pid: Pid
    var ifs: Ifs<string>
    var fds: map<int, Desc>     // descriptor table of start-vmm
    var lent: set<Ix>           // taps another process has a descriptor for
    var devices: set<string>    // device ids of the router's VMM
    var listeners: nat          // exit listeners forked by this process
    var nextIx: Ix
    var nextFd: nat
    ghost var log: seq<Done>    // the calls made so far

    ghost predicate Valid()
      reads this
    {
      TableOk(ifs, HeldBy(fds, lent), nextIx) && forall f :: f in fds ==> 0 <= f < nextFd
    }

    /** A system call, which may always fail, and does unless `can`. */
    method Attempt(call: Sys, can: bool) returns (ok: bool)
      modifies this`log
      ensures ok ==> can
      ensures log == old(log) + [Done(call, ok)]
      ensures log == old(log) + Ran([call], if ok then 1 else 0)
    {
      ok := *;
      if !can {
        ok := false;
      }
      RanOne(log, call, ok);
      log := log + [Done(call, ok)];
    }

    /** Two calls, the second only if the first succeeds. */
    method Both(first: Sys, second: Sys, can: bool) returns (ok: bool, ghost far: nat)
      modifies this`log
      ensures ok ==> can
      ensures far <= 2 && log == old(log) + Ran([first, second], far) && (ok <==> far == 2)
    {
      ok := Attempt(first, true);
      far := 0;
      assert [first] + [second] == [first, second];
      if ok {
        ok := Attempt(second, can);
        far := if ok then 2 else 1;
        LogOn(old(log), [first], [second], far - 1);
      } else {
        RanNot([first], [second], 0);
      }
    }

    method Close(fd: int)
      modifies this`fds, this`ifs
      ensures fds == old(fds) - {fd}
      ensures ifs == Reap(old(ifs), HeldBy(fds, lent))
      ensures old(Valid()) ==> Valid()
    {
      fds := fds - {fd};
      ifs := Reap(ifs, HeldBy(fds, lent));
    }

    /** if_up and if_down */
    method IfSet(name: string, up: bool) returns (r: int, ghost far: nat)
      modifies this`ifs, this`log
      ensures far <= 3 && log == old(log) + Ran(FlagPlan(name, up), far)
      ensures r == if far == 3 then 0 else -1
      ensures r == 0 ==> name in old(ifs) && ifs == SetUp(old(ifs), name, up)
      ensures r == -1 ==> ifs == old(ifs)
      ensures old(Valid()) ==> Valid()
    {
      ghost var get, set' := [Socket, GetFlags(name)], [SetFlags(name, up)];
      assert get + set' == FlagPlan(name, up);
      var ok;
      ok, far := Both(Socket, GetFlags(name), name in ifs);
      if !ok {
        RanNot(get, set', far);
        return -1, far;
      }
      ok := Attempt(SetFlags(name, up), true);
      LogOn(old(log), get, set', if ok then 1 else 0);
      if !ok { return -1, 2; }
      ifs := SetUp(ifs, name, up);
      return 0, 3;
    }

    method BridgeAdd(name: string) returns (r: int, ghost far: nat)
      modifies this`ifs, this`nextIx, this`log
      ensures far <= 2 && log == old(log) + if Legal(name) then Ran([Socket, BrAdd(name)], far) else []
      ensures r == if Legal(name) && far == 2 then 0 else -1
      ensures r == 0 ==>
                && |name| < IFNAMSIZ && '%' !in name && name !in old(ifs)
                && nextIx == old(nextIx) + 1
                && ifs == old(ifs)[name := Bridge(old(nextIx), false, self)]
      ensures r == -1 ==> ifs == old(ifs) && nextIx == old(nextIx)
      ensures old(Valid()) ==> Valid()
    {
      far := 0;
      if |name| >= IFNAMSIZ || '%' in name { return -1, far; }
      var ok;
      ok, far := Both(Socket, BrAdd(name), name !in ifs);
      if !ok { return -1, far; }
      ifs := ifs[name := Bridge(nextIx, false, self)];
      nextIx := nextIx + 1;
      return 0, far;
    }

    method BridgeAddIf(brname: string, ifname: string) returns (r: int, ghost far: nat)
      modifies this`ifs, this`log
      ensures far <= 3 && r == if far == 3 then 0 else -1
      ensures var ix := if ifname in old(ifs) then old(ifs)[ifname].ix else 0;
              log == old(log) + Ran(JoinPlan(brname, ifname, ix), far)
      ensures r == 0 ==>
                && IsBridge(old(ifs), brname) && ifname in old(ifs)
                && ifs == SetMaster(old(ifs), old(ifs)[ifname].ix, Some(old(ifs)[brname].ix))
      ensures r == -1 ==> ifs == old(ifs)
      ensures old(Valid()) ==> Valid()
    {
      ghost var port := if ifname in ifs then ifs[ifname].ix else 0;
      ghost var find, join := [NameToIndex(ifname)], [Socket, BrAddIf(brname, port)];
      assert find + join == JoinPlan(brname, ifname, port);
      var ok := Attempt(NameToIndex(ifname), ifname in ifs);
      if !ok {
        RanNot(find, join, 0);
        return -1, 0;
      }
      var ix := ifs[ifname].ix;
      ok, far := Both(Socket, BrAddIf(brname, ix), brname in ifs && ifs[brname].Bridge?);
      LogOn(old(log), find, join, far);
      far := far + 1;
      if !ok { return -1, far; }
      ifs := SetMaster(ifs, ix, Some(ifs[brname].ix));
      return 0, far;
    }

    /** `down`, `del`: how far taking it down and deleting it got. */
    method BridgeDelete(name: string) returns (r: int, ghost down: nat, ghost del: nat)
      modifies this`ifs, this`log
      ensures down <= 3 && del <= 2 && r == if del == 2 then 0 else -1
      ensures log == old(log) + Undo(name, down, del)
      ensures r == 0 ==> IsBridge(old(ifs), name) && ifs == DeleteBridge(old(ifs), name)
      ensures r == -1 ==> ifs == old(ifs) || (name in old(ifs) && ifs == SetUp(old(ifs), name, false))
      ensures old(Valid()) ==> Valid()
    {
      var d, ok;
      d, down := IfSet(name, false);  // on failure the source only warns
      ok, del := Both(Socket, BrDel(name), name in ifs && ifs[name].Bridge? && !ifs[name].up);
      if !ok { return -1, down, del; }
      assert DeleteBridge(ifs, name) == DeleteBridge(old(ifs), name);
      ifs := DeleteBridge(ifs, name);
      return 0, down, del;
    }

    /** tap_open with IFF_TUN_EXCL */
    method TapOpen(name: string) returns (fd: int, ghost far: nat)
      modifies this`ifs, this`fds, this`nextIx, this`nextFd, this`log
      ensures far <= 2 && log == old(log) + if |name| < IFNAMSIZ then Ran([OpenTun, TunSetIff(name)], far) else []
      ensures fd >= 0 <==> |name| < IFNAMSIZ && far == 2
      ensures fd == -1 || fd == old(nextFd)
      ensures fd >= 0 ==>
                && |name| < IFNAMSIZ && name !in old(ifs)
                && nextIx == old(nextIx) + 1
                && ifs == old(ifs)[name := Tap(old(nextIx), false, self, None)]
                && fds == old(fds)[fd := TunDesc(old(nextIx))] && nextFd == old(nextFd) + 1
      ensures fd == -1 ==> ifs == old(ifs) && fds == old(fds) && nextIx == old(nextIx) && nextFd == old(nextFd)
      ensures old(Valid()) ==> Valid()
    {
      far := 0;
      if |name| >= IFNAMSIZ { return -1, far; }
      var ok;
      ok, far := Both(OpenTun, TunSetIff(name), name !in ifs);  // a new descriptor is closed again on failure
      if !ok { return -1, far; }
      fd := nextFd;
      ifs := ifs[name := Tap(nextIx, false, self, None)];
      fds := fds[fd := TunDesc(nextIx)];
      nextFd := nextFd + 1;
      nextIx := nextIx + 1;
      if old(Valid()) {
        HeldAdd(old(fds), lent, fd, old(nextIx));
        AddedOk(old(ifs), HeldBy(old(fds), lent), {old(nextIx)}, old(nextIx), name, ifs[name]);
      }
    }

    /** setup_tap once the tap is open. */
    method Attach(bridge: string, name: string, ghost base: Ifs<string>, ghost held: set<Ix>, ghost tap: Iface)
      returns (r: int, ghost far: nat)
      requires Valid() && IsBridge(base, bridge) && TableOk(base, held, tap.ix) && name !in base
      requires tap.Tap? && tap.master.None? && ifs == base[name := tap]
      modifies this`ifs, this`log
      ensures far <= 6 && log == old(log) + Ran(AttachPlan(bridge, name, tap.ix), far)
      ensures r == if far == 6 then 0 else -1
      ensures name in ifs && ifs == base[name := ifs[name]] && ifs[name].Tap? && ifs[name].ix == tap.ix
      ensures r == 0 ==> ifs[name] == tap.(up := true, master := Some(base[bridge].ix))
      ensures Valid()
    {
      r, far := BridgeAddIf(bridge, name);
      Joined(base, held, tap.ix, name, tap, base[bridge].ix);
      if r == 0 {
        r, far := IfSet(name, true);
        LogOn(old(log), JoinPlan(bridge, name, tap.ix), FlagPlan(name, true), far);
        far := 3 + far;
      } else {
        RanNot(JoinPlan(bridge, name, tap.ix), FlagPlan(name, true), far);
      }
    }

    /** setup_tap: all or nothing. */
    method SetupTap(bridge: string, name: string) returns (fd: int, ghost far: nat)
      requires Valid() && IsBridge(ifs, bridge)
      modifies this`ifs, this`fds, this`nextIx, this`nextFd, this`log
      ensures far <= 8 && (fd >= 0 <==> |name| < IFNAMSIZ && far == 8)
      ensures log == old(log) + if |name| < IFNAMSIZ then Ran(TapPlan(bridge, name, old(nextIx)), far) else []
      ensures fd == -1 || fd == old(nextFd)
      ensures fd == -1 ==> ifs == old(ifs) && fds == old(fds)
      ensures fd >= 0 ==>
                && name !in old(ifs)
                && ifs == old(ifs)[name := Tap(old(nextIx), true, self, Some(old(ifs)[bridge].ix))]
                && fds == old(fds)[fd := TunDesc(old(nextIx))]
      ensures nextIx >= old(nextIx) && nextFd >= old(nextFd)
      ensures fd >= 0 ==> nextIx == old(nextIx) + 1 && nextFd == old(nextFd) + 1
      ensures Valid()
    {
      ghost var open, rest := [OpenTun, TunSetIff(name)], AttachPlan(bridge, name, nextIx);
      fd, far := TapOpen(name);
      if fd == -1 {
        if |name| < IFNAMSIZ { RanNot(open, rest, far); }
        return;
      }
      var r;
      r, far := Attach(bridge, name, old(ifs), HeldBy(old(fds), lent), ifs[name]);
      LogOn(old(log), open, rest, far);
      far := 2 + far;
      if r == -1 {
        UndoTap(old(ifs), old(fds), lent, old(nextIx), name, ifs[name], fd);
        Close(fd);
        fd := -1;
      }
    }

    /** ch_add_net. The VMM may have taken the tap although an error is reported. */
    method ChAddNet(fd: int, id: string) returns (e: int, ghost taken: bool)
      requires fd in fds && fds[fd].TunDesc?
      modifies this`lent, this`devices, this`log
      ensures log == old(log) + Ran([AddNet(id)], if e == 0 then 1 else 0)
      ensures e == 0 ==> taken
      ensures taken ==> lent == old(lent) + {fds[fd].ix} && devices == old(devices) + {id}
      ensures !taken ==> lent == old(lent) && devices == old(devices)
      ensures old(Valid()) ==> Valid()
    {
      taken := false;
      var takes: bool := *;
      takes := takes && id !in devices;
      if takes {
        lent, devices, taken := lent + {fds[fd].ix}, devices + {id}, true;
      }
      var reported := Attempt(AddNet(id), takes);
      e := if reported then 0 else 71;
    }

    /** router_net_setup: start-vmm keeps no descriptor; the tap stays exactly if the VMM took it. */
    method RouterNetSetup(bridge: string, name: string) returns (r: int, ghost taken: bool, ghost far: nat)
      requires Valid() && IsBridge(ifs, bridge)
      modifies this`ifs, this`fds, this`nextIx, this`nextFd, this`lent, this`devices, this`log
      ensures far <= 9 && r == if |name| < IFNAMSIZ && far == 9 then 0 else -1
      ensures log == old(log) + if |name| < IFNAMSIZ then Ran(RouterPlan(bridge, name, old(nextIx)), far) else []
      ensures r == 0 ==> taken
      ensures fds == old(fds) && nextFd >= old(nextFd)
      ensures taken ==>
                && name !in old(ifs)
                && ifs == old(ifs)[name := Tap(old(nextIx), true, self, Some(old(ifs)[bridge].ix))]
                && lent == old(lent) + {old(nextIx)} && devices == old(devices) + {name}
      ensures !taken ==> ifs == old(ifs) && lent == old(lent) && devices == old(devices)
      ensures Valid()
    {
      taken := false;
      ghost var plan := TapPlan(bridge, name, nextIx);
      var fd;
      fd, far := SetupTap(bridge, name);
      if fd == -1 {
        if |name| < IFNAMSIZ { RanNot(plan, [AddNet(name)], far); }
        return -1, false, far;
      }
      var e;
      e, taken := ChAddNet(fd, name);
      LogOn(old(log), plan, [AddNet(name)], if e == 0 then 1 else 0);
      far := if e == 0 then 9 else 8;
      UndoTap(old(ifs), old(fds), old(lent), old(nextIx), name, ifs[name], fd);
      LendTap(old(ifs), old(fds), old(lent), old(nextIx), name, ifs[name]);
      Close(fd);
      r := if e == 0 then 0 else -1;
    }

    /** exit_listener_setup: the parent is left with the read end, or with nothing. */
    method ExitListenerSetup() returns (r: int, ghost far: nat)
      requires forall f :: f in fds ==> 0 <= f < nextFd
      modifies this`fds, this`nextFd, this`listeners, this`log
      ensures far <= 2 && log == old(log) + Ran(ListenerPlan(), far)
      ensures r == if far == 2 then 0 else -1
      ensures r == 0 ==>
                && fds == old(fds)[old(nextFd) := PipeReadEnd] && nextFd == old(nextFd) + 2
                && listeners == old(listeners) + 1
      ensures r == -1 ==> fds == old(fds) && listeners == old(listeners)
      ensures old(Valid()) ==> Valid()
    {
      ghost var pipe, fork := [MakePipe], [Fork];
      assert pipe + fork == ListenerPlan();
      var ok := Attempt(MakePipe, true);
      if !ok {
        RanNot(pipe, fork, 0);
        return -1, 0;
      }
      ghost var before := fds;
      var rd, wr := nextFd, nextFd + 1;
      fds := fds[rd := PipeReadEnd][wr := PipeWriteEnd];
      nextFd := nextFd + 2;
      ok := Attempt(Fork, true);
      far := if ok then 2 else 1;
      LogOn(old(log), pipe, fork, far - 1);
      if !ok {
        fds := fds - {rd} - {wr};
        assert fds == before;
        return -1, far;
      }
      listeners := listeners + 1;
      fds := fds - {wr};
      assert fds == before[rd := PipeReadEnd];
      HeldPipe(before, lent, rd);
      return 0, far;
    }

    /** if_up on the new bridge, and client_net_setup. */
    method ClientSide(br: string, cl: string, ghost base: Ifs<string>, ghost ix: Ix)
      returns (fd: int, ghost up: bool, ghost far: nat)
      requires TableOk(base, HeldBy(fds, lent), ix) && br !in base && cl != br
      requires ifs == base[br := Bridge(ix, false, self)] && nextIx == ix + 1
      requires (forall f :: f in fds ==> 0 <= f < nextFd) && |cl| < IFNAMSIZ
      modifies this`ifs, this`fds, this`nextIx, this`nextFd, this`log
      ensures far <= 11 && log == old(log) + Ran(ClientPlan(br, cl, ix + 1), far)
      ensures fd >= 0 <==> far == 11
      ensures fd == -1 || fd == old(nextFd)
      ensures fd == -1 ==> ifs == base[br := Bridge(ix, up, self)] && fds == old(fds)
      ensures Valid()
      ensures fd >= 0 ==>
                && up && cl !in base && nextIx == ix + 2
                && ifs == base[br := Bridge(ix, true, self)][cl := Tap(ix + 1, true, self, Some(ix))]
                && fds == old(fds)[fd := TunDesc(ix + 1)]
    {
      fd, up := -1, false;
      ghost var flags, tap := FlagPlan(br, true), TapPlan(br, cl, ix + 1);
      var r;
      r, far := IfSet(br, true);
      if r == -1 {
        RanNot(flags, tap, far);
        return;
      }
      up := true;
      Raised(base, HeldBy(fds, lent), ix, br, self);
      fd, far := SetupTap(br, cl);
      LogOn(old(log), flags, tap, far);
      far := 3 + far;
      if fd == -1 { return; }
      HeldAdd(old(fds), lent, fd, ix + 1);
      AddedOk(base[br := Bridge(ix, true, self)], HeldBy(old(fds), lent), {ix + 1}, ix + 1, cl,
              Tap(ix + 1, true, self, Some(ix)));
    }

    /** net_setup between bridge_add and the fail_bridge label. */
    method Ports(br: string, cl: string, ro: string, ghost base: Ifs<string>, ghost ix: Ix)
      returns (r: int, fd: int, ghost up: bool, ghost taken: bool, ghost far: nat)
      requires TableOk(base, HeldBy(fds, lent), ix) && br !in base && cl != br && ro != br && ro != cl
      requires ifs == base[br := Bridge(ix, false, self)] && nextIx == ix + 1
      requires (forall f :: f in fds ==> 0 <= f < nextFd) && |cl| < IFNAMSIZ && |ro| < IFNAMSIZ
      modifies this
      ensures far <= 22 && log == old(log) + Ran(PortsPlan(br, cl, ro, ix), far)
      ensures r == if far == 22 then 0 else -1
      ensures (cl in base ==> fd == -1) && (taken ==> fd >= 0 && ro !in base)
      ensures fd == -1 || fd == old(nextFd)
      ensures lent == old(lent) + (if taken then {ix + 2} else {})
      ensures devices == old(devices) + (if taken then {ro} else {})
      ensures ifs == Built(base, br, cl, ro, ix, self, up, fd >= 0, taken)
      ensures r == 0 ==>
                && up && taken && listeners == old(listeners) + 1
                && fds == old(fds)[fd := TunDesc(ix + 1)][nextFd - 2 := PipeReadEnd]
      ensures r == -1 ==>
                && fds == (if fd >= 0 then old(fds)[fd := TunDesc(ix + 1)] else old(fds))
                && listeners == old(listeners)
      ensures Valid()
    {
      taken := false;
      ghost var client, router := ClientPlan(br, cl, ix + 1), RouterPlan(br, ro, ix + 2) + ListenerPlan();
      fd, up, far := ClientSide(br, cl, base, ix);
      if fd == -1 {
        RanNot(client, router, far);
        return -1, -1, up, taken, far;
      }
      r, taken, far := RouterSide(br, ro);
      LogOn(old(log), client, router, far);
      far := 11 + far;
    }

    method RouterSide(br: string, ro: string) returns (r: int, ghost taken: bool, ghost far: nat)
      requires Valid() && IsBridge(ifs, br) && |ro| < IFNAMSIZ
      modifies this
      ensures far <= 11 && log == old(log) + Ran(RouterPlan(br, ro, old(nextIx)) + ListenerPlan(), far)
      ensures r == if far == 11 then 0 else -1
      ensures taken ==> ro !in old(ifs)
      ensures ifs == if taken then old(ifs)[ro := Tap(old(nextIx), true, self, Some(old(ifs)[br].ix))] else old(ifs)
      ensures lent == old(lent) + (if taken then {old(nextIx)} else {})
      ensures devices == old(devices) + (if taken then {ro} else {})
      ensures r == 0 ==> taken && listeners == old(listeners) + 1 && fds == old(fds)[nextFd - 2 := PipeReadEnd]
      ensures r == -1 ==> listeners == old(listeners) && fds == old(fds)
      ensures Valid()
    {
      ghost var plan := RouterPlan(br, ro, nextIx);
      r, taken, far := RouterNetSetup(br, ro);
      if r == 0 {
        r, far := ExitListenerSetup();
        LogOn(old(log), plan, ListenerPlan(), far);
        far := 9 + far;
      } else {
        RanNot(plan, ListenerPlan(), far);
      }
    }

    /** The fail_bridge label. */
    method FailBridge(br: string, fd: int) returns (ghost deleted: bool, ghost down: nat, ghost del: nat)
      modifies this`ifs, this`fds, this`log
      ensures down <= 3 && del <= 2 && (deleted <==> del == 2)
      ensures log == old(log) + Undo(br, down, del)
      ensures fds == old(fds) - {fd}
      ensures if deleted
              then IsBridge(old(ifs), br) && ifs == Reap(DeleteBridge(old(ifs), br), HeldBy(fds, lent))
              else || ifs == Reap(old(ifs), HeldBy(fds, lent))
                   || (br in old(ifs) && ifs == Reap(SetUp(old(ifs), br, false), HeldBy(fds, lent)))
      ensures old(Valid()) ==> Valid()
    {
      var r;
      r, down, del := BridgeDelete(br);
      deleted := r == 0;
      Close(fd);
    }

    /** The same, after as much of the network was built as the flags say. */
    method TakeBack(br: string, cl: string, ro: string, fd: int,
                    ghost base: Ifs<string>, ghost held: set<Ix>, ghost ix: Ix, ghost up: bool, ghost taken: bool)
      returns (ghost deleted: bool, ghost down: nat, ghost del: nat)
      requires Valid() && br != cl && cl != ro && ro != br && br !in base && TableOk(base, held, ix)
      requires (fd >= 0 ==> cl !in base) && (taken ==> ro !in base)
      requires ifs == Built(base, br, cl, ro, ix, self, up, fd >= 0, taken)
      requires HeldBy(fds - {fd}, lent) == held + if taken then {ix + 2} else {}
      modifies this`ifs, this`fds, this`log
      ensures down <= 3 && del <= 2 && (deleted <==> del == 2)
      ensures log == old(log) + Undo(br, down, del)
      ensures Valid() && fds == old(fds) - {fd}
      ensures deleted ==> ifs == if taken then base[ro := Tap(ix + 2, true, self, None)] else base
      ensures !deleted ==> exists up :: ifs == Built(base, br, cl, ro, ix, self, up, false, taken)
      ensures forall n :: n in base ==> n in ifs && ifs[n] == base[n]
    {
      deleted, down, del := FailBridge(br, fd);
      Undone(base, held, br, cl, ro, ix, self, up, fd >= 0, taken, deleted, ifs);
    }

    /** net_setup once the bridge is there. `far`: how far it got before it failed. `taken`: the VMM
        took the router tap. `deleted`: bridge_delete succeeded on the way out. */
    method AfterBridge(br: string, cl: string, ro: string, ghost base: Ifs<string>, ghost ix: Ix)
      returns (fd: int, ghost taken: bool, ghost deleted: bool, ghost far: nat, ghost down: nat, ghost del: nat)
      requires TableOk(base, HeldBy(fds, lent), ix) && br !in base && cl != br && ro != br && ro != cl
      requires ifs == base[br := Bridge(ix, false, self)] && nextIx == ix + 1
      requires (forall f :: f in fds ==> 0 <= f < nextFd) && |cl| < IFNAMSIZ && |ro| < IFNAMSIZ
      modifies this
      ensures far <= 22 && (fd >= 0 <==> far == 22)
      ensures down <= 3 && del <= 2 && (deleted <==> far < 22 && del == 2)
      ensures log == old(log) + Ran(PortsPlan(br, cl, ro, ix), far) + if far < 22 then Undo(br, down, del) else []
      ensures fd >= 0 ==>
                && fd == old(nextFd)
                && Succeeded(base, old(fds), old(devices), old(listeners), ix, br, cl, ro, fd)
      ensures fd < 0 ==>
                && fds == old(fds) && listeners == old(listeners)
                && devices == old(devices) + if taken then {ro} else {}
      ensures deleted ==> ifs == if taken then base[ro := Tap(ix + 2, true, self, None)] else base
      ensures fd < 0 && !deleted ==> exists up :: ifs == Built(base, br, cl, ro, ix, self, up, false, taken)
      ensures forall n :: n in base ==> n in ifs && ifs[n] == base[n]
      ensures Valid()
    {
      deleted, down, del := false, 0, 0;
      var r;
      ghost var up;
      r, fd, up, taken, far := Ports(br, cl, ro, base, ix);
      ghost var held := HeldBy(old(fds), old(lent));
      if r == -1 {
        assert fds - {fd} == old(fds);
        assert HeldBy(old(fds), lent) == held + if taken then {ix + 2} else {};
        deleted, down, del := TakeBack(br, cl, ro, fd, base, held, ix, up, taken);
        fd := -1;
      } else {
        forall n | n in base ensures n in ifs && ifs[n] == base[n] {
          BuiltKeeps(base, held, br, cl, ro, ix, self, up, true, true, n);
        }
      }
    }

    /** net_setup, given its three names. `made`: bridge_add succeeded. */
    method NetSetupNamed(br: string, cl: string, ro: string)
      returns (fd: int, ghost made: bool, ghost taken: bool, ghost deleted: bool,
               ghost far: nat, ghost down: nat, ghost del: nat)
      requires Valid() && br != cl && cl != ro && ro != br && Legal(br) && |cl| < IFNAMSIZ && |ro| < IFNAMSIZ
      modifies this
      ensures far <= 24 && (fd >= 0 <==> far == 24) && (made <==> far >= 2)
      ensures down <= 3 && del <= 2 && (deleted <==> 2 <= far < 24 && del == 2)
      ensures log == old(log) + Ran(SetupPlan(br, cl, ro, old(nextIx)), far)
                     + if 2 <= far < 24 then Undo(br, down, del) else []
      ensures fd >= 0 ==>
                && fd == old(nextFd)
                && Succeeded(old(ifs), old(fds), old(devices), old(listeners), old(nextIx), br, cl, ro, fd)
      ensures fd < 0 ==> fds == old(fds) && listeners == old(listeners)
      ensures fd < 0 ==> devices == old(devices) + if taken then {ro} else {}
      ensures fd < 0 && !made ==> !taken && ifs == old(ifs)
      ensures fd < 0 && deleted ==>
                ifs == if taken then old(ifs)[ro := Tap(old(nextIx) + 2, true, self, None)] else old(ifs)
      ensures fd < 0 && made && !deleted ==>
                exists up :: ifs == Built(old(ifs), br, cl, ro, old(nextIx), self, up, false, taken)
      ensures forall n :: n in old(ifs) ==> n in ifs && ifs[n] == old(ifs)[n]
      ensures Valid()
    {
      made, taken, deleted, down, del := false, false, false, 0, 0;
      ghost var base, ix := ifs, nextIx;
      ghost var add, rest := [Socket, BrAdd(br)], PortsPlan(br, cl, ro, ix);
      var r;
      r, far := BridgeAdd(br);
      if r == -1 {
        RanNot(add, rest, far);
        return -1, made, taken, deleted, far, down, del;
      }
      made := true;
      fd, taken, deleted, far, down, del := AfterBridge(br, cl, ro, base, ix);
      LogOn(old(log), add, rest, far);
      far := 2 + far;
    }

    /** The tables after a successful net_setup. */
    ghost predicate Succeeded(ifs0: Ifs<string>, fds0: map<int, Desc>, devices0: set<string>, listeners0: nat, ix: Ix,
                              br: string, cl: string, ro: string, fd: int)
      reads this
    {
      && ifs == Built(ifs0, br, cl, ro, ix, self, true, true, true)
      && fds == fds0[fd := TunDesc(ix + 1)][nextFd - 2 := PipeReadEnd]
      && devices == devices0 + {ro} && listeners == listeners0 + 1
    }

    /** net_setup: it builds everything, or, if bridge_delete succeeds, takes everything back but a
        router tap that the VMM took. It never changes an interface it did not make. */
    method NetSetup()
      returns (fd: int, id: string, ghost made: bool, ghost taken: bool, ghost deleted: bool,
               ghost far: nat, ghost down: nat, ghost del: nat)
      requires Valid()
      modifies this
      ensures far <= 24 && (fd >= 0 <==> far == 24) && (made <==> far >= 2)
      ensures down <= 3 && del <= 2 && (deleted <==> 2 <= far < 24 && del == 2)
      ensures log == old(log) + Ran(SetupPlan(Text(Name(Br, pid)), Text(Name(Client, pid)), Text(Name(Router, pid)),
                                                   old(nextIx)), far)
                     + if 2 <= far < 24 then Undo(Text(Name(Br, pid)), down, del) else []
      ensures fd >= 0 ==>
                && id == Text(Name(Client, pid)) && fd == old(nextFd)
                && Succeeded(old(ifs), old(fds), old(devices), old(listeners), old(nextIx),
                             Text(Name(Br, pid)), id, Text(Name(Router, pid)), fd)
      ensures fd < 0 ==> fds == old(fds) && listeners == old(listeners)
      ensures fd < 0 ==> devices == old(devices) + if taken then {Text(Name(Router, pid))} else {}
      ensures fd < 0 && !made ==> !taken && ifs == old(ifs)
      ensures fd < 0 && deleted ==>
                ifs == if taken then old(ifs)[Text(Name(Router, pid)) := Tap(old(nextIx) + 2, true, self, None)]
                       else old(ifs)
      ensures fd < 0 && made && !deleted ==>
                exists up ::
                  ifs == Built(old(ifs), Text(Name(Br, pid)), Text(Name(Client, pid)), Text(Name(Router, pid)),
                               old(nextIx), self, up, false, taken)
      ensures forall n :: n in old(ifs) ==> n in ifs && ifs[n] == old(ifs)[n]
      ensures Valid()
    {
      NamesDiffer(pid);
      id := Text(Name(Client, pid));
      fd, made, taken, deleted, far, down, del := NetSetupNamed(Text(Name(Br, pid)), id, Text(Name(Router, pid)));
    }
  }

  lemma NamesDiffer(pid: Pid)
    ensures var br, cl, ro := Text(Name(Br, pid)), Text(Name(Client, pid)), Text(Name(Router, pid));
            br != cl && cl != ro && ro != br
  {
    if Text(Name(Br, pid)) == Text(Name(Client, pid)) { TextInjective(Name(Br, pid), Name(Client, pid)); }
    if Text(Name(Client, pid)) == Text(Name(Router, pid)) { TextInjective(Name(Client, pid), Name(Router, pid)); }
    if Text(Name(Router, pid)) == Text(Name(Br, pid)) { TextInjective(Name(Router, pid), Name(Br, pid)); }
  }

  /** What net_setup adds: the bridge, then the client's tap, then the router's. */
  function Built<K>(base: Ifs<K>, br: K, cl: K, ro: K, ix: Ix, self: Serial,
                 up: bool, client: bool, router: bool): Ifs<K>
  {
    var ifs := base[br := Bridge(ix, up, self)];
    var ifs := if client then ifs[cl := Tap(ix + 1, true, self, Some(ix))] else ifs;
    if router then ifs[ro := Tap(ix + 2, true, self, Some(ix))] else ifs
  }

  /** Deleting the bridge and closing the client's tap leaves what was there before, and the
      router's tap if it has been lent. */
  lemma Unbuilt<K>(base: Ifs<K>, held: set<Ix>, br: K, cl: K, ro: K, ix: Ix, self: Serial,
                up: bool, client: bool, router: bool)
    requires TableOk(base, held, ix) && br !in base && (client ==> cl !in base) && (router ==> ro !in base)
    requires br != cl && cl != ro && ro != br
    ensures var ifs := Built(base, br, cl, ro, ix, self, up, client, router);
            && IsBridge(ifs, br)
            && Reap(DeleteBridge(ifs, br), held + if router then {ix + 2} else {}) ==
               (if router then base[ro := Tap(ix + 2, true, self, None)] else base)
  {
    DeleteBuilt(base, held, br, cl, ro, ix, self, up, client, router);
    var rest := if client then base[cl := Tap(ix + 1, true, self, None)] else base;
    var left := if router then rest[ro := Tap(ix + 2, true, self, None)] else rest;
    var still := held + if router then {ix + 2} else {};
    assert Reap(left, still) == if router then base[ro := Tap(ix + 2, true, self, None)] else base;
  }

  lemma DeleteBuilt<K>(base: Ifs<K>, held: set<Ix>, br: K, cl: K, ro: K, ix: Ix, self: Serial,
                       up: bool, client: bool, router: bool)
    requires TableOk(base, held, ix) && br !in base && (client ==> cl !in base) && (router ==> ro !in base)
    requires br != cl && cl != ro && ro != br
    ensures var ifs := Built(base, br, cl, ro, ix, self, up, client, router);
            var rest := if client then base[cl := Tap(ix + 1, true, self, None)] else base;
            && IsBridge(ifs, br)
            && DeleteBridge(ifs, br) == if router then rest[ro := Tap(ix + 2, true, self, None)] else rest
  {
  }

  /** Closing the client's tap without deleting the bridge leaves the bridge, and the router's tap
      if it has been lent. */
  lemma LeftStanding<K>(base: Ifs<K>, held: set<Ix>, br: K, cl: K, ro: K, ix: Ix, self: Serial,
                        up: bool, client: bool, router: bool)
    requires TableOk(base, held, ix) && br !in base && (client ==> cl !in base) && (router ==> ro !in base)
    requires br != cl && cl != ro && ro != br
    ensures var ifs := Built(base, br, cl, ro, ix, self, up, client, router);
            var still := held + if router then {ix + 2} else {};
            && Reap(ifs, still) == Built(base, br, cl, ro, ix, self, up, false, router)
            && Reap(SetUp(ifs, br, false), still) == Built(base, br, cl, ro, ix, self, false, false, router)
  {
    var ifs := Built(base, br, cl, ro, ix, self, up, client, router);
    assert SetUp(ifs, br, false) == Built(base, br, cl, ro, ix, self, false, client, router);
    ReapBuilt(base, held, br, cl, ro, ix, self, up, client, router);
    ReapBuilt(base, held, br, cl, ro, ix, self, false, client, router);
  }

  lemma ReapBuilt<K>(base: Ifs<K>, held: set<Ix>, br: K, cl: K, ro: K, ix: Ix, self: Serial,
                     up: bool, client: bool, router: bool)
    requires TableOk(base, held, ix) && br !in base && (client ==> cl !in base) && (router ==> ro !in base)
    requires br != cl && cl != ro && ro != br
    ensures Reap(Built(base, br, cl, ro, ix, self, up, client, router), held + if router then {ix + 2} else {})
         == Built(base, br, cl, ro, ix, self, up, false, router)
  {
  }

  /** What FailBridge leaves, whether or not it could delete the bridge. */
  lemma Undone<K>(base: Ifs<K>, held: set<Ix>, br: K, cl: K, ro: K, ix: Ix, self: Serial,
                  up: bool, client: bool, router: bool, deleted: bool, after: Ifs<K>)
    requires TableOk(base, held, ix) && br !in base && (client ==> cl !in base) && (router ==> ro !in base)
    requires br != cl && cl != ro && ro != br
    requires var ifs := Built(base, br, cl, ro, ix, self, up, client, router);
             var still := held + if router then {ix + 2} else {};
             br in ifs && ifs[br].Bridge? &&
             if deleted then after == Reap(DeleteBridge(ifs, br), still)
             else after == Reap(ifs, still) || after == Reap(SetUp(ifs, br, false), still)
    ensures forall n :: n in base ==> n in after && after[n] == base[n]
    ensures deleted ==> after == if router then base[ro := Tap(ix + 2, true, self, None)] else base
    ensures !deleted ==>
              || after == Built(base, br, cl, ro, ix, self, up, false, router)
              || after == Built(base, br, cl, ro, ix, self, false, false, router)
  {
    if !deleted { LeftStanding(base, held, br, cl, ro, ix, self, up, client, router); }
    Unbuilt(base, held, br, cl, ro, ix, self, up, client, router);
    forall n | n in base ensures n in after && after[n] == base[n] {
      BuiltKeeps(base, held, br, cl, ro, ix, self, up, client, router, n);
    }
  }

  lemma BuiltKeeps<K>(base: Ifs<K>, held: set<Ix>, br: K, cl: K, ro: K, ix: Ix, self: Serial,
                      up: bool, client: bool, router: bool, n: K)
    requires TableOk(base, held, ix) && br !in base && (client ==> cl !in base) && (router ==> ro !in base)
    requires n in base
    ensures var ifs := Built(base, br, cl, ro, ix, self, up, client, router);
            n in ifs && ifs[n] == base[n] && br in ifs && (ifs[n].Tap? ==> ifs[n].ix in held)
  {
  }

  lemma LendTap<K>(base: Ifs<K>, fds: map<int, Desc>, lent: set<Ix>, nextIx: Ix, name: K, tap: Iface)
    requires TableOk(base, HeldBy(fds, lent), nextIx) && name !in base && tap.Tap? && tap.ix == nextIx
    ensures Reap(base[name := tap], HeldBy(fds, lent + {nextIx})) == base[name := tap]
  {
  }

  lemma AddedOk<K>(base: Ifs<K>, held: set<Ix>, more: set<Ix>, nextIx: Ix, name: K, i: Iface)
    requires TableOk(base, held, nextIx) && i.ix == nextIx && more <= {nextIx}
    requires i.Tap? ==> nextIx in more && (i.master.Some? ==> i.master.value < nextIx)
    ensures TableOk(base[name := i], held + more, nextIx + 1)
  {
  }

  lemma HeldAdd(fds: map<int, Desc>, lent: set<Ix>, fd: int, ix: Ix)
    requires fd !in fds
    ensures HeldBy(fds[fd := TunDesc(ix)], lent) == HeldBy(fds, lent) + {ix}
  {
    var more := fds[fd := TunDesc(ix)];
    assert more[fd].ix == ix && forall f :: f in fds ==> more[f] == fds[f];
  }

  lemma HeldPipe(fds: map<int, Desc>, lent: set<Ix>, fd: int)
    requires fd !in fds
    ensures HeldBy(fds[fd := PipeReadEnd], lent) == HeldBy(fds, lent)
  {
    var more := fds[fd := PipeReadEnd];
    assert forall f :: f in fds ==> more[f] == fds[f];
  }

  lemma Raised<K>(base: Ifs<K>, held: set<Ix>, ix: Ix, br: K, self: Serial)
    requires TableOk(base, held, ix)
    ensures SetUp(base[br := Bridge(ix, false, self)], br, true) == base[br := Bridge(ix, true, self)]
    ensures TableOk(base[br := Bridge(ix, true, self)], held, ix + 1)
  {
  }

  lemma Joined<K>(base: Ifs<K>, held: set<Ix>, nextIx: Ix, name: K, tap: Iface, br: Ix)
    requires TableOk(base, held, nextIx) && name !in base && tap.Tap? && tap.ix == nextIx
    ensures SetMaster(base[name := tap], nextIx, Some(br)) == base[name := tap.(master := Some(br))]
  {
  }

  /** Closing the only descriptor of a new tap takes both tables back. */
  lemma UndoTap<K>(base: Ifs<K>, fds: map<int, Desc>, lent: set<Ix>, nextIx: Ix, name: K, tap: Iface, fd: int)
    requires TableOk(base, HeldBy(fds, lent), nextIx) && name !in base && fd !in fds && tap.Tap? && tap.ix == nextIx
    ensures var now := fds[fd := TunDesc(nextIx)] - {fd};
            now == fds && Reap(base[name := tap], HeldBy(now, lent)) == base
  {
    assert fds[fd := TunDesc(nextIx)] - {fd} == fds;
  }
}
