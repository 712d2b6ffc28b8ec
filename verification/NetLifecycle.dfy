/** A whole life of a VM's network, as a run of the machine in NetWorld: what the theorems speak
    of does happen. */
module NetLifecycle {
  import opened IfNames
  import opened NetKernel
  import opened NetWorld
  import opened Options

  ghost predicate Reachable(s: State) {
    exists run, events :: IsRun(run, events) && run[|run| - 1] == s
  }

  lemma InitReachable()
    ensures Reachable(INIT)
  {
    assert IsRun([INIT], []);
    assert [INIT][|[INIT]| - 1] == INIT;
  }

  lemma StepReachable(s: State, e: Event)
    requires Reachable(s) && Enabled(s, e)
    ensures Reachable(Apply(s, e))
  {
    var run, events :| IsRun(run, events) && run[|run| - 1] == s;
    var run', events' := run + [Apply(s, e)], events + [e];
    forall i | 0 <= i < |events'| ensures Enabled(run'[i], events'[i]) && run'[i + 1] == Apply(run'[i], events'[i]) {
      assert i < |events| ==> run'[i] == run[i] && run'[i + 1] == run[i + 1] && events'[i] == events[i];
    }
    assert IsRun(run', events');
    assert run'[|run'| - 1] == Apply(s, e);
  }

  /** One more event of the run, and the state it leads to. */
  lemma Then(s: State, e: Event, t: State)
    requires Reachable(s) && Enabled(s, e) && Apply(s, e) == t
    ensures Reachable(t)
  {
    StepReachable(s, e);
  }

  lemma Dies(s: State, q: Serial, t: State)
    requires Reachable(s) && q in s.procs && q !in t.procs && s.procs == t.procs[q := s.procs[q]]
    requires t == s.(procs := t.procs, status := s.status[q := s.procs[q].prog == Finished(true)], ifs := t.ifs)
    requires t.ifs == Reap(s.ifs, HeldTaps(t.procs)) && forall d :: d in s.devices ==> d.vmm != q
    ensures Reachable(t)
  {
    assert s.procs - {q} == t.procs;
    var u := Gone(s, q, false);
    assert u.devices == s.devices;
    Then(s, Die(q, false), t);
  }

  lemma Closes(s: State, q: Serial, fds: set<Fd>, t: State)
    requires q in s.procs && q in t.procs && t.procs == s.procs[q := t.procs[q]]
    requires t == s.(procs := t.procs, ifs := t.ifs) && t.ifs == Reap(s.ifs, HeldTaps(t.procs))
    requires t.procs[q].vm == s.procs[q].vm && t.procs[q].fds == s.procs[q].fds - fds
    ensures Close(s, q, fds, t.procs[q].prog) == t
  {
  }

  // A provider VM with pid v is serial 0, and the VM with pid p that uses it is serial 1.

  ghost function Setup(v: Pid, p: Pid, ifs: Ifs<IfName>, pc: MainPc, client: Option<Ix>, fds: set<Fd>,
                       made: map<Ix, Maker>, n: Ix): State {
    State(ifs, map[0 := Proc(0, Bare, {}), 1 := Proc(1, Main(pc, client), fds)], {}, map[0 := v, 1 := p], map[], {},
          made, n, 2)
  }

  lemma Starts(v: Pid, p: Pid)
    ensures Reachable(Setup(v, p, map[], AddBridge, None, {}, map[], 0))
  {
    InitReachable();
    var s := Apply(INIT, Start(v, false));
    Then(INIT, Start(v, false), s);
    Then(s, Start(p, true), Setup(v, p, map[], AddBridge, None, {}, map[], 0));
  }

  lemma MakesBridge(v: Pid, p: Pid)
    ensures Reachable(Setup(v, p, map[Name(Br, p) := Bridge(0, true, 1)], OpenTap(ClientTap), None, {},
                            map[0 := Maker(1, Br)], 1))
  {
    Starts(v, p);
    var t := Setup(v, p, map[], AddBridge, None, {}, map[], 0);
    var u := Setup(v, p, map[Name(Br, p) := Bridge(0, false, 1)], BridgeUp, None, {}, map[0 := Maker(1, Br)], 1);
    Then(t, Call(1, true), u);
    Then(u, Call(1, true), Setup(v, p, map[Name(Br, p) := Bridge(0, true, 1)], OpenTap(ClientTap), None, {},
                                 map[0 := Maker(1, Br)], 1));
  }

  lemma OpensTap(v: Pid, p: Pid, ifs: Ifs<IfName>, role: Role, client: Option<Ix>, fds: set<Fd>,
                 made: map<Ix, Maker>, n: Ix)
    requires Reachable(Setup(v, p, ifs, OpenTap(role), client, fds, made, n)) && Name(KindFor(role), p) !in ifs
    ensures Reachable(Setup(v, p, ifs[Name(KindFor(role), p) := Tap(n, false, 1, None)], JoinBridge(role, n, n), client,
                            fds + {TapFd(n)}, made[n := Maker(1, KindFor(role))], n + 1))
  {
    var name := Name(KindFor(role), p);
    var fds', made' := fds + {TapFd(n)}, made[n := Maker(1, KindFor(role))];
    var s := Setup(v, p, ifs[name := Tap(n, false, 1, None)], TapIndex(role, n), client, fds', made', n + 1);
    Then(Setup(v, p, ifs, OpenTap(role), client, fds, made, n), Call(1, true), s);
    Then(s, Call(1, true), s.(procs := s.procs[1 := Proc(1, Main(JoinBridge(role, n, n), client), fds')]));
  }

  lemma JoinsBridge(v: Pid, p: Pid, ifs: Ifs<IfName>, role: Role, client: Option<Ix>, fds: set<Fd>,
                    made: map<Ix, Maker>, n: Ix, k: Ix)
    requires Reachable(Setup(v, p, ifs[Name(KindFor(role), p) := Tap(n, false, 1, None)], JoinBridge(role, n, n),
                             client, fds, made, k))
    requires IsBridge(ifs, Name(Br, p)) && forall m :: m in ifs ==> ifs[m].ix != n
    ensures Reachable(Setup(v, p, ifs[Name(KindFor(role), p) := Tap(n, false, 1, Some(ifs[Name(Br, p)].ix))],
                            TapUp(role, n), client, fds, made, k))
  {
    var name, b := Name(KindFor(role), p), ifs[Name(Br, p)].ix;
    var s := Setup(v, p, ifs[name := Tap(n, false, 1, None)], JoinBridge(role, n, n), client, fds, made, k);
    var t := Setup(v, p, ifs[name := Tap(n, false, 1, Some(b))], TapUp(role, n), client, fds, made, k);
    assert HasTap(s.ifs, n) by { assert name in s.ifs; }
    assert SetMaster(s.ifs, n, Some(b)) == t.ifs;
    Then(s, Call(1, true), t);
  }

  lemma GoesUp(v: Pid, p: Pid, ifs: Ifs<IfName>, role: Role, client: Option<Ix>, fds: set<Fd>,
               made: map<Ix, Maker>, n: Ix, k: Ix)
    requires Name(KindFor(role), p) in ifs && Reachable(Setup(v, p, ifs, TapUp(role, n), client, fds, made, k))
    ensures Reachable(Setup(v, p, SetUp(ifs, Name(KindFor(role), p), true),
                            if role == ClientTap then OpenTap(RouterTap) else SpawnAddNet(n),
                            if role == ClientTap then Some(n) else client, fds, made, k))
  {
    var s := Setup(v, p, ifs, TapUp(role, n), client, fds, made, k);
    Then(s, Call(1, true), Apply(s, Call(1, true)));
  }

  /** setup_tap, from tap_open to if_up. */
  lemma MakesTap(v: Pid, p: Pid, ifs: Ifs<IfName>, role: Role, client: Option<Ix>, fds: set<Fd>,
                 made: map<Ix, Maker>, n: Ix)
    requires Reachable(Setup(v, p, ifs, OpenTap(role), client, fds, made, n))
    requires IsBridge(ifs, Name(Br, p)) && Name(KindFor(role), p) !in ifs
    requires forall m :: m in ifs ==> ifs[m].ix != n
    ensures Reachable(Setup(v, p, ifs[Name(KindFor(role), p) := Tap(n, true, 1, Some(ifs[Name(Br, p)].ix))],
                            if role == ClientTap then OpenTap(RouterTap) else SpawnAddNet(n),
                            if role == ClientTap then Some(n) else client,
                            fds + {TapFd(n)}, made[n := Maker(1, KindFor(role))], n + 1))
  {
    var name, b := Name(KindFor(role), p), ifs[Name(Br, p)].ix;
    var fds', made' := fds + {TapFd(n)}, made[n := Maker(1, KindFor(role))];
    OpensTap(v, p, ifs, role, client, fds, made, n);
    JoinsBridge(v, p, ifs, role, client, fds', made', n, n + 1);
    GoesUp(v, p, ifs[name := Tap(n, false, 1, Some(b))], role, client, fds', made', n, n + 1);
    SetTwice(ifs, name, Tap(n, false, 1, Some(b)));
  }

  lemma SetTwice<K>(ifs: Ifs<K>, name: K, i: Iface)
    ensures SetUp(ifs[name := i], name, true) == ifs[name := i.(up := true)]
  {
  }

  // From here on all three interfaces exist.

  ghost function Three(p: Pid): Ifs<IfName> {
    map[Name(Br, p) := Bridge(0, true, 1), Name(Client, p) := Tap(1, true, 1, Some(0)),
        Name(Router, p) := Tap(2, true, 1, Some(0))]
  }

  ghost function Later(v: Pid, p: Pid, ifs: Ifs<IfName>, procs: map<Serial, Proc>, devices: set<Device>,
                       status: map<Serial, bool>, plugged: set<Serial>, n: Serial): State {
    State(ifs, procs, devices, map[0 := v, 1 := p], status, plugged,
          map[0 := Maker(1, Br), 1 := Maker(1, Client), 2 := Maker(1, Router)], 3, n)
  }

  ghost function Dev(p: Pid): Device {
    Device(0, Name(Router, p), 1, 2)
  }

  const TAPS: set<Fd> := {TapFd(1), TapFd(2)}

  lemma MakesTaps(v: Pid, p: Pid)
    ensures Reachable(Later(v, p, Three(p),
                            map[0 := Proc(0, Bare, {}), 1 := Proc(1, Main(SpawnAddNet(2), Some(1)), TAPS)],
                            {}, map[], {}, 2))
  {
    MakesBridge(v, p);
    var ifs, made := map[Name(Br, p) := Bridge(0, true, 1)], map[0 := Maker(1, Br)];
    MakesTap(v, p, ifs, ClientTap, None, {}, made, 1);
    ifs, made := ifs[Name(Client, p) := Tap(1, true, 1, Some(0))], made[1 := Maker(1, Client)];
    assert {} + {TapFd(1)} == {TapFd(1)};
    MakesTap(v, p, ifs, RouterTap, Some(1), {TapFd(1)}, made, 2);
    assert {TapFd(1)} + {TapFd(2)} == TAPS;
    assert ifs[Name(Router, p) := Tap(2, true, 1, Some(0))] == Three(p);
    assert made[2 := Maker(1, Router)] == map[0 := Maker(1, Br), 1 := Maker(1, Client), 2 := Maker(1, Router)];
  }

  /** Closing descriptors changes nothing while every tap is still held. */
  lemma StillHeld(p: Pid, procs: map<Serial, Proc>, q: Serial, r: Serial)
    requires q in procs && r in procs && TapFd(1) in procs[q].fds && TapFd(2) in procs[r].fds
    ensures Reap(Three(p), HeldTaps(procs)) == Three(p)
  {
    assert 1 in HeldTaps(procs) && 2 in HeldTaps(procs);
  }

  ghost function Helped(v: Pid, p: Pid, device: bool, helper: Prog): State {
    Later(v, p, Three(p),
          map[0 := Proc(0, Bare, if device then {TapFd(2)} else {}),
              1 := Proc(1, Main(WaitAddNet(2, 2), Some(1)), TAPS), 2 := Proc(1, helper, TAPS)],
          if device then {Dev(p)} else {}, map[], if device then {1} else {}, 3)
  }

  lemma HelperActs(v: Pid, p: Pid)
    ensures Enabled(Helped(v, p, false, AddNetHelper(2)), ApiDone(2, 0, true, true))
    ensures Apply(Helped(v, p, false, AddNetHelper(2)), ApiDone(2, 0, true, true)) == Helped(v, p, true, Finished(true))
  {
    var s, t := Helped(v, p, false, AddNetHelper(2)), Helped(v, p, true, Finished(true));
    var u := ApiEffect(s, ApiDone(2, 0, true, true));
    assert u.procs[0].fds == {TapFd(2)} && u.devices == {Dev(p)} && u.plugged == {1};
    assert u.procs[2 := t.procs[2]] == t.procs;
  }

  lemma AsksProvider(v: Pid, p: Pid)
    ensures Reachable(Helped(v, p, false, AddNetHelper(2)))
  {
    MakesTaps(v, p);
    var s := Later(v, p, Three(p), map[0 := Proc(0, Bare, {}), 1 := Proc(1, Main(SpawnAddNet(2), Some(1)), TAPS)],
                   {}, map[], {}, 2);
    Then(s, Call(1, true), Helped(v, p, false, AddNetHelper(2)));
  }

  /** The ch-remote is gone, and its request is still with the VMM. */
  ghost function Deserted(v: Pid, p: Pid): State {
    Later(v, p, Three(p),
          map[0 := Proc(0, Bare, {}), 1 := Proc(1, Main(WaitAddNet(2, 2), Some(1)), TAPS),
              3 := Proc(1, Orphan(0, Add(2)), {TapFd(2)})],
          {}, map[2 := false], {}, 4)
  }

  lemma Deserts(v: Pid, p: Pid)
    ensures Reachable(Deserted(v, p))
  {
    AsksProvider(v, p);
    var s, t := Helped(v, p, false, AddNetHelper(2)), Deserted(v, p);
    StillHeld(p, t.procs, 1, 1);
    assert Apply(s, Abandon(2, 0)).procs == t.procs;
    Then(s, Abandon(2, 0), t);
  }

  /** An add-net request that is served late. */
  lemma ServesLate(s: State, o: Serial)
    requires LateCan(s, o) && s.procs[o].prog.req.Add?
    ensures var vm, v, t := s.procs[o].vm, s.procs[o].prog.vmm, Apply(s, Late(o));
            && Device(v, RouterId(s, vm), vm, s.procs[o].prog.req.fd) in t.devices
            && t.procs.Keys == s.procs.Keys - {o} && t.status == s.status[o := false]
  {
    var vm, v := s.procs[o].vm, s.procs[o].prog.vmm;
    assert Device(v, RouterId(s, vm), vm, s.procs[o].prog.req.fd) in LateEffect(s, o).devices;
  }

  lemma CanServe(v: Pid, p: Pid)
    ensures LateCan(Deserted(v, p), 3)
  {
  }

  /** A ch-remote can be killed with its request under way, and the VMM still act on it. */
  lemma ServedLate(v: Pid, p: Pid)
    ensures exists s :: Reachable(s) && Dev(p) in s.devices && 2 !in s.procs && 2 in s.status && !s.status[2]
  {
    Deserts(v, p);
    CanServe(v, p);
    ServesLate(Deserted(v, p), 3);
    StepReachable(Deserted(v, p), Late(3));
  }

  /** The provider has the device, and start-vmm is alone again. */
  ghost function Plugged(v: Pid, p: Pid, pc: MainPc): State {
    Later(v, p, Three(p), map[0 := Proc(0, Bare, {TapFd(2)}), 1 := Proc(1, Main(pc, Some(1)), TAPS)],
          {Dev(p)}, map[2 := true], {1}, 3)
  }

  lemma HelperEnds(v: Pid, p: Pid)
    ensures Reachable(Plugged(v, p, WaitAddNet(2, 2)))
  {
    AsksProvider(v, p);
    HelperActs(v, p);
    Then(Helped(v, p, false, AddNetHelper(2)), ApiDone(2, 0, true, true), Helped(v, p, true, Finished(true)));
    StillHeld(p, Plugged(v, p, WaitAddNet(2, 2)).procs, 1, 1);
    Dies(Helped(v, p, true, Finished(true)), 2, Plugged(v, p, WaitAddNet(2, 2)));
  }

  /** ch_add_net */
  lemma PlugsIn(v: Pid, p: Pid)
    ensures Reachable(Plugged(v, p, CloseRouter(2, true)))
  {
    HelperEnds(v, p);
    Then(Plugged(v, p, WaitAddNet(2, 2)), Call(1, true), Plugged(v, p, CloseRouter(2, true)));
  }

  ghost function Piped(v: Pid, p: Pid, procs: map<Serial, Proc>, n: Serial): State {
    Later(v, p, Three(p), procs[0 := Proc(0, Bare, {TapFd(2)})], {Dev(p)}, map[2 := true], {1}, n)
  }

  const BOTH: set<Fd> := {TapFd(1), PipeRead(1), PipeWrite(1)}
  const READ: set<Fd> := {TapFd(1), PipeRead(1)}
  const WRITE: set<Fd> := {TapFd(1), PipeWrite(1)}

  ghost function Up(v: Pid, p: Pid, pc: MainPc, fds: set<Fd>, lpc: ListenerPc, lfds: set<Fd>): State {
    Piped(v, p, map[1 := Proc(1, Main(pc, Some(1)), fds), 3 := Proc(1, Listener(lpc), lfds)], 4)
  }

  lemma MakesPipe(v: Pid, p: Pid)
    ensures Reachable(Piped(v, p, map[1 := Proc(1, Main(ForkListener, Some(1)), BOTH)], 3))
  {
    PlugsIn(v, p);
    var a := Piped(v, p, map[1 := Proc(1, Main(CloseRouter(2, true), Some(1)), TAPS)], 3);
    var b := Piped(v, p, map[1 := Proc(1, Main(MakePipe, Some(1)), {TapFd(1)})], 3);
    StillHeld(p, b.procs, 1, 0);
    Closes(a, 1, {TapFd(2)}, b);
    Then(a, Call(1, true), b);
    assert {TapFd(1)} + {PipeRead(1), PipeWrite(1)} == BOTH;
    var c := Piped(v, p, map[1 := Proc(1, Main(ForkListener, Some(1)), BOTH)], 3);
    assert Apply(b, Call(1, true)).procs == c.procs;
    Then(b, Call(1, true), c);
  }

  lemma ForksListener(v: Pid, p: Pid)
    ensures Reachable(Up(v, p, CloseWrite, BOTH, CloseRead, BOTH))
  {
    MakesPipe(v, p);
    Then(Piped(v, p, map[1 := Proc(1, Main(ForkListener, Some(1)), BOTH)], 3), Call(1, true),
         Up(v, p, CloseWrite, BOTH, CloseRead, BOTH));
  }

  /** The exit pipe and the listener: the VM is up. */
  lemma ComesUp(v: Pid, p: Pid)
    ensures Reachable(Up(v, p, Running, READ, Poll, WRITE))
  {
    ForksListener(v, p);
    var b := Up(v, p, CloseWrite, BOTH, CloseRead, BOTH);
    var c := Up(v, p, Running, READ, CloseRead, BOTH);
    StillHeld(p, c.procs, 1, 0);
    Closes(b, 1, {PipeWrite(1)}, c);
    Then(b, Call(1, true), c);
    var d := Up(v, p, Running, READ, Poll, WRITE);
    StillHeld(p, d.procs, 1, 0);
    Closes(c, 3, {PipeRead(1)}, d);
    Then(c, Call(3, true), d);
  }

  // The VM goes away, and its listener cleans up.

  ghost function Down(v: Pid, p: Pid, ifs: Ifs<IfName>, lpc: ListenerPc, helper: Option<Prog>, device: bool,
                      status: map<Serial, bool>, n: Serial): State {
    var procs := map[0 := Proc(0, Bare, {TapFd(2)}), 3 := Proc(1, Listener(lpc), WRITE)];
    Later(v, p, ifs, if helper.Some? then procs[4 := Proc(1, helper.value, WRITE)] else procs,
          if device then {Dev(p)} else {}, status, {1}, n)
  }

  const ENDED: map<Serial, bool> := map[1 := false, 2 := true]
  const REMOVED: map<Serial, bool> := map[1 := false, 2 := true, 4 := true]

  ghost function Alone(v: Pid, p: Pid, ifs: Ifs<IfName>, lpc: ListenerPc): State {
    Down(v, p, ifs, lpc, None, false, REMOVED, 5)
  }

  lemma ListenerThen(v: Pid, p: Pid, ifs: Ifs<IfName>, lpc: ListenerPc, ifs': Ifs<IfName>, lpc': ListenerPc)
    requires var s := Alone(v, p, ifs, lpc);
             && Reachable(s) && ListenerCan(s, 1, lpc)
             && ListenerOk(s, 3, lpc) == Goto(s, 3, Listener(lpc')).(ifs := ifs')
    ensures Reachable(Alone(v, p, ifs', lpc'))
  {
    AloneMoves(v, p, ifs, lpc, ifs', lpc');
    Then(Alone(v, p, ifs, lpc), Call(3, true), Alone(v, p, ifs', lpc'));
  }

  lemma AloneMoves(v: Pid, p: Pid, ifs: Ifs<IfName>, lpc: ListenerPc, ifs': Ifs<IfName>, lpc': ListenerPc)
    ensures Goto(Alone(v, p, ifs, lpc), 3, Listener(lpc')).(ifs := ifs') == Alone(v, p, ifs', lpc')
  {
    assert Goto(Alone(v, p, ifs, lpc), 3, Listener(lpc')).procs == Alone(v, p, ifs', lpc').procs;
  }

  lemma Ends(v: Pid, p: Pid)
    ensures Reachable(Down(v, p, Three(p), Poll, None, true, ENDED, 4))
  {
    ComesUp(v, p);
    var t := Down(v, p, Three(p), Poll, None, true, ENDED, 4);
    StillHeld(p, t.procs, 3, 0);
    Dies(Up(v, p, Running, READ, Poll, WRITE), 1, t);
  }

  lemma Wakes(v: Pid, p: Pid)
    ensures Reachable(Down(v, p, Three(p), WaitRemove(4), Some(RemoveHelper), true, ENDED, 5))
  {
    Ends(v, p);
    var s := Down(v, p, Three(p), Poll, None, true, ENDED, 4);
    var t := Down(v, p, Three(p), SpawnRemove, None, true, ENDED, 4);
    assert !PipeHasReader(s, 1);
    Then(s, Call(3, true), t);
    Then(t, Call(3, true), Down(v, p, Three(p), WaitRemove(4), Some(RemoveHelper), true, ENDED, 5));
  }

  lemma RemoverActs(v: Pid, p: Pid)
    ensures Reachable(Down(v, p, Three(p), WaitRemove(4), Some(Finished(true)), false, ENDED, 5))
  {
    Wakes(v, p);
    var s := Down(v, p, Three(p), WaitRemove(4), Some(RemoveHelper), true, ENDED, 5);
    var e := ApiDone(4, 0, true, true);
    assert Dev(p) in s.devices;
    assert ApiEffect(s, e).devices == {};
    Then(s, e, Down(v, p, Three(p), WaitRemove(4), Some(Finished(true)), false, ENDED, 5));
  }

  /** ch_remove_device */
  lemma Unplugs(v: Pid, p: Pid)
    ensures Reachable(Down(v, p, Three(p), RouterIndex, None, false, REMOVED, 5))
  {
    RemoverActs(v, p);
    var t := Down(v, p, Three(p), WaitRemove(4), None, false, REMOVED, 5);
    StillHeld(p, t.procs, 3, 0);
    Dies(Down(v, p, Three(p), WaitRemove(4), Some(Finished(true)), false, ENDED, 5), 4, t);
    Then(t, Call(3, true), Down(v, p, Three(p), RouterIndex, None, false, REMOVED, 5));
  }

  ghost function Parting(p: Pid, up: bool): Ifs<IfName> {
    Three(p)[Name(Router, p) := Tap(2, up, 1, None)]
  }

  lemma Parts(p: Pid)
    ensures HasTap(Three(p), 2) && SetMaster(Three(p), 2, None) == Parting(p, true)
    ensures SetUp(Parting(p, true), Name(Router, p), false) == Parting(p, false)
  {
    assert Name(Router, p) in Three(p);
  }

  lemma FindsRouter(v: Pid, p: Pid)
    ensures Reachable(Alone(v, p, Three(p), LeaveBridge(2)))
  {
    Unplugs(v, p);
    ListenerThen(v, p, Three(p), RouterIndex, Three(p), LeaveBridge(2));
  }

  lemma Leaves(v: Pid, p: Pid)
    ensures Reachable(Alone(v, p, Parting(p, true), RouterDown))
  {
    FindsRouter(v, p);
    Parts(p);
    ListenerThen(v, p, Three(p), LeaveBridge(2), Parting(p, true), RouterDown);
  }

  lemma Lowers(v: Pid, p: Pid)
    ensures Reachable(Alone(v, p, Parting(p, false), RenameRouter))
  {
    Leaves(v, p);
    Parts(p);
    ListenerThen(v, p, Parting(p, true), RouterDown, Parting(p, false), RenameRouter);
  }

  ghost function Renamed(p: Pid, up: bool): Ifs<IfName> {
    map[Name(Br, p) := Bridge(0, up, 1), Name(Client, p) := Tap(1, true, 1, Some(0)),
        Name(Dead, p) := Tap(2, false, 1, None)]
  }

  ghost function Freed(p: Pid): Ifs<IfName> {
    map[Name(Client, p) := Tap(1, true, 1, None), Name(Dead, p) := Tap(2, false, 1, None)]
  }

  lemma Frees(p: Pid)
    ensures Rename(Parting(p, false), Name(Router, p), Name(Dead, p)) == Renamed(p, true)
    ensures SetUp(Renamed(p, true), Name(Br, p), false) == Renamed(p, false)
    ensures DeleteBridge(Renamed(p, false), Name(Br, p)) == Freed(p)
  {
  }

  lemma Renames(v: Pid, p: Pid)
    ensures Reachable(Alone(v, p, Renamed(p, true), BridgeDown(true)))
  {
    Lowers(v, p);
    Frees(p);
    ListenerThen(v, p, Parting(p, false), RenameRouter, Renamed(p, true), BridgeDown(true));
  }

  lemma LowersBridge(v: Pid, p: Pid)
    ensures Reachable(Alone(v, p, Renamed(p, false), BridgeDelete(true)))
  {
    Renames(v, p);
    Frees(p);
    ListenerThen(v, p, Renamed(p, true), BridgeDown(true), Renamed(p, false), BridgeDelete(true));
  }

  lemma Deletes(v: Pid, p: Pid)
    ensures Reachable(Alone(v, p, Freed(p), Exiting(true, true)))
  {
    LowersBridge(v, p);
    Frees(p);
    ListenerThen(v, p, Renamed(p, false), BridgeDelete(true), Freed(p), Exiting(true, true));
  }

  ghost function Exited(v: Pid, p: Pid): State {
    Later(v, p, map[Name(Dead, p) := Tap(2, false, 1, None)], map[0 := Proc(0, Bare, {TapFd(2)})], {},
          REMOVED[3 := false], {1}, 5)
  }

  lemma Exits(v: Pid, p: Pid)
    ensures Reachable(Exited(v, p))
  {
    Deletes(v, p);
    var a := Exited(v, p);
    assert TapFd(2) in a.procs[0].fds;
    assert 2 in HeldTaps(a.procs) && 1 !in HeldTaps(a.procs);
    Dies(Alone(v, p, Freed(p), Exiting(true, true)), 3, a);
  }

  /** A VM's network can come up, and after the VM has ended everything it made can be gone again:
      nothing is left but the provider VM, as it was. */
  lemma WholeLife(v: Pid, p: Pid)
    ensures Reachable(Up(v, p, Running, READ, Poll, WRITE))
    ensures Reachable(Later(v, p, map[], map[0 := Proc(0, Bare, {})], {}, REMOVED[3 := false], {1}, 5))
  {
    ComesUp(v, p);
    Exits(v, p);
    var a := Exited(v, p);
    var b := Later(v, p, map[], map[0 := Proc(0, Bare, {})], {}, REMOVED[3 := false], {1}, 5);
    assert 2 !in HeldTaps(b.procs);
    Closes(a, 0, {TapFd(2)}, b);
    Then(a, DropTap(0, 2), b);
  }
}
