/** What net_setup has built at each of its steps, in every run. */
module NetBuilt {
  import opened IfNames
  import opened NetKernel
  import opened NetWorld
  import opened NetInvariant
  import opened NetSteps
  import opened NetTheorems
  import opened NetTraces
  import opened Options

  // ---- what is there at each point --------------------------------------------------------

  /** The bridge is up from if_up on, until the rollback. */
  ghost predicate BridgeStage(pc: MainPc) {
    !(pc.AddBridge? || pc.BridgeUp? || pc.FailDown? || pc.FailDelete? || pc.FailClose? || pc.Failed?)
  }

  /** The client's tap is complete, and start-vmm still holds it. */
  ghost predicate ClientStage(pc: MainPc, client: Option<Ix>) {
    client.Some? && !(pc.FailClose? || pc.Failed? || pc.Running?)
  }

  /** The tap that is being set up: open, then on the bridge, then up. */
  ghost function NewTapStage(q: Serial, pc: MainPc, br: Ix): Option<(Kind, Iface)> {
    match pc
    case TapIndex(role, fd) => Some((KindFor(role), Tap(fd, false, q, None)))
    case JoinBridge(role, fd, _) => Some((KindFor(role), Tap(fd, false, q, None)))
    case TapUp(role, fd) => Some((KindFor(role), Tap(fd, false, q, Some(br))))
    case SpawnAddNet(fd) => Some((Router, Tap(fd, true, q, Some(br))))
    case WaitAddNet(fd, _) => Some((Router, Tap(fd, true, q, Some(br))))
    case CloseRouter(fd, _) => Some((Router, Tap(fd, true, q, Some(br))))
    case _ => None
  }

  /** r.fd has been set. */
  ghost predicate ClientKnown(pc: MainPc) {
    || pc.SpawnAddNet? || pc.WaitAddNet? || pc.CloseRouter? || pc.MakePipe? || pc.ForkListener? || pc.CloseWrite?
    || pc.Running? || ((pc.OpenTap? || pc.TapIndex? || pc.JoinBridge? || pc.TapUp?) && pc.role == RouterTap)
  }

  ghost predicate Has(s: State, q: Serial, k: Kind, i: Iface)
    requires q in s.pids
  {
    Name(k, s.pids[q]) in s.ifs && s.ifs[Name(k, s.pids[q])] == i
  }

  ghost predicate Wired(s: State, q: Serial, pc: MainPc, client: Option<Ix>)
    requires q in s.pids
  {
    NeedsBridge(Main(pc, client)) ==>
      && OwnsBridge(s, q) && (ClientKnown(pc) ==> client.Some?)
      && var b := s.ifs[Name(Br, s.pids[q])];
        && (BridgeStage(pc) ==> b.up)
        && (ClientStage(pc, client) ==> Has(s, q, Client, Tap(client.value, true, q, Some(b.ix))))
        && (NewTapStage(q, pc, b.ix).Some? ==>
              Has(s, q, NewTapStage(q, pc, b.ix).value.0, NewTapStage(q, pc, b.ix).value.1))
  }

  // ---- start-vmm's own calls --------------------------------------------------------------

  ghost predicate WiredAt(s: State, q: Serial, pc: MainPc, client: Option<Ix>) {
    Here(s, q, pc, client) && Wired(s, q, pc, client)
  }

  ghost predicate WiredAfter(t: State, q: Serial) {
    q in t.procs && t.procs[q].prog.Main? && q in t.pids && Wired(t, q, t.procs[q].prog.pc, t.procs[q].prog.client)
  }

  lemma BuildsBridge(s: State, q: Serial, pc: MainPc, client: Option<Ix>)
    requires Bounds(s) && WiredAt(s, q, pc, client) && MainCan(s, q, pc) && (pc.AddBridge? || pc.BridgeUp?)
    ensures WiredAfter(MainOk(s, q, pc, client), q)
  {
  }

  lemma OpensTap(s: State, q: Serial, pc: MainPc, client: Option<Ix>)
    requires WiredAt(s, q, pc, client) && MainCan(s, q, pc) && pc.OpenTap?
    ensures WiredAfter(MainOk(s, q, pc, client), q)
  {
  }

  lemma FindsTap(s: State, q: Serial, pc: MainPc, client: Option<Ix>)
    requires WiredAt(s, q, pc, client) && MainCan(s, q, pc) && pc.TapIndex?
    ensures WiredAfter(MainOk(s, q, pc, client), q)
  {
  }

  lemma JoinsTap(s: State, q: Serial, pc: MainPc, client: Option<Ix>)
    requires Bounds(s) && WiredAt(s, q, pc, client) && MainCan(s, q, pc) && pc.JoinBridge?
    ensures WiredAfter(MainOk(s, q, pc, client), q)
  {
  }

  lemma RaisesTap(s: State, q: Serial, pc: MainPc, client: Option<Ix>)
    requires Bounds(s) && WiredAt(s, q, pc, client) && MainCan(s, q, pc) && pc.TapUp?
    ensures WiredAfter(MainOk(s, q, pc, client), q)
  {
  }

  /** An interface is the same before and after. */
  ghost predicate Same(s: State, t: State, n: IfName) {
    n in s.ifs && n in t.ifs && t.ifs[n] == s.ifs[n]
  }

  /** What was there for one point is there for another that needs no more. */
  lemma StageKept(s: State, t: State, q: Serial, pc: MainPc, to: MainPc, client: Option<Ix>)
    requires q in s.pids && q in t.pids && t.pids[q] == s.pids[q] && Wired(s, q, pc, client)
    requires NeedsBridge(Main(pc, client)) && Same(s, t, Name(Br, s.pids[q]))
    requires (BridgeStage(to) ==> BridgeStage(pc)) && (ClientKnown(to) ==> ClientKnown(pc))
    requires ClientStage(to, client) ==> ClientStage(pc, client) && Same(s, t, Name(Client, s.pids[q]))
    requires var b := s.ifs[Name(Br, s.pids[q])].ix;
             NewTapStage(q, to, b).Some? ==>
               && NewTapStage(q, to, b) == NewTapStage(q, pc, b)
               && Same(s, t, Name(NewTapStage(q, to, b).value.0, s.pids[q]))
    ensures Wired(t, q, to, client)
  {
  }

  lemma CloseKeeps(s: State, q: Serial, fds: set<Fd>, prog: Prog, n: IfName)
    requires q in s.procs && n in s.ifs && (s.ifs[n].Tap? ==> TapFd(s.ifs[n].ix) in s.procs[q].fds - fds)
    ensures Same(s, Close(s, q, fds, prog), n)
  {
    var t := Close(s, q, fds, prog);
    if s.ifs[n].Tap? {
      assert TapFd(s.ifs[n].ix) in t.procs[q].fds;
      assert s.ifs[n].ix in HeldTaps(t.procs);
    }
  }

  lemma Offers(s: State, q: Serial, fd: Ix, client: Option<Ix>)
    requires WiredAt(s, q, SpawnAddNet(fd), client) && q < s.nextSerial
    ensures WiredAfter(MainOk(s, q, SpawnAddNet(fd), client), q)
  {
    StageKept(s, MainOk(s, q, SpawnAddNet(fd), client), q, SpawnAddNet(fd), WaitAddNet(fd, s.nextSerial), client);
  }

  lemma ForksListener(s: State, q: Serial, client: Option<Ix>)
    requires WiredAt(s, q, ForkListener, client) && q < s.nextSerial
    ensures WiredAfter(MainOk(s, q, ForkListener, client), q)
  {
    StageKept(s, MainOk(s, q, ForkListener, client), q, ForkListener, CloseWrite, client);
  }

  lemma GoesOn(s: State, q: Serial, pc: MainPc, client: Option<Ix>)
    requires WiredAt(s, q, pc, client) && MainCan(s, q, pc) && (pc.WaitAddNet? || pc.MakePipe?)
    ensures WiredAfter(MainOk(s, q, pc, client), q)
  {
    var t := MainOk(s, q, pc, client);
    StageKept(s, t, q, pc, t.procs[q].prog.pc, client);
  }

  lemma ClosesTap(s: State, q: Serial, pc: MainPc, client: Option<Ix>)
    requires WiredAt(s, q, pc, client) && (pc.CloseTap? || pc.CloseRouter?)
    ensures WiredAfter(MainOk(s, q, pc, client), q)
  {
    var t := MainOk(s, q, pc, client);
    var to := if pc.CloseRouter? && pc.added then MakePipe else FailDown;
    CloseKeeps(s, q, {TapFd(pc.fd)}, Main(to, client), Name(Br, s.pids[q]));
    if client.Some? { CloseKeeps(s, q, {TapFd(pc.fd)}, Main(to, client), Name(Client, s.pids[q])); }
    StageKept(s, t, q, pc, to, client);
  }

  lemma ClosesWrite(s: State, q: Serial, client: Option<Ix>)
    requires WiredAt(s, q, CloseWrite, client)
    ensures WiredAfter(MainOk(s, q, CloseWrite, client), q)
  {
    CloseKeeps(s, q, {PipeWrite(q)}, Main(Running, client), Name(Br, s.pids[q]));
    StageKept(s, MainOk(s, q, CloseWrite, client), q, CloseWrite, Running, client);
  }

  lemma RollsBack(s: State, q: Serial, pc: MainPc, client: Option<Ix>)
    requires WiredAt(s, q, pc, client) && MainCan(s, q, pc) && (pc.FailDown? || pc.FailDelete? || pc.FailClose?)
    ensures WiredAfter(MainOk(s, q, pc, client), q)
  {
  }

  lemma TapFails(s: State, q: Serial, pc: MainPc, client: Option<Ix>)
    requires WiredAt(s, q, pc, client) && (pc.TapIndex? || pc.JoinBridge? || pc.TapUp?)
    ensures WiredAfter(MainErr(s, q, pc, client), q)
  {
    StageKept(s, MainErr(s, q, pc, client), q, pc, CloseTap(pc.fd), client);
  }

  lemma OfferFails(s: State, q: Serial, pc: MainPc, client: Option<Ix>)
    requires WiredAt(s, q, pc, client) && (pc.SpawnAddNet? || pc.WaitAddNet?)
    ensures WiredAfter(MainErr(s, q, pc, client), q)
  {
    StageKept(s, MainErr(s, q, pc, client), q, pc, CloseRouter(pc.fd, false), client);
  }

  lemma StepFails(s: State, q: Serial, pc: MainPc, client: Option<Ix>)
    requires WiredAt(s, q, pc, client) && (pc.BridgeUp? || pc.OpenTap? || pc.MakePipe?)
    ensures WiredAfter(MainErr(s, q, pc, client), q)
  {
    StageKept(s, MainErr(s, q, pc, client), q, pc, FailDown, client);
  }

  lemma RollbackFails(s: State, q: Serial, pc: MainPc, client: Option<Ix>)
    requires WiredAt(s, q, pc, client) && (pc.AddBridge? || pc.FailDown? || pc.FailDelete?)
    ensures WiredAfter(MainErr(s, q, pc, client), q)
  {
    if pc.FailDown? { StageKept(s, MainErr(s, q, pc, client), q, pc, FailDelete, client); }
  }

  lemma ForkFails(s: State, q: Serial, client: Option<Ix>)
    requires WiredAt(s, q, ForkListener, client)
    ensures WiredAfter(MainErr(s, q, ForkListener, client), q)
  {
    var fds, to := {PipeRead(q), PipeWrite(q)}, Main(FailDown, client);
    CloseKeeps(s, q, fds, to, Name(Br, s.pids[q]));
    if client.Some? { CloseKeeps(s, q, fds, to, Name(Client, s.pids[q])); }
    StageKept(s, MainErr(s, q, ForkListener, client), q, ForkListener, FailDown, client);
  }

  lemma OkWired(s: State, q: Serial, pc: MainPc, client: Option<Ix>)
    requires Bounds(s) && WiredAt(s, q, pc, client) && MainCan(s, q, pc) && q < s.nextSerial
    ensures WiredAfter(MainOk(s, q, pc, client), q)
  {
    match pc
    case AddBridge => BuildsBridge(s, q, pc, client);
    case BridgeUp => BuildsBridge(s, q, pc, client);
    case OpenTap(_) => OpensTap(s, q, pc, client);
    case TapIndex(_, _) => FindsTap(s, q, pc, client);
    case JoinBridge(_, _, _) => JoinsTap(s, q, pc, client);
    case TapUp(_, _) => RaisesTap(s, q, pc, client);
    case CloseTap(_) => ClosesTap(s, q, pc, client);
    case CloseRouter(_, _) => ClosesTap(s, q, pc, client);
    case SpawnAddNet(fd) => Offers(s, q, fd, client);
    case WaitAddNet(_, _) => GoesOn(s, q, pc, client);
    case MakePipe => GoesOn(s, q, pc, client);
    case ForkListener => ForksListener(s, q, client);
    case CloseWrite => ClosesWrite(s, q, client);
    case FailDown => RollsBack(s, q, pc, client);
    case FailDelete => RollsBack(s, q, pc, client);
    case FailClose(_) => RollsBack(s, q, pc, client);
    case Running =>
    case Failed(_) =>
  }

  lemma ErrWired(s: State, q: Serial, pc: MainPc, client: Option<Ix>)
    requires WiredAt(s, q, pc, client) && !MainCannotFail(s, pc)
    ensures WiredAfter(MainErr(s, q, pc, client), q)
  {
    if pc.TapIndex? || pc.JoinBridge? || pc.TapUp? { TapFails(s, q, pc, client); }
    else if pc.SpawnAddNet? || pc.WaitAddNet? { OfferFails(s, q, pc, client); }
    else if pc.BridgeUp? || pc.OpenTap? || pc.MakePipe? { StepFails(s, q, pc, client); }
    else if pc.ForkListener? { ForkFails(s, q, client); }
    else { RollbackFails(s, q, pc, client); }
  }

  // ---- everything else --------------------------------------------------------------------

  /** An interface that q made and, if it is a tap, still holds. */
  ghost predicate Mine(s: State, q: Serial, n: IfName) {
    && q in s.procs && n in s.ifs && s.ifs[n].owner == q
    && (s.ifs[n].Tap? ==> TapFd(s.ifs[n].ix) in s.procs[q].fds && !RunsVmm(s.procs[q].prog))
  }

  lemma ReapKeeps(s: State, t: State, q: Serial, n: IfName)
    requires Mine(s, q, n) && t.ifs == Reap(s.ifs, HeldTaps(t.procs))
    requires s.ifs[n].Tap? ==> q in t.procs && s.procs[q].fds <= t.procs[q].fds
    ensures Same(s, t, n)
  {
    if s.ifs[n].Tap? {
      assert TapFd(s.ifs[n].ix) in t.procs[q].fds;
      assert s.ifs[n].ix in HeldTaps(t.procs);
    }
  }

  /** While start-vmm or its VMM lives, its listener has not left poll. */
  lemma ListenerWaits(s: State, q: Serial, r: Serial)
    requires Inv(s) && q in s.procs && s.procs[q].prog.Main? && r in s.procs && s.procs[r].prog.Listener?
    requires s.procs[r].vm == s.procs[q].vm && !s.procs[q].prog.pc.Failed?
    ensures !PastPoll(s.procs[r].prog)
  {
    assert ProcOk(s, q) && ProcOk(s, r) && PairOk(s, q, r);
  }

  lemma CallKeeps(s: State, r: Serial, ok: bool, q: Serial, n: IfName)
    requires Inv(s) && Enabled(s, Call(r, ok)) && r != q && Mine(s, q, n)
    requires s.procs[q].prog.Main? && !s.procs[q].prog.pc.Failed?
    ensures Same(s, Apply(s, Call(r, ok)), n)
  {
    assert ProcOk(s, r) && ProcOk(s, q);
    if s.procs[r].vm != q {
      if NetSide(s.procs[r].prog) { CallUntouched(s, r, ok); }
    } else {
      OwnListenerKeeps(s, r, ok, q, n);
    }
  }

  lemma OwnListenerKeeps(s: State, r: Serial, ok: bool, q: Serial, n: IfName)
    requires Inv(s) && Enabled(s, Call(r, ok)) && r != q && Mine(s, q, n) && ProcOk(s, r) && ProcOk(s, q)
    requires s.procs[q].prog.Main? && !s.procs[q].prog.pc.Failed? && s.procs[r].vm == q
    ensures Same(s, Apply(s, Call(r, ok)), n)
  {
    ListenerWaits(s, q, r);
    if s.procs[r].prog.lpc.CloseRead? {
      ReapKeeps(s, Apply(s, Call(r, ok)), q, n);
    }
  }

  lemma AbandonKeeps(s: State, h: Serial, v: Serial, q: Serial, n: IfName)
    requires Bounds(s) && Enabled(s, Abandon(h, v)) && Mine(s, q, n) && h != q
    ensures Same(s, Apply(s, Abandon(h, v)), n)
  {
    ReapKeeps(s, Apply(s, Abandon(h, v)), q, n);
  }

  lemma LateKeeps(s: State, o: Serial, q: Serial, n: IfName)
    requires LateCan(s, o) && Mine(s, q, n) && o != q
    ensures Same(s, Gone(LateEffect(s, o), o, true), n)
  {
    ReapKeeps(s, Gone(LateEffect(s, o), o, true), q, n);
  }

  lemma DropKeeps(s: State, v: Serial, ix: Ix, q: Serial, n: IfName)
    requires Enabled(s, DropTap(v, ix)) && Mine(s, q, n)
    ensures Same(s, Apply(s, DropTap(v, ix)), n)
  {
    ReapKeeps(s, Apply(s, DropTap(v, ix)), q, n);
  }

  lemma DieKeeps(s: State, r: Serial, killed: bool, q: Serial, n: IfName)
    requires r in s.procs && Mine(s, q, n) && r != q
    ensures Same(s, Gone(s, r, killed), n)
  {
    ReapKeeps(s, Gone(s, r, killed), q, n);
  }

  lemma OthersKeep(s: State, e: Event, q: Serial, n: IfName)
    requires Inv(s) && Enabled(s, e) && Mine(s, q, n) && q in Apply(s, e).procs
    requires s.procs[q].prog.Main? && !s.procs[q].prog.pc.Failed? && !(e.Call? && e.actor == q)
    ensures Same(s, Apply(s, e), n)
  {
    match e
    case Call(r, ok) => CallKeeps(s, r, ok, q, n);
    case Abandon(h, v) => AbandonKeeps(s, h, v, q, n);
    case Late(o) => LateKeeps(s, o, q, n);
    case DropTap(v, ix) => DropKeeps(s, v, ix, q, n);
    case Die(r, killed) => DieKeeps(s, r, killed, q, n);
    case _ =>
  }

  lemma OkPids(s: State, r: Serial, pc: MainPc, client: Option<Ix>)
    requires r in s.procs && r in s.pids && MainCan(s, r, pc)
    ensures MainOk(s, r, pc, client).pids == s.pids
  {
  }

  lemma ListenerPids(s: State, r: Serial, pc: ListenerPc)
    requires r in s.procs && s.procs[r].vm in s.pids && ListenerCan(s, s.procs[r].vm, pc)
    ensures ListenerOk(s, r, pc).pids == s.pids
  {
  }

  lemma CallPids(s: State, r: Serial, ok: bool)
    requires Enabled(s, Call(r, ok))
    ensures Apply(s, Call(r, ok)).pids == s.pids
  {
    match s.procs[r].prog
    case Main(pc, client) => if ok { OkPids(s, r, pc, client); }
    case Listener(pc) => if ok { ListenerPids(s, r, pc); }
    case _ => assert false;
  }

  lemma OtherPids(s: State, e: Event)
    requires Enabled(s, e) && !e.Call? && !e.Start?
    ensures Apply(s, e).pids == s.pids
  {
  }

  lemma PidsKept(s: State, e: Event, q: Serial)
    requires Bounds(s) && Enabled(s, e) && q in s.pids
    ensures q in Apply(s, e).pids && Apply(s, e).pids[q] == s.pids[q]
  {
    if e.Call? { CallPids(s, e.actor, e.ok); } else if !e.Start? { OtherPids(s, e); }
  }

  /** What Wired speaks of is held. */
  lemma AllMine(s: State, q: Serial, pc: MainPc, client: Option<Ix>)
    requires WiredAt(s, q, pc, client) && NeedsBridge(Main(pc, client))
    ensures Mine(s, q, Name(Br, s.pids[q]))
    ensures ClientStage(pc, client) ==> Mine(s, q, Name(Client, s.pids[q]))
    ensures var b := s.ifs[Name(Br, s.pids[q])].ix;
            NewTapStage(q, pc, b).Some? ==> Mine(s, q, Name(NewTapStage(q, pc, b).value.0, s.pids[q]))
  {
  }

  lemma OthersWired(s: State, e: Event, q: Serial, pc: MainPc, client: Option<Ix>)
    requires Inv(s) && Enabled(s, e) && WiredAt(s, q, pc, client) && !(e.Call? && e.actor == q) && q < s.nextSerial
    requires q in Apply(s, e).procs
    ensures WiredAfter(Apply(s, e), q)
  {
    var t, p := Apply(s, e), s.pids[q];
    OthersLeave(s, e, q);
    PidsKept(s, e, q);
    if NeedsBridge(Main(pc, client)) {
      AllMine(s, q, pc, client);
      var b := s.ifs[Name(Br, p)].ix;
      OthersKeep(s, e, q, Name(Br, p));
      if ClientStage(pc, client) { OthersKeep(s, e, q, Name(Client, p)); }
      if NewTapStage(q, pc, b).Some? { OthersKeep(s, e, q, Name(NewTapStage(q, pc, b).value.0, p)); }
      StageKept(s, t, q, pc, pc, client);
    }
  }

  ghost predicate IsMain(s: State, q: Serial) {
    q in s.procs && s.procs[q].prog.Main?
  }

  lemma BornWired(s: State, e: Event, q: Serial)
    requires Inv(s) && Enabled(s, e) && Inv(Apply(s, e))
    requires IsMain(Apply(s, e), q) && !IsMain(s, q)
    ensures WiredAfter(Apply(s, e), q)
  {
    assert ProcOk(Apply(s, e), q);
    if e.Call? && e.actor == q { ListenerFlows(s, q, e.ok, s.procs[q].prog.lpc); } else { OthersLeave(s, e, q); }
  }

  lemma NextWired(s: State, e: Event, t: State, q: Serial)
    requires Inv(s) && Inv(t) && Enabled(s, e) && t == Apply(s, e) && IsMain(t, q)
    requires IsMain(s, q) ==> WiredAfter(s, q)
    ensures WiredAfter(t, q)
  {
    if IsMain(s, q) { StepWired(s, e, q); } else { BornWired(s, e, q); }
  }

  lemma {:induction false} RunWired(run: seq<State>, events: seq<Event>, q: Serial, i: nat)
    requires IsRun(run, events) && i < |run| && IsMain(run[i], q)
    ensures WiredAfter(run[i], q)
  {
    if i > 0 {
      RunInv(run, events, i - 1);
      RunInv(run, events, i);
      if IsMain(run[i - 1], q) { RunWired(run, events, q, i - 1); }
      NextWired(run[i - 1], events[i - 1], run[i], q);
    }
  }

  lemma StepWired(s: State, e: Event, q: Serial)
    requires Inv(s) && Enabled(s, e) && WiredAfter(s, q) && q in Apply(s, e).procs
    ensures WiredAfter(Apply(s, e), q)
  {
    var pc, client := s.procs[q].prog.pc, s.procs[q].prog.client;
    assert ProcOk(s, q);
    if e.Call? && e.actor == q {
      if e.ok { OkWired(s, q, pc, client); } else { ErrWired(s, q, pc, client); }
    } else {
      OthersWired(s, e, q, pc, client);
    }
  }

  // ---- what follows for every run ---------------------------------------------------------

  /** Whatever else happens on the machine, when the router's tap is offered to the provider's VMM the
      bridge is up, and both taps are up and on it. */
  lemma TapsOffered(run: seq<State>, events: seq<Event>, q: Serial, i: nat, fd: Ix, client: Option<Ix>)
    requires IsRun(run, events) && i < |run| && q in run[i].procs
    requires run[i].procs[q].prog == Main(SpawnAddNet(fd), client)
    ensures var s := run[i];
            && q in s.pids && client.Some?
            && var p := s.pids[q];
              && Name(Br, p) in s.ifs && s.ifs[Name(Br, p)].Bridge? && s.ifs[Name(Br, p)].up
              && var b := s.ifs[Name(Br, p)].ix;
                && Name(Client, p) in s.ifs && s.ifs[Name(Client, p)] == Tap(client.value, true, q, Some(b))
                && Name(Router, p) in s.ifs && s.ifs[Name(Router, p)] == Tap(fd, true, q, Some(b))
  {
    RunWired(run, events, q, i);
  }

  /** And when net_setup has succeeded, the VM has a bridge that is up, and a tap of its own that is
      up and on it; start-vmm holds just that tap and the read end of the exit pipe. */
  lemma NetworkBuilt(run: seq<State>, events: seq<Event>, q: Serial, i: nat, client: Option<Ix>)
    requires IsRun(run, events) && i < |events| && events[i] == Call(q, true)
    requires q in run[i].procs && run[i].procs[q].prog == Main(CloseWrite, client)
    ensures var s := run[i + 1];
            && q in s.pids && client.Some? && q in s.procs
            && s.procs[q] == Proc(q, Main(Running, client), {TapFd(client.value), PipeRead(q)})
            && var p := s.pids[q];
              && Name(Br, p) in s.ifs && s.ifs[Name(Br, p)].Bridge? && s.ifs[Name(Br, p)].up
              && Name(Client, p) in s.ifs
              && s.ifs[Name(Client, p)] == Tap(client.value, true, q, Some(s.ifs[Name(Br, p)].ix))
  {
    var s := run[i];
    RunInv(run, events, i);
    RunWired(run, events, q, i);
    assert ProcOk(s, q);
    CloseKeeps(s, q, {PipeWrite(q)}, Main(Running, client), Name(Br, s.pids[q]));
    CloseKeeps(s, q, {PipeWrite(q)}, Main(Running, client), Name(Client, s.pids[q]));
    assert s.procs[q].fds - {PipeWrite(q)} == {TapFd(client.value), PipeRead(q)};
  }

  /** As long as the VM runs, its bridge is up. */
  lemma BridgeStaysUp(run: seq<State>, events: seq<Event>, q: Serial, i: nat)
    requires IsRun(run, events) && i < |run| && q in run[i].procs
    requires run[i].procs[q].prog.Main? && run[i].procs[q].prog.pc.Running?
    ensures var s := run[i]; q in s.pids && OwnsBridge(s, q) && s.ifs[Name(Br, s.pids[q])].up
  {
    RunWired(run, events, q, i);
  }

  /** Once the bridge has been taken down it can be deleted, in the rollback */
  lemma DownThenDelete(run: seq<State>, events: seq<Event>, q: Serial, i: nat, client: Option<Ix>)
    requires IsRun(run, events) && i < |events| && events[i] == Call(q, true) && q in run[i].procs
    requires run[i].procs[q].prog == Main(FailDown, client)
    ensures var t := run[i + 1];
            q in t.procs && t.procs[q].prog == Main(FailDelete, client) && Enabled(t, Call(q, true))
  {
    RunInv(run, events, i);
    assert ProcOk(run[i], q);
  }

  /** and in the cleanup. */
  lemma DownThenCleanedUp(run: seq<State>, events: seq<Event>, l: Serial, i: nat, freed: bool)
    requires IsRun(run, events) && i < |events| && events[i] == Call(l, true) && l in run[i].procs
    requires run[i].procs[l].prog == Listener(BridgeDown(freed))
    ensures var t := run[i + 1];
            l in t.procs && t.procs[l].prog == Listener(BridgeDelete(freed)) && Enabled(t, Call(l, true))
  {
    RunInv(run, events, i);
    assert ProcOk(run[i], l);
  }

  // ---- what the listener and the ch-remotes do --------------------------------------------

  /** bridge_remove_if takes the router's tap off the bridge, */
  lemma TapLeaves(run: seq<State>, events: seq<Event>, l: Serial, i: nat, ix: Ix, n: IfName)
    requires IsRun(run, events) && i < |events| && events[i] == Call(l, true)
    requires l in run[i].procs && run[i].procs[l].prog == Listener(LeaveBridge(ix))
    requires n in run[i].ifs && run[i].ifs[n].ix == ix
    ensures var s, t := run[i], run[i + 1];
            s.ifs[n].Tap? ==> n in t.ifs && t.ifs[n] == s.ifs[n].(master := None) && s.ifs[n].owner == s.procs[l].vm
  {
    RunInv(run, events, i);
    assert ProcOk(run[i], l) && IfOk(run[i], n);
  }

  /** if_down takes it down, */
  lemma TapGoesDown(run: seq<State>, events: seq<Event>, l: Serial, i: nat)
    requires IsRun(run, events) && i < |events| && events[i] == Call(l, true)
    requires l in run[i].procs && run[i].procs[l].prog == Listener(RouterDown)
    ensures var s, t := run[i], run[i + 1];
            && s.procs[l].vm in s.pids
            && var n := Name(Router, s.pids[s.procs[l].vm]);
               n in s.ifs && n in t.ifs && t.ifs[n] == s.ifs[n].(up := false)
  {
    RunInv(run, events, i);
    assert ProcOk(run[i], l);
  }

  /** and if_rename gives it the name _dead<pid>. */
  lemma TapIsRenamed(run: seq<State>, events: seq<Event>, l: Serial, i: nat)
    requires IsRun(run, events) && i < |events| && events[i] == Call(l, true)
    requires l in run[i].procs && run[i].procs[l].prog == Listener(RenameRouter)
    ensures var s, t := run[i], run[i + 1];
            && s.procs[l].vm in s.pids
            && var p := s.pids[s.procs[l].vm];
              && Name(Router, p) in s.ifs && Name(Router, p) !in t.ifs
              && Name(Dead, p) in t.ifs && t.ifs[Name(Dead, p)] == s.ifs[Name(Router, p)]
              && t.ifs[Name(Dead, p)].owner == s.procs[l].vm
  {
    RunInv(run, events, i);
    assert ProcOk(run[i], l);
  }

  /** A VMM that acts on add-net gets the tap and a device of the tap's name, */
  lemma DeviceAdded(run: seq<State>, events: seq<Event>, i: nat, h: Serial, v: Serial, reported: bool, fd: Ix)
    requires IsRun(run, events) && i < |events| && events[i] == ApiDone(h, v, true, reported)
    requires h in run[i].procs && run[i].procs[h].prog == AddNetHelper(fd)
    ensures var s, t := run[i], run[i + 1];
            && s.procs[h].vm in s.pids && v in t.procs && TapFd(fd) in t.procs[v].fds
            && t.devices == s.devices + {Device(v, Name(Router, s.pids[s.procs[h].vm]), s.procs[h].vm, fd)}
  {
    RunInv(run, events, i);
    assert ProcOk(run[i], h);
  }

  /** and one that acts on remove-device no longer has it, nor has any other. */
  lemma DeviceRemoved(run: seq<State>, events: seq<Event>, i: nat, h: Serial, v: Serial, reported: bool, d: Device)
    requires IsRun(run, events) && i < |events| && events[i] == ApiDone(h, v, true, reported)
    requires h in run[i].procs && run[i].procs[h].prog == RemoveHelper
    ensures d in run[i + 1].devices <==> d in run[i].devices && d.owner != run[i].procs[h].vm
  {
    var s, e := run[i], events[i];
    RunInv(run, events, i);
    RemovedIsOwn(s, e);
    var gone :| gone in s.devices && gone.vmm == v && gone.id == RouterId(s, s.procs[h].vm);
    assert DeviceOk(s, gone);
    assert d in s.devices && d.owner == s.procs[h].vm ==> d == gone;
  }
}
