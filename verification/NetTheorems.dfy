/** What follows for every run of any number of start-vmm processes. */
module NetTheorems {
  import opened IfNames
  import opened NetKernel
  import opened NetWorld
  import opened NetInvariant
  import opened NetSteps
  import opened Options

  // ---- the bridge name is a lock ----------------------------------------------------------

  /** While a listener can still name anything, br<pid> exists and is its own incarnation's. A
      newer process with the same pid has therefore not got past bridge_add, and cannot. */
  lemma BridgeNameIsLock(run: seq<State>, events: seq<Event>, i: nat, l: Serial, m: Serial)
    requires IsRun(run, events) && i < |run|
    requires l in run[i].procs && run[i].procs[l].prog.Listener? && !run[i].procs[l].prog.lpc.Exiting?
    requires m in run[i].procs && run[i].procs[m].prog.Main?
    ensures var s := run[i]; var vm := s.procs[l].vm;
            && vm in s.pids && m in s.pids && OwnsBridge(s, vm)
            && (m != vm && s.pids[m] == s.pids[vm] ==>
                  && (s.procs[m].prog.pc.AddBridge? || s.procs[m].prog.pc.FailClose? || s.procs[m].prog.pc.Failed?)
                  && !(s.procs[m].prog.pc.AddBridge? && Enabled(s, Call(m, true))))
  {
    RunInv(run, events, i);
    assert ProcOk(run[i], l) && ProcOk(run[i], m);
  }

  lemma ListenerHasBridge(run: seq<State>, events: seq<Event>, i: nat, l: Serial)
    requires IsRun(run, events) && i < |run|
    requires l in run[i].procs && run[i].procs[l].prog.Listener? && !run[i].procs[l].prog.lpc.Exiting?
    ensures run[i].procs[l].vm in run[i].pids && OwnsBridge(run[i], run[i].procs[l].vm)
  {
    RunInv(run, events, i);
    assert ProcOk(run[i], l);
  }

  // ---- no step touches what another incarnation made --------------------------------------

  ghost predicate Untouched(s: State, t: State, vm: Serial) {
    && (forall n :: n in s.ifs && s.ifs[n].owner != vm ==> n in t.ifs && t.ifs[n] == s.ifs[n])
    && (forall n :: n in t.ifs && t.ifs[n].owner != vm ==> n in s.ifs && s.ifs[n] == t.ifs[n])
    && (forall d: Device :: d.owner != vm ==> (d in s.devices <==> d in t.devices))
  }

  ghost predicate NetSide(prog: Prog) {
    !prog.Descendant? && !RunsVmm(prog)
  }

  lemma ReapUntouched(s: State, t: State, q: Serial)
    requires Inv(s) && q in s.procs && NetSide(s.procs[q].prog)
    requires t.ifs == Reap(s.ifs, HeldTaps(t.procs))
    requires forall r :: r in s.procs && r != q ==> r in t.procs && s.procs[r].fds <= t.procs[r].fds
    requires t.devices == set d | d in s.devices && d.vmm != q
    ensures Untouched(s, t, s.procs[q].vm)
  {
    var vm := s.procs[q].vm;
    assert ProcOk(s, q);
    forall n | n in s.ifs && s.ifs[n].owner != vm ensures n in t.ifs {
      assert IfOk(s, n);
      if s.ifs[n].Tap? {
        var r :| r in s.procs && TapFd(s.ifs[n].ix) in s.procs[r].fds;
        assert r == q ==> MayHold(s, s.procs[q], TapFd(s.ifs[n].ix));
        assert TapFd(s.ifs[n].ix) in t.procs[r].fds;
      }
    }
    forall d | d in s.devices ensures d.vmm != q {
      assert DeviceOk(s, d);
    }
  }

  lemma MainCloseUntouched(s: State, q: Serial, pc: MainPc, client: Option<Ix>)
    requires Inv(s) && q in s.procs && q in s.pids && s.procs[q].prog == Main(pc, client)
    requires pc.CloseTap? || pc.CloseRouter? || pc.CloseWrite? || pc.FailClose?
    ensures Untouched(s, MainOk(s, q, pc, client), s.procs[q].vm)
  {
    forall d | d in s.devices ensures d.vmm != q { assert DeviceOk(s, d); }
    ReapUntouched(s, MainOk(s, q, pc, client), q);
  }

  lemma MainUntouched(s: State, q: Serial, pc: MainPc, client: Option<Ix>)
    requires Inv(s) && q in s.procs && q in s.pids && s.procs[q].prog == Main(pc, client) && !pc.Running?
    requires MainCan(s, q, pc)
    ensures Untouched(s, MainOk(s, q, pc, client), s.procs[q].vm)
  {
    assert ProcOk(s, q);
    if pc.CloseTap? || pc.CloseRouter? || pc.CloseWrite? || pc.FailClose? {
      MainCloseUntouched(s, q, pc, client);
    } else if pc.FailDelete? {
      DeleteUntouched(s, q);
    } else {
      MainOkUntouched(s, q, pc, client);
    }
  }

  /** The steps that neither close anything nor delete the bridge. */
  lemma MainOkUntouched(s: State, q: Serial, pc: MainPc, client: Option<Ix>)
    requires q in s.procs && q in s.pids && s.procs[q].prog == Main(pc, client) && ProcOk(s, q) && MainCan(s, q, pc)
    requires !(pc.CloseTap? || pc.CloseRouter? || pc.CloseWrite? || pc.FailClose? || pc.FailDelete? || pc.Running?)
    requires forall n, m :: n in s.ifs && m in s.ifs && s.ifs[n].ix == s.ifs[m].ix ==> n == m
    ensures Untouched(s, MainOk(s, q, pc, client), s.procs[q].vm)
  {
  }

  /** Deleting one's own bridge releases one's own ports only. */
  lemma DeleteUntouched(s: State, q: Serial)
    requires Inv(s) && q in s.procs && s.procs[q].vm in s.pids && OwnsBridge(s, s.procs[q].vm)
    ensures var vm := s.procs[q].vm;
            Untouched(s, s.(ifs := DeleteBridge(s.ifs, Name(Br, s.pids[vm]))), vm)
  {
    forall n | n in s.ifs ensures IfOk(s, n) { }
  }

  lemma ListenerUntouched(s: State, q: Serial, pc: ListenerPc)
    requires Inv(s) && q in s.procs && s.procs[q].vm in s.pids && s.procs[q].prog == Listener(pc)
    requires ListenerCan(s, s.procs[q].vm, pc)
    ensures Untouched(s, ListenerOk(s, q, pc), s.procs[q].vm)
  {
    var vm := s.procs[q].vm;
    var t := ListenerOk(s, q, pc);
    assert ProcOk(s, q);
    if pc.CloseRead? {
      forall d | d in s.devices ensures d.vmm != q { assert DeviceOk(s, d); }
      ReapUntouched(s, t, q);
    } else if pc.BridgeDelete? {
      DeleteUntouched(s, q);
    } else if pc.LeaveBridge? {
      forall n | n in s.ifs && s.ifs[n].ix == pc.ix ensures s.ifs[n].owner == vm { assert IfOk(s, n); }
    } else {
      assert forall n :: n in s.ifs && s.ifs[n].owner != vm ==> n in t.ifs && t.ifs[n] == s.ifs[n];
    }
  }

  ghost function Actor(e: Event): Serial {
    match e
    case Start(_, _) => 0
    case Call(q, _) => q
    case ApiDone(h, _, _, _) => h
    case Abandon(h, _) => h
    case Late(o) => o
    case Fork(q) => q
    case DropTap(v, _) => v
    case Die(q, _) => q
  }

  /** No call of start-vmm, of a listener, stale or not, or of their ch-remote children, no death of
      any of them, and no request that a dead one of these left with a VMM changes, removes or adds
      an interface or a device of another incarnation; in particular net_setup never deletes a
      bridge it did not create. */
  lemma StepUntouched(s: State, e: Event)
    requires Inv(s) && Enabled(s, e) && !e.Start?
    requires Actor(e) in s.procs && NetSide(s.procs[Actor(e)].prog)
    ensures Untouched(s, Apply(s, e), s.procs[Actor(e)].vm)
  {
    match e
    case Call(q, ok) => CallUntouched(s, q, ok);
    case ApiDone(_, _, _, _) => ApiUntouched(s, e);
    case Abandon(h, v) => AbandonUntouched(s, h, v);
    case Late(o) => LateUntouched(s, o);
    case Die(q, killed) => ReapUntouched(s, Gone(s, q, killed), q);
    case _ => assert false;
  }

  lemma AbandonUntouched(s: State, h: Serial, v: Serial)
    requires Inv(s) && Enabled(s, Abandon(h, v))
    ensures Untouched(s, Apply(s, Abandon(h, v)), s.procs[h].vm)
  {
    ReapUntouched(s, Apply(s, Abandon(h, v)), h);
  }

  lemma LateUntouched(s: State, o: Serial)
    requires Inv(s) && LateCan(s, o)
    ensures Untouched(s, Apply(s, Late(o)), s.procs[o].vm)
  {
    LateEffectUntouched(s, o);
    LateGoneUntouched(s, o);
    UntouchedTwice(s, LateEffect(s, o), Gone(LateEffect(s, o), o, true), s.procs[o].vm);
  }

  lemma LateGoneUntouched(s: State, o: Serial)
    requires Inv(s) && LateCan(s, o)
    ensures var t := LateEffect(s, o); Untouched(t, Gone(t, o, true), s.procs[o].vm)
  {
    LateInv(s, o);
    ReapUntouched(LateEffect(s, o), Gone(LateEffect(s, o), o, true), o);
  }

  lemma UntouchedTwice(s: State, t: State, u: State, vm: Serial)
    requires Untouched(s, t, vm) && Untouched(t, u, vm)
    ensures Untouched(s, u, vm)
  {
  }

  lemma LateEffectUntouched(s: State, o: Serial)
    requires Inv(s) && LateCan(s, o)
    ensures Untouched(s, LateEffect(s, o), s.procs[o].vm)
  {
    assert OrphanOk(s, o);
  }

  lemma ApiUntouched(s: State, e: Event)
    requires Inv(s) && e.ApiDone? && Enabled(s, e)
    ensures Untouched(s, Apply(s, e), s.procs[e.helper].vm)
  {
    if e.effect && s.procs[e.helper].prog.RemoveHelper? { RemovedIsOwn(s, e); }
  }

  lemma CallUntouched(s: State, q: Serial, ok: bool)
    requires Inv(s) && Enabled(s, Call(q, ok)) && NetSide(s.procs[q].prog)
    ensures Untouched(s, Apply(s, Call(q, ok)), s.procs[q].vm)
  {
    assert ProcOk(s, q);
    match s.procs[q].prog {
      case Main(pc, client) => if ok { MainUntouched(s, q, pc, client); } else { MainErrUntouched(s, q, pc, client); }
      case Listener(pc) => if ok { ListenerUntouched(s, q, pc); }
      case _ => assert false;
    }
  }

  lemma ForkFailUntouched(s: State, q: Serial, client: Option<Ix>)
    requires Inv(s) && q in s.procs && s.procs[q].prog == Main(ForkListener, client)
    ensures Untouched(s, MainErr(s, q, ForkListener, client), s.procs[q].vm)
  {
    forall d | d in s.devices ensures d.vmm != q { assert DeviceOk(s, d); }
    ReapUntouched(s, MainErr(s, q, ForkListener, client), q);
  }

  lemma MainErrQuiet(s: State, q: Serial, pc: MainPc, client: Option<Ix>)
    requires q in s.procs && !pc.ForkListener?
    ensures var t := MainErr(s, q, pc, client); t.ifs == s.ifs && t.devices == s.devices
  {
  }

  lemma MainErrUntouched(s: State, q: Serial, pc: MainPc, client: Option<Ix>)
    requires Inv(s) && q in s.procs && s.procs[q].prog == Main(pc, client) && !pc.Running?
    ensures Untouched(s, MainErr(s, q, pc, client), s.procs[q].vm)
  {
    if pc.ForkListener? { ForkFailUntouched(s, q, client); } else { MainErrQuiet(s, q, pc, client); }
  }

  lemma NothingForeignTouched(run: seq<State>, events: seq<Event>, i: nat)
    requires IsRun(run, events) && i < |events| && !events[i].Start?
    requires Actor(events[i]) in run[i].procs && NetSide(run[i].procs[Actor(events[i])].prog)
    ensures Untouched(run[i], run[i + 1], run[i].procs[Actor(events[i])].vm)
  {
    RunInv(run, events, i);
    StepUntouched(run[i], events[i]);
  }

  // ---- bridges keep VMs apart -------------------------------------------------------------

  /** Every port of every bridge was made by the incarnation that made the bridge, so two VMs'
      taps are never on one bridge. */
  lemma PortsAreOwn(run: seq<State>, events: seq<Event>, i: nat, tap: IfName, bridge: IfName)
    requires IsRun(run, events) && i < |run|
    requires tap in run[i].ifs && bridge in run[i].ifs && run[i].ifs[bridge].Bridge?
    requires run[i].ifs[tap].Tap? && run[i].ifs[tap].master == Some(run[i].ifs[bridge].ix)
    ensures run[i].ifs[tap].owner == run[i].ifs[bridge].owner
    ensures tap.pid == bridge.pid && bridge.kind == Br
  {
    RunInv(run, events, i);
    assert IfOk(run[i], tap) && IfOk(run[i], bridge);
  }

  /** A running VM still has its bridge. */
  lemma RunningHasBridge(run: seq<State>, events: seq<Event>, i: nat, q: Serial)
    requires IsRun(run, events) && i < |run| && q in run[i].procs
    requires run[i].procs[q].prog.Main? && run[i].procs[q].prog.pc.Running?
    ensures q in run[i].pids && OwnsBridge(run[i], q)
  {
    RunInv(run, events, i);
    assert ProcOk(run[i], q);
  }

  // ---- cleanup is neither early nor blocked -----------------------------------------------

  /** Past poll, nothing of the incarnation is left but the listener and the ch-remote it waits
      for: start-vmm or the VMM it became, and all their descendants, are gone. */
  lemma CleanupNotEarly(run: seq<State>, events: seq<Event>, i: nat, l: Serial, r: Serial)
    requires IsRun(run, events) && i < |run|
    requires l in run[i].procs && PastPoll(run[i].procs[l].prog)
    requires r in run[i].procs && r != l && run[i].procs[r].vm == run[i].procs[l].vm && !run[i].procs[r].prog.Orphan?
    ensures Awaited(run[i].procs[l].prog) == Some(r) && Helper(run[i].procs[r].prog)
  {
    RunInv(run, events, i);
    assert ProcOk(run[i], l);
    assert PairOk(run[i], l, r);
  }

  /** In poll, the listener can go on exactly when it is the last of its incarnation: it does not
      hold the read end itself, and nobody outside the incarnation does. */
  lemma CleanupNotBlocked(run: seq<State>, events: seq<Event>, i: nat, l: Serial)
    requires IsRun(run, events) && i < |run|
    requires l in run[i].procs && run[i].procs[l].prog == Listener(Poll)
    ensures Enabled(run[i], Call(l, true)) <==>
            forall r :: r in run[i].procs && r != l && !run[i].procs[r].prog.Orphan? ==>
                          run[i].procs[r].vm != run[i].procs[l].vm
  {
    var s := run[i];
    var vm := s.procs[l].vm;
    RunInv(run, events, i);
    forall r | r in s.procs
      ensures PipeRead(vm) in s.procs[r].fds <==> r != l && s.procs[r].vm == vm && !s.procs[r].prog.Orphan?
    {
      ReadersArePeers(s, l, r);
    }
    assert ProcOk(s, l);
    assert Enabled(s, Call(l, true)) <==> PollErr(s, vm);
    if PipeHasReader(s, vm) {
      var r :| r in s.procs && PipeRead(vm) in s.procs[r].fds;
      assert r != l && s.procs[r].vm == vm;
    } else {
      forall r | r in s.procs && r != l && !s.procs[r].prog.Orphan? ensures s.procs[r].vm != vm {
        assert PipeRead(vm) !in s.procs[r].fds;
      }
    }
  }

  /** The read end is held by every process of the incarnation but the polling listener. */
  lemma ReadersArePeers(s: State, l: Serial, r: Serial)
    requires Inv(s) && l in s.procs && s.procs[l].prog == Listener(Poll) && r in s.procs
    ensures PipeRead(s.procs[l].vm) in s.procs[r].fds <==>
            r != l && s.procs[r].vm == s.procs[l].vm && !s.procs[r].prog.Orphan?
  {
    var fd := PipeRead(s.procs[l].vm);
    assert ProcOk(s, l) && ProcOk(s, r) && PairOk(s, l, r);
    assert fd in s.procs[r].fds ==> MayHold(s, s.procs[r], fd);
  }

  // ---- rollback and complete cleanup ------------------------------------------------------

  /** A killed ch-remote left a VMM the request to take q's router tap. */
  ghost predicate Offered(s: State, q: Serial) {
    exists r :: r in s.procs && s.procs[r].vm == q && s.procs[r].prog.Orphan? && s.procs[r].prog.req.Add?
  }

  /** net_setup failed and bridge_delete succeeded: no descriptor is left, and no interface or
      device, except the router tap and its device if a VMM ever took it, or has yet to. */
  lemma RollbackComplete(run: seq<State>, events: seq<Event>, i: nat, q: Serial)
    requires IsRun(run, events) && i < |run|
    requires q in run[i].procs && run[i].procs[q].prog.Main? && run[i].procs[q].prog.pc == Failed(true)
    ensures run[i].procs[q].fds == {}
    ensures forall n :: n in run[i].ifs && run[i].ifs[n].owner == q ==>
              run[i].ifs[n].Tap? && n.kind == Router && (q in run[i].plugged || Offered(run[i], q))
    ensures forall d :: d in run[i].devices && d.owner == q ==>
              q in run[i].pids && d.id == Name(Router, run[i].pids[q]) && q in run[i].plugged
  {
    var s := run[i];
    RunInv(run, events, i);
    assert ProcOk(s, q);
    forall n | n in s.ifs && s.ifs[n].owner == q
      ensures s.ifs[n].Tap? && n.kind == Router && (q in s.plugged || Offered(s, q))
    {
      assert IfOk(s, n);
      var r :| r in s.procs && TapFd(s.ifs[n].ix) in s.procs[r].fds;
      assert ProcOk(s, r) && PairOk(s, q, r) && OrphanOk(s, r);
      assert MayHold(s, s.procs[r], TapFd(s.ifs[n].ix));
    }
    forall d | d in s.devices && d.owner == q ensures d.id == Name(Router, s.pids[q]) && q in s.plugged {
      assert DeviceOk(s, d);
    }
  }

  /** After a listener that deleted the bridge has exited, the only thing its incarnation can have
      left behind is a router tap that some VMM took and does not close: renamed, unless the device
      could not be removed or the rename failed. */
  lemma CleanupComplete(run: seq<State>, events: seq<Event>, i: nat, l: Serial, freed: bool, killed: bool)
    requires IsRun(run, events) && i < |events| && events[i] == Die(l, killed)
    requires run[i].procs[l].prog == Listener(Exiting(freed, true))
    ensures var vm := run[i].procs[l].vm; var t := run[i + 1];
            && (forall n :: n in t.ifs && t.ifs[n].owner == vm ==>
                  (n.kind == Dead || (n.kind == Router && !freed)) && vm in run[i].plugged)
            && (forall r :: r in t.procs && !t.procs[r].prog.Orphan? ==> t.procs[r].vm != vm)
  {
    var s := run[i];
    var t := run[i + 1];
    var vm := s.procs[l].vm;
    RunInv(run, events, i);
    RunInv(run, events, i + 1);
    assert ProcOk(s, l);
    forall r | r in t.procs && t.procs[r].vm == vm ensures Removing(t.procs[r].prog) {
      assert PairOk(s, l, r) && StrayOk(s, l, r);
    }
    forall n | n in t.ifs && t.ifs[n].owner == vm
      ensures (n.kind == Dead || (n.kind == Router && !freed)) && vm in s.plugged
    {
      assert IfOk(s, n) && IfOk(t, n);
      var r :| r in t.procs && TapFd(t.ifs[n].ix) in t.procs[r].fds;
      assert ProcOk(t, r) && OrphanOk(t, r);
      assert MayHold(t, t.procs[r], TapFd(t.ifs[n].ix));
    }
  }

  /** A listener that renamed the tap frees both names when it deletes the bridge: the next
      process with this pid gets past bridge_add. */
  lemma NamesFreed(run: seq<State>, events: seq<Event>, i: nat, l: Serial)
    requires IsRun(run, events) && i < |events| && events[i] == Call(l, true)
    requires l in run[i].procs && run[i].procs[l].prog == Listener(BridgeDelete(true))
    ensures var vm := run[i].procs[l].vm;
            && vm in run[i].pids
            && Name(Br, run[i].pids[vm]) !in run[i + 1].ifs
            && Name(Router, run[i].pids[vm]) !in run[i + 1].ifs
  {
    RunInv(run, events, i);
    assert ProcOk(run[i], l);
  }
}
