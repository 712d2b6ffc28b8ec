/** What every reachable state of the machine in NetWorld satisfies, stated process by process,
    interface by interface and device by device. */
module NetInvariant {
  import opened IfNames
  import opened NetKernel
  import opened NetWorld
  import opened Options

  // ---- classes of program points ----------------------------------------------------------

  /** Can still issue an operation that names br<pid>, router<pid> or the device. */
  ghost predicate Namer(prog: Prog) {
    match prog
    case Main(pc, _) => !(pc.AddBridge? || pc.CloseWrite? || pc.Running? || pc.FailClose? || pc.Failed?)
    case Listener(pc) => !pc.Exiting?
    case AddNetHelper(_) | RemoveHelper => true
    case _ => false
  }

  /** Also a VM that runs needs its bridge, though it no longer names it. */
  ghost predicate NeedsBridge(prog: Prog) {
    Namer(prog) || (prog.Main? && (prog.pc.CloseWrite? || prog.pc.Running?))
  }

  /** start-vmm before its listener exists. */
  ghost predicate PreListener(prog: Prog) {
    prog.Main? && !prog.pc.CloseWrite? && !prog.pc.Running?
  }

  /** The ch-remote child whose exit is awaited. */
  ghost function Awaited(prog: Prog): Option<Serial> {
    match prog
    case Main(WaitAddNet(_, h), _) => Some(h)
    case Listener(WaitRemove(h)) => Some(h)
    case _ => None
  }

  ghost predicate Helper(prog: Prog) {
    prog.AddNetHelper? || prog.RemoveHelper? || prog.Finished?
  }

  ghost predicate HelperOf(prog: Prog, helper: Prog) {
    helper.Finished? || (if prog.Main? then helper.AddNetHelper? else helper.RemoveHelper?)
  }

  ghost predicate PastPoll(prog: Prog) {
    prog.Listener? && !prog.lpc.CloseRead? && !prog.lpc.Poll?
  }

  /** Holds the read end of its incarnation's exit pipe. */
  ghost predicate Reader(prog: Prog) {
    match prog
    case Main(pc, _) => pc.ForkListener? || pc.CloseWrite? || pc.Running?
    case Listener(pc) => pc.CloseRead?
    case Descendant(net) => net
    case _ => false
  }

  /** From the creation of router<pid> on, nothing else has that name. */
  ghost predicate RouterKnown(prog: Prog) {
    match prog
    case Main(pc, _) =>
      || pc.SpawnAddNet? || pc.WaitAddNet? || (pc.CloseRouter? && pc.added) || pc.MakePipe? || pc.ForkListener?
    case Listener(pc) => !pc.Exiting?
    case AddNetHelper(_) | RemoveHelper => true
    case _ => false
  }

  /** Points at which no VMM has a device made from this incarnation's router tap. */
  ghost predicate NoDeviceAt(prog: Prog) {
    match prog
    case Main(pc, _) =>
      || pc.AddBridge? || pc.BridgeUp? || pc.OpenTap? || pc.TapIndex? || pc.JoinBridge? || pc.TapUp?
      || pc.SpawnAddNet?
    case Listener(pc) => pc.RouterIndex? || pc.LeaveBridge? || pc.RouterDown? || pc.RenameRouter?
    case AddNetHelper(_) => true
    case _ => false
  }

  /** ... including from the moment ch-remote knows that the VMM removed it. */
  ghost predicate NoDeviceNow(s: State, prog: Prog) {
    || NoDeviceAt(prog)
    || (prog.Listener? && prog.lpc.WaitRemove? &&
        var h := prog.lpc.helper;
        if h in s.procs then s.procs[h].prog == Finished(true) else h in s.status && s.status[h])
  }

  ghost predicate NoBridgeAt(prog: Prog) {
    match prog
    case Main(pc, _) => pc.AddBridge? || pc == FailClose(true) || pc == Failed(true)
    case Listener(pc) => pc.Exiting? && pc.deleted
    case _ => false
  }

  ghost predicate FreedAt(prog: Prog) {
    prog.Listener? && (prog.lpc == BridgeDown(true) || prog.lpc == BridgeDelete(true))
  }

  ghost predicate RenamedAt(prog: Prog) {
    prog.Listener? && prog.lpc.Exiting? && prog.lpc.freed
  }

  /** The tap being set up, beside the client's. */
  ghost function NewTap(pc: MainPc): Option<Ix> {
    match pc
    case TapIndex(_, fd) => Some(fd)
    case JoinBridge(_, fd, _) => Some(fd)
    case TapUp(_, fd) => Some(fd)
    case CloseTap(fd) => Some(fd)
    case SpawnAddNet(fd) => Some(fd)
    case WaitAddNet(fd, _) => Some(fd)
    case CloseRouter(fd, _) => Some(fd)
    case _ => None
  }

  /** The descriptors start-vmm holds at each point of net_setup. */
  ghost function SetupFds(q: Serial, pc: MainPc, client: Option<Ix>): set<Fd> {
    (if client.Some? && !pc.Failed? then {TapFd(client.value)} else {}) +
    (if NewTap(pc).Some? then {TapFd(NewTap(pc).value)} else {}) +
    (if pc.ForkListener? || pc.CloseWrite? then {PipeRead(q), PipeWrite(q)} else {})
  }

  /** r.fd is still -1. */
  ghost predicate ClientUnset(pc: MainPc) {
    || pc.AddBridge? || pc.BridgeUp? || (pc.OpenTap? && pc.role == ClientTap)
    || (pc.TapIndex? && pc.role == ClientTap) || (pc.JoinBridge? && pc.role == ClientTap)
    || (pc.TapUp? && pc.role == ClientTap)
  }

  // ---- the invariant ----------------------------------------------------------------------

  ghost predicate OwnsBridge(s: State, vm: Serial)
    requires vm in s.pids
  {
    var n := Name(Br, s.pids[vm]);
    n in s.ifs && s.ifs[n].Bridge? && s.ifs[n].owner == vm
  }

  ghost predicate OwnsRouterName(s: State, vm: Serial)
    requires vm in s.pids
  {
    var n := Name(Router, s.pids[vm]);
    n in s.ifs && s.ifs[n].owner == vm
  }

  ghost predicate OwnsDeadName(s: State, vm: Serial)
    requires vm in s.pids
  {
    var n := Name(Dead, s.pids[vm]);
    n in s.ifs && s.ifs[n].owner == vm
  }

  ghost predicate OwnsTap(s: State, vm: Serial, k: Kind, ix: Ix)
    requires vm in s.pids
  {
    var n := Name(k, s.pids[vm]);
    n in s.ifs && s.ifs[n].Tap? && s.ifs[n].owner == vm && s.ifs[n].ix == ix
  }

  ghost predicate TapsOk(s: State, proc: Proc)
    requires proc.vm in s.pids
  {
    match proc.prog
    case Main(TapIndex(role, fd), _) => OwnsTap(s, proc.vm, KindFor(role), fd)
    case Main(JoinBridge(role, fd, ix), _) => ix == fd && OwnsTap(s, proc.vm, KindFor(role), fd)
    case Main(TapUp(role, fd), _) => OwnsTap(s, proc.vm, KindFor(role), fd)
    case Main(SpawnAddNet(fd), _) => OwnsTap(s, proc.vm, Router, fd)
    case AddNetHelper(fd) => TapFd(fd) in proc.fds && OwnsTap(s, proc.vm, Router, fd)
    case Listener(LeaveBridge(ix)) => ix in s.made && s.made[ix] == Maker(proc.vm, Router)
    case _ => true
  }

  /** Another incarnation's tap is held only by VMMs and their children, and only if it is a
      router tap that was plugged in. */
  ghost predicate MayHold(s: State, proc: Proc, fd: Fd) {
    match fd
    case TapFd(ix) =>
      && ix in s.made
      && (s.made[ix].vm == proc.vm ||
          (&& (RunsVmm(proc.prog) || proc.prog.Descendant?)
           && s.made[ix].kind == Router && s.made[ix].vm in s.plugged))
    case PipeRead(vm) => vm == proc.vm && Reader(proc.prog)
    case PipeWrite(vm) => vm == proc.vm
  }

  ghost predicate ProcOk(s: State, q: Serial)
    requires q in s.procs
  {
    var proc := s.procs[q];
    var prog := proc.prog;
    && proc.vm in s.pids && (prog.Main? ==> proc.vm == q)
    && (Awaited(prog).Some? ==>
          var h := Awaited(prog).value;
          && h < s.nextSerial
          && (h in s.procs ==> s.procs[h].vm == proc.vm && HelperOf(prog, s.procs[h].prog)))
    && (prog.Main? && !prog.pc.Running? ==> proc.fds == SetupFds(q, prog.pc, prog.client))
    && (prog.Main? && ClientUnset(prog.pc) ==> prog.client == None)
    && (prog.Main? && NewTap(prog.pc).Some? ==> NewTap(prog.pc) != prog.client)
    && (forall fd :: fd in proc.fds ==> MayHold(s, proc, fd))
    && (Reader(prog) ==> PipeRead(proc.vm) in proc.fds)
    && (PastPoll(prog) ==> !PipeHasReader(s, proc.vm))
    && (NeedsBridge(prog) ==> OwnsBridge(s, proc.vm))
    && (NoBridgeAt(prog) ==> !OwnsBridge(s, proc.vm))
    && TapsOk(s, proc)
    && var router := Name(Router, s.pids[proc.vm]);
      && (RouterKnown(prog) && router in s.ifs ==> s.ifs[router].owner == proc.vm)
      && (FreedAt(prog) ==> router !in s.ifs)
      && (RenamedAt(prog) ==> !OwnsRouterName(s, proc.vm))
      && (PreListener(prog) ==> !OwnsDeadName(s, proc.vm))
      && (NoDeviceNow(s, prog) ==> forall d :: d in s.devices ==> d.owner != proc.vm)
  }

  /** Two processes of one incarnation. start-vmm is alone until its listener exists, and the
      listener is alone once it has left poll, except for a ch-remote that it waits for. While the
      listener is in poll, all others hold the read end. Of two that can name the bridge, one
      waits for the other. */
  ghost predicate PairOk(s: State, q: Serial, r: Serial)
    requires q in s.procs && r in s.procs
  {
    var p := s.procs[q].prog;
    var p' := s.procs[r].prog;
    q != r && s.procs[q].vm == s.procs[r].vm ==>
      && (!p'.Orphan? && (PreListener(p) || PastPoll(p)) ==> Awaited(p) == Some(r))
      && (!p'.Orphan? && p.Listener? && !PastPoll(p) ==> Reader(p') && !p'.Listener?)
      && (Namer(p) && Namer(p') ==> Awaited(p) == Some(r) || Awaited(p') == Some(q))
  }

  /** start-vmm once its add-net has failed, or is bound to, and that ch-remote itself. */
  ghost predicate AddFailed(s: State, prog: Prog) {
    match prog
    case Main(WaitAddNet(_, h), _) =>
      if h in s.procs then s.procs[h].prog == Finished(false) else !(h in s.status && s.status[h])
    case Main(pc, _) =>
      (pc.CloseRouter? && !pc.added) || pc.FailDown? || pc.FailDelete? || pc.FailClose? || pc.Failed?
    case Finished(ok) => !ok
    case _ => false
  }

  ghost predicate Removing(prog: Prog) {
    prog.Orphan? && prog.req.Remove?
  }

  ghost predicate Adding(prog: Prog) {
    prog.Orphan? && !prog.req.Remove?
  }

  ghost predicate RoutersOnly(s: State, fds: set<Fd>) {
    forall fd :: fd in fds ==> fd.TapFd? && fd.ix in s.made && s.made[fd.ix].kind == Router
  }

  /** A request without its ch-remote still speaks of its own incarnation only. One to add a device
      holds the router tap, of which no VMM has a device yet; one to remove a device can only find
      its own. */
  ghost predicate OrphanOk(s: State, q: Serial)
    requires q in s.procs && s.procs[q].vm in s.pids
  {
    var vm, prog := s.procs[q].vm, s.procs[q].prog;
    && (prog.Orphan? && prog.req.Add? ==>
          && s.procs[q].fds == {TapFd(prog.req.fd)} && OwnsTap(s, vm, Router, prog.req.fd)
          && forall d :: d in s.devices ==> d.owner != vm)
    && (prog.Orphan? && prog.req.Served? ==> vm in s.plugged && RoutersOnly(s, s.procs[q].fds))
    && (Removing(prog) ==>
          && s.procs[q].fds == {}
          && forall d :: d in s.devices && d.vmm == prog.vmm && d.id == RouterId(s, vm) ==> d.owner == vm)
  }

  /** Beside a request to add a device, its incarnation knows only failure, and a removal under the
      same name was sent before it. Beside a ch-remote that adds a device there is only who waits
      for it. */
  ghost predicate StrayOk(s: State, q: Serial, r: Serial)
    requires q in s.procs && r in s.procs && s.procs[q].vm in s.pids && s.procs[r].vm in s.pids
  {
    var p, o := s.procs[q], s.procs[r];
    q != r ==>
      && (Adding(o.prog) && p.vm == o.vm && !Removing(p.prog) ==> AddFailed(s, p.prog))
      && (o.prog.Orphan? && o.prog.req.Add? && Removing(p.prog) && s.pids[p.vm] == s.pids[o.vm] ==> q < r)
      && (o.prog.AddNetHelper? && p.vm == o.vm && !p.prog.Orphan? ==> Awaited(p.prog) == Some(r))
  }

  ghost predicate StraysOk(s: State) {
    && (forall q :: q in s.procs ==> s.procs[q].vm in s.pids)
    && (forall q {:trigger OrphanOk(s, q)} :: q in s.procs ==> OrphanOk(s, q))
    && (forall q, r {:trigger StrayOk(s, q, r)} :: q in s.procs && r in s.procs ==> StrayOk(s, q, r))
  }

  ghost predicate IfOk(s: State, n: IfName)
    requires n in s.ifs
  {
    var i := s.ifs[n];
    && i.owner in s.pids && n.pid == s.pids[i.owner]
    && i.ix in s.made && s.made[i.ix] == Maker(i.owner, if n.kind == Dead then Router else n.kind)
    && (i.Bridge? <==> n.kind == Br)
    && (i.Tap? ==> i.ix in HeldTaps(s.procs))
    && (i.Tap? && i.master.Some? ==>
          OwnsBridge(s, i.owner) && s.ifs[Name(Br, n.pid)].ix == i.master.value)
  }

  ghost predicate DeviceOk(s: State, d: Device) {
    && d.owner in s.pids
    && d.id == Name(Router, s.pids[d.owner])
    && OwnsTap(s, d.owner, Router, d.ix)
    && IsVmm(s, d.vmm) && TapFd(d.ix) in s.procs[d.vmm].fds
    && d.owner in s.plugged
  }

  /** Serials and indices are fresh, indices are unique, and an incarnation has one device. */
  ghost predicate Bounds(s: State) {
    && (forall q :: q in s.procs || q in s.pids || q in s.status ==> q < s.nextSerial)
    && (forall ix :: ix in s.made ==> ix < s.nextIx)
    && (forall m, n :: m in s.ifs && n in s.ifs && s.ifs[m].ix == s.ifs[n].ix ==> m == n)
    && (forall d, e :: d in s.devices && e in s.devices && d.owner == e.owner ==> d == e)
  }

  ghost predicate PairsOk(s: State) {
    forall q, r {:trigger PairOk(s, q, r)} :: q in s.procs && r in s.procs ==> PairOk(s, q, r)
  }

  ghost predicate IfsOk(s: State) {
    forall n {:trigger IfOk(s, n)} :: n in s.ifs ==> IfOk(s, n)
  }

  ghost predicate DevicesOk(s: State) {
    forall d {:trigger DeviceOk(s, d)} :: d in s.devices ==> DeviceOk(s, d)
  }

  /** What concerns processes, interfaces and devices. */
  ghost predicate Core(s: State) {
    && Bounds(s)
    && (forall q {:trigger ProcOk(s, q)} :: q in s.procs ==> ProcOk(s, q))
    && PairsOk(s) && IfsOk(s) && DevicesOk(s)
  }

  ghost predicate Inv(s: State) {
    Core(s) && StraysOk(s)
  }

  lemma InitInv()
    ensures Inv(INIT)
  {
  }
}
