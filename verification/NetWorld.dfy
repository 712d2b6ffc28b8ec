/** Any number of start-vmm processes, their exit listeners, their ch-remote helpers and the
    VMMs they become, interleaved call by call. Every call may fail and every process may be
    killed between any two calls. */
module NetWorld {
  import opened IfNames
  import opened NetKernel
  import opened Options

  /** Open descriptions a process can hold. The exit pipe of an incarnation is named after it:
      vm_config calls net_setup at most once per process. */
  datatype Fd = TapFd(ix: Ix) | PipeRead(vm: Serial) | PipeWrite(vm: Serial)

  datatype Role = ClientTap | RouterTap

  /** Where start-vmm is; each constructor is the call it makes next. */
  datatype MainPc =
    | AddBridge
    | BridgeUp
    | OpenTap(role: Role)
    | TapIndex(role: Role, fd: Ix)
    | JoinBridge(role: Role, fd: Ix, ix: Ix)
    | TapUp(role: Role, fd: Ix)
    | CloseTap(fd: Ix)                      // setup_tap's fail label
    | SpawnAddNet(fd: Ix)
    | WaitAddNet(fd: Ix, helper: Serial)
    | CloseRouter(fd: Ix, added: bool)
    | MakePipe
    | ForkListener
    | CloseWrite
    | Running                               // net_setup succeeded; later exec'd as the VMM
    | FailDown                              // net_setup's fail_bridge label
    | FailDelete
    | FailClose(deleted: bool)
    | Failed(deleted: bool)

  datatype ListenerPc =
    | CloseRead
    | Poll
    | SpawnRemove
    | WaitRemove(helper: Serial)
    | RouterIndex
    | LeaveBridge(ix: Ix)
    | RouterDown
    | RenameRouter
    | BridgeDown(freed: bool)
    | BridgeDelete(freed: bool)
    | Exiting(freed: bool, deleted: bool)

  datatype Prog =
    | Main(pc: MainPc, client: Option<Ix>)  // client is r.fd
    | Listener(lpc: ListenerPc)
    | AddNetHelper(fd: Ix)                  // ch-remote add-net, run by start-vmm
    | RemoveHelper                          // ch-remote remove-device, run by the listener
    | Finished(ok: bool)                    // ch-remote with its exit status decided
    | Bare                                  // a VM without a network provider: the VMM alone
    | Orphan(vmm: Serial, req: Request)     // no process: what a killed ch-remote asked of a VMM
    | Descendant(net: bool)                 // double_fork's two children and the ch-remotes they run

  datatype Request = Add(fd: Ix) | Remove | Served

  datatype Proc = Proc(vm: Serial, prog: Prog, fds: set<Fd>)

  datatype Device = Device(vmm: Serial, id: IfName, owner: Serial, ix: Ix)

  datatype Maker = Maker(vm: Serial, kind: Kind)

  datatype State = State(
    ifs: Ifs<IfName>,
    procs: map<Serial, Proc>,
    devices: set<Device>,
    pids: map<Serial, Pid>,       // pid of every incarnation of start-vmm so far, dead ones too
    status: map<Serial, bool>,    // exit status of finished ch-remote processes
    plugged: set<Serial>,         // incarnations whose router tap some VMM has ever taken
    made: map<Ix, Maker>,         // who made each index so far, and as what
    nextIx: Ix,
    nextSerial: Serial)

  const INIT := State(map[], map[], {}, map[], map[], {}, map[], 0, 0)

  datatype Event =
    | Start(pid: Pid, net: bool)            // s6 runs start-vmm, for a VM with or without a network
    | Call(actor: Serial, ok: bool)         // the actor makes its next call
    | ApiDone(helper: Serial, vmm: Serial, effect: bool, reported: bool)
    | Abandon(helper: Serial, vmm: Serial)  // a ch-remote is killed when the VMM has its request
    | Late(orphan: Serial)                  // and the VMM acts on it
    | Fork(actor: Serial)                   // a VMM's or descendant's further child
    | DropTap(vmm: Serial, ix: Ix)          // a VMM closes a tap that backs no device
    | Die(actor: Serial, killed: bool)      // exit or kill

  function KindFor(r: Role): Kind {
    if r == ClientTap then Client else Router
  }

  function HeldTaps(procs: map<Serial, Proc>): set<Ix> {
    set q, fd | q in procs && fd in procs[q].fds && fd.TapFd? :: fd.ix
  }

  predicate PipeHasReader(s: State, vm: Serial) {
    exists q :: q in s.procs && PipeRead(vm) in s.procs[q].fds
  }

  /** poll on the write end reports POLLERR exactly when no read end is open. */
  predicate PollErr(s: State, vm: Serial) {
    !PipeHasReader(s, vm)
  }

  function Put(s: State, q: Serial, proc: Proc): State {
    s.(procs := s.procs[q := proc])
  }

  function Goto(s: State, q: Serial, prog: Prog): State
    requires q in s.procs
  {
    Put(s, q, s.procs[q].(prog := prog))
  }

  /** After descriptors were closed, taps without any left disappear. */
  function Reaped(s: State): State {
    s.(ifs := Reap(s.ifs, HeldTaps(s.procs)))
  }

  function Close(s: State, q: Serial, fds: set<Fd>, prog: Prog): State
    requires q in s.procs
  {
    Reaped(Put(s, q, s.procs[q].(prog := prog, fds := s.procs[q].fds - fds)))
  }

  /** fork: the child gets a copy of every descriptor (none is close-on-exec). */
  function ForkChild(s: State, q: Serial, prog: Prog, child: Prog): State
    requires q in s.procs
  {
    var parent := s.procs[q];
    s.(procs := s.procs[q := parent.(prog := prog)][s.nextSerial := parent.(prog := child)],
       nextSerial := s.nextSerial + 1)
  }

  // ---- start-vmm: net_setup ---------------------------------------------------------------

  predicate MainCan(s: State, q: Serial, pc: MainPc)
    requires q in s.pids
  {
    var p := s.pids[q];
    match pc
    case AddBridge => Name(Br, p) !in s.ifs
    case BridgeUp | FailDown => Name(Br, p) in s.ifs
    case OpenTap(role) => Name(KindFor(role), p) !in s.ifs        // IFF_TUN_EXCL
    case TapIndex(role, _) => Name(KindFor(role), p) in s.ifs
    case JoinBridge(_, _, ix) => IsBridge(s.ifs, Name(Br, p)) && HasTap(s.ifs, ix)
    case TapUp(role, _) => Name(KindFor(role), p) in s.ifs
    case WaitAddNet(_, h) => h !in s.procs && h in s.status && s.status[h]
    case FailDelete => CanDeleteBridge(s.ifs, Name(Br, p))
    case _ => true
  }

  /** Calls that cannot fail (close), have not returned (wait), or are not calls at all. */
  predicate MainCannotFail(s: State, pc: MainPc) {
    match pc
    case CloseTap(_) | CloseRouter(_, _) | CloseWrite | FailClose(_) | Running | Failed(_) => true
    case WaitAddNet(_, h) => h in s.procs || (h in s.status && s.status[h])
    case _ => false
  }

  function MainOk(s: State, q: Serial, pc: MainPc, client: Option<Ix>): State
    requires q in s.procs && q in s.pids && MainCan(s, q, pc)
  {
    var p := s.pids[q];
    var m := s.procs[q];
    match pc
    case AddBridge =>
      Goto(s, q, Main(BridgeUp, client))
      .(ifs := s.ifs[Name(Br, p) := Bridge(s.nextIx, false, q)],
        made := s.made[s.nextIx := Maker(q, Br)], nextIx := s.nextIx + 1)
    case BridgeUp =>
      Goto(s, q, Main(OpenTap(ClientTap), client)).(ifs := SetUp(s.ifs, Name(Br, p), true))
    case OpenTap(role) =>
      Put(s, q, m.(prog := Main(TapIndex(role, s.nextIx), client), fds := m.fds + {TapFd(s.nextIx)}))
      .(ifs := s.ifs[Name(KindFor(role), p) := Tap(s.nextIx, false, q, None)],
        made := s.made[s.nextIx := Maker(q, KindFor(role))], nextIx := s.nextIx + 1)
    case TapIndex(role, fd) =>
      Goto(s, q, Main(JoinBridge(role, fd, s.ifs[Name(KindFor(role), p)].ix), client))
    case JoinBridge(role, fd, ix) =>
      Goto(s, q, Main(TapUp(role, fd), client))
      .(ifs := SetMaster(s.ifs, ix, Some(s.ifs[Name(Br, p)].ix)))
    case TapUp(role, fd) =>
      (if role == ClientTap
       then Goto(s, q, Main(OpenTap(RouterTap), Some(fd)))
       else Goto(s, q, Main(SpawnAddNet(fd), client)))
      .(ifs := SetUp(s.ifs, Name(KindFor(role), p), true))
    case CloseTap(fd) => Close(s, q, {TapFd(fd)}, Main(FailDown, client))
    case SpawnAddNet(fd) =>
      ForkChild(s, q, Main(WaitAddNet(fd, s.nextSerial), client), AddNetHelper(fd))
    case WaitAddNet(fd, _) => Goto(s, q, Main(CloseRouter(fd, true), client))
    case CloseRouter(fd, added) =>
      Close(s, q, {TapFd(fd)}, Main(if added then MakePipe else FailDown, client))
    case MakePipe =>
      Put(s, q, m.(prog := Main(ForkListener, client), fds := m.fds + {PipeRead(q), PipeWrite(q)}))
    case ForkListener => ForkChild(s, q, Main(CloseWrite, client), Listener(CloseRead))
    case CloseWrite => Close(s, q, {PipeWrite(q)}, Main(Running, client))
    case FailDown => Goto(s, q, Main(FailDelete, client)).(ifs := SetUp(s.ifs, Name(Br, p), false))
    case FailDelete =>
      Goto(s, q, Main(FailClose(true), client)).(ifs := DeleteBridge(s.ifs, Name(Br, p)))
    case FailClose(deleted) =>
      Close(s, q, if client.Some? then {TapFd(client.value)} else {}, Main(Failed(deleted), client))
    case Running | Failed(_) => s
  }

  function MainErr(s: State, q: Serial, pc: MainPc, client: Option<Ix>): State
    requires q in s.procs
  {
    match pc
    case AddBridge => Goto(s, q, Main(Failed(false), client))
    case TapIndex(_, fd) => Goto(s, q, Main(CloseTap(fd), client))
    case JoinBridge(_, fd, _) => Goto(s, q, Main(CloseTap(fd), client))
    case TapUp(_, fd) => Goto(s, q, Main(CloseTap(fd), client))
    case SpawnAddNet(fd) => Goto(s, q, Main(CloseRouter(fd, false), client))
    case WaitAddNet(fd, _) => Goto(s, q, Main(CloseRouter(fd, false), client))
    case ForkListener => Close(s, q, {PipeRead(q), PipeWrite(q)}, Main(FailDown, client))
    case FailDown => Goto(s, q, Main(FailDelete, client))
    case FailDelete => Goto(s, q, Main(FailClose(false), client))
    case _ => Goto(s, q, Main(FailDown, client))
  }

  // ---- the exit listener ------------------------------------------------------------------

  predicate ListenerCan(s: State, vm: Serial, pc: ListenerPc)
    requires vm in s.pids
  {
    var p := s.pids[vm];
    match pc
    case Poll => PollErr(s, vm)
    case WaitRemove(h) => h !in s.procs && h in s.status && s.status[h]
    case RouterIndex | RouterDown => Name(Router, p) in s.ifs
    case LeaveBridge(ix) => IsBridge(s.ifs, Name(Br, p)) && HasTap(s.ifs, ix)
    case RenameRouter => Name(Router, p) in s.ifs && Name(Dead, p) !in s.ifs
    case BridgeDown(_) => Name(Br, p) in s.ifs
    case BridgeDelete(_) => CanDeleteBridge(s.ifs, Name(Br, p))
    case _ => true
  }

  /** A failing poll is either retried or ends the process, which is Die. */
  predicate ListenerCannotFail(s: State, pc: ListenerPc) {
    match pc
    case CloseRead | Poll | Exiting(_, _) => true
    case WaitRemove(h) => h in s.procs || (h in s.status && s.status[h])
    case _ => false
  }

  function ListenerOk(s: State, q: Serial, pc: ListenerPc): State
    requires q in s.procs && s.procs[q].vm in s.pids && ListenerCan(s, s.procs[q].vm, pc)
  {
    var vm := s.procs[q].vm;
    var p := s.pids[vm];
    match pc
    case CloseRead => Close(s, q, {PipeRead(vm)}, Listener(Poll))
    case Poll => Goto(s, q, Listener(SpawnRemove))
    case SpawnRemove => ForkChild(s, q, Listener(WaitRemove(s.nextSerial)), RemoveHelper)
    case WaitRemove(_) => Goto(s, q, Listener(RouterIndex))
    case RouterIndex => Goto(s, q, Listener(LeaveBridge(s.ifs[Name(Router, p)].ix)))
    case LeaveBridge(ix) => Goto(s, q, Listener(RouterDown)).(ifs := SetMaster(s.ifs, ix, None))
    case RouterDown =>
      Goto(s, q, Listener(RenameRouter)).(ifs := SetUp(s.ifs, Name(Router, p), false))
    case RenameRouter =>
      Goto(s, q, Listener(BridgeDown(true))).(ifs := Rename(s.ifs, Name(Router, p), Name(Dead, p)))
    case BridgeDown(freed) =>
      Goto(s, q, Listener(BridgeDelete(freed))).(ifs := SetUp(s.ifs, Name(Br, p), false))
    case BridgeDelete(freed) =>
      Goto(s, q, Listener(Exiting(freed, true))).(ifs := DeleteBridge(s.ifs, Name(Br, p)))
    case Exiting(_, _) => s
  }

  function ListenerErr(s: State, q: Serial, pc: ListenerPc): State
    requires q in s.procs
  {
    match pc
    case RouterIndex | LeaveBridge(_) => Goto(s, q, Listener(RouterDown))  // only a warning
    case BridgeDown(freed) => Goto(s, q, Listener(BridgeDelete(freed)))
    case BridgeDelete(freed) => Goto(s, q, Listener(Exiting(freed, false)))
    case _ => Goto(s, q, Listener(BridgeDown(false)))
  }

  // ---- ch-remote --------------------------------------------------------------------------

  predicate RunsVmm(prog: Prog) {
    prog.Bare? || (prog.Main? && prog.pc.Running?)
  }

  predicate IsVmm(s: State, v: Serial) {
    v in s.procs && RunsVmm(s.procs[v].prog)
  }

  function RouterId(s: State, vm: Serial): IfName
    requires vm in s.pids
  {
    Name(Router, s.pids[vm])
  }

  /** A VMM serves requests in the order in which they came. */
  predicate QueuedAt(prog: Prog, v: Serial) {
    prog.Orphan? && prog.vmm == v && !prog.req.Served?
  }

  /** What the VMM did: it may act and the helper still report failure, never the reverse. */
  predicate ApiCan(s: State, e: Event)
    requires e.ApiDone?
  {
    && e.helper in s.procs
    && s.procs[e.helper].vm in s.pids
    && (e.reported ==> e.effect)
    && (e.effect ==> forall q :: q in s.procs ==> !QueuedAt(s.procs[q].prog, e.vmm))
    && var id := RouterId(s, s.procs[e.helper].vm);
      match s.procs[e.helper].prog
      case AddNetHelper(_) =>
        e.effect ==> IsVmm(s, e.vmm) && !exists d :: d in s.devices && d.vmm == e.vmm && d.id == id
      case RemoveHelper =>
        e.effect ==> exists d :: d in s.devices && d.vmm == e.vmm && d.id == id
      case _ => false
  }

  function ApiEffect(s: State, e: Event): State
    requires e.ApiDone? && ApiCan(s, e) && e.effect
  {
    var vm := s.procs[e.helper].vm;
    match s.procs[e.helper].prog
    case AddNetHelper(fd) =>
      var v := s.procs[e.vmm];
      Put(s, e.vmm, v.(fds := v.fds + {TapFd(fd)}))
      .(devices := s.devices + {Device(e.vmm, RouterId(s, vm), vm, fd)}, plugged := s.plugged + {vm})
    case _ =>
      s.(devices := set d | d in s.devices && !(d.vmm == e.vmm && d.id == RouterId(s, vm)))
  }

  function ApiReply(s: State, e: Event): State
    requires e.ApiDone? && ApiCan(s, e)
  {
    var u := if e.effect then ApiEffect(s, e) else s;
    Put(u, e.helper, s.procs[e.helper].(prog := Finished(e.reported)))
  }

  predicate Sends(prog: Prog) {
    prog.AddNetHelper? || prog.RemoveHelper?
  }

  /** What is left of a request: for add-net, with the tap that was sent along. */
  function Left(helper: Proc, v: Serial): Proc
    requires Sends(helper.prog)
  {
    match helper.prog
    case AddNetHelper(fd) => Proc(helper.vm, Orphan(v, Add(fd)), {TapFd(fd)})
    case _ => Proc(helper.vm, Orphan(v, Remove), {})
  }

  function Posted(s: State, orphan: Proc): State {
    s.(procs := s.procs[s.nextSerial := orphan], nextSerial := s.nextSerial + 1)
  }

  predicate LateCan(s: State, o: Serial) {
    && o in s.procs && s.procs[o].vm in s.pids && s.procs[o].prog.Orphan?
    && var v, req := s.procs[o].prog.vmm, s.procs[o].prog.req;
      && !req.Served? && IsVmm(s, v)
      && (forall q :: q in s.procs && QueuedAt(s.procs[q].prog, v) ==> o <= q)
      && (req.Add? ==> !exists d :: d in s.devices && d.vmm == v && d.id == RouterId(s, s.procs[o].vm))
  }

  function LateEffect(s: State, o: Serial): State
    requires LateCan(s, o)
  {
    var vm, v := s.procs[o].vm, s.procs[o].prog.vmm;
    match s.procs[o].prog.req
    case Add(fd) =>
      Put(Put(s, v, s.procs[v].(fds := s.procs[v].fds + {TapFd(fd)})), o, s.procs[o].(prog := Orphan(v, Served)))
      .(devices := s.devices + {Device(v, RouterId(s, vm), vm, fd)}, plugged := s.plugged + {vm})
    case _ =>
      s.(devices := set d | d in s.devices && !(d.vmm == v && d.id == RouterId(s, vm)))
  }

  function Gone(s: State, q: Serial, killed: bool): State
    requires q in s.procs
  {
    Reaped(s.(procs := s.procs - {q},
              status := s.status[q := s.procs[q].prog == Finished(true) && !killed],
              devices := set d | d in s.devices && d.vmm != q))
  }

  /** vm_config calls net_setup exactly for a VM with a network provider. */
  function Started(s: State, pid: Pid, net: bool): State {
    s.(procs := s.procs[s.nextSerial := Proc(s.nextSerial, if net then Main(AddBridge, None) else Bare, {})],
       pids := s.pids[s.nextSerial := pid],
       nextSerial := s.nextSerial + 1)
  }

  predicate HasNet(prog: Prog) {
    prog.Main? || (prog.Descendant? && prog.net)
  }

  // ---- the whole machine ------------------------------------------------------------------

  predicate Enabled(s: State, e: Event) {
    match e
    case Start(_, _) => true
    case Call(q, ok) =>
      && q in s.procs
      && s.procs[q].vm in s.pids
      && (match s.procs[q].prog
          case Main(pc, _) => q in s.pids && if ok then MainCan(s, q, pc) else !MainCannotFail(s, pc)
          case Listener(pc) => if ok then ListenerCan(s, s.procs[q].vm, pc) else !ListenerCannotFail(s, pc)
          case _ => false)
    case ApiDone(_, _, _, _) => ApiCan(s, e)
    case Abandon(h, v) => h in s.procs && s.procs[h].vm in s.pids && Sends(s.procs[h].prog) && IsVmm(s, v)
    case Late(o) => LateCan(s, o)
    case Fork(q) => IsVmm(s, q) || (q in s.procs && s.procs[q].prog.Descendant?)
    case DropTap(v, ix) => IsVmm(s, v) && !exists d :: d in s.devices && d.vmm == v && d.ix == ix
    case Die(q, _) => q in s.procs
  }

  function Apply(s: State, e: Event): State
    requires Enabled(s, e)
  {
    match e
    case Start(pid, net) => Started(s, pid, net)
    case Call(q, ok) =>
      (match s.procs[q].prog
       case Main(pc, client) => if ok then MainOk(s, q, pc, client) else MainErr(s, q, pc, client)
       case Listener(pc) => if ok then ListenerOk(s, q, pc) else ListenerErr(s, q, pc)
       case _ => s)
    case ApiDone(_, _, _, _) => ApiReply(s, e)
    case Abandon(h, v) =>
      Gone(Posted(Goto(s, h, Finished(false)), Left(s.procs[h], v)), h, true)
    case Late(o) => Gone(LateEffect(s, o), o, true)
    case Fork(q) => ForkChild(s, q, s.procs[q].prog, Descendant(HasNet(s.procs[q].prog)))
    case DropTap(v, ix) => Close(s, v, {TapFd(ix)}, s.procs[v].prog)
    case Die(q, killed) => Gone(s, q, killed)
  }

  /** The states a run passes through, for every interleaving. */
  predicate IsRun(run: seq<State>, events: seq<Event>) {
    && |run| == |events| + 1
    && run[0] == INIT
    && forall i :: 0 <= i < |events| ==> Enabled(run[i], events[i]) && run[i + 1] == Apply(run[i], events[i])
  }
}
