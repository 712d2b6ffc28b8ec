/** The calls that each process makes, in the order in which host/start-vmm/net.c has them, whatever
    the other processes do in between. */
module NetTraces {
  import opened NetKernel
  import opened NetWorld
  import opened NetInvariant
  import opened NetSteps
  import opened Options

  datatype Step =
    | BridgeAdd | BridgeIfUp | RollbackDown | RollbackDelete | CleanupDown | CleanupDelete
    | TapOpen(role: Role) | TapToIndex(role: Role) | TapJoin(role: Role) | TapIfUp(role: Role)
    | TapClose | RouterClose | ClientClose
    | AddNet | AddNetWait
    | PipeMake | ListenerFork | WriteClose
    | ReadClose | PollReturns | RemoveDevice | RemoveWait
    | RouterToIndex | RouterLeave | RouterIfDown | RouterRename

  /** A call and whether it succeeded. */
  datatype Did = Did(step: Step, ok: bool)

  /** The call that is made next, if any is. */
  function StepOf(prog: Prog): Option<Step> {
    match prog
    case Main(pc, _) =>
      (match pc
       case AddBridge => Some(BridgeAdd)
       case BridgeUp => Some(BridgeIfUp)
       case OpenTap(role) => Some(TapOpen(role))
       case TapIndex(role, _) => Some(TapToIndex(role))
       case JoinBridge(role, _, _) => Some(TapJoin(role))
       case TapUp(role, _) => Some(TapIfUp(role))
       case CloseTap(_) => Some(TapClose)
       case SpawnAddNet(_) => Some(AddNet)
       case WaitAddNet(_, _) => Some(AddNetWait)
       case CloseRouter(_, _) => Some(RouterClose)
       case MakePipe => Some(PipeMake)
       case ForkListener => Some(ListenerFork)
       case CloseWrite => Some(WriteClose)
       case FailDown => Some(RollbackDown)
       case FailDelete => Some(RollbackDelete)
       case FailClose(_) => Some(ClientClose)
       case Running | Failed(_) => None)
    case Listener(pc) =>
      (match pc
       case CloseRead => Some(ReadClose)
       case Poll => Some(PollReturns)
       case SpawnRemove => Some(RemoveDevice)
       case WaitRemove(_) => Some(RemoveWait)
       case RouterIndex => Some(RouterToIndex)
       case LeaveBridge(_) => Some(RouterLeave)
       case RouterDown => Some(RouterIfDown)
       case RenameRouter => Some(RouterRename)
       case BridgeDown(_) => Some(CleanupDown)
       case BridgeDelete(_) => Some(CleanupDelete)
       case Exiting(_, _) => None)
    case _ => None
  }

  function Steps(prog: Prog, ok: bool): seq<Did> {
    if StepOf(prog).Some? then [Did(StepOf(prog).value, ok)] else []
  }

  /** The calls of q before the i-th state of a run. */
  ghost function History(run: seq<State>, events: seq<Event>, q: Serial, i: nat): seq<Did>
    requires IsRun(run, events) && i < |run|
  {
    if i == 0 then []
    else
      var before := History(run, events, q, i - 1);
      match events[i - 1]
      case Call(r, ok) => if r == q then before + Steps(run[i - 1].procs[q].prog, ok) else before
      case _ => before
  }

  // ---- the exit listener ------------------------------------------------------------------

  /** bridge_remove_if, whose failure is only a warning. */
  datatype Leaving = NoIndex | Left(ok: bool)

  /** How router_net_cleanup went. */
  datatype Cleaning = NotSent | NotRemoved | NotDown(l: Leaving) | RenameTried(l: Leaving, renamed: bool)

  function LeaveTrace(l: Leaving): seq<Did> {
    match l
    case NoIndex => [Did(RouterToIndex, false)]
    case Left(ok) => [Did(RouterToIndex, true), Did(RouterLeave, ok)]
  }

  const REMOVED := [Did(RemoveDevice, true), Did(RemoveWait, true)]

  function CleaningTrace(c: Cleaning): seq<Did> {
    match c
    case NotSent => [Did(RemoveDevice, false)]
    case NotRemoved => [Did(RemoveDevice, true), Did(RemoveWait, false)]
    case NotDown(l) => REMOVED + LeaveTrace(l) + [Did(RouterIfDown, false)]
    case RenameTried(l, renamed) => REMOVED + LeaveTrace(l) + [Did(RouterIfDown, true)] + [Did(RouterRename, renamed)]
  }

  const WOKEN := [Did(ReadClose, true), Did(PollReturns, true)]

  /** exit_listener_main: bridge_cleanup follows however router_net_cleanup went. */
  function ListenerTrace(c: Cleaning, down: bool, deleted: bool): seq<Did> {
    WOKEN + CleaningTrace(c) + [Did(CleanupDown, down)] + [Did(CleanupDelete, deleted)]
  }

  ghost predicate Freeing(c: Cleaning, freed: bool) {
    freed <==> c.RenameTried? && c.renamed
  }

  ghost predicate ListenerSoFar(pc: ListenerPc, h: seq<Did>) {
    match pc
    case CloseRead => h == []
    case Poll => h == [Did(ReadClose, true)]
    case SpawnRemove => h == WOKEN
    case WaitRemove(_) => h == WOKEN + [Did(RemoveDevice, true)]
    case RouterIndex => h == WOKEN + REMOVED
    case LeaveBridge(_) => h == WOKEN + REMOVED + [Did(RouterToIndex, true)]
    case RouterDown => exists l :: h == WOKEN + (REMOVED + LeaveTrace(l))
    case RenameRouter => exists l :: h == WOKEN + (REMOVED + LeaveTrace(l) + [Did(RouterIfDown, true)])
    case BridgeDown(freed) => exists c :: h == WOKEN + CleaningTrace(c) && Freeing(c, freed)
    case BridgeDelete(freed) =>
      exists c, down :: h == WOKEN + CleaningTrace(c) + [Did(CleanupDown, down)] && Freeing(c, freed)
    case Exiting(freed, deleted) => exists c, down :: h == ListenerTrace(c, down, deleted) && Freeing(c, freed)
  }

  // ---- net_setup --------------------------------------------------------------------------

  function TapTrace(role: Role): seq<Did> {
    [Did(TapOpen(role), true), Did(TapToIndex(role), true), Did(TapJoin(role), true), Did(TapIfUp(role), true)]
  }

  /** Where setup_tap fails. */
  datatype TapFailure = NotOpened | NotFound | NotJoined | NotUp

  /** Once the tap is open, its descriptor is closed again. */
  function TapFailTrace(role: Role, f: TapFailure): seq<Did> {
    match f
    case NotOpened => [Did(TapOpen(role), false)]
    case NotFound => [Did(TapOpen(role), true), Did(TapToIndex(role), false), Did(TapClose, true)]
    case NotJoined =>
      [Did(TapOpen(role), true), Did(TapToIndex(role), true), Did(TapJoin(role), false), Did(TapClose, true)]
    case NotUp =>
      [Did(TapOpen(role), true), Did(TapToIndex(role), true), Did(TapJoin(role), true), Did(TapIfUp(role), false),
       Did(TapClose, true)]
  }

  const ADDED := [Did(BridgeAdd, true)]
  const UP := ADDED + [Did(BridgeIfUp, true)]
  const CLIENT := UP + TapTrace(ClientTap)
  const ROUTER := CLIENT + TapTrace(RouterTap)
  const OFFERED := ROUTER + [Did(AddNet, true)]
  const TAKEN := OFFERED + [Did(AddNetWait, true)]
  const PLUGGED := TAKEN + [Did(RouterClose, true)]
  const PIPED := PLUGGED + [Did(PipeMake, true)]
  const FORKED := PIPED + [Did(ListenerFork, true)]

  /** net_setup when all goes well. */
  const NET_SETUP := FORKED + [Did(WriteClose, true)]

  /** Where net_setup fails once it has a bridge. */
  datatype Failure =
    | BridgeNotUp | ClientFails(f: TapFailure) | RouterFails(f: TapFailure)
    | NotOffered | NotTaken | NoPipe | NoListener

  /** The calls up to the fail_bridge label. */
  function FailTrace(f: Failure): seq<Did> {
    match f
    case BridgeNotUp => ADDED + [Did(BridgeIfUp, false)]
    case ClientFails(f) => UP + TapFailTrace(ClientTap, f)
    case RouterFails(f) => CLIENT + TapFailTrace(RouterTap, f)
    case NotOffered => ROUTER + [Did(AddNet, false)] + [Did(RouterClose, true)]
    case NotTaken => OFFERED + [Did(AddNetWait, false)] + [Did(RouterClose, true)]
    case NoPipe => PLUGGED + [Did(PipeMake, false)]
    case NoListener => PIPED + [Did(ListenerFork, false)]
  }

  /** All of a net_setup that fails: the bridge is taken down, deleted, and the client's tap closed. */
  function RollbackTrace(f: Failure, down: bool, deleted: bool): seq<Did> {
    FailTrace(f) + [Did(RollbackDown, down)] + [Did(RollbackDelete, deleted)] + [Did(ClientClose, true)]
  }

  function BeforeTap(role: Role): seq<Did> {
    if role == ClientTap then UP else CLIENT
  }

  ghost predicate TapClosing(h: seq<Did>) {
    exists role, f: TapFailure :: !f.NotOpened? && h + [Did(TapClose, true)] == BeforeTap(role) + TapFailTrace(role, f)
  }

  ghost predicate MainSoFar(pc: MainPc, h: seq<Did>) {
    match pc
    case AddBridge => h == []
    case BridgeUp => h == ADDED
    case OpenTap(role) => h == BeforeTap(role)
    case TapIndex(role, _) => h == BeforeTap(role) + [Did(TapOpen(role), true)]
    case JoinBridge(role, _, _) => h == BeforeTap(role) + [Did(TapOpen(role), true), Did(TapToIndex(role), true)]
    case TapUp(role, _) =>
      h == BeforeTap(role) + [Did(TapOpen(role), true), Did(TapToIndex(role), true), Did(TapJoin(role), true)]
    case CloseTap(_) => TapClosing(h)
    case SpawnAddNet(_) => h == ROUTER
    case WaitAddNet(_, _) => h == OFFERED
    case CloseRouter(_, added) =>
      if added then h == TAKEN else h == ROUTER + [Did(AddNet, false)] || h == OFFERED + [Did(AddNetWait, false)]
    case MakePipe => h == PLUGGED
    case ForkListener => h == PIPED
    case CloseWrite => h == FORKED
    case Running => h == NET_SETUP
    case FailDown => exists f :: h == FailTrace(f)
    case FailDelete => exists f, down :: h == FailTrace(f) + [Did(RollbackDown, down)]
    case FailClose(deleted) =>
      exists f, down :: h == FailTrace(f) + [Did(RollbackDown, down)] + [Did(RollbackDelete, deleted)]
    case Failed(deleted) =>
      || (h == [Did(BridgeAdd, false)] && !deleted)
      || exists f, down :: h == RollbackTrace(f, down, deleted)
  }

  ghost predicate SoFar(prog: Prog, h: seq<Did>) {
    match prog
    case Main(pc, _) => MainSoFar(pc, h)
    case Listener(pc) => ListenerSoFar(pc, h)
    case _ => true
  }

  // ---- one call ---------------------------------------------------------------------------

  /** Where a listener's call leads. */
  ghost predicate ListenerFlow(pc: ListenerPc, ok: bool, to: ListenerPc) {
    match pc
    case CloseRead => to.Poll?
    case Poll => to.SpawnRemove?
    case SpawnRemove => if ok then to.WaitRemove? else to == BridgeDown(false)
    case WaitRemove(_) => if ok then to.RouterIndex? else to == BridgeDown(false)
    case RouterIndex => if ok then to.LeaveBridge? else to.RouterDown?
    case LeaveBridge(_) => to.RouterDown?
    case RouterDown => if ok then to.RenameRouter? else to == BridgeDown(false)
    case RenameRouter => to == BridgeDown(ok)
    case BridgeDown(freed) => to == BridgeDelete(freed)
    case BridgeDelete(freed) => to == Exiting(freed, ok)
    case Exiting(_, _) => to == pc
  }

  ghost predicate ListenerFlowed(s: State, t: State, q: Serial, ok: bool)
    requires q in s.procs && s.procs[q].prog.Listener?
  {
    q in t.procs && t.procs[q].prog.Listener? && ListenerFlow(s.procs[q].prog.lpc, ok, t.procs[q].prog.lpc)
  }

  lemma ListenerOkFlows(s: State, q: Serial, pc: ListenerPc)
    requires q in s.procs && s.procs[q].vm in s.pids && ListenerCan(s, s.procs[q].vm, pc) && q < s.nextSerial
    requires s.procs[q].prog == Listener(pc)
    ensures ListenerFlowed(s, ListenerOk(s, q, pc), q, true)
  {
  }

  lemma ListenerErrFlows(s: State, q: Serial, pc: ListenerPc)
    requires q in s.procs && s.procs[q].prog == Listener(pc) && !ListenerCannotFail(s, pc)
    ensures ListenerFlowed(s, ListenerErr(s, q, pc), q, false) && !pc.CloseRead? && !pc.Poll?
  {
  }

  /** Where a call of start-vmm leads. */
  ghost predicate MainFlow(pc: MainPc, ok: bool, to: MainPc) {
    match pc
    case AddBridge => if ok then to.BridgeUp? else to == Failed(false)
    case BridgeUp => if ok then to == OpenTap(ClientTap) else to.FailDown?
    case OpenTap(role) => if ok then to.TapIndex? && to.role == role else to.FailDown?
    case TapIndex(role, _) => if ok then to.JoinBridge? && to.role == role else to.CloseTap?
    case JoinBridge(role, _, _) => if ok then to.TapUp? && to.role == role else to.CloseTap?
    case TapUp(role, _) =>
      if !ok then to.CloseTap? else if role == ClientTap then to == OpenTap(RouterTap) else to.SpawnAddNet?
    case CloseTap(_) => ok && to.FailDown?
    case SpawnAddNet(_) => if ok then to.WaitAddNet? else to.CloseRouter? && !to.added
    case WaitAddNet(_, _) => to.CloseRouter? && to.added == ok
    case CloseRouter(_, added) => ok && if added then to.MakePipe? else to.FailDown?
    case MakePipe => if ok then to.ForkListener? else to.FailDown?
    case ForkListener => if ok then to.CloseWrite? else to.FailDown?
    case CloseWrite => ok && to.Running?
    case FailDown => to.FailDelete?
    case FailDelete => to == FailClose(ok)
    case FailClose(deleted) => ok && to == Failed(deleted)
    case Running | Failed(_) => to == pc
  }

  ghost predicate MainFlowed(s: State, t: State, q: Serial, ok: bool)
    requires q in s.procs && s.procs[q].prog.Main?
  {
    q in t.procs && t.procs[q].prog.Main? && MainFlow(s.procs[q].prog.pc, ok, t.procs[q].prog.pc)
  }

  ghost predicate Forks(pc: MainPc) {
    pc.SpawnAddNet? || pc.ForkListener?
  }

  ghost predicate Closes(pc: MainPc) {
    pc.CloseTap? || pc.CloseRouter? || pc.CloseWrite? || pc.FailClose?
  }

  lemma MainForkFlows(s: State, q: Serial, pc: MainPc, client: Option<Ix>)
    requires q in s.procs && q in s.pids && s.procs[q].prog == Main(pc, client) && q < s.nextSerial && Forks(pc)
    ensures MainFlowed(s, MainOk(s, q, pc, client), q, true)
  {
  }

  lemma MainCloseFlows(s: State, q: Serial, pc: MainPc, client: Option<Ix>)
    requires q in s.procs && q in s.pids && s.procs[q].prog == Main(pc, client) && Closes(pc)
    ensures MainFlowed(s, MainOk(s, q, pc, client), q, true)
  {
  }

  lemma MainOkFlows(s: State, q: Serial, pc: MainPc, client: Option<Ix>)
    requires q in s.procs && q in s.pids && s.procs[q].prog == Main(pc, client) && MainCan(s, q, pc)
    requires !Forks(pc) && !Closes(pc)
    ensures MainFlowed(s, MainOk(s, q, pc, client), q, true)
  {
  }

  lemma MainErrFlows(s: State, q: Serial, pc: MainPc, client: Option<Ix>)
    requires q in s.procs && s.procs[q].prog == Main(pc, client) && !MainCannotFail(s, pc)
    ensures MainFlowed(s, MainErr(s, q, pc, client), q, false)
  {
  }

  lemma MainFlows(s: State, q: Serial, ok: bool, pc: MainPc, client: Option<Ix>)
    requires Enabled(s, Call(q, ok)) && s.procs[q].prog == Main(pc, client) && q < s.nextSerial
    ensures MainFlowed(s, Apply(s, Call(q, ok)), q, ok)
  {
    if !ok { MainErrFlows(s, q, pc, client); }
    else if Forks(pc) { MainForkFlows(s, q, pc, client); }
    else if Closes(pc) { MainCloseFlows(s, q, pc, client); }
    else { MainOkFlows(s, q, pc, client); }
  }

  lemma ListenerFlows(s: State, q: Serial, ok: bool, pc: ListenerPc)
    requires Enabled(s, Call(q, ok)) && s.procs[q].prog == Listener(pc) && q < s.nextSerial
    ensures ListenerFlowed(s, Apply(s, Call(q, ok)), q, ok) && (ok || !(pc.CloseRead? || pc.Poll?))
  {
    if ok { ListenerOkFlows(s, q, pc); } else { ListenerErrFlows(s, q, pc); }
  }

  // ---- the flow of control has the traces above -------------------------------------------

  function ListenerDid(pc: ListenerPc, ok: bool): seq<Did> {
    Steps(Listener(pc), ok)
  }

  lemma WakesUp(pc: ListenerPc, ok: bool, to: ListenerPc, h: seq<Did>)
    requires ListenerFlow(pc, ok, to) && ListenerSoFar(pc, h)
    requires (ok && (pc.CloseRead? || pc.Poll? || pc.SpawnRemove? || pc.WaitRemove?)) || pc.Exiting?
    ensures ListenerSoFar(to, h + ListenerDid(pc, ok))
  {
    assert h + [] == h;
  }

  lemma RemovalFails(pc: ListenerPc, to: ListenerPc, h: seq<Did>)
    requires ListenerFlow(pc, false, to) && ListenerSoFar(pc, h) && (pc.SpawnRemove? || pc.WaitRemove?)
    ensures ListenerSoFar(to, h + ListenerDid(pc, false))
  {
    var c := if pc.SpawnRemove? then NotSent else NotRemoved;
    assert h + ListenerDid(pc, false) == WOKEN + CleaningTrace(c) && Freeing(c, false);
  }

  lemma LeavesBridge(pc: ListenerPc, ok: bool, to: ListenerPc, h: seq<Did>)
    requires ListenerFlow(pc, ok, to) && ListenerSoFar(pc, h) && (pc.RouterIndex? || pc.LeaveBridge?)
    ensures ListenerSoFar(to, h + ListenerDid(pc, ok))
  {
    var l := if pc.RouterIndex? then NoIndex else Left(ok);
    if pc.LeaveBridge? || !ok {
      assert h + ListenerDid(pc, ok) == WOKEN + (REMOVED + LeaveTrace(l));
    }
  }

  lemma GoesDown(ok: bool, to: ListenerPc, h: seq<Did>)
    requires ListenerFlow(RouterDown, ok, to) && ListenerSoFar(RouterDown, h)
    ensures ListenerSoFar(to, h + [Did(RouterIfDown, ok)])
  {
    var l :| h == WOKEN + (REMOVED + LeaveTrace(l));
    if ok {
      assert h + [Did(RouterIfDown, true)] == WOKEN + (REMOVED + LeaveTrace(l) + [Did(RouterIfDown, true)]);
    } else {
      assert h + [Did(RouterIfDown, false)] == WOKEN + CleaningTrace(NotDown(l)) && Freeing(NotDown(l), false);
    }
  }

  lemma GetsRenamed(ok: bool, to: ListenerPc, h: seq<Did>)
    requires ListenerFlow(RenameRouter, ok, to) && ListenerSoFar(RenameRouter, h)
    ensures ListenerSoFar(to, h + [Did(RouterRename, ok)])
  {
    var l :| h == WOKEN + (REMOVED + LeaveTrace(l) + [Did(RouterIfDown, true)]);
    var c := RenameTried(l, ok);
    assert h + [Did(RouterRename, ok)] == WOKEN + CleaningTrace(c) && Freeing(c, ok);
  }

  lemma BridgeGoes(pc: ListenerPc, ok: bool, to: ListenerPc, h: seq<Did>)
    requires ListenerFlow(pc, ok, to) && ListenerSoFar(pc, h) && (pc.BridgeDown? || pc.BridgeDelete?)
    ensures ListenerSoFar(to, h + ListenerDid(pc, ok))
  {
    if pc.BridgeDown? {
      var c :| h == WOKEN + CleaningTrace(c) && Freeing(c, pc.freed);
      assert h + ListenerDid(pc, ok) == WOKEN + CleaningTrace(c) + [Did(CleanupDown, ok)];
    } else {
      var c, down :| h == WOKEN + CleaningTrace(c) + [Did(CleanupDown, down)] && Freeing(c, pc.freed);
      assert h + ListenerDid(pc, ok) == ListenerTrace(c, down, ok);
    }
  }

  lemma ListenerStep(pc: ListenerPc, ok: bool, to: ListenerPc, h: seq<Did>)
    requires ListenerFlow(pc, ok, to) && ListenerSoFar(pc, h) && (ok || !(pc.CloseRead? || pc.Poll?))
    ensures ListenerSoFar(to, h + ListenerDid(pc, ok))
  {
    if pc.SpawnRemove? || pc.WaitRemove? {
      if ok { WakesUp(pc, ok, to, h); } else { RemovalFails(pc, to, h); }
    } else if pc.RouterIndex? || pc.LeaveBridge? {
      LeavesBridge(pc, ok, to, h);
    } else if pc.RouterDown? {
      GoesDown(ok, to, h);
    } else if pc.RenameRouter? {
      GetsRenamed(ok, to, h);
    } else if pc.BridgeDown? || pc.BridgeDelete? {
      BridgeGoes(pc, ok, to, h);
    } else {
      WakesUp(pc, ok, to, h);
    }
  }

  function MainDid(pc: MainPc, ok: bool): seq<Did> {
    Steps(Main(pc, None), ok)
  }

  /** The calls before the first tap, and those after the second. */
  lemma Straight(pc: MainPc, to: MainPc, h: seq<Did>)
    requires MainFlow(pc, true, to) && MainSoFar(pc, h)
    requires pc.AddBridge? || pc.BridgeUp? || pc.SpawnAddNet? || pc.WaitAddNet? || (pc.CloseRouter? && pc.added)
             || pc.MakePipe? || pc.ForkListener? || pc.CloseWrite?
    ensures MainSoFar(to, h + MainDid(pc, true))
  {
    assert pc.AddBridge? ==> h + MainDid(pc, true) == ADDED;
  }

  lemma TapStraight(pc: MainPc, to: MainPc, h: seq<Did>)
    requires MainFlow(pc, true, to) && MainSoFar(pc, h)
    requires pc.OpenTap? || pc.TapIndex? || pc.JoinBridge? || pc.TapUp?
    ensures MainSoFar(to, h + MainDid(pc, true))
  {
    var role, b := pc.role, BeforeTap(pc.role);
    match pc
    case OpenTap(_) =>
    case TapIndex(_, _) =>
      assert h + MainDid(pc, true) == b + [Did(TapOpen(role), true), Did(TapToIndex(role), true)];
    case JoinBridge(_, _, _) =>
      assert h + MainDid(pc, true) ==
             b + [Did(TapOpen(role), true), Did(TapToIndex(role), true), Did(TapJoin(role), true)];
    case TapUp(_, _) => assert h + MainDid(pc, true) == b + TapTrace(role);
  }

  lemma TapFails(pc: MainPc, to: MainPc, h: seq<Did>)
    requires MainFlow(pc, false, to) && MainSoFar(pc, h)
    requires pc.OpenTap? || pc.TapIndex? || pc.JoinBridge? || pc.TapUp?
    ensures MainSoFar(to, h + MainDid(pc, false))
  {
    if pc.OpenTap? {
      var f := if pc.role == ClientTap then ClientFails(NotOpened) else RouterFails(NotOpened);
      assert h + MainDid(pc, false) == FailTrace(f);
    } else {
      var f := if pc.TapIndex? then NotFound else if pc.JoinBridge? then NotJoined else NotUp;
      assert h + MainDid(pc, false) + [Did(TapClose, true)] == BeforeTap(pc.role) + TapFailTrace(pc.role, f);
    }
  }

  lemma TapCloses(pc: MainPc, to: MainPc, h: seq<Did>)
    requires MainFlow(pc, true, to) && MainSoFar(pc, h) && pc.CloseTap?
    ensures MainSoFar(to, h + MainDid(pc, true))
  {
    var role, f: TapFailure :| !f.NotOpened? && h + [Did(TapClose, true)] == BeforeTap(role) + TapFailTrace(role, f);
    assert h + [Did(TapClose, true)] == FailTrace(if role == ClientTap then ClientFails(f) else RouterFails(f));
  }

  lemma OfferFails(pc: MainPc, ok: bool, to: MainPc, h: seq<Did>)
    requires MainFlow(pc, ok, to) && MainSoFar(pc, h)
    requires (!ok && (pc.AddBridge? || pc.SpawnAddNet? || pc.WaitAddNet?)) || (pc.CloseRouter? && !pc.added)
    ensures MainSoFar(to, h + MainDid(pc, ok))
  {
    assert pc.AddBridge? ==> h + MainDid(pc, ok) == [Did(BridgeAdd, false)];
    if pc.CloseRouter? {
      var f := if h == ROUTER + [Did(AddNet, false)] then NotOffered else NotTaken;
      assert h + MainDid(pc, ok) == FailTrace(f);
    }
  }

  lemma OtherwiseFails(pc: MainPc, to: MainPc, h: seq<Did>)
    requires MainFlow(pc, false, to) && MainSoFar(pc, h) && (pc.BridgeUp? || pc.MakePipe? || pc.ForkListener?)
    ensures MainSoFar(to, h + MainDid(pc, false))
  {
    var f := if pc.BridgeUp? then BridgeNotUp else if pc.MakePipe? then NoPipe else NoListener;
    assert h + MainDid(pc, false) == FailTrace(f);
  }

  lemma RollsBack(pc: MainPc, ok: bool, to: MainPc, h: seq<Did>)
    requires MainFlow(pc, ok, to) && MainSoFar(pc, h) && (pc.FailDown? || pc.FailDelete? || pc.FailClose?)
    ensures MainSoFar(to, h + MainDid(pc, ok))
  {
    if pc.FailDown? {
      var f :| h == FailTrace(f);
      assert h + MainDid(pc, ok) == FailTrace(f) + [Did(RollbackDown, ok)];
    } else if pc.FailDelete? {
      var f, down :| h == FailTrace(f) + [Did(RollbackDown, down)];
      assert h + MainDid(pc, ok) == FailTrace(f) + [Did(RollbackDown, down)] + [Did(RollbackDelete, ok)];
    } else {
      var f, down :| h == FailTrace(f) + [Did(RollbackDown, down)] + [Did(RollbackDelete, pc.deleted)];
      assert h + MainDid(pc, ok) == RollbackTrace(f, down, pc.deleted);
    }
  }

  lemma MainStep(pc: MainPc, ok: bool, to: MainPc, h: seq<Did>)
    requires MainFlow(pc, ok, to) && MainSoFar(pc, h)
    ensures MainSoFar(to, h + MainDid(pc, ok))
  {
    if pc.Running? || pc.Failed? {
      assert h + [] == h;
    } else if pc.FailDown? || pc.FailDelete? || pc.FailClose? {
      RollsBack(pc, ok, to, h);
    } else if pc.OpenTap? || pc.TapIndex? || pc.JoinBridge? || pc.TapUp? {
      if ok { TapStraight(pc, to, h); } else { TapFails(pc, to, h); }
    } else if pc.CloseTap? {
      TapCloses(pc, to, h);
    } else if pc.CloseRouter? && !pc.added {
      OfferFails(pc, ok, to, h);
    } else if ok {
      Straight(pc, to, h);
    } else if pc.AddBridge? || pc.SpawnAddNet? || pc.WaitAddNet? {
      OfferFails(pc, ok, to, h);
    } else {
      OtherwiseFails(pc, to, h);
    }
  }

  // ---- whole runs -------------------------------------------------------------------------

  /** Nobody but q changes where q is, and a start-vmm or listener begins at its beginning. */
  ghost predicate Leaves(s: State, t: State, q: Serial) {
    && s.nextSerial <= t.nextSerial
    && (q in t.procs && Runs(t.procs[q].prog) ==>
          || (q in s.procs && t.procs[q].prog == s.procs[q].prog)
          || (q == s.nextSerial && Begins(t.procs[q].prog)))
    && (q in t.procs && q in s.procs && q < s.nextSerial && Runs(s.procs[q].prog) ==>
          t.procs[q].prog == s.procs[q].prog)
  }

  ghost predicate Begins(prog: Prog) {
    prog == Main(AddBridge, None) || prog == Listener(CloseRead)
  }

  ghost predicate Runs(prog: Prog) {
    prog.Main? || prog.Listener?
  }

  lemma MainOkLeaves(s: State, r: Serial, pc: MainPc, client: Option<Ix>, q: Serial)
    requires r in s.procs && r in s.pids && s.procs[r].prog == Main(pc, client) && MainCan(s, r, pc) && r != q
    requires !Forks(pc) && !Closes(pc)
    ensures Leaves(s, MainOk(s, r, pc, client), q)
  {
  }

  lemma MainForkLeaves(s: State, r: Serial, pc: MainPc, client: Option<Ix>, q: Serial)
    requires r in s.procs && r in s.pids && s.procs[r].prog == Main(pc, client) && r != q && (Forks(pc) || Closes(pc))
    ensures Leaves(s, MainOk(s, r, pc, client), q)
  {
  }

  lemma MainErrLeaves(s: State, r: Serial, pc: MainPc, client: Option<Ix>, q: Serial)
    requires r in s.procs && s.procs[r].prog == Main(pc, client) && r != q
    ensures Leaves(s, MainErr(s, r, pc, client), q)
  {
  }

  lemma MainLeaves(s: State, r: Serial, ok: bool, q: Serial)
    requires Enabled(s, Call(r, ok)) && s.procs[r].prog.Main? && r != q
    ensures Leaves(s, Apply(s, Call(r, ok)), q)
  {
    var pc, client := s.procs[r].prog.pc, s.procs[r].prog.client;
    if !ok { MainErrLeaves(s, r, pc, client, q); }
    else if Forks(pc) || Closes(pc) { MainForkLeaves(s, r, pc, client, q); }
    else { MainOkLeaves(s, r, pc, client, q); }
  }

  lemma ListenerOkLeaves(s: State, r: Serial, pc: ListenerPc, q: Serial)
    requires r in s.procs && s.procs[r].vm in s.pids && ListenerCan(s, s.procs[r].vm, pc) && r != q
    ensures Leaves(s, ListenerOk(s, r, pc), q)
  {
  }

  lemma ListenerLeavesAlone(s: State, r: Serial, ok: bool, q: Serial)
    requires Enabled(s, Call(r, ok)) && s.procs[r].prog.Listener? && r != q
    ensures Leaves(s, Apply(s, Call(r, ok)), q)
  {
    if ok { ListenerOkLeaves(s, r, s.procs[r].prog.lpc, q); }
  }

  lemma ApiLeaves(s: State, e: Event, q: Serial)
    requires Enabled(s, e) && e.ApiDone?
    ensures Leaves(s, Apply(s, e), q)
  {
  }

  lemma LateLeaves(s: State, o: Serial, q: Serial)
    requires LateCan(s, o)
    ensures Leaves(s, Gone(LateEffect(s, o), o, true), q)
  {
  }

  lemma AbandonLeaves(s: State, h: Serial, v: Serial, q: Serial)
    requires Enabled(s, Abandon(h, v))
    ensures Leaves(s, Apply(s, Abandon(h, v)), q)
  {
  }

  lemma RestLeaves(s: State, e: Event, q: Serial)
    requires Enabled(s, e) && (e.Start? || e.Fork? || e.DropTap? || e.Die?)
    ensures Leaves(s, Apply(s, e), q)
  {
  }

  lemma OthersLeave(s: State, e: Event, q: Serial)
    requires Enabled(s, e) && !(e.Call? && e.actor == q)
    ensures Leaves(s, Apply(s, e), q)
  {
    match e
    case Call(r, ok) =>
      if s.procs[r].prog.Main? { MainLeaves(s, r, ok, q); } else { ListenerLeavesAlone(s, r, ok, q); }
    case ApiDone(_, _, _, _) => ApiLeaves(s, e, q);
    case Late(o) => LateLeaves(s, o, q);
    case Abandon(h, v) => AbandonLeaves(s, h, v, q);
    case _ => RestLeaves(s, e, q);
  }

  lemma {:induction false} SerialsGrow(run: seq<State>, events: seq<Event>, q: Serial, i: nat)
    requires IsRun(run, events) && i < |events| && q >= run[i + 1].nextSerial
    ensures q >= run[i].nextSerial && !(events[i].Call? && events[i].actor == q)
  {
    RunInv(run, events, i);
    OthersLeave(run[i], events[i], if events[i].Call? then events[i].actor + 1 else 0);
  }

  lemma CallGoes(s: State, q: Serial, ok: bool, h: seq<Did>)
    requires Enabled(s, Call(q, ok)) && SoFar(s.procs[q].prog, h) && q < s.nextSerial
    ensures var t := Apply(s, Call(q, ok));
            q in t.procs && SoFar(t.procs[q].prog, h + Steps(s.procs[q].prog, ok))
  {
    var t := Apply(s, Call(q, ok));
    match s.procs[q].prog
    case Main(pc, client) =>
      MainFlows(s, q, ok, pc, client);
      MainStep(pc, ok, t.procs[q].prog.pc, h);
    case Listener(pc) =>
      ListenerFlows(s, q, ok, pc);
      ListenerStep(pc, ok, t.procs[q].prog.lpc, h);
    case _ => assert false;
  }

  lemma {:induction false} RunSoFar(run: seq<State>, events: seq<Event>, q: Serial, i: nat)
    requires IsRun(run, events) && i < |run|
    ensures q >= run[i].nextSerial ==> History(run, events, q, i) == []
    ensures q in run[i].procs ==> SoFar(run[i].procs[q].prog, History(run, events, q, i))
  {
    if i > 0 {
      RunSoFar(run, events, q, i - 1);
      RunInv(run, events, i - 1);
      if q >= run[i].nextSerial { SerialsGrow(run, events, q, i - 1); }
      StepGoes(run[i - 1], events[i - 1], run[i], q, History(run, events, q, i - 1));
    }
  }

  ghost function With(h: seq<Did>, s: State, e: Event, q: Serial): seq<Did> {
    match e
    case Call(r, ok) => if r == q && q in s.procs then h + Steps(s.procs[q].prog, ok) else h
    case _ => h
  }

  lemma StepGoes(s: State, e: Event, t: State, q: Serial, h: seq<Did>)
    requires Bounds(s) && Enabled(s, e) && t == Apply(s, e)
    requires (q >= s.nextSerial ==> h == []) && (q in s.procs ==> SoFar(s.procs[q].prog, h))
    ensures q in t.procs ==> SoFar(t.procs[q].prog, With(h, s, e, q))
  {
    if e.Call? && e.actor == q {
      CallGoes(s, q, e.ok, h);
    } else {
      OthersLeave(s, e, q);
    }
  }

  /** A listener that is about to exit has done all of exit_listener_main: whatever became of the
      router's tap, it has tried to take the bridge down and to delete it. */
  lemma ListenerRan(run: seq<State>, events: seq<Event>, l: Serial, i: nat) returns (c: Cleaning, down: bool)
    requires IsRun(run, events) && i < |run| && l in run[i].procs
    requires run[i].procs[l].prog.Listener? && run[i].procs[l].prog.lpc.Exiting?
    ensures History(run, events, l, i) == ListenerTrace(c, down, run[i].procs[l].prog.lpc.deleted)
    ensures run[i].procs[l].prog.lpc.freed <==> c.RenameTried? && c.renamed
  {
    RunSoFar(run, events, l, i);
    var pc := run[i].procs[l].prog.lpc;
    c, down :| History(run, events, l, i) == ListenerTrace(c, down, pc.deleted) && Freeing(c, pc.freed);
  }

  /** A VM runs after all of net_setup's calls succeeded, */
  lemma SetupRan(run: seq<State>, events: seq<Event>, q: Serial, i: nat)
    requires IsRun(run, events) && i < |run| && q in run[i].procs
    requires run[i].procs[q].prog.Main? && run[i].procs[q].prog.pc.Running?
    ensures History(run, events, q, i) == NET_SETUP
  {
    RunSoFar(run, events, q, i);
  }

  /** and a start-vmm that failed either got no bridge or has tried to take it down and delete it. */
  lemma SetupFailed(run: seq<State>, events: seq<Event>, q: Serial, i: nat) returns (f: Option<Failure>, down: bool)
    requires IsRun(run, events) && i < |run| && q in run[i].procs
    requires run[i].procs[q].prog.Main? && run[i].procs[q].prog.pc.Failed?
    ensures var deleted := run[i].procs[q].prog.pc.deleted;
            History(run, events, q, i) ==
            if f.None? then [Did(BridgeAdd, false)] else RollbackTrace(f.value, down, deleted)
    ensures f.None? ==> !run[i].procs[q].prog.pc.deleted
  {
    RunSoFar(run, events, q, i);
    var h, deleted := History(run, events, q, i), run[i].procs[q].prog.pc.deleted;
    if h == [Did(BridgeAdd, false)] && !deleted {
      f, down := None, false;
    } else {
      var g;
      g, down :| h == RollbackTrace(g, down, deleted);
      f := Some(g);
    }
  }

  /** What is in a history was done. */
  lemma {:induction false} Happened(run: seq<State>, events: seq<Event>, q: Serial, i: nat, d: Did) returns (j: nat)
    requires IsRun(run, events) && i < |run| && d in History(run, events, q, i)
    ensures j < i && events[j] == Call(q, d.ok) && q in run[j].procs && StepOf(run[j].procs[q].prog) == Some(d.step)
  {
    var before := History(run, events, q, i - 1);
    if events[i - 1].Call? && events[i - 1].actor == q {
      StepsIn(before, run[i - 1].procs[q].prog, events[i - 1].ok, d);
    }
    if d in before {
      j := Happened(run, events, q, i - 1, d);
    } else {
      j := i - 1;
    }
  }

  lemma StepsIn(before: seq<Did>, prog: Prog, ok: bool, d: Did)
    requires d in before + Steps(prog, ok)
    ensures d in before || (StepOf(prog) == Some(d.step) && ok == d.ok)
  {
  }

  lemma LastIsIn<T>(a: seq<T>, x: T, b: seq<T>)
    ensures x in a + [x] + b && x in a + [x]
  {
    assert (a + [x] + b)[|a|] == x && (a + [x])[|a|] == x;
  }

  ghost predicate AtCleanup(prog: Prog) {
    prog.Listener? && prog.lpc.BridgeDelete?
  }

  ghost predicate AtRollback(prog: Prog) {
    prog.Main? && prog.pc.FailDelete?
  }

  lemma WhereDeleted(prog: Prog)
    ensures StepOf(prog) == Some(CleanupDelete) ==> AtCleanup(prog)
    ensures StepOf(prog) == Some(RollbackDelete) ==> AtRollback(prog)
  {
  }

  lemma CleanupIn(c: Cleaning, down: bool, deleted: bool)
    ensures Did(CleanupDelete, deleted) in ListenerTrace(c, down, deleted)
  {
    LastIsIn(WOKEN + CleaningTrace(c) + [Did(CleanupDown, down)], Did(CleanupDelete, deleted), []);
  }

  lemma RollbackIn(f: Failure, down: bool, deleted: bool)
    ensures Did(RollbackDelete, deleted) in RollbackTrace(f, down, deleted)
  {
    LastIsIn(FailTrace(f) + [Did(RollbackDown, down)], Did(RollbackDelete, deleted), [Did(ClientClose, true)]);
  }

  /** In particular every listener that exits has tried to delete its bridge, and knows how that went, */
  lemma CleanupTried(run: seq<State>, events: seq<Event>, l: Serial, i: nat, freed: bool, deleted: bool)
    returns (j: nat)
    requires IsRun(run, events) && i < |run| && l in run[i].procs
    requires run[i].procs[l].prog == Listener(Exiting(freed, deleted))
    ensures j < i && events[j] == Call(l, deleted) && l in run[j].procs && AtCleanup(run[j].procs[l].prog)
  {
    var c, down := ListenerRan(run, events, l, i);
    CleanupIn(c, down, deleted);
    j := Happened(run, events, l, i, Did(CleanupDelete, deleted));
    WhereDeleted(run[j].procs[l].prog);
  }

  /** and so has every start-vmm that failed after it had made one. */
  lemma RollbackTried(run: seq<State>, events: seq<Event>, q: Serial, i: nat, client: Option<Ix>, deleted: bool)
    returns (j: nat)
    requires IsRun(run, events) && i < |run| && q in run[i].procs
    requires run[i].procs[q].prog == Main(Failed(deleted), client)
    requires Did(BridgeAdd, true) in History(run, events, q, i)
    ensures j < i && events[j] == Call(q, deleted) && q in run[j].procs && AtRollback(run[j].procs[q].prog)
  {
    var f, down := SetupFailed(run, events, q, i);
    assert f.None? ==> Did(BridgeAdd, true) !in [Did(BridgeAdd, false)];
    RollbackIn(f.value, down, deleted);
    j := Happened(run, events, q, i, Did(RollbackDelete, deleted));
    WhereDeleted(run[j].procs[q].prog);
  }
}
