/** The calls of start-vmm and of the listener, sorted by effect, and the theorem that every
    state of every run satisfies the invariant. */
module NetSteps {
  import opened IfNames
  import opened NetKernel
  import opened NetWorld
  import opened NetInvariant
  import opened NetProof
  import opened Options

  // ---- start-vmm --------------------------------------------------------------------------

  ghost predicate Here(s: State, q: Serial, pc: MainPc, client: Option<Ix>) {
    q in s.procs && q in s.pids && s.procs[q].prog == Main(pc, client) && ProcOk(s, q)
  }

  ghost predicate At(s: State, q: Serial, pc: MainPc, client: Option<Ix>) {
    Inv(s) && Here(s, q, pc, client)
  }

  lemma MainBridgeUp(s: State, q: Serial, client: Option<Ix>)
    requires At(s, q, BridgeUp, client) && MainCan(s, q, BridgeUp)
    ensures Inv(MainOk(s, q, BridgeUp, client))
  {
    KeepSetUp(s, q, Main(OpenTap(ClientTap), client), Name(Br, s.pids[q]), true);
  }

  lemma MainWaited(s: State, q: Serial, fd: Ix, h: Serial, client: Option<Ix>)
    requires At(s, q, WaitAddNet(fd, h), client) && MainCan(s, q, WaitAddNet(fd, h))
    ensures Inv(MainOk(s, q, WaitAddNet(fd, h), client))
  {
    KeepGoto(s, q, Main(CloseRouter(fd, true), client));
  }

  lemma MainBridgeDown(s: State, q: Serial, client: Option<Ix>)
    requires At(s, q, FailDown, client) && MainCan(s, q, FailDown)
    ensures Inv(MainOk(s, q, FailDown, client))
  {
    MayDelete(s, q, client);
    KeepSetUp(s, q, Main(FailDelete, client), Name(Br, s.pids[q]), false);
  }

  lemma MainFindsTap(s: State, q: Serial, role: Role, fd: Ix, client: Option<Ix>)
    requires At(s, q, TapIndex(role, fd), client) && MainCan(s, q, TapIndex(role, fd))
    ensures Inv(MainOk(s, q, TapIndex(role, fd), client))
  {
    KeepGoto(s, q, Main(JoinBridge(role, fd, s.ifs[Name(KindFor(role), s.pids[q])].ix), client));
  }

  lemma MainJoins(s: State, q: Serial, role: Role, fd: Ix, ix: Ix, client: Option<Ix>)
    requires At(s, q, JoinBridge(role, fd, ix), client) && MainCan(s, q, JoinBridge(role, fd, ix))
    ensures Inv(MainOk(s, q, JoinBridge(role, fd, ix), client))
  {
    KeepSetMaster(s, q, Main(TapUp(role, fd), client), ix, Some(s.ifs[Name(Br, s.pids[q])].ix));
  }

  lemma MainTapUp(s: State, q: Serial, role: Role, fd: Ix, client: Option<Ix>)
    requires At(s, q, TapUp(role, fd), client) && MainCan(s, q, TapUp(role, fd))
    ensures Inv(MainOk(s, q, TapUp(role, fd), client))
  {
    var next := if role == ClientTap then Main(OpenTap(RouterTap), Some(fd)) else Main(SpawnAddNet(fd), client);
    MayGoOn(s, q, role, fd, client);
    KeepSetUp(s, q, next, Name(KindFor(role), s.pids[q]), true);
  }

  lemma MayGoOn(s: State, q: Serial, role: Role, fd: Ix, client: Option<Ix>)
    requires Here(s, q, TapUp(role, fd), client)
    ensures MayGo(s, q, if role == ClientTap then Main(OpenTap(RouterTap), Some(fd)) else Main(SpawnAddNet(fd), client))
  {
  }

  lemma MainClosesTap(s: State, q: Serial, fd: Ix, client: Option<Ix>)
    requires At(s, q, CloseTap(fd), client)
    ensures Inv(MainOk(s, q, CloseTap(fd), client))
  {
    KeepClose(s, q, {TapFd(fd)}, Main(FailDown, client));
  }

  lemma MainClosesRouter(s: State, q: Serial, fd: Ix, added: bool, client: Option<Ix>)
    requires At(s, q, CloseRouter(fd, added), client)
    ensures Inv(MainOk(s, q, CloseRouter(fd, added), client))
  {
    MayCloseRouter(s, q, fd, added, client);
    KeepClose(s, q, {TapFd(fd)}, Main(if added then MakePipe else FailDown, client));
  }

  lemma MayCloseRouter(s: State, q: Serial, fd: Ix, added: bool, client: Option<Ix>)
    requires Here(s, q, CloseRouter(fd, added), client)
    ensures var prog := Main(if added then MakePipe else FailDown, client);
            SafeMove(s, q, prog) && SafeFds(s, q, prog, s.procs[q].fds - {TapFd(fd)})
  {
  }

  lemma MainClosesWrite(s: State, q: Serial, client: Option<Ix>)
    requires At(s, q, CloseWrite, client)
    ensures Inv(MainOk(s, q, CloseWrite, client))
  {
    KeepClose(s, q, {PipeWrite(q)}, Main(Running, client));
  }

  lemma MainClosesClient(s: State, q: Serial, deleted: bool, client: Option<Ix>)
    requires At(s, q, FailClose(deleted), client)
    ensures Inv(MainOk(s, q, FailClose(deleted), client))
  {
    MayCloseClient(s, q, deleted, client);
    KeepClose(s, q, ClientFds(client), Main(Failed(deleted), client));
  }

  ghost function ClientFds(client: Option<Ix>): set<Fd> {
    if client.Some? then {TapFd(client.value)} else {}
  }

  lemma MayCloseClient(s: State, q: Serial, deleted: bool, client: Option<Ix>)
    requires Here(s, q, FailClose(deleted), client)
    ensures var prog := Main(Failed(deleted), client);
            SafeMove(s, q, prog) && SafeFds(s, q, prog, s.procs[q].fds - ClientFds(client))
  {
  }

  lemma MainAddsBridge(s: State, q: Serial, client: Option<Ix>)
    requires At(s, q, AddBridge, client) && MainCan(s, q, AddBridge)
    ensures Inv(MainOk(s, q, AddBridge, client))
  {
    MainAddsSelf(s, q, client);
    KeepAdds(s, MainOk(s, q, AddBridge, client), q, Br);
  }

  lemma MainAddsSelf(s: State, q: Serial, client: Option<Ix>)
    requires Here(s, q, AddBridge, client) && MainCan(s, q, AddBridge)
    ensures ProcOk(MainOk(s, q, AddBridge, client), q)
  {
  }

  lemma MainOpens(s: State, q: Serial, role: Role, client: Option<Ix>)
    requires At(s, q, OpenTap(role), client) && MainCan(s, q, OpenTap(role))
    ensures Inv(MainOk(s, q, OpenTap(role), client))
  {
    MainOpensSelf(s, q, role, client);
    MainOpensAdds(s, q, role, client);
    KeepAdds(s, MainOk(s, q, OpenTap(role), client), q, KindFor(role));
  }

  lemma MainOpensAdds(s: State, q: Serial, role: Role, client: Option<Ix>)
    requires Bounds(s) && Here(s, q, OpenTap(role), client) && MainCan(s, q, OpenTap(role))
    ensures Adds(s, MainOk(s, q, OpenTap(role), client), q, KindFor(role))
  {
  }

  lemma MainOpensSelf(s: State, q: Serial, role: Role, client: Option<Ix>)
    requires Bounds(s) && Here(s, q, OpenTap(role), client) && MainCan(s, q, OpenTap(role))
    ensures ProcOk(MainOk(s, q, OpenTap(role), client), q)
  {
  }

  lemma MainSpawnsSelf(s: State, q: Serial, fd: Ix, client: Option<Ix>)
    requires Here(s, q, SpawnAddNet(fd), client)
    ensures ProcOk(MainOk(s, q, SpawnAddNet(fd), client), q)
  {
  }

  lemma HelperBorn(s: State, q: Serial, fd: Ix, client: Option<Ix>)
    requires Here(s, q, SpawnAddNet(fd), client)
    ensures ProcOk(MainOk(s, q, SpawnAddNet(fd), client), s.nextSerial)
  {
  }

  lemma MainForksSelf(s: State, q: Serial, client: Option<Ix>)
    requires Here(s, q, ForkListener, client)
    ensures ProcOk(MainOk(s, q, ForkListener, client), q)
  {
  }

  lemma ListenerBorn(s: State, q: Serial, client: Option<Ix>)
    requires Here(s, q, ForkListener, client)
    ensures ProcOk(MainOk(s, q, ForkListener, client), s.nextSerial)
  {
  }

  lemma MainSpawnsIsFork(s: State, q: Serial, fd: Ix, client: Option<Ix>)
    requires q < s.nextSerial && Here(s, q, SpawnAddNet(fd), client)
    ensures Forks(s, MainOk(s, q, SpawnAddNet(fd), client), q)
  {
  }

  lemma MainSpawns(s: State, q: Serial, fd: Ix, client: Option<Ix>)
    requires At(s, q, SpawnAddNet(fd), client)
    ensures Inv(MainOk(s, q, SpawnAddNet(fd), client))
  {
    MainSpawnsSelf(s, q, fd, client);
    HelperBorn(s, q, fd, client);
    MainSpawnsIsFork(s, q, fd, client);
    KeepForks(s, MainOk(s, q, SpawnAddNet(fd), client), q);
  }

  lemma MainForksIsFork(s: State, q: Serial, client: Option<Ix>)
    requires q < s.nextSerial && Here(s, q, ForkListener, client)
    ensures Forks(s, MainOk(s, q, ForkListener, client), q)
  {
  }

  lemma MainForks(s: State, q: Serial, client: Option<Ix>)
    requires At(s, q, ForkListener, client)
    ensures Inv(MainOk(s, q, ForkListener, client))
  {
    MainForksSelf(s, q, client);
    ListenerBorn(s, q, client);
    MainForksIsFork(s, q, client);
    KeepForks(s, MainOk(s, q, ForkListener, client), q);
  }

  lemma MainPipesSelf(s: State, q: Serial, client: Option<Ix>)
    requires Here(s, q, MakePipe, client)
    ensures ProcOk(MainOk(s, q, MakePipe, client), q)
  {
  }

  lemma MainPipesIsPipe(s: State, q: Serial, client: Option<Ix>)
    requires Here(s, q, MakePipe, client)
    ensures Pipes(s, MainOk(s, q, MakePipe, client), q)
  {
  }

  lemma MainPipes(s: State, q: Serial, client: Option<Ix>)
    requires At(s, q, MakePipe, client)
    ensures Inv(MainOk(s, q, MakePipe, client))
  {
    MainPipesSelf(s, q, client);
    MainPipesIsPipe(s, q, client);
    KeepPipes(s, MainOk(s, q, MakePipe, client), q);
  }

  lemma MainDeletesSelf(s: State, q: Serial, client: Option<Ix>)
    requires Here(s, q, FailDelete, client) && MainCan(s, q, FailDelete)
    ensures ProcOk(MainOk(s, q, FailDelete, client), q)
  {
  }

  lemma MainDeletes(s: State, q: Serial, client: Option<Ix>)
    requires At(s, q, FailDelete, client) && MainCan(s, q, FailDelete)
    ensures Inv(MainOk(s, q, FailDelete, client))
  {
    MainDeletesSelf(s, q, client);
    KeepDeletes(s, MainOk(s, q, FailDelete, client), q);
  }

  /** Between tap_open and the end of setup_tap. */
  lemma MainTapFails(s: State, q: Serial, pc: MainPc, client: Option<Ix>)
    requires At(s, q, pc, client) && (pc.TapIndex? || pc.JoinBridge? || pc.TapUp?)
    ensures Inv(MainErr(s, q, pc, client))
  {
    MayDropTap(s, q, pc, client);
    KeepGoto(s, q, Main(CloseTap(NewTap(pc).value), client));
  }

  lemma MayDropTap(s: State, q: Serial, pc: MainPc, client: Option<Ix>)
    requires Here(s, q, pc, client) && (pc.TapIndex? || pc.JoinBridge? || pc.TapUp?)
    ensures MayGo(s, q, Main(CloseTap(NewTap(pc).value), client))
  {
  }

  lemma MainAddNetFails(s: State, q: Serial, pc: MainPc, client: Option<Ix>)
    requires At(s, q, pc, client) && !MainCannotFail(s, pc) && (pc.SpawnAddNet? || pc.WaitAddNet?)
    ensures Inv(MainErr(s, q, pc, client))
  {
    KeepGoto(s, q, Main(CloseRouter(NewTap(pc).value, false), client));
  }

  lemma MainFails(s: State, q: Serial, pc: MainPc, client: Option<Ix>)
    requires At(s, q, pc, client) && (pc.BridgeUp? || pc.OpenTap? || pc.MakePipe?)
    ensures Inv(MainErr(s, q, pc, client))
  {
    MayFail(s, q, pc, client);
    KeepGoto(s, q, Main(FailDown, client));
  }

  lemma MayFail(s: State, q: Serial, pc: MainPc, client: Option<Ix>)
    requires Here(s, q, pc, client) && (pc.BridgeUp? || pc.OpenTap? || pc.MakePipe?)
    ensures MayGo(s, q, Main(FailDown, client))
  {
  }

  lemma MainAddFails(s: State, q: Serial, client: Option<Ix>)
    requires At(s, q, AddBridge, client)
    ensures Inv(MainErr(s, q, AddBridge, client))
  {
    KeepGoto(s, q, Main(Failed(false), client));
  }

  lemma MainForkFails(s: State, q: Serial, client: Option<Ix>)
    requires At(s, q, ForkListener, client)
    ensures Inv(MainErr(s, q, ForkListener, client))
  {
    KeepClose(s, q, {PipeRead(q), PipeWrite(q)}, Main(FailDown, client));
  }

  lemma MainDownFails(s: State, q: Serial, client: Option<Ix>)
    requires At(s, q, FailDown, client)
    ensures Inv(MainErr(s, q, FailDown, client))
  {
    MayDelete(s, q, client);
    KeepGoto(s, q, Main(FailDelete, client));
  }

  lemma MayDelete(s: State, q: Serial, client: Option<Ix>)
    requires Here(s, q, FailDown, client)
    ensures MayGo(s, q, Main(FailDelete, client))
  {
  }

  lemma MainDeleteFails(s: State, q: Serial, client: Option<Ix>)
    requires At(s, q, FailDelete, client)
    ensures Inv(MainErr(s, q, FailDelete, client))
  {
    MayGiveUp(s, q, client);
    KeepGoto(s, q, Main(FailClose(false), client));
  }

  lemma MayGiveUp(s: State, q: Serial, client: Option<Ix>)
    requires Here(s, q, FailDelete, client)
    ensures MayGo(s, q, Main(FailClose(false), client))
  {
  }

  // ---- the exit listener ------------------------------------------------------------------

  ghost predicate ListenerAt(s: State, q: Serial, pc: ListenerPc) {
    Inv(s) && q in s.procs && s.procs[q].vm in s.pids && s.procs[q].prog == Listener(pc) && ProcOk(s, q)
  }

  lemma ListenerMoves(s: State, q: Serial, pc: ListenerPc)
    requires ListenerAt(s, q, pc) && ListenerCan(s, s.procs[q].vm, pc)
    requires pc.CloseRead? || pc.Poll? || pc.WaitRemove?
    ensures Inv(ListenerOk(s, q, pc))
  {
    match pc
    case CloseRead => KeepClose(s, q, {PipeRead(s.procs[q].vm)}, Listener(Poll));
    case Poll => KeepGoto(s, q, Listener(SpawnRemove));
    case WaitRemove(_) => KeepGoto(s, q, Listener(RouterIndex));
  }

  lemma ListenerDowns(s: State, q: Serial, freed: bool)
    requires ListenerAt(s, q, BridgeDown(freed)) && ListenerCan(s, s.procs[q].vm, BridgeDown(freed))
    ensures Inv(ListenerOk(s, q, BridgeDown(freed)))
  {
    KeepSetUp(s, q, Listener(BridgeDelete(freed)), Name(Br, s.pids[s.procs[q].vm]), false);
  }

  lemma ListenerUnplugs(s: State, q: Serial, pc: ListenerPc)
    requires ListenerAt(s, q, pc) && ListenerCan(s, s.procs[q].vm, pc)
    requires pc.RouterIndex? || pc.LeaveBridge? || pc.RouterDown?
    ensures Inv(ListenerOk(s, q, pc))
  {
    var router := Name(Router, s.pids[s.procs[q].vm]);
    match pc
    case RouterIndex =>
      assert IfOk(s, router);
      KeepGoto(s, q, Listener(LeaveBridge(s.ifs[router].ix)));
    case LeaveBridge(ix) => KeepSetMaster(s, q, Listener(RouterDown), ix, None);
    case RouterDown => KeepSetUp(s, q, Listener(RenameRouter), router, false);
  }

  lemma ListenerForksSelf(s: State, q: Serial)
    requires ListenerAt(s, q, SpawnRemove)
    ensures var t := ListenerOk(s, q, SpawnRemove); ProcOk(t, q) && ProcOk(t, s.nextSerial)
  {
  }

  lemma ListenerForks(s: State, q: Serial)
    requires ListenerAt(s, q, SpawnRemove)
    ensures Inv(ListenerOk(s, q, SpawnRemove))
  {
    ListenerForksSelf(s, q);
    KeepForks(s, ListenerOk(s, q, SpawnRemove), q);
  }

  lemma ListenerRenames(s: State, q: Serial)
    requires ListenerAt(s, q, RenameRouter) && ListenerCan(s, s.procs[q].vm, RenameRouter)
    ensures Inv(ListenerOk(s, q, RenameRouter))
  {
    ListenerRenamesSelf(s, q);
    KeepRenames(s, ListenerOk(s, q, RenameRouter), q);
  }

  lemma ListenerRenamesSelf(s: State, q: Serial)
    requires ListenerAt(s, q, RenameRouter) && ListenerCan(s, s.procs[q].vm, RenameRouter)
    ensures ProcOk(ListenerOk(s, q, RenameRouter), q)
  {
  }

  lemma ListenerDeletesSelf(s: State, q: Serial, freed: bool)
    requires ListenerAt(s, q, BridgeDelete(freed)) && ListenerCan(s, s.procs[q].vm, BridgeDelete(freed))
    ensures ProcOk(ListenerOk(s, q, BridgeDelete(freed)), q)
  {
  }

  lemma ListenerDeletes(s: State, q: Serial, freed: bool)
    requires ListenerAt(s, q, BridgeDelete(freed)) && ListenerCan(s, s.procs[q].vm, BridgeDelete(freed))
    ensures Inv(ListenerOk(s, q, BridgeDelete(freed)))
  {
    ListenerDeletesSelf(s, q, freed);
    KeepDeletes(s, ListenerOk(s, q, BridgeDelete(freed)), q);
  }

  lemma ListenerGivesUp(s: State, q: Serial, pc: ListenerPc)
    requires ListenerAt(s, q, pc) && !ListenerCannotFail(s, pc)
    requires pc.SpawnRemove? || pc.WaitRemove? || pc.RouterDown? || pc.RenameRouter?
    ensures Inv(ListenerErr(s, q, pc))
  {
    KeepGoto(s, q, Listener(BridgeDown(false)));
  }

  lemma ListenerFails(s: State, q: Serial, pc: ListenerPc)
    requires ListenerAt(s, q, pc) && (pc.RouterIndex? || pc.LeaveBridge? || pc.BridgeDown? || pc.BridgeDelete?)
    ensures Inv(ListenerErr(s, q, pc))
  {
    KeepGoto(s, q, ListenerErr(s, q, pc).procs[q].prog);
  }

  // ---- everything else --------------------------------------------------------------------

  /** A VMM or one of its descendants forks. */
  ghost function Forked(s: State, q: Serial): State
    requires q in s.procs
  {
    ForkChild(s, q, s.procs[q].prog, Descendant(HasNet(s.procs[q].prog)))
  }

  lemma ForkSelf(s: State, q: Serial)
    requires Enabled(s, Fork(q)) && ProcOk(s, q)
    ensures ProcOk(Forked(s, q), q)
  {
  }

  lemma DescendantBorn(s: State, q: Serial)
    requires Enabled(s, Fork(q)) && ProcOk(s, q)
    ensures ProcOk(Forked(s, q), s.nextSerial)
  {
  }

  lemma ForkIsFork(s: State, q: Serial)
    requires q < s.nextSerial && Enabled(s, Fork(q))
    ensures Forks(s, Forked(s, q), q)
  {
  }

  lemma KeepFork(s: State, q: Serial)
    requires Inv(s) && Enabled(s, Fork(q))
    ensures Inv(Forked(s, q))
  {
    assert ProcOk(s, q);
    ForkSelf(s, q);
    DescendantBorn(s, q);
    ForkIsFork(s, q);
    KeepForks(s, Forked(s, q), q);
  }

  lemma KeepDrop(s: State, v: Serial, ix: Ix)
    requires Inv(s) && Enabled(s, DropTap(v, ix))
    ensures Inv(Close(s, v, {TapFd(ix)}, s.procs[v].prog))
  {
    assert ProcOk(s, v);
    KeepClose(s, v, {TapFd(ix)}, s.procs[v].prog);
  }

  /** The device that remove-device finds is the one the listener's own incarnation made. */
  lemma RemovedIsOwn(s: State, e: Event)
    requires Inv(s) && e.ApiDone? && ApiCan(s, e) && e.effect && s.procs[e.helper].prog.RemoveHelper?
    ensures forall d :: d in s.devices && d.vmm == e.vmm && d.id == RouterId(s, s.procs[e.helper].vm) ==>
              d.owner == s.procs[e.helper].vm
    ensures forall d :: d in ApiEffect(s, e).devices ==> d.owner != s.procs[e.helper].vm
  {
    var vm := s.procs[e.helper].vm;
    assert ProcOk(s, e.helper);
    forall d | d in s.devices
      ensures d.owner in s.pids && d.id == RouterId(s, d.owner) && OwnsTap(s, d.owner, Router, d.ix)
    {
      assert DeviceOk(s, d);
    }
    var d :| d in s.devices && d.vmm == e.vmm && d.id == RouterId(s, vm);
    assert d.owner == vm;
  }

  lemma KeepApi(s: State, e: Event)
    requires Inv(s) && e.ApiDone? && Enabled(s, e)
    ensures Inv(ApiReply(s, e))
  {
    var t := ApiReply(s, e);
    if e.effect && s.procs[e.helper].prog.AddNetHelper? {
      KeepPlugsIn(s, t, e.helper, e.vmm);
    } else {
      if e.effect { RemovedIsOwn(s, e); }
      KeepUnplugs(s, t, e.helper);
    }
  }

  /** A ch-remote is killed when the VMM has its request: first it has failed, then the request is
      alone, then the ch-remote is gone. */
  lemma AbandonedFails(s: State, h: Serial)
    requires Inv(s) && h in s.procs && Sends(s.procs[h].prog)
    ensures Inv(Goto(s, h, Finished(false)))
  {
    KeepUnplugs(s, Goto(s, h, Finished(false)), h);
  }

  lemma AddPosts(s: State, h: Serial, v: Serial)
    requires Inv(s) && h in s.procs && s.procs[h].vm in s.pids && s.procs[h].prog.AddNetHelper?
    ensures MayPost(Goto(s, h, Finished(false)), Left(s.procs[h], v))
  {
    var u, o := Goto(s, h, Finished(false)), Left(s.procs[h], v);
    var t := Posted(u, o);
    assert ProcOk(s, h);
    assert MayHold(s, s.procs[h], TapFd(s.procs[h].prog.fd));
    assert IfOk(s, Name(Router, s.pids[s.procs[h].vm]));
    forall q | q in u.procs
      ensures u.procs[q].vm in u.pids && StrayOk(t, q, u.nextSerial) && StrayOk(t, u.nextSerial, q)
    {
      assert ProcOk(s, q) && StrayOk(s, q, h) && StrayOk(s, h, q);
    }
  }

  lemma RemovePosts(s: State, h: Serial, v: Serial)
    requires Inv(s) && h in s.procs && s.procs[h].vm in s.pids && s.procs[h].prog.RemoveHelper?
    ensures MayPost(Goto(s, h, Finished(false)), Left(s.procs[h], v))
  {
    var u, o := Goto(s, h, Finished(false)), Left(s.procs[h], v);
    var t := Posted(u, o);
    assert ProcOk(s, h);
    forall d | d in s.devices && d.id == RouterId(s, o.vm) ensures d.owner == o.vm {
      assert DeviceOk(s, d);
    }
    forall q | q in u.procs
      ensures u.procs[q].vm in u.pids && StrayOk(t, q, u.nextSerial) && StrayOk(t, u.nextSerial, q)
    {
      assert ProcOk(s, q) && OrphanOk(s, q) && StrayOk(s, h, q);
    }
  }

  lemma KeepAbandon(s: State, h: Serial, v: Serial)
    requires Inv(s) && Enabled(s, Abandon(h, v))
    ensures Inv(Apply(s, Abandon(h, v)))
  {
    var u, o := Goto(s, h, Finished(false)), Left(s.procs[h], v);
    AbandonedFails(s, h);
    if s.procs[h].prog.AddNetHelper? { AddPosts(s, h, v); } else { RemovePosts(s, h, v); }
    KeepPosts(u, o);
    KeepGone(Posted(u, o), h, true);
  }

  /** The VMM acts on a request whose ch-remote is gone. */
  lemma LateInv(s: State, o: Serial)
    requires Inv(s) && LateCan(s, o)
    ensures Inv(LateEffect(s, o))
  {
    var t, v := LateEffect(s, o), s.procs[o].prog.vmm;
    if s.procs[o].prog.req.Add? {
      forall q | q in s.procs && Removing(s.procs[q].prog) && s.procs[q].prog.vmm == v && s.procs[q].vm in s.pids
        ensures s.pids[s.procs[q].vm] != s.pids[s.procs[o].vm]
      {
        assert StrayOk(s, q, o);
      }
      KeepPlugsIn(s, t, o, v);
    } else {
      KeepDrops(s, t);
    }
  }

  lemma KeepLate(s: State, o: Serial)
    requires Inv(s) && LateCan(s, o)
    ensures Inv(Apply(s, Late(o)))
  {
    LateInv(s, o);
    KeepGone(LateEffect(s, o), o, true);
  }

  lemma KeepMain(s: State, q: Serial, pc: MainPc, client: Option<Ix>, ok: bool)
    requires At(s, q, pc, client)
    requires if ok then MainCan(s, q, pc) else !MainCannotFail(s, pc)
    ensures Inv(if ok then MainOk(s, q, pc, client) else MainErr(s, q, pc, client))
  {
    if !ok {
      if pc.TapIndex? || pc.JoinBridge? || pc.TapUp? { MainTapFails(s, q, pc, client); }
      else if pc.SpawnAddNet? || pc.WaitAddNet? { MainAddNetFails(s, q, pc, client); }
      else if pc.AddBridge? { MainAddFails(s, q, client); }
      else if pc.ForkListener? { MainForkFails(s, q, client); }
      else if pc.FailDown? { MainDownFails(s, q, client); }
      else if pc.FailDelete? { MainDeleteFails(s, q, client); }
      else { MainFails(s, q, pc, client); }
    } else {
      match pc
      case AddBridge => MainAddsBridge(s, q, client);
      case OpenTap(role) => MainOpens(s, q, role, client);
      case BridgeUp => MainBridgeUp(s, q, client);
      case WaitAddNet(fd, h) => MainWaited(s, q, fd, h, client);
      case FailDown => MainBridgeDown(s, q, client);
      case TapIndex(role, fd) => MainFindsTap(s, q, role, fd, client);
      case JoinBridge(role, fd, ix) => MainJoins(s, q, role, fd, ix, client);
      case TapUp(role, fd) => MainTapUp(s, q, role, fd, client);
      case CloseTap(fd) => MainClosesTap(s, q, fd, client);
      case CloseRouter(fd, added) => MainClosesRouter(s, q, fd, added, client);
      case CloseWrite => MainClosesWrite(s, q, client);
      case FailClose(deleted) => MainClosesClient(s, q, deleted, client);
      case SpawnAddNet(fd) => MainSpawns(s, q, fd, client);
      case ForkListener => MainForks(s, q, client);
      case MakePipe => MainPipes(s, q, client);
      case FailDelete => MainDeletes(s, q, client);
      case Running | Failed(_) =>
    }
  }

  lemma KeepListener(s: State, q: Serial, pc: ListenerPc, ok: bool)
    requires ListenerAt(s, q, pc)
    requires if ok then ListenerCan(s, s.procs[q].vm, pc) else !ListenerCannotFail(s, pc)
    ensures Inv(if ok then ListenerOk(s, q, pc) else ListenerErr(s, q, pc))
  {
    if !ok {
      if pc.RouterIndex? || pc.LeaveBridge? || pc.BridgeDown? || pc.BridgeDelete? { ListenerFails(s, q, pc); }
      else { ListenerGivesUp(s, q, pc); }
    } else {
      match pc
      case CloseRead | Poll | WaitRemove(_) => ListenerMoves(s, q, pc);
      case BridgeDown(freed) => ListenerDowns(s, q, freed);
      case RouterIndex | LeaveBridge(_) | RouterDown => ListenerUnplugs(s, q, pc);
      case SpawnRemove => ListenerForks(s, q);
      case RenameRouter => ListenerRenames(s, q);
      case BridgeDelete(freed) => ListenerDeletes(s, q, freed);
      case Exiting(_, _) =>
    }
  }

  lemma Keep(s: State, e: Event)
    requires Inv(s) && Enabled(s, e)
    ensures Inv(Apply(s, e))
  {
    match e
    case Start(pid, net) => KeepStarts(s, Started(s, pid, net));
    case Call(q, ok) =>
      assert ProcOk(s, q);
      match s.procs[q].prog {
        case Main(pc, client) => KeepMain(s, q, pc, client, ok);
        case Listener(pc) => KeepListener(s, q, pc, ok);
        case _ => assert false;
      }
    case ApiDone(_, _, _, _) => KeepApi(s, e);
    case Abandon(h, v) => KeepAbandon(s, h, v);
    case Late(o) => KeepLate(s, o);
    case Fork(q) => KeepFork(s, q);
    case DropTap(v, ix) => KeepDrop(s, v, ix);
    case Die(q, killed) => KeepGone(s, q, killed);
  }

  /** Every state of every interleaving satisfies the invariant. */
  lemma {:induction false} RunInv(run: seq<State>, events: seq<Event>, i: nat)
    requires IsRun(run, events) && i < |run|
    ensures Inv(run[i])
  {
    if i == 0 {
      InitInv();
    } else {
      RunInv(run, events, i - 1);
      Keep(run[i - 1], events[i - 1]);
    }
  }
}
