/** Every event keeps the invariant: first what a step leaves alone, then one lemma per kind of
    effect, then the events themselves. */
module NetProof {
  import opened IfNames
  import opened NetKernel
  import opened NetWorld
  import opened NetInvariant
  import opened Options

  // ---- frames -----------------------------------------------------------------------------

  ghost predicate SameCore(i: Iface, j: Iface) {
    i.ix == j.ix && i.owner == j.owner && (i.Bridge? <==> j.Bridge?)
  }

  /** Only flags and masters differ. */
  ghost predicate Cosmetic(a: Ifs<IfName>, b: Ifs<IfName>) {
    a.Keys == b.Keys && forall n :: n in a ==> SameCore(a[n], b[n])
  }

  ghost predicate Later(s: State, t: State) {
    && s.nextSerial <= t.nextSerial
    && (forall vm :: vm in s.pids ==> vm in t.pids && t.pids[vm] == s.pids[vm])
    && (forall ix :: ix in s.made ==> ix in t.made && t.made[ix] == s.made[ix])
    && s.plugged <= t.plugged
    && (forall h :: h in t.procs ==>
          if h in s.procs
          then t.procs[h].vm == s.procs[h].vm &&
               (Helper(s.procs[h].prog) ==> t.procs[h].prog == s.procs[h].prog || t.procs[h].prog.Finished?)
          else s.nextSerial <= h)
  }

  /** Process r cannot tell the interface tables apart: its bridge is the same, no tap appeared
      under its names, and none that it holds disappeared. */
  ghost predicate SameView(s: State, t: State, r: Serial)
    requires r in s.procs && s.procs[r].vm in s.pids
  {
    var p := s.pids[s.procs[r].vm];
    var br := Name(Br, p);
    && (br in s.ifs <==> br in t.ifs) && (br in s.ifs ==> SameCore(s.ifs[br], t.ifs[br]))
    && forall k :: k == Client || k == Router ==>
        var n := Name(k, p);
        && (n in t.ifs ==> n in s.ifs && SameCore(s.ifs[n], t.ifs[n]))
        && (n in s.ifs && TapFd(s.ifs[n].ix) in s.procs[r].fds ==> n in t.ifs)
  }

  ghost predicate NothingNew(s: State, t: State, vm: Serial)
    requires vm in s.pids && vm in t.pids
  {
    (OwnsBridge(t, vm) ==> OwnsBridge(s, vm)) && (OwnsRouterName(t, vm) ==> OwnsRouterName(s, vm))
  }

  /** What process r may rely on after a step that leaves it alone. */
  ghost predicate Framed(s: State, t: State, r: Serial) {
    && r in s.procs && ProcOk(s, r) && r in t.procs && t.procs[r] == s.procs[r]
    && Later(s, t)
    && (if NeedsBridge(s.procs[r].prog) then SameView(s, t, r)
        else s.procs[r].prog.Orphan? || NothingNew(s, t, s.procs[r].vm))
    && (NoDeviceNow(t, s.procs[r].prog) ==> forall d :: d in t.devices ==> d.owner != s.procs[r].vm)
    && (PastPoll(s.procs[r].prog) ==> !PipeHasReader(t, s.procs[r].vm))
    && (PreListener(s.procs[r].prog) ==> !OwnsDeadName(t, s.procs[r].vm))
  }

  lemma FrameMain(s: State, t: State, r: Serial)
    requires Framed(s, t, r) && s.procs[r].prog.Main?
    ensures ProcOk(t, r)
  {
  }

  lemma FrameOther(s: State, t: State, r: Serial)
    requires Framed(s, t, r) && !s.procs[r].prog.Main?
    ensures ProcOk(t, r)
  {
  }

  lemma FrameProc(s: State, t: State, r: Serial)
    requires Framed(s, t, r)
    ensures ProcOk(t, r)
  {
    if s.procs[r].prog.Main? { FrameMain(s, t, r); } else { FrameOther(s, t, r); }
  }

  /** The lock: whoever can change a bridge shares its pid with no other process that needs one. */
  lemma Alone(s: State, q: Serial, r: Serial)
    requires Core(s) && q in s.procs && r in s.procs && q != r
    requires Namer(s.procs[q].prog) && !Helper(s.procs[q].prog)
    requires Awaited(s.procs[q].prog).Some? ==> Awaited(s.procs[q].prog).value !in s.procs
    requires ProcOk(s, q) && ProcOk(s, r)
    requires s.procs[q].prog.Main? || PastPoll(s.procs[q].prog)
    requires NeedsBridge(s.procs[r].prog)
    ensures s.pids[s.procs[r].vm] != s.pids[s.procs[q].vm]
  {
    assert PairOk(s, q, r);
  }

  /** No descriptor is closed, so no tap loses its last one. */
  ghost predicate FdsGrow(s: State, t: State) {
    forall q :: q in s.procs ==> q in t.procs && s.procs[q].fds <= t.procs[q].fds
  }

  lemma HeldMono(s: State, t: State)
    requires FdsGrow(s, t)
    ensures HeldTaps(s.procs) <= HeldTaps(t.procs)
  {
  }

  /** One call by q: nobody is born, nobody dies, the others hold what they held. */
  ghost predicate OneMoves(s: State, t: State, q: Serial)
    requires q in s.procs
  {
    && t.procs.Keys == s.procs.Keys
    && (forall r :: r in s.procs && r != q ==> t.procs[r] == s.procs[r])
    && t.procs[q].vm == s.procs[q].vm
    && !Helper(s.procs[q].prog)
    && t.devices == s.devices && t.status == s.status
    && Later(s, t) && Heeds(s, t, q)
  }

  /** What a step must leave alone for the process r. */
  ghost predicate Undisturbed(s: State, t: State, r: Serial)
    requires r in s.procs && s.procs[r].vm in s.pids && s.procs[r].vm in t.pids
  {
    var proc := s.procs[r];
    && (if NeedsBridge(proc.prog) then SameView(s, t, r) else proc.prog.Orphan? || NothingNew(s, t, proc.vm))
    && (NoDeviceNow(t, proc.prog) ==> forall d :: d in t.devices ==> d.owner != proc.vm)
    && (PastPoll(proc.prog) ==> !PipeHasReader(t, proc.vm))
    && (PreListener(proc.prog) ==> !OwnsDeadName(t, proc.vm))
  }

  lemma OthersKept(s: State, t: State, q: Serial)
    requires Core(s) && Later(s, t)
    requires forall r :: r in s.procs && r in t.procs && r != q ==>
               t.procs[r] == s.procs[r] && ProcOk(s, r) && s.procs[r].vm in t.pids && Undisturbed(s, t, r)
    ensures forall r :: r in s.procs && r in t.procs && r != q ==> ProcOk(t, r)
  {
    forall r | r in s.procs && r in t.procs && r != q ensures ProcOk(t, r) {
      FrameProc(s, t, r);
    }
  }

  /** q gains no right to name the bridge, unless it was alone in its incarnation. */
  ghost predicate NoNewRights(was: Prog, prog: Prog) {
    && (Namer(prog) ==> Namer(was) || PreListener(was))
    && (PreListener(prog) ==> PreListener(was))
    && (PastPoll(prog) ==> was.Listener?)
    && (prog.Listener? && !PastPoll(prog) ==> was.Listener? && !PastPoll(was))
    && (Reader(was) && !was.Listener? && !PreListener(was) ==> Reader(prog) && !prog.Listener?)
  }

  ghost predicate NotWaiting(s: State, q: Serial)
    requires q in s.procs
  {
    Awaited(s.procs[q].prog).Some? ==> Awaited(s.procs[q].prog).value !in s.procs
  }

  lemma PairsKept(s: State, t: State, q: Serial)
    requires Core(s) && q in s.procs && OneMoves(s, t, q)
    requires NoNewRights(s.procs[q].prog, t.procs[q].prog)
    requires PastPoll(t.procs[q].prog) ==> PastPoll(s.procs[q].prog) || PollErr(s, s.procs[q].vm)
    requires NotWaiting(s, q) && Awaited(t.procs[q].prog) == None
    ensures PairsOk(t)
  {
    forall r, r' | r in t.procs && r' in t.procs ensures PairOk(t, r, r') {
      assert PairOk(s, r, r') && PairOk(s, r', r);
      assert ProcOk(s, r) && ProcOk(s, r');
    }
  }

  lemma DevicesKept(s: State, t: State)
    requires Core(s) && Later(s, t) && t.devices <= s.devices
    requires forall d :: d in t.devices && IsVmm(s, d.vmm) ==>
               && IsVmm(t, d.vmm)
               && (TapFd(d.ix) in s.procs[d.vmm].fds ==> TapFd(d.ix) in t.procs[d.vmm].fds)
    requires forall d :: d in t.devices && d.id in s.ifs ==> d.id in t.ifs && SameCore(s.ifs[d.id], t.ifs[d.id])
    ensures DevicesOk(t)
  {
    forall d | d in t.devices ensures DeviceOk(t, d) {
      assert DeviceOk(s, d);
    }
  }

  /** Nothing gets an index, and no device is new. */
  lemma BoundsKept(s: State, t: State)
    requires Bounds(s) && s.nextSerial <= t.nextSerial && s.nextIx == t.nextIx && s.made == t.made
    requires forall q :: q in t.procs || q in t.pids || q in t.status ==>
               q in s.procs || q in s.pids || q in s.status || q < t.nextSerial
    requires forall n :: n in t.ifs ==> n in s.ifs && t.ifs[n].ix == s.ifs[n].ix
    requires t.devices <= s.devices
    ensures Bounds(t)
  {
  }

  lemma SameIfs(s: State, t: State)
    requires Core(s) && Later(s, t) && FdsGrow(s, t) && t.ifs == s.ifs
    ensures IfsOk(t)
  {
    HeldMono(s, t);
    forall n | n in t.ifs ensures IfOk(t, n) {
      assert IfOk(s, n);
    }
  }

  // ---- requests without their ch-remote ----------------------------------------------------

  /** r does not learn anything that an abandoned request would deny. */
  ghost predicate Steady(s: State, t: State, r: Serial)
    requires r in s.procs && r in t.procs
  {
    var p, p' := s.procs[r], t.procs[r];
    && p'.vm == p.vm && (p.prog.Orphan? || p'.prog.Orphan? ==> p' == p)
    && (AddFailed(s, p.prog) ==> AddFailed(t, p'.prog))
    && (p'.prog.AddNetHelper? ==> p.prog.AddNetHelper?)
    && (Awaited(p.prog).Some? ==>
          Awaited(p'.prog) == Awaited(p.prog) ||
          (Awaited(p.prog).value in t.procs ==> !t.procs[Awaited(p.prog).value].prog.AddNetHelper?))
  }

  /** An abandoned request keeps its tap. */
  ghost predicate TapsStay(s: State, t: State) {
    forall r :: r in s.procs && r in t.procs && s.procs[r].prog.Orphan? && s.procs[r].prog.req.Add? ==>
      var vm, fd := s.procs[r].vm, s.procs[r].prog.req.fd;
      vm in s.pids && vm in t.pids && TapFd(fd) in s.procs[r].fds && OwnsTap(s, vm, Router, fd) ==>
        OwnsTap(t, vm, Router, fd)
  }

  lemma StraysKept(s: State, t: State)
    requires Inv(s) && Later(s, t) && t.devices <= s.devices && TapsStay(s, t)
    requires forall r :: r in t.procs ==> r in s.procs && Steady(s, t, r)
    ensures StraysOk(t)
  {
    forall r | r in t.procs ensures OrphanOk(t, r) {
      assert OrphanOk(s, r);
      assert Steady(s, t, r);
    }
    forall q, r | q in t.procs && r in t.procs ensures StrayOk(t, q, r) {
      assert StrayOk(s, q, r);
      assert Steady(s, t, q) && Steady(s, t, r);
    }
  }

  /** q does not overlook that its add-net failed. */
  ghost predicate Heeds(s: State, t: State, q: Serial)
    requires q in s.procs && q in t.procs
  {
    && !s.procs[q].prog.Orphan? && !t.procs[q].prog.Orphan? && !t.procs[q].prog.AddNetHelper?
    && (AddFailed(s, s.procs[q].prog) ==> AddFailed(t, t.procs[q].prog))
  }

  lemma StraysMoved(s: State, t: State, q: Serial)
    requires Inv(s) && q in s.procs && OneMoves(s, t, q) && NotWaiting(s, q) && TapsStay(s, t)
    ensures StraysOk(t)
  {
    forall r | r in t.procs ensures r in s.procs && Steady(s, t, r) {
    }
    StraysKept(s, t);
  }

  // ---- flags and masters ------------------------------------------------------------------

  ghost predicate MastersOk(s: State, t: State)
    requires Cosmetic(s.ifs, t.ifs)
  {
    forall n :: n in t.ifs && t.ifs[n].Tap? && t.ifs[n].master.Some? && t.ifs[n].master != s.ifs[n].master ==>
      && s.ifs[n].owner in s.pids
      && OwnsBridge(s, s.ifs[n].owner)
      && t.ifs[n].master == Some(s.ifs[Name(Br, s.pids[s.ifs[n].owner])].ix)
  }

  ghost predicate Flags(s: State, t: State, q: Serial)
    requires q in s.procs
  {
    && OneMoves(s, t, q) && !IsVmm(s, q)
    && t.procs[q].fds == s.procs[q].fds
    && t == s.(procs := t.procs, ifs := t.ifs)
    && Cosmetic(s.ifs, t.ifs) && MastersOk(s, t)
  }

  lemma FlagsIfs(s: State, t: State, q: Serial)
    requires Core(s) && q in s.procs && Flags(s, t, q)
    ensures IfsOk(t)
    ensures DevicesOk(t)
  {
    HeldMono(s, t);
    forall n | n in t.ifs ensures IfOk(t, n) {
      assert IfOk(s, n);
    }
    DevicesKept(s, t);
  }

  lemma FlagsOthers(s: State, t: State, q: Serial)
    requires Core(s) && q in s.procs && Flags(s, t, q)
    ensures forall r :: r in t.procs && r != q ==> ProcOk(t, r)
  {
    forall r | r in s.procs && r != q
      ensures ProcOk(s, r) && Undisturbed(s, t, r)
    {
      assert ProcOk(s, r);
    }
    OthersKept(s, t, q);
  }

  /** The new program point claims nothing the old one did not provide. */
  ghost predicate SafeMove(s: State, q: Serial, prog: Prog)
    requires q in s.procs && s.procs[q].vm in s.pids
  {
    var was := s.procs[q].prog;
    var vm := s.procs[q].vm;
    var router := Name(Router, s.pids[vm]);
    && NotWaiting(s, q) && Awaited(prog) == None && (AddFailed(s, was) ==> AddFailed(s, prog))
    && (match prog
        case Main(_, _) => was.Main?
        case Listener(_) => was.Listener?
        case Bare => was.Bare?
        case _ => false)
    && NoNewRights(was, prog) && (Namer(prog) ==> Namer(was)) && (NeedsBridge(prog) ==> NeedsBridge(was))
    && (PastPoll(prog) ==> PastPoll(was) || PollErr(s, vm))
    && (NoBridgeAt(prog) ==> NoBridgeAt(was))
    && (RouterKnown(prog) ==> RouterKnown(was) || (router in s.ifs && s.ifs[router].owner == vm))
    && (FreedAt(prog) ==> FreedAt(was)) && (RenamedAt(prog) ==> RenamedAt(was) || FreedAt(was))
    && (NoDeviceAt(prog) ==> NoDeviceNow(s, was))
  }

  /** The descriptors left are those the new program point stands for. */
  ghost predicate SafeFds(s: State, q: Serial, prog: Prog, fds: set<Fd>)
    requires q in s.procs
  {
    var was := s.procs[q].prog;
    && fds <= s.procs[q].fds
    && (PipeRead(s.procs[q].vm) in fds <==> Reader(prog))
    && (prog.Main? && was.Main? ==>
          && (!prog.pc.Running? ==> fds == SetupFds(q, prog.pc, prog.client))
          && (was.pc.Running? ==> prog == was)
          && (ClientUnset(prog.pc) ==> ClientUnset(was.pc) && prog.client == was.client)
          && (NewTap(prog.pc).Some? ==> NewTap(prog.pc) == NewTap(was.pc) && prog.client == was.client))
  }

  ghost predicate FlagsSafely(s: State, t: State, q: Serial)
    requires q in s.procs
  {
    && Flags(s, t, q) && ProcOk(s, q) && SafeMove(s, q, t.procs[q].prog)
    && SafeFds(s, q, t.procs[q].prog, t.procs[q].fds) && TapsOk(s, t.procs[q])
  }

  lemma FlagsHeld(s: State, t: State, q: Serial)
    requires q in s.procs && FlagsSafely(s, t, q)
    ensures forall fd :: fd in t.procs[q].fds ==> MayHold(t, t.procs[q], fd)
    ensures PastPoll(t.procs[q].prog) ==> !PipeHasReader(t, t.procs[q].vm)
  {
  }

  lemma FlagsMain(s: State, t: State, q: Serial)
    requires q in s.procs && FlagsSafely(s, t, q) && t.procs[q].prog.Main?
    ensures ProcOk(t, q)
  {
    FlagsHeld(s, t, q);
  }

  lemma FlagsListener(s: State, t: State, q: Serial)
    requires q in s.procs && FlagsSafely(s, t, q) && t.procs[q].prog.Listener?
    ensures ProcOk(t, q)
  {
  }

  lemma KeepFlags(s: State, t: State, q: Serial)
    requires Inv(s) && q in s.procs && Flags(s, t, q)
    requires s.procs[q].vm in s.pids && SafeMove(s, q, t.procs[q].prog)
    requires SafeFds(s, q, t.procs[q].prog, t.procs[q].fds) && TapsOk(s, t.procs[q])
    ensures Inv(t)
  {
    assert ProcOk(s, q);
    if t.procs[q].prog.Main? { FlagsMain(s, t, q); } else { FlagsListener(s, t, q); }
    BoundsKept(s, t);
    FlagsOthers(s, t, q);
    PairsKept(s, t, q);
    StraysMoved(s, t, q);
    FlagsIfs(s, t, q);
  }

  ghost predicate MayGo(s: State, q: Serial, prog: Prog)
    requires q in s.procs && s.procs[q].vm in s.pids
  {
    SafeMove(s, q, prog) && SafeFds(s, q, prog, s.procs[q].fds) && TapsOk(s, s.procs[q].(prog := prog))
  }

  ghost predicate MayMove(s: State, q: Serial, prog: Prog) {
    Inv(s) && q in s.procs && s.procs[q].vm in s.pids && !IsVmm(s, q) && MayGo(s, q, prog)
  }

  lemma KeepGoto(s: State, q: Serial, prog: Prog)
    requires MayMove(s, q, prog)
    ensures Inv(Goto(s, q, prog))
  {
    KeepFlags(s, Goto(s, q, prog), q);
  }

  lemma SetUpFlags(s: State, q: Serial, prog: Prog, n: IfName, up: bool)
    requires MayMove(s, q, prog) && n in s.ifs
    ensures Flags(s, Goto(s, q, prog).(ifs := SetUp(s.ifs, n, up)), q)
  {
  }

  lemma KeepSetUp(s: State, q: Serial, prog: Prog, n: IfName, up: bool)
    requires MayMove(s, q, prog) && n in s.ifs
    ensures Inv(Goto(s, q, prog).(ifs := SetUp(s.ifs, n, up)))
  {
    SetUpFlags(s, q, prog, n, up);
    KeepFlags(s, Goto(s, q, prog).(ifs := SetUp(s.ifs, n, up)), q);
  }

  lemma KeepSetMaster(s: State, q: Serial, prog: Prog, ix: Ix, master: Option<Ix>)
    requires MayMove(s, q, prog)
    requires master.Some? ==>
               && OwnsBridge(s, s.procs[q].vm) && master == Some(s.ifs[Name(Br, s.pids[s.procs[q].vm])].ix)
               && forall n :: n in s.ifs && s.ifs[n].ix == ix ==> s.ifs[n].owner == s.procs[q].vm
    ensures Inv(Goto(s, q, prog).(ifs := SetMaster(s.ifs, ix, master)))
  {
    KeepFlags(s, Goto(s, q, prog).(ifs := SetMaster(s.ifs, ix, master)), q);
  }

  // ---- a new interface --------------------------------------------------------------------

  ghost predicate Adds(s: State, t: State, q: Serial, k: Kind)
    requires q in s.procs && q in s.pids
  {
    var n := Name(k, s.pids[q]);
    && OneMoves(s, t, q) && s.procs[q].vm == q && PreListener(s.procs[q].prog)
    && s.procs[q].fds <= t.procs[q].fds
    && n !in s.ifs && n in t.ifs && t.ifs == s.ifs[n := t.ifs[n]]
    && t.ifs[n].ix == s.nextIx && t.ifs[n].owner == q
    && t.made == s.made[s.nextIx := Maker(q, k)] && t.nextIx == s.nextIx + 1
    && t == s.(procs := t.procs, ifs := t.ifs, made := t.made, nextIx := t.nextIx)
    && (if k == Br then t.ifs[n].Bridge?
        else t.ifs[n].Tap? && t.ifs[n].master == None && TapFd(s.nextIx) in t.procs[q].fds)
  }

  lemma AddsIfs(s: State, t: State, q: Serial, k: Kind)
    requires Core(s) && q in s.procs && q in s.pids && k != Dead && Adds(s, t, q, k)
    ensures IfsOk(t)
    ensures forall m, n :: m in t.ifs && n in t.ifs && t.ifs[m].ix == t.ifs[n].ix ==> m == n
    ensures DevicesOk(t)
  {
    assert FdsGrow(s, t);
    HeldMono(s, t);
    forall n | n in t.ifs ensures IfOk(t, n) {
      if n in s.ifs { assert IfOk(s, n); }
    }
    forall n | n in s.ifs ensures s.ifs[n].ix < s.nextIx {
      assert IfOk(s, n);
    }
    DevicesKept(s, t);
  }

  lemma AddsOther(s: State, t: State, q: Serial, k: Kind, r: Serial)
    requires Core(s) && q in s.procs && q in s.pids && Adds(s, t, q, k)
    requires NotWaiting(s, q)
    requires k != Br ==> Namer(s.procs[q].prog)
    requires forall vm :: PipeRead(vm) in t.procs[q].fds ==> PipeRead(vm) in s.procs[q].fds
    requires r in s.procs && r != q
    ensures ProcOk(s, r) && s.procs[r].vm in t.pids && Undisturbed(s, t, r)
  {
    assert ProcOk(s, q) && ProcOk(s, r);
    assert PairOk(s, q, r);
    if NeedsBridge(s.procs[r].prog) && k != Br { Alone(s, q, r); }
  }

  lemma AddsOthers(s: State, t: State, q: Serial, k: Kind)
    requires Core(s) && q in s.procs && q in s.pids && Adds(s, t, q, k)
    requires NotWaiting(s, q)
    requires k != Br ==> Namer(s.procs[q].prog)
    requires forall vm :: PipeRead(vm) in t.procs[q].fds ==> PipeRead(vm) in s.procs[q].fds
    ensures forall r :: r in t.procs && r != q ==> ProcOk(t, r)
  {
    forall r | r in s.procs && r != q
      ensures ProcOk(s, r) && Undisturbed(s, t, r)
    {
      AddsOther(s, t, q, k, r);
    }
    OthersKept(s, t, q);
  }

  lemma KeepAdds(s: State, t: State, q: Serial, k: Kind)
    requires Inv(s) && q in s.procs && q in s.pids && k != Dead && Adds(s, t, q, k)
    requires k != Br ==> Namer(s.procs[q].prog)
    requires forall vm :: PipeRead(vm) in t.procs[q].fds ==> PipeRead(vm) in s.procs[q].fds
    requires NoNewRights(s.procs[q].prog, t.procs[q].prog)
    requires PastPoll(t.procs[q].prog) ==> PastPoll(s.procs[q].prog)
    requires NotWaiting(s, q) && Awaited(t.procs[q].prog) == None
    requires ProcOk(t, q)
    ensures Inv(t)
  {
    AddsOthers(s, t, q, k);
    PairsKept(s, t, q);
    StraysMoved(s, t, q);
    AddsIfs(s, t, q, k);
  }

  // ---- a bridge is deleted ----------------------------------------------------------------

  ghost predicate Deletes(s: State, t: State, q: Serial)
    requires q in s.procs && s.procs[q].vm in s.pids
  {
    var br := Name(Br, s.pids[s.procs[q].vm]);
    && OneMoves(s, t, q) && !IsVmm(s, q)
    && t.procs[q].fds == s.procs[q].fds
    && Namer(s.procs[q].prog) && (s.procs[q].prog.Main? || PastPoll(s.procs[q].prog))
    && IsBridge(s.ifs, br)
    && t == s.(procs := t.procs, ifs := DeleteBridge(s.ifs, br))
  }

  lemma DeletesIfs(s: State, t: State, q: Serial)
    requires Core(s) && q in s.procs && s.procs[q].vm in s.pids && Deletes(s, t, q)
    ensures IfsOk(t)
    ensures DevicesOk(t)
  {
    HeldMono(s, t);
    forall n | n in t.ifs ensures IfOk(t, n) {
      assert IfOk(s, n);
    }
    forall d | d in s.devices ensures d.id.kind == Router {
      assert DeviceOk(s, d);
    }
    DevicesKept(s, t);
  }

  lemma DeletesNeeded(s: State, t: State, q: Serial, r: Serial)
    requires Core(s) && q in s.procs && s.procs[q].vm in s.pids && Deletes(s, t, q) && NotWaiting(s, q)
    requires r in s.procs && r != q && NeedsBridge(s.procs[r].prog)
    ensures s.procs[r].vm in s.pids && SameView(s, t, r)
  {
    assert ProcOk(s, q) && ProcOk(s, r);
    Alone(s, q, r);
  }

  lemma DeletesNothingNew(s: State, t: State, q: Serial, vm: Serial)
    requires q in s.procs && s.procs[q].vm in s.pids && Deletes(s, t, q) && vm in s.pids
    ensures NothingNew(s, t, vm) && (OwnsDeadName(t, vm) ==> OwnsDeadName(s, vm))
  {
  }

  lemma DeletesOther(s: State, t: State, q: Serial, r: Serial)
    requires Core(s) && q in s.procs && s.procs[q].vm in s.pids && Deletes(s, t, q) && NotWaiting(s, q)
    requires r in s.procs && r != q
    ensures ProcOk(s, r) && s.procs[r].vm in t.pids && Undisturbed(s, t, r)
  {
    assert ProcOk(s, r);
    DeletesNothingNew(s, t, q, s.procs[r].vm);
    if NeedsBridge(s.procs[r].prog) { DeletesNeeded(s, t, q, r); }
  }

  lemma DeletesOthers(s: State, t: State, q: Serial)
    requires Core(s) && q in s.procs && s.procs[q].vm in s.pids && Deletes(s, t, q) && NotWaiting(s, q)
    ensures forall r :: r in t.procs && r != q ==> ProcOk(t, r)
  {
    forall r | r in s.procs && r != q
      ensures ProcOk(s, r) && Undisturbed(s, t, r)
    {
      DeletesOther(s, t, q, r);
    }
    OthersKept(s, t, q);
  }

  lemma DeletesPairs(s: State, t: State, q: Serial)
    requires Inv(s) && q in s.procs && s.procs[q].vm in s.pids && Deletes(s, t, q)
    requires NoNewRights(s.procs[q].prog, t.procs[q].prog)
    requires PastPoll(t.procs[q].prog) ==> PastPoll(s.procs[q].prog)
    requires NotWaiting(s, q) && Awaited(t.procs[q].prog) == None
    ensures PairsOk(t)
    ensures StraysOk(t)
  {
    PairsKept(s, t, q);
    StraysMoved(s, t, q);
  }

  lemma KeepDeletes(s: State, t: State, q: Serial)
    requires Inv(s) && q in s.procs && s.procs[q].vm in s.pids && Deletes(s, t, q)
    requires NoNewRights(s.procs[q].prog, t.procs[q].prog)
    requires PastPoll(t.procs[q].prog) ==> PastPoll(s.procs[q].prog)
    requires NotWaiting(s, q) && Awaited(t.procs[q].prog) == None
    requires ProcOk(t, q)
    ensures Inv(t)
  {
    BoundsKept(s, t);
    DeletesOthers(s, t, q);
    DeletesPairs(s, t, q);
    DeletesIfs(s, t, q);
  }

  // ---- the router tap is renamed ----------------------------------------------------------

  ghost predicate Renames(s: State, t: State, q: Serial)
    requires q in s.procs && s.procs[q].vm in s.pids
  {
    var p := s.pids[s.procs[q].vm];
    && OneMoves(s, t, q) && s.procs[q].prog == Listener(RenameRouter)
    && t.procs[q].fds == s.procs[q].fds
    && Name(Router, p) in s.ifs && Name(Dead, p) !in s.ifs
    && t == s.(procs := t.procs, ifs := Rename(s.ifs, Name(Router, p), Name(Dead, p)))
  }

  lemma RenamesIfs(s: State, t: State, q: Serial)
    requires Core(s) && q in s.procs && s.procs[q].vm in s.pids && Renames(s, t, q)
    ensures IfsOk(t)
    ensures forall m, n :: m in t.ifs && n in t.ifs && t.ifs[m].ix == t.ifs[n].ix ==> m == n
    ensures DevicesOk(t)
  {
    var router := Name(Router, s.pids[s.procs[q].vm]);
    HeldMono(s, t);
    assert ProcOk(s, q);
    assert IfOk(s, router);
    forall n | n in t.ifs ensures IfOk(t, n) {
      if n in s.ifs { assert IfOk(s, n); }
    }
    forall d | d in s.devices ensures d.id != router {
      assert DeviceOk(s, d);
    }
    DevicesKept(s, t);
  }

  lemma RenamesNeeded(s: State, t: State, q: Serial, r: Serial)
    requires Core(s) && q in s.procs && s.procs[q].vm in s.pids && Renames(s, t, q)
    requires r in s.procs && r != q && NeedsBridge(s.procs[r].prog)
    ensures s.procs[r].vm in s.pids && SameView(s, t, r)
  {
    assert ProcOk(s, q) && ProcOk(s, r);
    Alone(s, q, r);
  }

  lemma RenamesNothingNew(s: State, t: State, q: Serial, vm: Serial)
    requires Core(s) && q in s.procs && s.procs[q].vm in s.pids && Renames(s, t, q) && vm in s.pids
    ensures NothingNew(s, t, vm)
    ensures vm != s.procs[q].vm && OwnsDeadName(t, vm) ==> OwnsDeadName(s, vm)
  {
    assert ProcOk(s, q);
  }

  lemma RenamesOther(s: State, t: State, q: Serial, r: Serial)
    requires Core(s) && q in s.procs && s.procs[q].vm in s.pids && Renames(s, t, q)
    requires r in s.procs && r != q
    ensures ProcOk(s, r) && s.procs[r].vm in t.pids && Undisturbed(s, t, r)
  {
    assert ProcOk(s, r) && PairOk(s, q, r);
    RenamesNothingNew(s, t, q, s.procs[r].vm);
    if NeedsBridge(s.procs[r].prog) { RenamesNeeded(s, t, q, r); }
  }

  lemma RenamesOthers(s: State, t: State, q: Serial)
    requires Core(s) && q in s.procs && s.procs[q].vm in s.pids && Renames(s, t, q)
    ensures forall r :: r in t.procs && r != q ==> ProcOk(t, r)
  {
    forall r | r in s.procs && r != q
      ensures ProcOk(s, r) && Undisturbed(s, t, r)
    {
      RenamesOther(s, t, q, r);
    }
    OthersKept(s, t, q);
  }

  lemma RenamesTaps(s: State, t: State, q: Serial)
    requires Inv(s) && q in s.procs && s.procs[q].vm in s.pids && Renames(s, t, q)
    ensures TapsStay(s, t)
  {
    forall r | r in s.procs && s.procs[r].prog.Orphan? && s.procs[r].prog.req.Add?
      ensures s.procs[r].vm in s.pids && s.pids[s.procs[r].vm] != s.pids[s.procs[q].vm]
    {
      assert OrphanOk(s, r) && StrayOk(s, q, r);
      assert ProcOk(s, q);
    }
  }

  lemma KeepRenames(s: State, t: State, q: Serial)
    requires Inv(s) && q in s.procs && s.procs[q].vm in s.pids && Renames(s, t, q)
    requires NoNewRights(s.procs[q].prog, t.procs[q].prog) && Awaited(t.procs[q].prog) == None
    requires ProcOk(t, q)
    ensures Inv(t)
  {
    RenamesOthers(s, t, q);
    PairsKept(s, t, q);
    RenamesTaps(s, t, q);
    StraysMoved(s, t, q);
    RenamesIfs(s, t, q);
  }

  // ---- descriptors are closed -------------------------------------------------------------

  ghost predicate ReapedIn(s: State, t: State) {
    t.ifs == Reap(s.ifs, HeldTaps(t.procs))
  }

  lemma ReapedView(s: State, t: State, r: Serial)
    requires r in s.procs && s.procs[r].vm in s.pids && r in t.procs && t.procs[r] == s.procs[r]
    requires Core(s) && ReapedIn(s, t)
    ensures SameView(s, t, r)
  {
    var br := Name(Br, s.pids[s.procs[r].vm]);
    assert br in s.ifs ==> IfOk(s, br);
    forall n | n in s.ifs && TapFd(s.ifs[n].ix) in s.procs[r].fds ensures n in t.ifs {
      assert s.ifs[n].ix in HeldTaps(t.procs);
    }
  }

  ghost predicate Closes(s: State, t: State, q: Serial)
    requires q in s.procs
  {
    && OneMoves(s, t, q)
    && t.procs[q].fds <= s.procs[q].fds
    && t == s.(procs := t.procs, ifs := t.ifs) && ReapedIn(s, t)
    && (IsVmm(s, q) ==>
          && t.procs[q].prog == s.procs[q].prog
          && forall d :: d in s.devices && d.vmm == q && TapFd(d.ix) in s.procs[q].fds ==>
               TapFd(d.ix) in t.procs[q].fds)
  }

  lemma ClosesIfs(s: State, t: State, q: Serial)
    requires Core(s) && q in s.procs && Closes(s, t, q)
    ensures IfsOk(t)
    ensures DevicesOk(t)
  {
    forall n | n in t.ifs ensures IfOk(t, n) {
      assert IfOk(s, n);
    }
    forall d | d in s.devices ensures d.id in t.ifs && SameCore(s.ifs[d.id], t.ifs[d.id]) {
      assert DeviceOk(s, d);
      assert TapFd(d.ix) in t.procs[d.vmm].fds;
      assert d.ix in HeldTaps(t.procs);
    }
    DevicesKept(s, t);
  }

  lemma ClosesOthers(s: State, t: State, q: Serial)
    requires Core(s) && q in s.procs && Closes(s, t, q)
    ensures forall r :: r in t.procs && r != q ==> ProcOk(t, r)
  {
    forall r | r in s.procs && r != q
      ensures ProcOk(s, r) && Undisturbed(s, t, r)
    {
      assert ProcOk(s, r);
      ReapedView(s, t, r);
    }
    OthersKept(s, t, q);
  }

  ghost predicate NamesNoTap(prog: Prog) {
    match prog
    case Main(pc, _) => NewTap(pc) == None
    case Listener(pc) => !pc.LeaveBridge?
    case Bare => true
    case _ => false
  }

  ghost predicate ClosesSafely(s: State, t: State, q: Serial)
    requires q in s.procs
  {
    && Closes(s, t, q) && ProcOk(s, q) && SafeMove(s, q, t.procs[q].prog)
    && SafeFds(s, q, t.procs[q].prog, t.procs[q].fds) && NamesNoTap(t.procs[q].prog)
    && var br := Name(Br, s.pids[s.procs[q].vm]); br in s.ifs ==> s.ifs[br].Bridge?
  }

  lemma ClosesMain(s: State, t: State, q: Serial)
    requires q in s.procs && ClosesSafely(s, t, q) && t.procs[q].prog.Main?
    ensures ProcOk(t, q)
  {
  }

  lemma ClosesOther(s: State, t: State, q: Serial)
    requires q in s.procs && ClosesSafely(s, t, q) && !t.procs[q].prog.Main?
    ensures ProcOk(t, q)
  {
  }

  lemma ClosesIs(s: State, q: Serial, fds: set<Fd>, prog: Prog)
    requires q in s.procs && s.procs[q].vm in s.pids && SafeMove(s, q, prog)
    requires SafeFds(s, q, prog, s.procs[q].fds - fds)
    requires IsVmm(s, q) ==> forall d :: d in s.devices && d.vmm == q ==> TapFd(d.ix) !in fds
    ensures Closes(s, Close(s, q, fds, prog), q)
  {
  }

  lemma ClosesHere(s: State, q: Serial, fds: set<Fd>, prog: Prog)
    requires Core(s) && q in s.procs && s.procs[q].vm in s.pids && SafeMove(s, q, prog) && NamesNoTap(prog)
    requires SafeFds(s, q, prog, s.procs[q].fds - fds)
    requires IsVmm(s, q) ==> forall d :: d in s.devices && d.vmm == q ==> TapFd(d.ix) !in fds
    ensures ClosesSafely(s, Close(s, q, fds, prog), q)
  {
    var br := Name(Br, s.pids[s.procs[q].vm]);
    ClosesIs(s, q, fds, prog);
    assert ProcOk(s, q);
    assert br in s.ifs ==> IfOk(s, br);
  }

  lemma ClosesPairs(s: State, t: State, q: Serial)
    requires Inv(s) && q in s.procs && ClosesSafely(s, t, q)
    ensures PairsOk(t)
    ensures StraysOk(t)
  {
    PairsKept(s, t, q);
    StraysMoved(s, t, q);
  }

  lemma KeepClose(s: State, q: Serial, fds: set<Fd>, prog: Prog)
    requires Inv(s) && q in s.procs && s.procs[q].vm in s.pids && SafeMove(s, q, prog) && NamesNoTap(prog)
    requires SafeFds(s, q, prog, s.procs[q].fds - fds)
    requires IsVmm(s, q) ==> forall d :: d in s.devices && d.vmm == q ==> TapFd(d.ix) !in fds
    ensures Inv(Close(s, q, fds, prog))
  {
    var t := Close(s, q, fds, prog);
    ClosesHere(s, q, fds, prog);
    if prog.Main? { ClosesMain(s, t, q); } else { ClosesOther(s, t, q); }
    BoundsKept(s, t);
    ClosesOthers(s, t, q);
    ClosesPairs(s, t, q);
    ClosesIfs(s, t, q);
  }

  // ---- a child is forked ------------------------------------------------------------------

  ghost predicate Forks(s: State, t: State, q: Serial)
    requires q in s.procs
  {
    var c := s.nextSerial;
    && q in t.procs && c in t.procs && q != c
    && t.procs == s.procs[q := s.procs[q].(prog := t.procs[q].prog)][c := s.procs[q].(prog := t.procs[c].prog)]
    && t == s.(procs := t.procs, nextSerial := c + 1)
    && !Helper(s.procs[q].prog)
    && (IsVmm(s, q) ==> IsVmm(t, q))
    && (Namer(t.procs[c].prog) ==> Namer(s.procs[q].prog))
    && (Helper(t.procs[c].prog) ==> Awaited(t.procs[q].prog) == Some(c))
    && (t.procs[c].prog.Listener? ==>
          && !PastPoll(t.procs[c].prog) && PreListener(s.procs[q].prog)
          && t.procs[q].prog.Main? && t.procs[q].prog.pc.CloseWrite?)
    && (t.procs[c].prog.Descendant? ==>
          && t.procs[q].prog == s.procs[q].prog && !PreListener(s.procs[q].prog) && !s.procs[q].prog.Listener?
          && Reader(t.procs[c].prog) == Reader(s.procs[q].prog))
    && (PastPoll(t.procs[q].prog) ==> PastPoll(s.procs[q].prog))
    && !t.procs[c].prog.Main? && !t.procs[c].prog.Bare?
    && NoNewRights(s.procs[q].prog, t.procs[q].prog)
    && Awaited(s.procs[q].prog) == None
    && !s.procs[q].prog.Orphan? && !t.procs[q].prog.Orphan? && !t.procs[c].prog.Orphan?
    && !AddFailed(s, s.procs[q].prog) && !t.procs[q].prog.AddNetHelper?
    && (t.procs[c].prog.AddNetHelper? ==> PreListener(s.procs[q].prog))
  }

  /** A process that forks knows of no failure, so there is no request to add a device. */
  lemma ForksStray(s: State, t: State, q: Serial, r: Serial, r': Serial)
    requires Inv(s) && q in s.procs && Forks(s, t, q) && r in s.procs && r' in s.procs
    ensures t.procs[r].vm in t.pids && t.procs[r'].vm in t.pids && StrayOk(t, r, r')
  {
    assert ProcOk(s, r);
    assert StrayOk(s, r, r') && StrayOk(s, q, r');
  }

  lemma ForksStrayNew(s: State, t: State, q: Serial, r: Serial)
    requires Inv(s) && q in s.procs && Forks(s, t, q) && r in s.procs
    ensures var c := s.nextSerial;
            t.procs[r].vm in t.pids && t.procs[c].vm in t.pids && StrayOk(t, r, c) && StrayOk(t, c, r)
  {
    assert StrayOk(s, q, r) && PairOk(s, q, r);
    assert OrphanOk(s, q) && OrphanOk(s, r);
  }

  lemma ForksStrays(s: State, t: State, q: Serial)
    requires Inv(s) && q in s.procs && Forks(s, t, q)
    ensures StraysOk(t)
  {
    assert OrphanOk(s, q);
    forall r | r in t.procs ensures OrphanOk(t, r) {
      if r in s.procs { assert OrphanOk(s, r); }
    }
    forall r, r' | r in t.procs && r' in t.procs ensures StrayOk(t, r, r') {
      if r in s.procs && r' in s.procs {
        ForksStray(s, t, q, r, r');
      } else if r in s.procs {
        ForksStrayNew(s, t, q, r);
      } else if r' in s.procs {
        ForksStrayNew(s, t, q, r');
      }
    }
  }

  lemma ForksPairOld(s: State, t: State, q: Serial, r: Serial, r': Serial)
    requires Core(s) && q in s.procs && Forks(s, t, q) && r in s.procs && r' in s.procs
    ensures PairOk(t, r, r')
  {
    assert PairOk(s, r, r') && PairOk(s, r', r);
    assert ProcOk(s, r) && ProcOk(s, r');
  }

  lemma ForksPairNew(s: State, t: State, q: Serial, r: Serial)
    requires Core(s) && q in s.procs && Forks(s, t, q) && r in s.procs
    ensures PairOk(t, r, s.nextSerial) && PairOk(t, s.nextSerial, r)
  {
    if r != q {
      assert PairOk(s, q, r) && PairOk(s, r, q);
      assert ProcOk(s, q) && ProcOk(s, r);
    }
  }

  lemma ForksPairs(s: State, t: State, q: Serial)
    requires Core(s) && q in s.procs && Forks(s, t, q)
    ensures PairsOk(t)
  {
    forall r, r' | r in t.procs && r' in t.procs ensures PairOk(t, r, r') {
      if r in s.procs && r' in s.procs {
        ForksPairOld(s, t, q, r, r');
      } else if r in s.procs {
        ForksPairNew(s, t, q, r);
      } else if r' in s.procs {
        ForksPairNew(s, t, q, r');
      }
    }
  }

  lemma ForksIfs(s: State, t: State, q: Serial)
    requires Core(s) && q in s.procs && Forks(s, t, q)
    ensures IfsOk(t)
    ensures DevicesOk(t)
  {
    SameIfs(s, t);
    DevicesKept(s, t);
  }

  lemma ForksOther(s: State, t: State, q: Serial, r: Serial)
    requires Core(s) && q in s.procs && Forks(s, t, q)
    requires r in s.procs && r != q
    ensures ProcOk(s, r) && s.procs[r].vm in t.pids && Undisturbed(s, t, r)
  {
    assert ProcOk(s, r);
    if PipeHasReader(t, s.procs[r].vm) {
      var x :| x in t.procs && PipeRead(s.procs[r].vm) in t.procs[x].fds;
      assert PipeRead(s.procs[r].vm) in s.procs[if x == s.nextSerial then q else x].fds;
    }
  }

  lemma ForksOthers(s: State, t: State, q: Serial)
    requires Core(s) && q in s.procs && Forks(s, t, q)
    ensures forall r :: r in s.procs && r != q ==> r in t.procs && ProcOk(t, r)
  {
    forall r | r in s.procs && r != q
      ensures ProcOk(s, r) && Undisturbed(s, t, r)
    {
      ForksOther(s, t, q, r);
    }
    OthersKept(s, t, q);
  }

  lemma KeepForks(s: State, t: State, q: Serial)
    requires Inv(s) && q in s.procs && Forks(s, t, q)
    requires ProcOk(t, q) && ProcOk(t, s.nextSerial)
    ensures Inv(t)
  {
    BoundsKept(s, t);
    ForksOthers(s, t, q);
    ForksPairs(s, t, q);
    ForksIfs(s, t, q);
    ForksStrays(s, t, q);
  }

  // ---- the exit pipe is made --------------------------------------------------------------

  ghost predicate Pipes(s: State, t: State, q: Serial)
    requires q in s.procs
  {
    && OneMoves(s, t, q)
    && PreListener(s.procs[q].prog) && s.procs[q].vm == q
    && t.procs[q].fds == s.procs[q].fds + {PipeRead(q), PipeWrite(q)}
    && t == s.(procs := t.procs)
  }

  lemma PipesOther(s: State, t: State, q: Serial, r: Serial)
    requires Core(s) && q in s.procs && Pipes(s, t, q) && NotWaiting(s, q)
    requires r in s.procs && r != q
    ensures ProcOk(s, r) && s.procs[r].vm in t.pids && Undisturbed(s, t, r)
  {
    assert ProcOk(s, r);
    assert PairOk(s, q, r);
    if PipeHasReader(t, s.procs[r].vm) {
      var x :| x in t.procs && PipeRead(s.procs[r].vm) in t.procs[x].fds;
      assert x == q || PipeHasReader(s, s.procs[r].vm);
    }
  }

  lemma PipesOthers(s: State, t: State, q: Serial)
    requires Core(s) && q in s.procs && Pipes(s, t, q) && NotWaiting(s, q)
    ensures forall r :: r in t.procs && r != q ==> ProcOk(t, r)
  {
    forall r | r in s.procs && r != q
      ensures ProcOk(s, r) && Undisturbed(s, t, r)
    {
      PipesOther(s, t, q, r);
    }
    OthersKept(s, t, q);
  }

  lemma KeepPipes(s: State, t: State, q: Serial)
    requires Inv(s) && q in s.procs && Pipes(s, t, q)
    requires NoNewRights(s.procs[q].prog, t.procs[q].prog)
    requires PastPoll(t.procs[q].prog) ==> PastPoll(s.procs[q].prog)
    requires NotWaiting(s, q) && Awaited(t.procs[q].prog) == None
    requires ProcOk(t, q)
    ensures Inv(t)
  {
    BoundsKept(s, t);
    PipesOthers(s, t, q);
    PairsKept(s, t, q);
    StraysMoved(s, t, q);
    SameIfs(s, t);
    DevicesKept(s, t);
  }

  // ---- a process ends ---------------------------------------------------------------------

  lemma GoneOthers(s: State, q: Serial, killed: bool)
    requires Core(s) && q in s.procs
    ensures var t := Gone(s, q, killed); forall r :: r in t.procs ==> ProcOk(t, r)
  {
    var t := Gone(s, q, killed);
    forall r | r in s.procs && r != q
      ensures ProcOk(s, r) && Undisturbed(s, t, r)
    {
      assert ProcOk(s, r);
      ReapedView(s, t, r);
    }
    OthersKept(s, t, q);
  }

  lemma GoneIfs(s: State, q: Serial, killed: bool)
    requires Core(s) && q in s.procs
    ensures IfsOk(Gone(s, q, killed)) && DevicesOk(Gone(s, q, killed))
  {
    var t := Gone(s, q, killed);
    forall n | n in t.ifs ensures IfOk(t, n) {
      assert IfOk(s, n);
    }
    forall d | d in t.devices ensures d.id in t.ifs && SameCore(s.ifs[d.id], t.ifs[d.id]) {
      assert DeviceOk(s, d);
      assert TapFd(d.ix) in t.procs[d.vmm].fds;
      assert d.ix in HeldTaps(t.procs);
    }
    DevicesKept(s, t);
  }

  lemma GoneStrays(s: State, q: Serial, killed: bool)
    requires Inv(s) && q in s.procs
    ensures StraysOk(Gone(s, q, killed))
  {
    var t := Gone(s, q, killed);
    forall r | r in t.procs ensures r in s.procs && Steady(s, t, r) {
    }
    forall r | r in t.procs && s.procs[r].prog.Orphan? && s.procs[r].prog.req.Add?
               && TapFd(s.procs[r].prog.req.fd) in s.procs[r].fds
      ensures s.procs[r].prog.req.fd in HeldTaps(t.procs)
    {
      assert TapFd(s.procs[r].prog.req.fd) in t.procs[r].fds;
    }
    StraysKept(s, t);
  }

  lemma KeepGone(s: State, q: Serial, killed: bool)
    requires Inv(s) && q in s.procs
    ensures Inv(Gone(s, q, killed))
  {
    var t := Gone(s, q, killed);
    BoundsKept(s, t);
    GoneOthers(s, q, killed);
    GoneIfs(s, q, killed);
    GoneStrays(s, q, killed);
    forall r, r' | r in t.procs && r' in t.procs ensures PairOk(t, r, r') {
      assert PairOk(s, r, r');
    }
  }

  ghost predicate Starts(s: State, t: State) {
    var c := s.nextSerial;
    && c in t.pids && c in t.procs
    && (t.procs[c].prog == Main(AddBridge, None) || t.procs[c].prog == Bare)
    && t.procs == s.procs[c := Proc(c, t.procs[c].prog, {})]
    && t.pids == s.pids[c := t.pids[c]]
    && t == s.(procs := t.procs, pids := t.pids, nextSerial := c + 1)
  }

  lemma StartsOther(s: State, t: State, r: Serial)
    requires Core(s) && Starts(s, t)
    requires r in s.procs
    ensures ProcOk(s, r) && s.procs[r].vm in t.pids && Undisturbed(s, t, r)
  {
    assert ProcOk(s, r);
    if PipeHasReader(t, s.procs[r].vm) {
      var x :| x in t.procs && PipeRead(s.procs[r].vm) in t.procs[x].fds;
      assert PipeHasReader(s, s.procs[r].vm);
    }
  }

  lemma StartsOthers(s: State, t: State)
    requires Core(s) && Starts(s, t)
    ensures forall r :: r in s.procs ==> r in t.procs && ProcOk(t, r)
  {
    forall r | r in s.procs
      ensures ProcOk(s, r) && Undisturbed(s, t, r)
    {
      StartsOther(s, t, r);
    }
    OthersKept(s, t, s.nextSerial);
  }

  lemma StartsNew(s: State, t: State)
    requires Core(s) && Starts(s, t)
    ensures ProcOk(t, s.nextSerial)
    ensures PairsOk(t)
  {
    forall d | d in s.devices ensures d.owner != s.nextSerial {
      assert DeviceOk(s, d);
    }
    forall n | n in s.ifs ensures s.ifs[n].owner != s.nextSerial {
      assert IfOk(s, n);
    }
    forall r, r' | r in t.procs && r' in t.procs ensures PairOk(t, r, r') {
      if r in s.procs { assert ProcOk(s, r); }
      if r' in s.procs { assert ProcOk(s, r'); }
      if r in s.procs && r' in s.procs { assert PairOk(s, r, r'); }
    }
  }

  lemma StartsStrays(s: State, t: State)
    requires Inv(s) && Starts(s, t)
    ensures StraysOk(t)
  {
    forall r | r in t.procs ensures OrphanOk(t, r) {
      if r in s.procs { assert OrphanOk(s, r); }
    }
    forall r, r' | r in t.procs && r' in t.procs ensures StrayOk(t, r, r') {
      if r in s.procs && r' in s.procs { assert ProcOk(s, r) && StrayOk(s, r, r'); }
    }
  }

  lemma StartsIfs(s: State, t: State)
    requires Core(s) && Starts(s, t)
    ensures IfsOk(t)
    ensures DevicesOk(t)
  {
    SameIfs(s, t);
    DevicesKept(s, t);
  }

  lemma KeepStarts(s: State, t: State)
    requires Inv(s) && Starts(s, t)
    ensures Inv(t)
  {
    BoundsKept(s, t);
    StartsOthers(s, t);
    StartsNew(s, t);
    StartsStrays(s, t);
    StartsIfs(s, t);
  }

  // ---- devices come and go ----------------------------------------------------------------

  /** The tap that is offered to a VMM. */
  ghost function Asks(prog: Prog): Option<Ix> {
    match prog
    case AddNetHelper(fd) => Some(fd)
    case Orphan(_, Add(fd)) => Some(fd)
    case _ => None
  }

  /** The VMM v takes the tap of helper h; what is left of the helper is its exit. */
  ghost predicate PlugsIn(s: State, t: State, h: Serial, v: Serial) {
    && h in s.procs && h in t.procs && IsVmm(s, v) && s.procs[h].vm in s.pids
    && Asks(s.procs[h].prog).Some?
    && (if s.procs[h].prog.Orphan? then t.procs[h].prog.Orphan? else t.procs[h].prog.Finished?)
    && Asks(t.procs[h].prog) == None && !Removing(t.procs[h].prog)
    && (forall q :: q in s.procs && Removing(s.procs[q].prog) && s.procs[q].prog.vmm == v && s.procs[q].vm in s.pids ==>
          s.pids[s.procs[q].vm] != s.pids[s.procs[h].vm])
    && var helper := s.procs[h];
      var ix := Asks(helper.prog).value;
      && t.procs ==
         s.procs[v := s.procs[v].(fds := s.procs[v].fds + {TapFd(ix)})][h := helper.(prog := t.procs[h].prog)]
      && t.devices == s.devices + {Device(v, RouterId(s, helper.vm), helper.vm, ix)}
      && t.plugged == s.plugged + {helper.vm}
      && t == s.(procs := t.procs, devices := t.devices, plugged := t.plugged)
  }

  lemma PlugsInLater(s: State, t: State, h: Serial, v: Serial)
    requires Core(s) && PlugsIn(s, t, h, v)
    ensures Later(s, t)
    ensures forall x, vm :: x in t.procs && PipeRead(vm) in t.procs[x].fds ==> PipeRead(vm) in s.procs[x].fds
  {
  }

  /** Nobody who relies on having no device gets one. */
  lemma PlugsInQuiet(s: State, t: State, h: Serial, v: Serial, r: Serial)
    requires Inv(s) && PlugsIn(s, t, h, v) && r in s.procs && r != v && r != h
    ensures NoDeviceNow(t, s.procs[r].prog) ==> forall d :: d in t.devices ==> d.owner != s.procs[r].vm
  {
    assert ProcOk(s, h) && ProcOk(s, r) && OrphanOk(s, h);
    assert PairOk(s, r, h) && StrayOk(s, r, h);
  }

  lemma PlugsInOther(s: State, t: State, h: Serial, v: Serial, r: Serial)
    requires Inv(s) && PlugsIn(s, t, h, v) && r in s.procs && r != v && r != h
    ensures ProcOk(t, r)
  {
    assert ProcOk(s, r);
    PlugsInLater(s, t, h, v);
    PlugsInQuiet(s, t, h, v, r);
    FrameProc(s, t, r);
  }

  lemma PlugsInPairs(s: State, t: State, h: Serial, v: Serial)
    requires Core(s) && PlugsIn(s, t, h, v)
    ensures PairsOk(t)
  {
    forall r, r' | r in t.procs && r' in t.procs ensures PairOk(t, r, r') {
      assert PairOk(s, r, r');
    }
  }

  lemma PlugsInHelper(s: State, t: State, h: Serial, v: Serial)
    requires Inv(s) && PlugsIn(s, t, h, v)
    ensures ProcOk(t, h)
  {
    assert ProcOk(s, h);
  }

  lemma PlugsInVmm(s: State, t: State, h: Serial, v: Serial)
    requires Inv(s) && PlugsIn(s, t, h, v)
    ensures ProcOk(t, v)
  {
    assert ProcOk(s, h) && ProcOk(s, v) && OrphanOk(s, h);
    assert IfOk(s, Name(Router, s.pids[s.procs[h].vm]));
  }

  lemma PlugsInIfs(s: State, t: State, h: Serial, v: Serial)
    requires Core(s) && PlugsIn(s, t, h, v)
    ensures IfsOk(t)
  {
    SameIfs(s, t);
  }

  lemma PlugsInDevices(s: State, t: State, h: Serial, v: Serial)
    requires Inv(s) && PlugsIn(s, t, h, v)
    ensures DevicesOk(t)
    ensures forall d, e :: d in t.devices && e in t.devices && d.owner == e.owner ==> d == e
  {
    assert ProcOk(s, h) && OrphanOk(s, h);
    forall d | d in t.devices ensures DeviceOk(t, d) {
      if d in s.devices { assert DeviceOk(s, d); }
    }
  }

  lemma PlugsInOrphan(s: State, t: State, h: Serial, v: Serial, r: Serial)
    requires Inv(s) && PlugsIn(s, t, h, v) && r in t.procs
    ensures t.procs[r].vm in t.pids && OrphanOk(t, r)
  {
    assert IfOk(s, Name(Router, s.pids[s.procs[h].vm])) by { assert ProcOk(s, h) && OrphanOk(s, h); }
    assert OrphanOk(s, r) && StrayOk(s, h, r);
  }

  lemma PlugsInStrays(s: State, t: State, h: Serial, v: Serial)
    requires Inv(s) && PlugsIn(s, t, h, v)
    ensures StraysOk(t)
  {
    forall r | r in t.procs ensures t.procs[r].vm in t.pids && OrphanOk(t, r) { PlugsInOrphan(s, t, h, v, r); }
    forall r, r' | r in t.procs && r' in t.procs ensures StrayOk(t, r, r') {
      assert StrayOk(s, r, r');
    }
  }

  lemma KeepPlugsIn(s: State, t: State, h: Serial, v: Serial)
    requires Inv(s) && PlugsIn(s, t, h, v)
    ensures Inv(t)
  {
    PlugsInHelper(s, t, h, v);
    PlugsInVmm(s, t, h, v);
    PlugsInPairs(s, t, h, v);
    PlugsInStrays(s, t, h, v);
    forall r | r in t.procs && r != h && r != v ensures ProcOk(t, r) {
      PlugsInOther(s, t, h, v, r);
    }
    PlugsInIfs(s, t, h, v);
    PlugsInDevices(s, t, h, v);
  }

  /** ch-remote is answered without a new device; if it asked for a removal and was told that it
      happened, the device is gone. */
  ghost predicate Unplugs(s: State, t: State, h: Serial) {
    && h in s.procs && Sends(s.procs[h].prog) && h in t.procs && t.procs[h].prog.Finished?
    && t.procs == s.procs[h := s.procs[h].(prog := t.procs[h].prog)]
    && t.devices <= s.devices
    && (t.procs[h].prog.ok ==> forall d :: d in t.devices ==> d.owner != s.procs[h].vm)
    && t == s.(procs := t.procs, devices := t.devices)
  }

  lemma UnplugsOther(s: State, t: State, h: Serial, r: Serial)
    requires Core(s) && Unplugs(s, t, h) && r in s.procs && r != h
    ensures ProcOk(t, r)
  {
    assert ProcOk(s, r);
    assert Later(s, t);
    assert forall q :: q in t.procs ==> t.procs[q].fds == s.procs[q].fds;
    FrameProc(s, t, r);
  }

  lemma UnplugsSelf(s: State, t: State, h: Serial)
    requires Core(s) && Unplugs(s, t, h)
    ensures ProcOk(t, h)
  {
    assert ProcOk(s, h);
  }

  lemma UnplugsPairs(s: State, t: State, h: Serial)
    requires Core(s) && Unplugs(s, t, h)
    ensures PairsOk(t)
  {
    forall r, r' | r in t.procs && r' in t.procs ensures PairOk(t, r, r') {
      assert PairOk(s, r, r');
    }
  }

  lemma UnplugsStrays(s: State, t: State, h: Serial)
    requires Inv(s) && Unplugs(s, t, h)
    ensures StraysOk(t)
  {
    forall r | r in t.procs ensures r in s.procs && Steady(s, t, r) {
    }
    StraysKept(s, t);
  }

  lemma KeepUnplugs(s: State, t: State, h: Serial)
    requires Inv(s) && Unplugs(s, t, h)
    ensures Inv(t)
  {
    BoundsKept(s, t);
    UnplugsSelf(s, t, h);
    forall r | r in t.procs && r != h ensures ProcOk(t, r) { UnplugsOther(s, t, h, r); }
    UnplugsPairs(s, t, h);
    UnplugsStrays(s, t, h);
    SameIfs(s, t);
    DevicesKept(s, t);
  }

  /** Only devices go. */
  ghost predicate Drops(s: State, t: State) {
    t.devices <= s.devices && t == s.(devices := t.devices)
  }

  lemma DropsOther(s: State, t: State, r: Serial)
    requires Core(s) && Drops(s, t) && r in t.procs
    ensures ProcOk(t, r)
  {
    assert ProcOk(s, r);
    FrameProc(s, t, r);
  }

  lemma DropsPairs(s: State, t: State)
    requires Core(s) && Drops(s, t)
    ensures PairsOk(t)
  {
    forall r, r' | r in t.procs && r' in t.procs ensures PairOk(t, r, r') {
      assert PairOk(s, r, r');
    }
  }

  lemma DropsStrays(s: State, t: State)
    requires Inv(s) && Drops(s, t)
    ensures StraysOk(t)
  {
    forall r | r in t.procs ensures Steady(s, t, r) {
    }
    StraysKept(s, t);
  }

  lemma KeepDrops(s: State, t: State)
    requires Inv(s) && Drops(s, t)
    ensures Inv(t)
  {
    BoundsKept(s, t);
    forall r | r in t.procs ensures ProcOk(t, r) { DropsOther(s, t, r); }
    DropsPairs(s, t);
    DropsStrays(s, t);
    SameIfs(s, t);
    DevicesKept(s, t);
  }

  // ---- a request is left alone ------------------------------------------------------------

  /** What a request may hold, and that it fits in with the others. */
  ghost predicate MayPost(s: State, o: Proc)
    requires o.vm in s.pids
  {
    var t, c := Posted(s, o), s.nextSerial;
    && o.prog.Orphan? && (forall fd :: fd in o.fds ==> fd.TapFd? && fd.ix in s.made && s.made[fd.ix].vm == o.vm)
    && OrphanOk(t, c)
    && (forall q :: q in s.procs ==> s.procs[q].vm in s.pids && StrayOk(t, q, c) && StrayOk(t, c, q))
  }

  lemma PostsOther(s: State, o: Proc, r: Serial)
    requires Core(s) && o.vm in s.pids && MayPost(s, o) && r in s.procs
    ensures ProcOk(Posted(s, o), r)
  {
    assert ProcOk(s, r);
    PostsNoReader(s, o, s.procs[r].vm);
    FrameProc(s, Posted(s, o), r);
  }

  lemma PostsNoReader(s: State, o: Proc, vm: Serial)
    requires Bounds(s) && o.vm in s.pids && MayPost(s, o)
    ensures PipeHasReader(Posted(s, o), vm) ==> PipeHasReader(s, vm)
  {
    var t := Posted(s, o);
    if PipeHasReader(t, vm) {
      var x :| x in t.procs && PipeRead(vm) in t.procs[x].fds;
      assert x in s.procs;
    }
  }

  lemma PostsSelf(s: State, o: Proc)
    requires Core(s) && o.vm in s.pids && MayPost(s, o)
    ensures ProcOk(Posted(s, o), s.nextSerial)
  {
  }

  lemma PostsPairs(s: State, o: Proc)
    requires Core(s) && o.vm in s.pids && MayPost(s, o)
    ensures PairsOk(Posted(s, o))
  {
    var t := Posted(s, o);
    forall r, r' | r in t.procs && r' in t.procs ensures PairOk(t, r, r') {
      if r in s.procs && r' in s.procs { assert PairOk(s, r, r'); }
    }
  }

  lemma PostsStrays(s: State, o: Proc)
    requires Inv(s) && o.vm in s.pids && MayPost(s, o)
    ensures StraysOk(Posted(s, o))
  {
    var t := Posted(s, o);
    forall r | r in t.procs ensures OrphanOk(t, r) {
      if r in s.procs { assert OrphanOk(s, r); }
    }
    forall r, r' | r in t.procs && r' in t.procs ensures StrayOk(t, r, r') {
      if r in s.procs && r' in s.procs { assert ProcOk(s, r) && StrayOk(s, r, r'); }
    }
  }

  lemma KeepPosts(s: State, o: Proc)
    requires Inv(s) && o.vm in s.pids && MayPost(s, o)
    ensures Inv(Posted(s, o))
  {
    BoundsKept(s, Posted(s, o));
    PostsSelf(s, o);
    forall r | r in s.procs ensures ProcOk(Posted(s, o), r) { PostsOther(s, o, r); }
    PostsPairs(s, o);
    PostsStrays(s, o);
    SameIfs(s, Posted(s, o));
    DevicesKept(s, Posted(s, o));
  }
}
