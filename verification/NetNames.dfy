/** The kernel knows interfaces by their printed names. The machine in NetWorld names them by kind
    and pid; here is why that is the same. */
module NetNames {
  import opened Decimal
  import opened IfNames
  import opened NetKernel
  import opened NetWorld
  import opened NetInvariant
  import opened NetTheorems
  import opened Options

  lemma TextsDiffer()
    ensures forall m, n :: Text(m) == Text(n) ==> m == n
  {
    forall m, n | Text(m) == Text(n) ensures m == n {
      TextInjective(m, n);
    }
  }

  /** The table as the kernel has it. */
  ghost function Printed(ifs: Ifs<IfName>): Ifs<string> {
    TextsDiffer();
    map n | n in ifs :: Text(n) := ifs[n]
  }

  lemma PrintedAt(ifs: Ifs<IfName>, n: IfName)
    ensures Text(n) in Printed(ifs) <==> n in ifs
    ensures n in ifs ==> Printed(ifs)[Text(n)] == ifs[n]
  {
    TextsDiffer();
  }

  /** Every entry has a name of the machine. */
  lemma PrintedFrom(ifs: Ifs<IfName>, text: string) returns (n: IfName)
    requires text in Printed(ifs)
    ensures n in ifs && Text(n) == text && Printed(ifs)[text] == ifs[n]
  {
    n :| n in ifs && Text(n) == text;
    PrintedAt(ifs, n);
  }

  /** Two tables over the same names print alike if and only if they are alike. */
  lemma PrintedEqual(a: Ifs<IfName>, b: Ifs<string>)
    requires forall n :: n in a ==> Text(n) in b && b[Text(n)] == a[n]
    requires forall text :: text in b ==> exists n :: n in a && Text(n) == text
    ensures Printed(a) == b
  {
    forall n | n in a ensures Printed(a)[Text(n)] == a[n] { PrintedAt(a, n); }
  }

  lemma PrintedAdd(ifs: Ifs<IfName>, n: IfName, i: Iface)
    ensures Printed(ifs[n := i]) == Printed(ifs)[Text(n) := i]
  {
    TextsDiffer();
    var b := Printed(ifs)[Text(n) := i];
    forall m | m in ifs[n := i] ensures Text(m) in b && b[Text(m)] == ifs[n := i][m] { PrintedAt(ifs, m); }
    forall text | text in b ensures exists m :: m in ifs[n := i] && Text(m) == text {
      if text == Text(n) {
        assert n in ifs[n := i];
      } else {
        var m := PrintedFrom(ifs, text);
        assert m in ifs[n := i];
      }
    }
    PrintedEqual(ifs[n := i], b);
  }

  lemma PrintedSetUp(ifs: Ifs<IfName>, n: IfName, up: bool)
    requires n in ifs
    ensures Text(n) in Printed(ifs) && Printed(SetUp(ifs, n, up)) == SetUp(Printed(ifs), Text(n), up)
  {
    PrintedAt(ifs, n);
    PrintedAdd(ifs, n, ifs[n].(up := up));
  }

  lemma PrintedSetMaster(ifs: Ifs<IfName>, ix: Ix, master: Option<Ix>)
    ensures Printed(SetMaster(ifs, ix, master)) == SetMaster(Printed(ifs), ix, master)
  {
    var a, b := SetMaster(ifs, ix, master), SetMaster(Printed(ifs), ix, master);
    forall n | n in a ensures Text(n) in b && b[Text(n)] == a[n] { PrintedAt(ifs, n); }
    forall text | text in b ensures exists n :: n in a && Text(n) == text {
      var n := PrintedFrom(ifs, text);
      assert n in a;
    }
    PrintedEqual(a, b);
  }

  lemma PrintedDelete(ifs: Ifs<IfName>, n: IfName)
    requires IsBridge(ifs, n)
    ensures IsBridge(Printed(ifs), Text(n)) && Printed(DeleteBridge(ifs, n)) == DeleteBridge(Printed(ifs), Text(n))
  {
    TextsDiffer();
    PrintedAt(ifs, n);
    var a, b := DeleteBridge(ifs, n), DeleteBridge(Printed(ifs), Text(n));
    forall m | m in a ensures Text(m) in b && b[Text(m)] == a[m] { PrintedAt(ifs, m); }
    forall text | text in b ensures exists m :: m in a && Text(m) == text {
      var m := PrintedFrom(ifs, text);
      assert m in a;
    }
    PrintedEqual(a, b);
  }

  lemma PrintedRename(ifs: Ifs<IfName>, n: IfName, m: IfName)
    requires n in ifs && m != n
    ensures Text(n) in Printed(ifs) && Printed(Rename(ifs, n, m)) == Rename(Printed(ifs), Text(n), Text(m))
  {
    TextsDiffer();
    PrintedAt(ifs, n);
    var a, b := Rename(ifs, n, m), Rename(Printed(ifs), Text(n), Text(m));
    forall k | k in a ensures Text(k) in b && b[Text(k)] == a[k] { PrintedAt(ifs, k); }
    forall text | text in b ensures exists k :: k in a && Text(k) == text {
      if text == Text(m) {
        assert m in a;
      } else {
        var k := PrintedFrom(ifs, text);
        assert k in a;
      }
    }
    PrintedEqual(a, b);
  }

  lemma PrintedReap(ifs: Ifs<IfName>, held: set<Ix>)
    ensures Printed(Reap(ifs, held)) == Reap(Printed(ifs), held)
  {
    var a, b := Reap(ifs, held), Reap(Printed(ifs), held);
    forall n | n in a ensures Text(n) in b && b[Text(n)] == a[n] { PrintedAt(ifs, n); }
    forall text | text in b ensures exists n :: n in a && Text(n) == text {
      var n := PrintedFrom(ifs, text);
      assert n in a;
    }
    PrintedEqual(a, b);
  }

  /** The guards of the calls are the same on the printed table. */
  lemma PrintedGuards(ifs: Ifs<IfName>, n: IfName, ix: Ix)
    ensures Text(n) in Printed(ifs) <==> n in ifs
    ensures IsBridge(Printed(ifs), Text(n)) <==> IsBridge(ifs, n)
    ensures CanDeleteBridge(Printed(ifs), Text(n)) <==> CanDeleteBridge(ifs, n)
    ensures HasTap(Printed(ifs), ix) <==> HasTap(ifs, ix)
  {
    PrintedAt(ifs, n);
    if HasTap(ifs, ix) {
      var m :| m in ifs && ifs[m].Tap? && ifs[m].ix == ix;
      PrintedAt(ifs, m);
    }
    if HasTap(Printed(ifs), ix) {
      var text :| text in Printed(ifs) && Printed(ifs)[text].Tap? && Printed(ifs)[text].ix == ix;
      var m := PrintedFrom(ifs, text);
    }
  }

  /** PortsAreOwn, of printed names. */
  lemma PrintedPortsAreOwn(run: seq<State>, events: seq<Event>, i: nat, tap: string, bridge: string)
    requires IsRun(run, events) && i < |run|
    requires var ifs := Printed(run[i].ifs);
             && tap in ifs && bridge in ifs && ifs[bridge].Bridge? && ifs[tap].Tap?
             && ifs[tap].master == Some(ifs[bridge].ix)
    ensures var ifs := Printed(run[i].ifs); ifs[tap].owner == ifs[bridge].owner
  {
    var m := PrintedFrom(run[i].ifs, tap);
    var n := PrintedFrom(run[i].ifs, bridge);
    PortsAreOwn(run, events, i, m, n);
  }

  /** The lock, of printed names: br and the decimal pid is there, as the listener's incarnation's. */
  lemma PrintedLock(run: seq<State>, events: seq<Event>, i: nat, l: Serial)
    requires IsRun(run, events) && i < |run|
    requires l in run[i].procs && run[i].procs[l].prog.Listener? && !run[i].procs[l].prog.lpc.Exiting?
    ensures var s := run[i]; var vm := s.procs[l].vm;
            && vm in s.pids
            && var name := "br" + Show(s.pids[vm]);
               name in Printed(s.ifs) && Printed(s.ifs)[name].Bridge? && Printed(s.ifs)[name].owner == vm
  {
    ListenerHasBridge(run, events, i, l);
    var s := run[i];
    PrintedAt(s.ifs, Name(Br, s.pids[s.procs[l].vm]));
  }
}
