/** The kernel's interface table and the effects of the calls made by host/start-vmm/net-util.c. */
module NetKernel {
  import opened Options

  type Ix = nat      // interface index, never handed out twice
  type Serial = nat  // identifies one incarnation of a process; pids are reused, serials are not

  /** `owner` is the start-vmm incarnation that created the interface. */
  datatype Iface =
    | Bridge(ix: Ix, up: bool, owner: Serial)
    | Tap(ix: Ix, up: bool, owner: Serial, master: Option<Ix>)

  /** Keyed by name: printed text in NetSetup, its two parts in NetWorld. */
  type Ifs<K> = map<K, Iface>

  predicate HasTap<K>(ifs: Ifs<K>, ix: Ix) {
    exists n :: n in ifs && ifs[n].Tap? && ifs[n].ix == ix
  }

  predicate IsBridge<K>(ifs: Ifs<K>, name: K) {
    name in ifs && ifs[name].Bridge?
  }

  /** SIOCSIFFLAGS */
  function SetUp<K>(ifs: Ifs<K>, name: K, up: bool): Ifs<K>
    requires name in ifs
  {
    ifs[name := ifs[name].(up := up)]
  }

  /** SIOCBRADDIF and SIOCBRDELIF, which name the port by its index. */
  function SetMaster<K>(ifs: Ifs<K>, ix: Ix, master: Option<Ix>): Ifs<K> {
    map n | n in ifs ::
      if ifs[n].Tap? && ifs[n].ix == ix then ifs[n].(master := master) else ifs[n]
  }

  /** SIOCBRDELBR; the kernel demands that the bridge is down, and releases its ports. */
  predicate CanDeleteBridge<K>(ifs: Ifs<K>, name: K) {
    IsBridge(ifs, name) && !ifs[name].up
  }

  function DeleteBridge<K>(ifs: Ifs<K>, name: K): Ifs<K>
    requires IsBridge(ifs, name)
  {
    map n | n in ifs && n != name ::
      if ifs[n].Tap? && ifs[n].master == Some(ifs[name].ix) then ifs[n].(master := None) else ifs[n]
  }

  /** SIOCSIFNAME; the new name must be free. */
  function Rename<K>(ifs: Ifs<K>, name: K, newname: K): Ifs<K>
    requires name in ifs
  {
    (ifs - {name})[newname := ifs[name]]
  }

  /** A tap vanishes when its last descriptor is closed; `held` are the taps that still have one. */
  function Reap<K>(ifs: Ifs<K>, held: set<Ix>): Ifs<K> {
    map n | n in ifs && (ifs[n].Bridge? || ifs[n].ix in held) :: ifs[n]
  }
}
