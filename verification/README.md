# Spectrum, modelled and proved

Spectrum starts each VM from a small host program, start-vmm, that builds the VM's network and
becomes its VMM. Around it are a portal through which guests open the host's files, patches that
let a GPU backend map memory into a VM, and scripts that lay out disk images and rewrite VMM
arguments. This project models the parts of these programs whose correctness spans many steps or
several processes, and proves what they are for.

`dafny verify dfyconfig.toml` checks everything.

## The parts

**VM networks** (`IfNames`, `NetKernel`, `NetWorld`, `NetInvariant`, `NetProof`, `NetSteps`,
`NetTheorems`, `NetTraces`, `NetBuilt`, `NetNames`, `NetLifecycle`, `NetSetup`, `DoubleFork`, `Addresses`).
`NetWorld` is a machine
whose steps are the system calls of any number of start-vmm processes, their exit listeners, their
ch-remote children and the VMMs they become. Every call may fail, every process may be killed
between two calls, and pids may be reused at will. `NetInvariant` states what all reachable states
have in common, `NetProof` and `NetSteps` show that each call keeps it, and `NetTheorems` draws
the conclusions. The central one is that `br<pid>` is a lock: as long as the listener of an old
process can still name anything, the bridge of that name is its own, so that a new process with
the same pid cannot get past `bridge_add` and nothing of it is touched, not even by a request that a
killed ch-remote left with a VMM. `NetTraces` shows that each process makes the calls of net.c in
net.c's order, whatever fails and whatever the others do, and `NetBuilt` what has been built at each of
these calls. `NetLifecycle` gives a run in which a network comes up and goes
away again, and one in which a VMM acts on such a request, so that the theorems speak of something.
`NetSetup` is net_setup in its imperative form, down to single system calls, with its exact rollback and
the exact list of calls it makes; it works on the printed names. The machine names interfaces by kind and pid: `IfNames` shows that printing neither cuts nor
confuses these, and `NetNames` that every operation does to the printed table what it does to the
machine's.

**Portal** (`Portal`, `HostSocket`, `PortalGuest`, `Uris`). `Portal` is the handshake of the guest
and the host program as a machine over two byte streams that are cut up arbitrarily.
`HostSocket` and `PortalGuest` have the reading and writing loops themselves. `Uris` is the
rewriting of file URIs.

**Shared memory** (`Shmem`, `VhostReply`, `Regions`). The window of section 2.10 of VIRTIO 1.2 as
an address space changed by requests, the two sides' separate decisions about replies, and the
region list's encoding.

**Images and arguments** (`Gpt`, `Uuids`, `Args`, `QemuArgs`). Partition placement and filling
(section 5.3 of the UEFI Specification), partition UUIDs, and the two loops that rotate positional
parameters.

`Bytes`, `Decimal`, `Hex`, `Options`, `Paths` and `Seqs` hold what these share.

## What the kernel and other programs are taken to do

- Creating a bridge, or a tap with `IFF_TUN_EXCL`, fails if the name exists. A tap vanishes when
  its last descriptor is closed. Deleting a bridge needs it to be down and releases its ports. An
  interface index is never used twice.
- A pipe's write end reports POLLERR exactly when no read end is open.
- ch-remote may fail although the VMM acted, but does not succeed unless it acted; a VMM never has
  two devices of one id. A success of remove-device means that the VMM no longer has the device,
  not that it has closed the tap. A ch-remote may be killed with its request under way, and the VMM
  still act on it at any later time; but a VMM serves requests in the order in which they came.
  Waiting for a child does not fail.
- A read or write moves at least one byte or fails. `DoubleFork` also has interrupted calls.
- mmap refuses an empty length and unaligned addresses or offsets, and changes whole pages.
- sfdisk puts a partition without a start at the first free place aligned to 1 MiB that is large
  enough.
- An encoder of URIs escapes at least the percent sign; a document id is an ordinary file name.

## Where the code does less than one might expect

- Comments in net.c speak of pids of at most 16 bits. The interface names are right for all pids
  below 10^9, but MAC and IP addresses of two VMs are the same exactly when their pids agree
  modulo 65536 (`MacsCollideIff`, `IpsCollideIff`; for example 1 and 65537, `CollidingPids`).
- parse_u32 accepts numbers of 2^32 and more and cuts them off (`ParseU32Exact`, `ParseU32Wraps`);
  it also accepts leading zeros. So the port the host prints is the text the guest was given
  exactly for a plain number below 2^32 (`PrintedBack`).
- An interrupted call in double_fork counts as minus one byte (`WriteLoop`, `ReadLoop`,
  `InterruptedWrite`). The caller can then be told another number, or 0, which marks the
  grandchild: so for pid 65536 and a child that is interrupted twice (`InterruptedZero`).
  `AlwaysRightIff` and `ToldZeroIff` say which interruptions do no such harm.
- A mapping in the shared memory window can reach beyond it, by less than a page, exactly when the
  region's length is no whole number of pages; nothing in the request handler tests that length
  (`PagesStayIff`).
- If only the backend believes that reply-ack is negotiated, it waits for ever for the first reply
  that is not for a shared memory request (`StuckIff`, `ServedIff`).
- A valid header that announces fewer than 8 bytes aborts the program that reads the regions, and so
  does a region count of 2^60 or more that passes the length test (`GetRegions`, `DecodeRegions`,
  `DecodeHugeCount`); lists beyond the reach of the header's 32-bit size are
  refused (`Transfer`).
- The portal finds the VMM's socket exactly for VM names that are not empty and have no slash at
  either end (`FindVmmSocket`).
- A guest that the host turns away reads from a closed connection and goes on with a byte it never
  got; the guest program always offers version 1, so that this does not happen (`VersionNegotiated`,
  `HowItEnds`).
- A machine value keeps its options as a list exactly if the first and the last that are kept are
  not empty (`FilteredFields`).
- A `--cmdline`, `-append` or `-machine` at the end of the arguments takes the first argument that
  was put back as its value (`RunCloudHypervisor`, `Overrun`).
- The combined image's slack is enough because of the ESP's size, not for every one
  (`CombinedFitsIff`, `CombinedNeedNotFit`).

## Model

| member | source | states |
|---|---|---|
| IfNames.Text | host/start-vmm/net.c:25-27 | every printed name is prefix and pid in full, fits IFNAMSIZ and has no percent sign |
| IfNames.TextInjective | host/start-vmm/net.c:84-91 | two names are printed alike only if kind and pid are the same |
| IfNames.Texts | host/start-vmm/net.c:84-91 | the four prefixes in full |
| Decimal.ShowDigits | host/start-vmm/net.c:84-91 | printed numbers have their last digit last |
| Decimal.ValueDigits | tools/xdg-desktop-portal-spectrum/xdg-desktop-portal-spectrum.c:26-44 | and are read so, with or without leading zeros |
| NetSteps.RunInv | host/start-vmm/net.c:19-202 | every state of every interleaving of any number of processes satisfies the invariant |
| NetTheorems.BridgeNameIsLock | host/start-vmm/net.c:75-202 | while a listener can still name anything, br of its pid exists and is its own incarnation's; a newer process with that pid is at or past a failed bridge_add and its bridge_add cannot succeed |
| NetTheorems.NothingForeignTouched | host/start-vmm/net.c:75-202 | no call or death of a start-vmm in net_setup, a listener or one of their helpers, and no request that a killed helper left with a VMM, changes, adds or removes an interface or a device of another incarnation |
| NetTheorems.StepUntouched | host/start-vmm/net.c:75-202 | the same for one step from any state that satisfies the invariant |
| NetTheorems.PortsAreOwn | host/start-vmm/net.c:19-41 | every port of every bridge was made by the incarnation that made the bridge |
| NetTheorems.RunningHasBridge | host/start-vmm/net.c:162-202 | a VM whose network came up has its bridge for as long as it runs |
| NetTheorems.CleanupNotEarly | host/start-vmm/net.c:110-136 | past its poll, a listener is the last process of its incarnation but for the ch-remote it waits for |
| NetTheorems.CleanupNotBlocked | host/start-vmm/net.c:110-160 | a listener can leave poll if and only if no other process of its incarnation is left |
| NetTheorems.ReadersArePeers | host/start-vmm/net.c:138-160 | the read end of the exit pipe is held by exactly the other processes of the incarnation |
| NetTheorems.RollbackComplete | host/start-vmm/net.c:162-202 | after a failed net_setup whose bridge_delete succeeded no descriptor is left, and no interface or device but the router tap and its device, if a VMM took it or has the request to |
| NetTheorems.CleanupComplete | host/start-vmm/net.c:75-136 | a listener that deleted the bridge leaves nothing of its incarnation but a router tap that a VMM took, renamed unless its removal or the rename failed |
| NetTheorems.NamesFreed | host/start-vmm/net.c:75-108 | a listener that renamed the tap and deletes the bridge frees both names |
| NetTheorems.ListenerHasBridge | host/start-vmm/net.c:110-136 | until it is about to exit, a listener's incarnation has its bridge |
| NetTraces.ListenerRan | host/start-vmm/net.c:110-136 | in every run the calls of a listener that is about to exit are those of exit_listener_main, in order: whatever became of the router's tap it took the bridge down and deleted it, or tried to, and it knows whether it renamed the tap and deleted the bridge |
| NetTraces.SetupRan | host/start-vmm/net.c:162-195 | in every run the calls of a start-vmm whose VM runs are all those of net_setup, in order, each successful |
| NetTraces.SetupFailed | host/start-vmm/net.c:162-202 | in every run the calls of a start-vmm that failed are a lone failed bridge_add, or those up to some failure with the tap at hand closed, and then the rollback's, in order |
| NetTraces.CleanupTried | host/start-vmm/net.c:126-135 | every listener that exits has called bridge_delete, with the result it reports |
| NetTraces.RollbackTried | host/start-vmm/net.c:197-201 | so has every start-vmm that failed after its bridge_add succeeded |
| NetBuilt.TapsOffered | host/start-vmm/net.c:162-188 | in every run, when the router tap is offered the bridge is up and both taps are up and on it |
| NetBuilt.NetworkBuilt | host/start-vmm/net.c:162-195 | in every run, when net_setup has succeeded the bridge is up, the client tap is up and on it, and start-vmm holds just that tap and the read end of the exit pipe |
| NetBuilt.BridgeStaysUp | host/start-vmm/net.c:138-160 | the bridge of a running VM is up |
| NetBuilt.DownThenDelete | host/start-vmm/net.c:197-201 | in the rollback, once the bridge has been taken down its deletion is possible |
| NetBuilt.DownThenCleanedUp | host/start-vmm/net.c:103-108 | and so in the listener's cleanup |
| NetBuilt.TapLeaves | host/start-vmm/net.c:94-97 | in every run, leaving the bridge takes the router tap, the incarnation's own, off it |
| NetBuilt.TapGoesDown | host/start-vmm/net.c:99-100 | taking it down takes it down |
| NetBuilt.TapIsRenamed | host/start-vmm/net.c:101 | and renaming gives it the name _dead and the pid, and frees its own |
| NetBuilt.DeviceAdded | host/start-vmm/ch.rs:127-141 | a VMM that acts on add-net has the tap and just one more device, of the tap's name |
| NetBuilt.DeviceRemoved | host/start-vmm/net.c:80-83 | one that acts on remove-device takes away the incarnation's device and no other |
| NetNames.PrintedAdd | host/start-vmm/net-util.c:81-100 | adding an interface is the same on the table of printed names |
| NetNames.PrintedSetUp | host/start-vmm/net-util.c:20-36 | so is setting its flag |
| NetNames.PrintedSetMaster | host/start-vmm/net-util.c:102-134 | and giving it to a bridge or taking it away |
| NetNames.PrintedDelete | host/start-vmm/net-util.c:136-149 | and deleting a bridge |
| NetNames.PrintedRename | host/start-vmm/net-util.c:38-61 | and renaming |
| NetNames.PrintedReap | host/start-vmm/net.c:35-37 | and losing taps without descriptors |
| NetNames.PrintedGuards | host/start-vmm/net-util.c:81-173 | what the calls demand of the table holds of the printed one if and only if it holds of the machine's |
| NetNames.PrintedPortsAreOwn | host/start-vmm/net.c:19-41 | of printed names: every port of every bridge was made by the incarnation that made the bridge |
| NetNames.PrintedLock | host/start-vmm/net.c:75-136 | of printed names: while a listener can name anything, "br" and the decimal pid is its own incarnation's bridge |
| NetLifecycle.WholeLife | host/start-vmm/net.c:19-202 | for all pids there is a run in which the network comes up, and one in which after that only the provider VM is left, as it was |
| NetLifecycle.ServedLate | host/start-vmm/ch.rs:127-141 | there is a run in which a VMM takes a tap after the ch-remote that offered it was killed |
| NetSetup.Host.IfSet | host/start-vmm/net-util.c:20-36 | makes its three calls in order up to the first that fails, and succeeds if none does; then the flag is set on the named interface, and otherwise nothing changes |
| NetSetup.Host.BridgeAdd | host/start-vmm/net-util.c:81-100 | asks the kernel exactly for a name that is short enough, succeeds exactly if the kernel does, and adds just that bridge |
| NetSetup.Host.BridgeAddIf | host/start-vmm/net-util.c:102-117 | looks the port's index up first; the port goes to the bridge of that name if all calls succeed, or nothing changes |
| NetSetup.Host.BridgeDelete | host/start-vmm/net-util.c:136-149 | tries to take the bridge down and, however that went, to delete it; succeeds exactly if the deletion does, and then the bridge is gone and its ports are released; on failure it may be left down |
| NetSetup.Host.TapOpen | host/start-vmm/net-util.c:151-173 | a new tap with a descriptor, or both tables as they were |
| NetSetup.Host.SetupTap | host/start-vmm/net.c:19-41 | all or nothing: a tap that is up and on the bridge, or both tables as they were |
| NetSetup.Host.RouterNetSetup | host/start-vmm/net.c:49-73 | whatever happens, no descriptor of the router tap stays with start-vmm |
| NetSetup.Host.ExitListenerSetup | host/start-vmm/net.c:138-160 | on success one listener and the read end, on failure the descriptor table as it was |
| NetSetup.Host.NetSetup | host/start-vmm/net.c:162-202 | builds all three interfaces; or, bridge_delete succeeding, leaves both tables as they were but for a router tap and device that the VMM took, and otherwise also leaves the bridge; never changes an interface it did not make; and leaves the tables consistent. The calls it makes are those of the plan of all 24, up to the first that fails; and if that comes after the bridge was made, then those of bridge_delete, whose outcome decides whether the bridge is gone |
| NetSetup.Unbuilt | host/start-vmm/net.c:197-201 | deleting the bridge and closing the client tap undo every partial set-up exactly |
| DoubleFork.WriteLoop | host/start-vmm/fork.c:38-41 | for every schedule of calls, a loop that completes has sent the value if and only if no call failed, and more bytes otherwise; with calls that move bytes it completes within four |
| DoubleFork.InterruptedWrite | host/start-vmm/fork.c:38-41 | interrupted after two bytes, the loop sends the second one twice |
| DoubleFork.InterruptedRead | host/start-vmm/fork.c:45-48 | interrupted after two bytes, the reading loop overwrites the second with the third |
| DoubleFork.AtOnce | host/start-vmm/fork.c:38-48 | interrupted before the first byte either loop gives up; one that moved nothing goes on |
| DoubleFork.WriteLaws | host/start-vmm/fork.c:38-41 | what one more call does to the child's loop, after any calls |
| DoubleFork.ReadStops | host/start-vmm/fork.c:45-48 | what a failed or interrupted call does to the grandparent's |
| DoubleFork.ReadLands | host/start-vmm/fork.c:45-48 | and where the bytes of any other call land |
| DoubleFork.ReadLoop | host/start-vmm/fork.c:45-48 | for every schedule of calls, from a pipe with one int it completes only if no call failed, and then has that int; with calls that move bytes it completes within four |
| DoubleFork.MemoryRoundTrip | host/start-vmm/fork.c:36-48 | an int's bytes read back give the int, negative ones included |
| DoubleFork.MemoryBytes | host/start-vmm/fork.c:36-48 | which octet of the int is which byte |
| DoubleFork.CallerResult | host/start-vmm/fork.c:13-55 | for all schedules: unless a call fails, the caller gets nothing but the grandchild's pid, or a negative number exactly if pipe or a fork failed, and never 0; with calls that move bytes it does return; in every case it gets what the two loops make of the message |
| DoubleFork.AnswerTraced | host/start-vmm/fork.c:38-54 | whether the caller returns depends on the schedules alone, and so does which byte of the message or of its own memory each byte of its int is |
| DoubleFork.AlwaysRightIff | host/start-vmm/fork.c:38-54 | schedules with interrupted and failed calls give the caller every message right, whatever was in its memory, if and only if they do so for one marked message |
| DoubleFork.ToldZeroIff | host/start-vmm/fork.c:38-54 | schedules let some grandchild's pid or errno reach the caller as 0 if and only if it returns with one of the message's four bytes missing |
| DoubleFork.InterruptedZero | host/start-vmm/fork.c:38-54 | pid 65536 reaches the caller as 0 when the child is interrupted twice |
| Addresses.MacRoundTrip | host/start-vmm/net.rs:23-31 | printing a MAC address, in either case of letters, and parsing it is the identity |
| Addresses.MacPrinted | host/start-vmm/net.c:166-170 | the printed address: 0A:B3:EC:80 for the router, 0A:B3:EC:00 for the client, and the low 16 bits of the pid |
| Addresses.MacRecognised | vm/sys/net/etc/mdev/iface:36 | the router recognises the interface by the first three octets |
| Addresses.Hex2Digits | host/start-vmm/net.rs:23-31 | two digits for an octet, the high one first |
| Addresses.ClientMatchesRouter | vm/sys/net/etc/mdev/iface:12-21 | from either side's MAC address awk makes the same IP address, that of the pid |
| Addresses.MacsCollideIff | host/start-vmm/net.c:167-172 | two MAC addresses are equal if and only if they are for the same side and the pids agree modulo 65536 |
| Addresses.IpsCollideIff | img/app/etc/mdev/iface:10-17 | two clients' IP addresses are equal if and only if their pids agree modulo 65536 |
| Addresses.CollidingPids | host/start-vmm/net.c:166-172 | pids 1 and 65537 have the same addresses |
| Portal.EncodeOk | tools/xdg-desktop-portal-spectrum/xdg-desktop-portal-spectrum.c:61-104 | the counts, lengths and port the guest sends are read back by the host's decoding |
| Portal.StreamBytes | tools/xdg-desktop-portal-spectrum/xdg-desktop-portal-spectrum.c:61-104 | the stream is the number of versions, the versions, the port and the root's length with their most significant octets first, and the root |
| Portal.WaitsForVersion | tools/xdg-desktop-portal-spectrum/xdg-desktop-portal-spectrum.c:61-88 | the guest sends nothing after its versions before it has read the host's choice |
| Portal.BytesToGuest | tools/xdg-desktop-portal-spectrum-host/src/main.rs:64-155 | the guest reads version 1, and then 0 or 1 |
| Portal.VersionNegotiated | tools/xdg-desktop-portal-spectrum-host/src/main.rs:46-70 | the host turns a guest away only for want of version 1, and then sends nothing; only then does the guest read from a closed connection, and it then sends no more than its versions; it never sees a wrong version |
| Portal.HostRecovers | tools/xdg-desktop-portal-spectrum-host/src/main.rs:114-163 | for every cutting of the streams the host gets the guest's port and root byte for byte with nothing left over |
| Portal.ResultIsTrue | tools/xdg-desktop-portal-spectrum/xdg-desktop-portal-spectrum.c:106-113 | the guest ends with 0 if and only if the host's set-up succeeded, and then it happened, for an absolute root |
| Portal.NeverStuck | tools/xdg-desktop-portal-spectrum-host/src/main.rs:114-175 | until both programs are done, one of them can go on, in every reachable state |
| Portal.HowItEnds | tools/xdg-desktop-portal-spectrum-host/src/main.rs:114-175 | when both are done the guest has a result, and the host has served it, if and only if version 1 was offered, with nothing left on the connection |
| Portal.RunsEnd | tools/xdg-desktop-portal-spectrum-host/src/main.rs:114-175 | every step lowers a bounded measure, so every run of the handshake ends |
| HostSocket.Conn.ReadExact | tools/xdg-desktop-portal-spectrum-host/src/main.rs:29-44 | takes exactly the bytes asked for, if there are as many, in however many portions |
| HostSocket.Conn.ReceiveU32 | tools/xdg-desktop-portal-spectrum-host/src/main.rs:29-33 | 2^24, 2^16, 2^8 and 1 times the first four bytes; None at the end of the stream |
| HostSocket.Conn.ReceiveBytestring | tools/xdg-desktop-portal-spectrum-host/src/main.rs:35-44 | succeeds if and only if the announced bytes are there, and returns just them |
| HostSocket.Conn.NegotiateVersion | tools/xdg-desktop-portal-spectrum-host/src/main.rs:46-70 | answers 1 if and only if 1 is among the versions offered |
| HostSocket.Conn.ReceiveHello | tools/xdg-desktop-portal-spectrum-host/src/main.rs:114-122 | on the guest's bytes and whatever follows, gets the port and the root if and only if version 1 is offered, and leaves what follows |
| HostSocket.Conn.ReadReply | tools/xdg-desktop-portal-spectrum-host/src/main.rs:84-112 | on any stream it takes at most 14 bytes, to the first newline from the fifth byte on, and leaves the rest unread, whether or not it accepts the reply; it accepts one if and only if it ends so and starts with "OK " |
| HostSocket.ReplyEnds | tools/xdg-desktop-portal-spectrum-host/src/main.rs:84-112 | for every u32 the reply's end is exactly that of "OK n" and its newline, whatever follows |
| HostSocket.ListeningVsockPath | tools/xdg-desktop-portal-spectrum-host/src/main.rs:179-209 | returns q if and only if the path is q, an underscore and digits with q not empty; so q is unique |
| HostSocket.ServiceSplits | host/rootfs/etc/s6-linux-init/run-image/service/xdg-desktop-portal-spectrum-host/template/run:7 | what comes before the port in the path the service binds |
| HostSocket.FindVmmSocket | host/start-vmm/lib.rs:162-165 | from the path the service binds the portal finds the socket that start-vmm joins together for the VMM, if and only if the VM's name is not empty and has no slash at either end |
| PortalGuest.ParseU32Accepts | tools/xdg-desktop-portal-spectrum/xdg-desktop-portal-spectrum.c:26-44 | accepts exactly the digit strings of value up to LONG_MAX, and gives the value modulo 2^32 |
| PortalGuest.ParseU32RoundTrip | tools/xdg-desktop-portal-spectrum/xdg-desktop-portal-spectrum.c:26-44 | reads back every printed u32 |
| PortalGuest.ParseU32Exact | tools/xdg-desktop-portal-spectrum/xdg-desktop-portal-spectrum.c:26-44 | what it accepts it reads right if and only if it is below 2^32 |
| PortalGuest.PrintedBack | tools/xdg-desktop-portal-spectrum-host/src/main.rs:72-82 | the port the host prints is the text the guest read it from if and only if that had no leading zero and was below 2^32 |
| PortalGuest.ParseU32Wraps | tools/xdg-desktop-portal-spectrum/xdg-desktop-portal-spectrum.c:26-44 | 2^32 is read as 0 |
| PortalGuest.WriteAll | tools/xdg-desktop-portal-spectrum/xdg-desktop-portal-spectrum.c:46-59 | for every outcome of its writes: it makes at least one, stops at the first that fails or completes the buffer, and fails if and only if that one does; what was written is the bytes those calls moved, in order |
| Uris.DecodeEncode | tools/xdg-desktop-portal-spectrum-host/src/file_chooser.rs:104-116 | percent-decoding undoes percent-encoding, whatever text follows |
| Uris.DecodeDigits | tools/xdg-desktop-portal-spectrum-host/src/file_chooser.rs:104-108 | a percent sign and two digits in either case stand for one byte |
| Uris.DecodeOther | tools/xdg-desktop-portal-spectrum-host/src/file_chooser.rs:104-108 | any other byte, a stray percent sign too, stands for itself |
| Paths.ComponentsJoin | tools/xdg-desktop-portal-spectrum-host/src/documents.rs:75-81 | joining paths joins their components |
| Paths.FileNameLast | tools/xdg-desktop-portal-spectrum-host/src/documents.rs:53 | the file name is what follows the last slash |
| Paths.FileNameTrailing | tools/xdg-desktop-portal-spectrum-host/src/documents.rs:53 | whether or not slashes and dots follow it |
| Paths.FileNameNone | tools/xdg-desktop-portal-spectrum-host/src/documents.rs:53 | there is none if and only if no component is named or the last is a parent |
| Paths.NoParentIff | tools/xdg-desktop-portal-spectrum-host/src/documents.rs:46-47 | only the empty path and those that name the root have no parent |
| Uris.SharedComponents | tools/xdg-desktop-portal-spectrum-host/src/documents.rs:40-82 | the shared path is the root's components, doc, the id and the base name, with or without a slash after the root |
| Uris.GuestUri | tools/xdg-desktop-portal-spectrum-host/src/file_chooser.rs:104-116 | the new URI decodes to exactly that path, and the components can be read back from it; it ends in /doc/, the id, and whatever follows the last slash of the host's path |
| Uris.TransformUri | tools/xdg-desktop-portal-spectrum-host/src/documents.rs:40-82 | transforms a URI if and only if it has the prefix and a file name, is shared, and the root is absolute; and tells errors from panics |
| Uris.TransformUris | tools/xdg-desktop-portal-spectrum-host/src/file_chooser.rs:91-123 | length and order are kept; it succeeds if and only if every member can be shared, and otherwise returns no list but the error or panic of the first that cannot |
| Shmem.Window.Request | pkgs/cloud-hypervisor/0002-virtio-devices-add-a-GPU-device.patch:362-369 | refused as invalid if and only if out of range, and otherwise mmap is called just once, for that range, and its outcome reported; no address wraps around |
| Shmem.Window.ShmemMap | pkgs/cloud-hypervisor/0002-virtio-devices-add-a-GPU-device.patch:373-400 | on success exactly the pages asked for show the file from its offset on, shared if writable; otherwise nothing changes |
| Shmem.Window.ShmemUnmap | pkgs/cloud-hypervisor/0002-virtio-devices-add-a-GPU-device.patch:402-423 | on success exactly the pages asked for are reserved again; otherwise nothing changes |
| Shmem.Window.Serve | pkgs/cloud-hypervisor/0002-virtio-devices-add-a-GPU-device.patch:355-424 | after any run of requests the address space is the fold over the successful ones, all of them in range, and the calls of mmap are one for each request in range, in order |
| Shmem.LastWriterWins | pkgs/cloud-hypervisor/0002-virtio-devices-add-a-GPU-device.patch:373-423 | a byte holds what the last successful request to cover it put there |
| Shmem.NeverWritten | pkgs/cloud-hypervisor/0002-virtio-devices-add-a-GPU-device.patch:373-423 | a byte that no successful request covered is what it was |
| Shmem.OutsideUntouched | pkgs/cloud-hypervisor/0002-virtio-devices-add-a-GPU-device.patch:1353-1402 | no run of requests changes a byte outside a window of whole pages |
| Shmem.PagesStayIff | pkgs/cloud-hypervisor/0002-virtio-devices-add-a-GPU-device.patch:1353-1402 | all mappings stay inside, last page included, if and only if the window is a whole number of pages |
| VhostReply.Lockstep | pkgs/cloud-hypervisor/vhost/0003-vhost_user-add-shared-memory-region-support.patch:79-93 | in every reachable state each call that waited got the answer to its own request and no reply is left unread |
| VhostReply.Answered | pkgs/cloud-hypervisor/vhost/0003-vhost_user-add-shared-memory-region-support.patch:79-93 | in every reachable state a finished call has the answer to its request if and only if that is a shared memory request or the backend has negotiated reply-ack |
| VhostReply.StepsAnswer | pkgs/cloud-hypervisor/vhost/0003-vhost_user-add-shared-memory-region-support.patch:307-320 | a request is answered if and only if it is a shared memory request or both sides have negotiated reply-ack, and waited for if and only if it is one or the backend has |
| VhostReply.StuckIff | pkgs/cloud-hypervisor/vhost/0003-vhost_user-add-shared-memory-region-support.patch:307-320 | a reachable state is stuck if and only if the backend waits for a reply the frontend decided not to send |
| VhostReply.ServedIff | pkgs/cloud-hypervisor/vhost/0003-vhost_user-add-shared-memory-region-support.patch:273-320 | some run serves all requests if and only if reply-ack is not the backend's belief alone or all are shared memory requests |
| VhostReply.CarryOn | pkgs/cloud-hypervisor/vhost/0003-vhost_user-add-shared-memory-region-support.patch:79-93 | where the sides agree every run can be carried on until all requests are served |
| Regions.FromRecord | pkgs/cloud-hypervisor/vhost/0003-vhost_user-add-shared-memory-region-support.patch:452-475 | a record's bytes give the record |
| Regions.RecordBytes | pkgs/cloud-hypervisor/vhost/0003-vhost_user-add-shared-memory-region-support.patch:452-475 | where the id, the padding and the length are, the length with its least significant byte first |
| Regions.ToRecord | pkgs/cloud-hypervisor/vhost/0003-vhost_user-add-shared-memory-region-support.patch:452-475 | any 16 bytes are a record's bytes |
| Regions.PayloadInjective | pkgs/cloud-hypervisor/vhost/0003-vhost_user-add-shared-memory-region-support.patch:147-155 | distinct lists have distinct payloads |
| Regions.SendRegions | pkgs/cloud-hypervisor/vhost/0003-vhost_user-add-shared-memory-region-support.patch:147-155 | the loop's buffer is the list's payload, framed with its count and size |
| Regions.MessageBytes | pkgs/cloud-hypervisor/vhost/0003-vhost_user-add-shared-memory-region-support.patch:147-155 | where a message's fields are, byte by byte |
| Regions.HeaderMeans | pkgs/cloud-hypervisor/vhost/0002-vhost-fix-receiving-reply-payloads.patch:45-79 | the header's tests in terms of its bytes |
| Regions.DecodeRegions | pkgs/cloud-hypervisor/vhost/0003-vhost_user-add-shared-memory-region-support.patch:192-211 | returns a list if and only if the payload is 16 bytes for each region counted, and then the list whose payload it is |
| Regions.DecodeHugeCount | pkgs/cloud-hypervisor/vhost/0003-vhost_user-add-shared-memory-region-support.patch:192-211 | a count of 2^60 and an empty payload abort it |
| Regions.GetRegions | pkgs/cloud-hypervisor/vhost/0002-vhost-fix-receiving-reply-payloads.patch:45-79 | takes the header and as many bytes as it announces; says exactly when the message is partial and when it gives a list: with a valid header, the reply flag, the right code, no descriptors and the right length; and when it aborts: if the announced size cannot hold the count, or the count's wrapped product passes for the length |
| Regions.Transfer | pkgs/cloud-hypervisor/vhost/0002-vhost-fix-receiving-reply-payloads.patch:45-79 | a list arrives, and arrives unchanged, whatever follows it, if and only if its size fits the header and the header's limit |
| Gpt.NextIsFirstFit | scripts/make-gpt.sh:57-59 | placing partitions one after the other is first fit, and one that does not fit there fits nowhere |
| Gpt.StartsOrdered | scripts/make-gpt.sh:57-59 | partitions come in order and do not overlap |
| Gpt.MakeTable | scripts/make-gpt.sh:47-56 | the image holds all partitions, with 1 MiB before the first and after the last; each holds its file with less than 1 MiB to spare |
| Gpt.FillPartition | scripts/make-gpt.sh:22-29 | the file is written at the partition's start and no other byte changes |
| Gpt.FillAll | scripts/make-gpt.sh:61-65 | after all fills every partition starts with its own file, and bytes of no file are as they were |
| Gpt.MakeGpt | scripts/make-gpt.sh:47-65 | both for the whole script, for every list of files that are not empty |
| Gpt.CombinedFitsIff | release/combined/default.nix:108-118 | the three partitions fit if and only if the first two fall short of 1 MiB boundaries by at most 4063 sectors together |
| Gpt.BlockSizeLeast | release/combined/default.nix:98-100 | the fewest sectors that hold a file |
| Gpt.CombinedFits | release/combined/default.nix:72-122 | with an ESP of 15 MiB they always fit and hold their files without overlap |
| Gpt.CombinedNeedNotFit | release/combined/default.nix:108-118 | with other sizes they need not |
| Uuids.UuidDigits | scripts/format-uuid.sh:7-19 | for 32 digits both programs print the same UUID, the digits with hyphens after the 8th, 12th, 16th and 20th, from which they can be read back |
| Uuids.InitFindsBuilt | host/initramfs/etc/init:9-16 | two reads of 37 bytes give exactly the UUIDs of the build, root first, with nothing left; the root's is the first half of the hash |
| Uuids.BuiltInjective | release/live/Makefile:15-16 | distinct root hashes have distinct pairs of UUIDs |
| Args.ParseUnparse | scripts/run-cloud-hypervisor.sh:12-26 | parsing an argument list gives back the items it was made from |
| Args.UnparseParse | scripts/run-cloud-hypervisor.sh:12-26 | every list is that of its items, but for a final --cmdline without a value |
| Args.JoinSpaces | scripts/run-cloud-hypervisor.sh:17-18 | each value comes after those before it and one space |
| Args.RunCloudHypervisor | scripts/run-cloud-hypervisor.sh:12-26 | takes out exactly the --cmdline pairs and joins their values in order; says exactly what happens to a final --cmdline without a value |
| QemuArgs.FilterMachine | scripts/run-qemu.sh:50-67 | the loop keeps every option but virtualization=on, which it keeps on aarch64, asking for tcg |
| QemuArgs.FilteredSame | scripts/run-qemu.sh:50-67 | a value that has nothing to take out and no comma at either end comes through unchanged |
| QemuArgs.FilteredDrops | scripts/run-qemu.sh:50-67 | except on aarch64 no value that is passed on asks for virtualization |
| QemuArgs.FilteredFields | scripts/run-qemu.sh:50-67 | the value passed on has exactly the kept options if and only if the first and the last of them are not empty |
| QemuArgs.IsIommuMeans | scripts/run-qemu.sh:33-44 | a device counts as an IOMMU if and only if the text before its first comma ends in -iommu |
| QemuArgs.RewriteAt | scripts/run-qemu.sh:21-75 | order and count are kept, and every argument but the values after -append and -machine |
| QemuArgs.RewriteApart | scripts/run-qemu.sh:21-75 | a list is rewritten piece by piece |
| QemuArgs.RewriteAppend | scripts/run-qemu.sh:27-32 | the value of -append comes after the script's own arguments and a space |
| QemuArgs.RewriteMachine | scripts/run-qemu.sh:45-70 | the value of -machine is filtered, and asks for tcg if and only if it has virtualization=on |
| QemuArgs.RewriteDevice | scripts/run-qemu.sh:33-44 | -device and its value are passed on, and the value decides about the IOMMU |
| QemuArgs.RewriteOther | scripts/run-qemu.sh:71-75 | other arguments are passed on |
| QemuArgs.FieldsAt | scripts/run-qemu.sh:50-51 | the options of a value are what stands between its commas |
| QemuArgs.RunQemu | scripts/run-qemu.sh:21-75 | ends on every list, keeps its length, fails only on a lone -append or -device, and equals the recursive rewriting on every list that does not end in an option without a value; says exactly what becomes of the others |

## Left out

- Real ioctls, D-Bus, ch-remote, sfdisk, mmap and s6: each call has only the effect listed above.
- The signal start-vmm's child sends when creating the VM fails: which process receives it is not part of this model.
- A second rename to the same `_dead` name, which fails while the first tap lives: `NamesFreed` speaks of listeners whose rename succeeded.
- Wrap-around of interface indices and of process serial numbers.
- NetSetup.Host.NetSetup: its list of calls leaves out close, which is taken not to fail and shows in the tables.
- QemuArgs.RunQemu: does not model file name expansion of unquoted values, nor what the script prepends after the loop.
- Regions.GetRegions: the limit on a message's size is a parameter, because it is the library's.
- Uris.TransformUris: does not model which documents stay shared when a later member fails, nor the descriptor opened for the parent directory.
- Portal.NeverStuck: a host that dies in the middle is not part of this model, nor what the guest does after reading from a closed connection, because it goes on with an undefined byte.
- Gpt.MakeGpt: files are not empty, because a partition of no size has no place.
- Gpt.CombinedFits: of an empty installer or eosimages file it only says where its partition would begin, because a partition of no size has no place.
- VhostReply: malformed requests, which end the connection, and several backends at once.
- The disk part of vm_config, response codes of the file chooser and the permissions it passes on: they would only add easy members.
- scripts/run-spectrum-vm.c, tools/lseek, the rest of the GPU patch, Nix expressions and service files: plumbing without a property of its own.
