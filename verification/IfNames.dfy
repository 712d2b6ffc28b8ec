/** Interface names: host/start-vmm/net.c prints a prefix and a pid into an IFNAMSIZ buffer. */
module IfNames {
  import opened Decimal

  const IFNAMSIZ := 16

  /** snprintf keeps nine digits after the longest prefix; kernel pids have at most seven. */
  const PID_LIMIT := 1_000_000_000

  type Pid = p: nat | p < PID_LIMIT

  datatype Kind = Br | Client | Router | Dead

  function Prefix(k: Kind): string {
    match k
    case Br => "br"
    case Client => "client"
    case Router => "router"
    case Dead => "_dead"
  }

  /** snprintf(buf, IFNAMSIZ, ...): all but the last byte of the buffer can hold text. */
  function Snprintf(text: string): string {
    if |text| < IFNAMSIZ then text else text[..IFNAMSIZ - 1]
  }

  /** An interface name, before it is printed. */
  datatype IfName = Name(kind: Kind, pid: Pid)

  function KindOf(c: char): Kind {
    if c == 'b' then Br else if c == 'c' then Client else if c == 'r' then Router else Dead
  }

  lemma NameFits(n: IfName)
    ensures |Prefix(n.kind) + Show(n.pid)| < IFNAMSIZ
    ensures '%' !in Prefix(n.kind) && '%' !in Show(n.pid)
  {
    assert Pow10(9) == PID_LIMIT;
    ShowLength(n.pid, 9);
    ShowThenValue(n.pid);
    assert forall i :: 0 <= i < |Show(n.pid)| ==> IsDigit(Show(n.pid)[i]);
  }

  /** The buffer after snprintf. Nothing is cut off: the prefix and every digit of the pid are
      there, and the checks of bridge_add, tap_open and if_rename (length, '%') cannot fire. */
  function Text(n: IfName): (text: string)
    ensures text == Prefix(n.kind) + Show(n.pid)
    ensures |text| < IFNAMSIZ && '%' !in text
  {
    NameFits(n);
    Snprintf(Prefix(n.kind) + Show(n.pid))
  }

  lemma TextParts(n: IfName)
    ensures Text(n) != [] && KindOf(Text(n)[0]) == n.kind
    ensures |Prefix(n.kind)| <= |Text(n)| && Text(n)[|Prefix(n.kind)|..] == Show(n.pid)
  {
  }

  /** Two processes, or two kinds of interface, never get the same text. */
  lemma TextInjective(m: IfName, n: IfName)
    requires Text(m) == Text(n)
    ensures m == n
  {
    TextParts(m);
    TextParts(n);
    ShowInjective(m.pid, n.pid);
  }

  lemma Texts(p: Pid)
    ensures Text(Name(Br, p)) == "br" + Show(p) && Text(Name(Client, p)) == "client" + Show(p)
    ensures Text(Name(Router, p)) == "router" + Show(p) && Text(Name(Dead, p)) == "_dead" + Show(p)
  {
  }
}
