/** Partition UUIDs made from a dm-verity root hash, when an image is built and when it boots. */
module Uuids {
  import opened Options

  /** awk's substr, counting from 1, and cut -c beg-end: both stop at the end of the string. */
  function Substr(s: string, from: nat, len: nat): string
    requires from >= 1
  {
    var a := if from - 1 < |s| then from - 1 else |s|;
    var b := if a + len < |s| then a + len else |s|;
    s[a..b]
  }

  /** format-uuid.sh */
  function FormatUuid(hex: string): string {
    Substr(hex, 1, 8) + "-" + Substr(hex, 9, 4) + "-" + Substr(hex, 13, 4) + "-" + Substr(hex, 17, 4) + "-"
    + Substr(hex, 21, 12)
  }

  /** to_uuid in getuuids: the last piece runs to the end. */
  function ToUuid(hex: string): string {
    Substr(hex, 1, 8) + "-" + Substr(hex, 9, 4) + "-" + Substr(hex, 13, 4) + "-" + Substr(hex, 17, 4) + "-"
    + Substr(hex, 21, |hex|)
  }

  /** The digits between the hyphens. */
  function Digits(uuid: string): string
    requires |uuid| == 36
  {
    uuid[..8] + uuid[9..13] + uuid[14..18] + uuid[19..23] + uuid[24..]
  }

  /** For 32 digits the two agree, and the digits can be read back. */
  lemma UuidDigits(hex: string)
    requires |hex| == 32
    ensures |ToUuid(hex)| == 36 && FormatUuid(hex) == ToUuid(hex) && Digits(ToUuid(hex)) == hex
    ensures ToUuid(hex) == hex[..8] + "-" + hex[8..12] + "-" + hex[12..16] + "-" + hex[16..20] + "-" + hex[20..]
  {
    assert Substr(hex, 21, 12) == Substr(hex, 21, |hex|) == hex[20..];
    var u := ToUuid(hex);
    assert u[..8] == hex[..8] && u[9..13] == hex[8..12] && u[14..18] == hex[12..16] && u[19..23] == hex[16..20];
    assert u[24..] == hex[20..];
  }

  /** What the build gives the root and the verity partition. */
  function Built(hash: string): (uuids: (string, string))
    requires |hash| == 64
    ensures |uuids.0| == |uuids.1| == 36
  {
    UuidDigits(hash[..32]);
    UuidDigits(hash[32..]);
    (FormatUuid(hash[..32]), FormatUuid(hash[32..]))
  }

  /** getuuids: two lines, or a failure if the hash is not 64 characters long. */
  function Printed(hash: string): Option<string> {
    if |hash| != 64 then None
    else Some(ToUuid(Substr(hash, 1, 32)) + "\n" + ToUuid(Substr(hash, 33, 32)) + "\n")
  }

  /** A single read of at most 37 bytes, and what is left; backtick drops the final newline. */
  function ReadLine(pipe: string): (string, string) {
    var n := if |pipe| < 37 then |pipe| else 37;
    var line := pipe[..n];
    (if n > 0 && line[n - 1] == '\n' then line[..n - 1] else line, pipe[n..])
  }

  lemma ReadsLine(line: string, rest: string)
    requires |line| == 36
    ensures ReadLine(line + "\n" + rest) == (line, rest)
  {
    var pipe := line + "\n" + rest;
    assert pipe[..37] == line + "\n" && pipe[37..] == rest;
    assert (line + "\n")[..36] == line;
  }

  /** The init script finds exactly the UUIDs the build wrote, with nothing left in the pipe. */
  lemma InitFindsBuilt(hash: string)
    requires |hash| == 64
    ensures Printed(hash).Some?
    ensures var (root, rest) := ReadLine(Printed(hash).value);
            var (verity, end) := ReadLine(rest);
            (root, verity) == Built(hash) && end == ""
    ensures Digits(Built(hash).0) == hash[..32] && Digits(Built(hash).1) == hash[32..]
  {
    var a, b := hash[..32], hash[32..];
    assert Substr(hash, 1, 32) == a && Substr(hash, 33, 32) == b;
    UuidDigits(a);
    UuidDigits(b);
    var second := ToUuid(b) + "\n";
    assert Printed(hash).value == ToUuid(a) + "\n" + second;
    assert second == ToUuid(b) + "\n" + "";
    ReadsLine(ToUuid(a), second);
    ReadsLine(ToUuid(b), "");
  }

  /** Distinct hashes have distinct pairs of UUIDs. */
  lemma BuiltInjective(h: string, k: string)
    requires |h| == |k| == 64 && Built(h) == Built(k)
    ensures h == k
  {
    UuidDigits(h[..32]);
    UuidDigits(h[32..]);
    UuidDigits(k[..32]);
    UuidDigits(k[32..]);
    assert h == h[..32] + h[32..] && k == k[..32] + k[32..];
  }
}
