/** Disk images with a GUID Partition Table: sizes, placement and filling. */
module Gpt {
  import opened Bytes

  const SECTOR := 512
  const GRAIN := 2048       // sfdisk aligns to 1 MiB
  const ONE_MIB := 1048576
  const BACKUP := 33        // the backup table and header, section 5.3 of the UEFI Specification

  /** The least multiple of the grain from n on. */
  function AlignUp(n: nat): nat {
    (n + GRAIN - 1) / GRAIN * GRAIN
  }

  lemma AlignUpLeast(n: nat, m: nat)
    ensures AlignUp(n) % GRAIN == 0 && n <= AlignUp(n) < n + GRAIN
    ensures m % GRAIN == 0 && m >= n ==> AlignUp(n) <= m
  {
  }

  lemma AlignUpIs(n: nat, k: nat)
    requires GRAIN * k - GRAIN < n <= GRAIN * k
    ensures AlignUp(n) == GRAIN * k
  {
    assert (n + GRAIN - 1) / GRAIN == k;
  }

  // Placement.

  /** Where sfdisk puts a partition after ones of the given sizes, which it placed in order. */
  function Next(sizes: seq<nat>): (s: nat)
    ensures s % GRAIN == 0 && s >= GRAIN
  {
    if sizes == [] then GRAIN
    else
      var end := Next(sizes[..|sizes| - 1]) + sizes[|sizes| - 1];
      AlignUpLeast(end, 0);
      AlignUp(end)
  }

  function Start(sizes: seq<nat>, i: nat): nat
    requires i < |sizes|
  {
    Next(sizes[..i])
  }

  /** What sfdisk promises for a partition without a start: the first aligned place that is free
      and large enough. */
  ghost predicate Candidate(total: nat, sizes: seq<nat>, n: nat, size: nat, s: nat)
    requires n <= |sizes|
  {
    && s % GRAIN == 0 && s >= GRAIN && s + size + BACKUP <= total
    && forall i :: 0 <= i < n ==> s + size <= Start(sizes, i) || Start(sizes, i) + sizes[i] <= s
  }

  ghost predicate FirstFit(total: nat, sizes: seq<nat>, n: nat, size: nat, s: nat)
    requires n <= |sizes|
  {
    Candidate(total, sizes, n, size, s) && forall t: nat :: t < s ==> !Candidate(total, sizes, n, size, t)
  }

  /** Partitions come in order and do not overlap. */
  lemma {:induction false} StartsOrdered(sizes: seq<nat>, i: nat, j: nat)
    requires i < j <= |sizes|
    ensures Start(sizes, i) + sizes[i] <= Next(sizes[..j])
    decreases j
  {
    var front := sizes[..j];
    assert front[..j - 1] == sizes[..j - 1];
    AlignUpLeast(Next(sizes[..j - 1]) + sizes[j - 1], 0);
    if i < j - 1 {
      StartsOrdered(sizes, i, j - 1);
    }
  }

  /** An aligned sector below the next start lies in some partition. */
  lemma {:induction false} NoGap(sizes: seq<nat>, n: nat, t: nat) returns (i: nat)
    requires n <= |sizes| && t % GRAIN == 0 && GRAIN <= t < Next(sizes[..n])
    ensures i < n && Start(sizes, i) <= t < Start(sizes, i) + sizes[i]
    decreases n
  {
    assert n > 0;
    var before := sizes[..n - 1];
    assert sizes[..n][..n - 1] == before;
    if t < Next(before) {
      i := NoGap(sizes, n - 1, t);
    } else {
      i := n - 1;
      AlignUpLeast(Next(before) + sizes[i], t);
    }
  }

  /** Placing partitions one after another is first fit; and if the next one does not fit there,
      it does not fit anywhere. */
  lemma NextIsFirstFit(total: nat, sizes: seq<nat>, n: nat)
    requires n < |sizes| && forall i :: 0 <= i < |sizes| ==> sizes[i] > 0
    ensures var s := Start(sizes, n);
            if s + sizes[n] + BACKUP <= total then FirstFit(total, sizes, n, sizes[n], s)
            else forall t: nat :: !Candidate(total, sizes, n, sizes[n], t)
  {
    var s := Start(sizes, n);
    forall i | 0 <= i < n ensures Start(sizes, i) + sizes[i] <= s {
      StartsOrdered(sizes, i, n);
    }
    forall t: nat | t < s ensures !Candidate(total, sizes, n, sizes[n], t) {
      if Candidate(total, sizes, n, sizes[n], t) {
        var i := NoGap(sizes, n, t);
      }
    }
  }

  /** sfdisk accepts the table. */
  predicate Fits(total: nat, sizes: seq<nat>) {
    forall i :: 0 <= i < |sizes| ==> Start(sizes, i) + sizes[i] + BACKUP <= total
  }

  // make-gpt.sh

  function SizeMib(bytes: nat): nat {
    (bytes + ONE_MIB - 1) / ONE_MIB
  }

  lemma SizeMibBounds(bytes: nat)
    requires bytes > 0
    ensures bytes <= SECTOR * (SizeMib(bytes) * GRAIN) < bytes + ONE_MIB
    ensures SECTOR * (SizeMib(bytes) * GRAIN) == SizeMib(bytes) * ONE_MIB
    ensures (SizeMib(bytes) * GRAIN) % GRAIN == 0
  {
  }

  function Sum(s: seq<nat>): nat {
    if s == [] then 0 else Sum(s[..|s| - 1]) + s[|s| - 1]
  }

  ghost predicate Whole(sizes: seq<nat>) {
    forall i :: 0 <= i < |sizes| ==> sizes[i] % GRAIN == 0
  }

  /** Sizes in whole mebibytes leave no gaps. */
  lemma {:induction false} NextWhole(sizes: seq<nat>)
    requires Whole(sizes)
    ensures Next(sizes) == GRAIN + Sum(sizes)
  {
    if sizes != [] {
      var front, last := sizes[..|sizes| - 1], sizes[|sizes| - 1];
      NextWhole(front);
      var a, b := Next(front) / GRAIN, last / GRAIN;
      assert Next(front) == GRAIN * a && last == GRAIN * b;
      AlignUpIs(Next(front) + last, a + b);
    }
  }

  lemma {:induction false} SumPrefix(s: seq<nat>, i: nat)
    requires i < |s|
    ensures Sum(s[..i]) + s[i] <= Sum(s)
    decreases |s|
  {
    var n := |s| - 1;
    if i == n {
    } else {
      SumPrefix(s[..n], i);
      assert s[..n][..i] == s[..i];
    }
  }

  /** The table has room for each file, and a disk of that many sectors for the table. */
  predicate Roomy(total: nat, sizes: seq<nat>, files: seq<seq<byte>>) {
    && |sizes| == |files| && Fits(total, sizes)
    && forall i :: 0 <= i < |files| ==> |files[i]| <= SECTOR * sizes[i]
  }

  /** The size loop: the table's sizes in sectors, and the bytes of the image. The first partition
      starts at 1 MiB, 1 MiB follows the last, and each wastes less than 1 MiB. */
  method MakeTable(files: seq<seq<byte>>) returns (sizes: seq<nat>, gptBytes: nat)
    requires forall i :: 0 <= i < |files| ==> files[i] != []
    ensures gptBytes == SECTOR * (Next(sizes) + GRAIN) && Roomy(Next(sizes) + GRAIN, sizes, files)
    ensures forall i :: 0 <= i < |sizes| ==> 0 < SECTOR * sizes[i] < |files[i]| + ONE_MIB && sizes[i] % GRAIN == 0
  {
    sizes := [];
    gptBytes := ONE_MIB * 2;
    for i := 0 to |files|
      invariant |sizes| == i && Whole(sizes)
      invariant forall j :: 0 <= j < i ==> 0 < |files[j]| <= SECTOR * sizes[j] < |files[j]| + ONE_MIB
      invariant gptBytes == SECTOR * (2 * GRAIN + Sum(sizes))
    {
      var sizeMib := SizeMib(|files[i]|);
      SizeMibBounds(|files[i]|);
      ghost var before := sizes;
      sizes := sizes + [sizeMib * GRAIN];
      assert sizes[..i] == before;
      gptBytes := gptBytes + sizeMib * ONE_MIB;
    }
    NextWhole(sizes);
    forall i | 0 <= i < |sizes| ensures Start(sizes, i) + sizes[i] + BACKUP <= Next(sizes) + GRAIN {
      NextWhole(sizes[..i]);
      SumPrefix(sizes, i);
    }
  }

  // Filling.

  /** Partition i holds all of its file. */
  ghost predicate Holds(image: seq<byte>, at: nat, file: seq<byte>) {
    at + |file| <= |image| && image[at..at + |file|] == file
  }

  predicate Within(x: nat, at: nat, len: nat) {
    at <= x < at + len
  }

  /** The bytes at which the partitions begin. */
  function Offsets(sizes: seq<nat>): seq<nat> {
    seq(|sizes|, i requires 0 <= i < |sizes| => SECTOR * Start(sizes, i))
  }

  /** Each file ends before the next partition begins, and before the image does. */
  ghost predicate Apart(length: nat, ats: seq<nat>, files: seq<seq<byte>>) {
    && |ats| == |files|
    && (forall i :: 0 <= i < |files| ==> ats[i] + |files[i]| <= length)
    && (forall i, j :: 0 <= i < j < |files| ==> ats[i] + |files[i]| <= ats[j])
  }

  lemma RoomyApart(total: nat, sizes: seq<nat>, files: seq<seq<byte>>)
    requires Roomy(total, sizes, files)
    ensures Apart(SECTOR * total, Offsets(sizes), files)
  {
    forall i, j | 0 <= i < j < |files| ensures Offsets(sizes)[i] + |files[i]| <= Offsets(sizes)[j] {
      StartsOrdered(sizes, i, j);
    }
  }

  /** One file written into the image where its partition starts. */
  method FillPartition(image: array<byte>, at: nat, file: seq<byte>)
    requires at + |file| <= image.Length
    modifies image
    ensures Holds(image[..], at, file)
    ensures forall x :: 0 <= x < image.Length && !Within(x, at, |file|) ==> image[x] == old(image[x])
  {
    for k := 0 to |file|
      invariant image[at..at + k] == file[..k]
      invariant forall x :: 0 <= x < image.Length && !Within(x, at, |file|) ==> image[x] == old(image[x])
    {
      image[at + k] := file[k];
    }
    assert image[..][at..at + |file|] == image[at..at + |file|];
  }

  /** A byte that belongs to none of the first n files. */
  ghost predicate Spared(ats: seq<nat>, files: seq<seq<byte>>, n: nat, x: nat)
    requires n <= |ats| && n <= |files|
  {
    forall i :: 0 <= i < n ==> !Within(x, ats[i], |files[i]|)
  }

  lemma HoldsStill(before: seq<byte>, after: seq<byte>, at: nat, file: seq<byte>, from: nat, len: nat)
    requires |before| == |after| && Holds(before, at, file) && at + |file| <= from
    requires forall x :: 0 <= x < |after| && !Within(x, from, len) ==> after[x] == before[x]
    ensures Holds(after, at, file)
  {
    assert after[at..at + |file|] == before[at..at + |file|];
  }

  /** All fills in order: every partition starts with its own file, and every byte that belongs to
      no file, the two partition tables among them, is as sfdisk left it. */
  method FillAll(image: array<byte>, ats: seq<nat>, files: seq<seq<byte>>)
    requires Apart(image.Length, ats, files)
    modifies image
    ensures forall i :: 0 <= i < |files| ==> Holds(image[..], ats[i], files[i])
    ensures forall x :: 0 <= x < image.Length && Spared(ats, files, |files|, x) ==> image[x] == old(image[x])
  {
    for n := 0 to |files|
      invariant forall i :: 0 <= i < n ==> Holds(image[..], ats[i], files[i])
      invariant forall x :: 0 <= x < image.Length && Spared(ats, files, n, x) ==> image[x] == old(image[x])
    {
      ghost var before := image[..];
      FillPartition(image, ats[n], files[n]);
      forall i | 0 <= i < n ensures Holds(image[..], ats[i], files[i]) {
        HoldsStill(before, image[..], ats[i], files[i], ats[n], |files[n]|);
      }
    }
  }

  /** The whole script. `tables` is the image as sfdisk leaves it. */
  method MakeGpt(files: seq<seq<byte>>, tables: nat -> byte) returns (image: array<byte>, sizes: seq<nat>)
    requires forall i :: 0 <= i < |files| ==> files[i] != []
    ensures fresh(image) && image.Length == SECTOR * (Next(sizes) + GRAIN)
    ensures Roomy(Next(sizes) + GRAIN, sizes, files)
    ensures forall i :: 0 <= i < |files| ==> Holds(image[..], SECTOR * Start(sizes, i), files[i])
    ensures forall x :: 0 <= x < image.Length && Spared(Offsets(sizes), files, |files|, x) ==> image[x] == tables(x)
  {
    var gptBytes;
    sizes, gptBytes := MakeTable(files);
    image := new byte[gptBytes](x => tables(x));
    assert forall x :: 0 <= x < image.Length ==> image[x] == tables(x);
    RoomyApart(Next(sizes) + GRAIN, sizes, files);
    FillAll(image, Offsets(sizes), files);
  }

  // release/combined/default.nix

  function BlockSize(bytes: nat): nat {
    (bytes + 511) / 512
  }

  /** The fewest sectors that hold so many bytes. */
  lemma BlockSizeLeast(bytes: nat, k: nat)
    ensures BlockSize(bytes) <= k <==> bytes <= SECTOR * k
  {
  }

  /** How far a size falls short of the grain. */
  function Pad(size: nat): nat {
    (GRAIN - size % GRAIN) % GRAIN
  }

  lemma AlignUpPads(n: nat, size: nat)
    requires n % GRAIN == 0
    ensures AlignUp(n + size) == n + size + Pad(size)
  {
    var a, b, c := n / GRAIN, size / GRAIN, size % GRAIN;
    assert n == GRAIN * a && size == GRAIN * b + c;
    assert Pad(size) == if c == 0 then 0 else GRAIN - c;
    AlignUpIs(n + size, a + b + if c == 0 then 0 else 1);
  }

  function CombinedSectors(esp: nat, installer: nat, eosimages: nat): nat {
    3 * 2048 + esp + installer + eosimages
  }

  /** The slack of 3 * 2048 sectors is enough exactly when the first two partitions waste no more
      than 4063 sectors between them ... */
  lemma CombinedFitsIff(esp: nat, installer: nat, eosimages: nat)
    ensures Fits(CombinedSectors(esp, installer, eosimages), [esp, installer, eosimages])
       <==> Pad(esp) + Pad(installer) <= 3 * GRAIN - GRAIN - BACKUP
  {
    var sizes := [esp, installer, eosimages];
    assert sizes[..0] == [] && sizes[..1] == [esp] && sizes[..2] == [esp, installer];
    assert sizes[..1][..0] == [] && sizes[..2][..1] == [esp];
    AlignUpPads(GRAIN, esp);
    AlignUpPads(GRAIN + esp + Pad(esp), installer);
    assert Start(sizes, 0) == GRAIN;
    assert Start(sizes, 1) == GRAIN + esp + Pad(esp);
    assert Start(sizes, 2) == GRAIN + esp + Pad(esp) + installer + Pad(installer);
  }

  /** ... which an ESP of exactly 15 MiB ensures whatever the other files are, so that the fills
      keep every file whole ... */
  lemma CombinedFits(esp: seq<byte>, installer: seq<byte>, eosimages: seq<byte>)
    requires |esp| == 15 * ONE_MIB
    ensures var sizes := [BlockSize(|esp|), BlockSize(|installer|), BlockSize(|eosimages|)];
            var total := CombinedSectors(sizes[0], sizes[1], sizes[2]);
            var files := [esp, installer, eosimages];
            Roomy(total, sizes, files) && Apart(SECTOR * total, Offsets(sizes), files)
  {
    CombinedFitsIff(BlockSize(|esp|), BlockSize(|installer|), BlockSize(|eosimages|));
    var sizes := [BlockSize(|esp|), BlockSize(|installer|), BlockSize(|eosimages|)];
    RoomyApart(CombinedSectors(sizes[0], sizes[1], sizes[2]), sizes, [esp, installer, eosimages]);
  }

  /** ... and other ESP sizes need not. */
  lemma CombinedNeedNotFit()
    ensures !Fits(CombinedSectors(1, 1, 1), [1, 1, 1])
  {
    CombinedFitsIff(1, 1, 1);
  }
}
