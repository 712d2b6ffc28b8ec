/** Unix paths as bytes, in the terms of Rust's std::path. */
module Paths {
  import opened Bytes
  import opened Options
  import opened Seqs

  const SLASH: byte := 47
  const DOT: byte := 46

  predicate Ordinary(c: seq<byte>) {
    c != [] && c != [DOT] && SLASH !in c
  }

  function OnlyOrdinary(cs: seq<seq<byte>>): (r: seq<seq<byte>>)
    ensures (forall i :: 0 <= i < |cs| ==> SLASH !in cs[i]) ==> forall i :: 0 <= i < |r| ==> Ordinary(r[i])
  {
    if cs == [] then []
    else (if cs[0] != [] && cs[0] != [DOT] then [cs[0]] else []) + OnlyOrdinary(cs[1..])
  }

  lemma {:induction false} OnlyOrdinaryJoin(a: seq<seq<byte>>, b: seq<seq<byte>>)
    ensures OnlyOrdinary(a + b) == OnlyOrdinary(a) + OnlyOrdinary(b)
  {
    if a == [] {
      assert a + b == b;
    } else {
      var first := if a[0] != [] && a[0] != [DOT] then [a[0]] else [];
      assert (a + b)[1..] == a[1..] + b;
      OnlyOrdinaryJoin(a[1..], b);
      Regroup(first, OnlyOrdinary(a[1..]), OnlyOrdinary(b));
    }
  }

  /** Path::components: repeated slashes and single dots do not count. */
  function Components(p: seq<byte>): (r: seq<seq<byte>>)
    ensures forall i :: 0 <= i < |r| ==> Ordinary(r[i])
  {
    OnlyOrdinary(Split(SLASH, p))
  }

  lemma ComponentsJoin(a: seq<byte>, b: seq<byte>)
    ensures Components(a + [SLASH] + b) == Components(a) + Components(b)
  {
    SplitJoin(SLASH, a, b);
    OnlyOrdinaryJoin(Split(SLASH, a), Split(SLASH, b));
  }

  lemma ComponentsOne(c: seq<byte>)
    requires Ordinary(c)
    ensures Components(c) == [c]
  {
    SplitWhole(SLASH, c);
    assert OnlyOrdinary([c]) == [c] + OnlyOrdinary([]);
  }

  lemma NoComponents()
    ensures Components([]) == []
  {
    SplitWhole(SLASH, []);
    assert OnlyOrdinary([[]]) == OnlyOrdinary([]);
  }

  /** Path::file_name */
  function FileName(p: seq<byte>): (r: Option<seq<byte>>)
    ensures r.Some? ==> Ordinary(r.value) && r.value != [DOT, DOT]
  {
    var cs := Components(p);
    if cs == [] || cs[|cs| - 1] == [DOT, DOT] then None else Some(cs[|cs| - 1])
  }

  lemma LastOf<T>(a: seq<T>, x: T)
    ensures (a + [x])[|a + [x]| - 1] == x
  {
  }

  /** The file name is what follows the last slash, */
  lemma FileNameLast(dir: seq<byte>, c: seq<byte>)
    requires Ordinary(c) && c != [DOT, DOT]
    ensures FileName(dir + [SLASH] + c) == Some(c) && FileName(c) == Some(c)
  {
    ComponentsJoin(dir, c);
    ComponentsOne(c);
    LastOf(Components(dir), c);
  }

  /** whether or not more slashes or dots come after it; */
  lemma FileNameTrailing(p: seq<byte>)
    ensures FileName(p + [SLASH]) == FileName(p) && FileName(p + [SLASH] + [DOT]) == FileName(p)
  {
    TrailingSlash(p);
    ComponentsJoin(p, [DOT]);
    DotIsNone();
  }

  /** and there is none exactly if nothing is named, or the parent of something. */
  lemma FileNameNone(p: seq<byte>)
    ensures FileName(p).None? <==>
            Components(p) == [] || (var cs := Components(p); cs[|cs| - 1] == [DOT, DOT])
  {
  }

  lemma ParentHasNoName(dir: seq<byte>)
    ensures FileName(dir + [SLASH] + [DOT, DOT]) == None
  {
    ComponentsJoin(dir, [DOT, DOT]);
    ComponentsOne([DOT, DOT]);
    LastOf(Components(dir), [DOT, DOT]);
  }

  lemma DotIsNone()
    ensures Components([DOT]) == []
  {
    SplitWhole(SLASH, [DOT]);
    assert OnlyOrdinary([[DOT]]) == OnlyOrdinary([]);
  }

  predicate Absolute(p: seq<byte>) {
    p != [] && p[0] == SLASH
  }

  /** Path::parent has nothing to give for the root and for an empty path. */
  predicate NoParent(p: seq<byte>) {
    Components(p) == [] && (p == [] || Absolute(p))
  }

  lemma NoParentIff(p: seq<byte>)
    ensures NoParent(p) <==> p == [] || (p[0] == 47 && Components(p[1..]) == [])
  {
    NoComponents();
    if Absolute(p) {
      ComponentsJoin([], p[1..]);
      assert p == [] + [SLASH] + p[1..];
    }
  }

  /** PathBuf::push of a relative path. */
  function Push(p: seq<byte>, c: seq<byte>): seq<byte> {
    if p == [] || p[|p| - 1] == SLASH then p + c else p + [SLASH] + c
  }

  /** Path::join: an absolute path replaces what it is joined to. */
  function Join(p: seq<byte>, c: seq<byte>): seq<byte> {
    if Absolute(c) then c else Push(p, c)
  }

  lemma {:induction false} TrailingSlash(p: seq<byte>)
    ensures Components(p + [SLASH]) == Components(p)
  {
    ComponentsJoin(p, []);
    assert p + [SLASH] + [] == p + [SLASH];
    NoComponents();
  }

  lemma ComponentsPush(p: seq<byte>, c: seq<byte>)
    ensures Components(Push(p, c)) == Components(p) + Components(c)
  {
    if p == [] {
      NoComponents();
      assert Push(p, c) == c;
    } else if p[|p| - 1] == SLASH {
      var q := p[..|p| - 1];
      assert p == q + [SLASH];
      ComponentsJoin(q, c);
      TrailingSlash(q);
    } else {
      ComponentsJoin(p, c);
    }
  }

  /** An absolute path of these components. */
  function Rooted(cs: seq<seq<byte>>): seq<byte> {
    if cs == [] then [] else [SLASH] + cs[0] + Rooted(cs[1..])
  }

  /** Distinct lists of components give distinct paths. */
  lemma {:induction false} ComponentsRooted(cs: seq<seq<byte>>)
    requires forall i :: 0 <= i < |cs| ==> Ordinary(cs[i])
    ensures Components(Rooted(cs)) == cs
  {
    NoComponents();
    if cs != [] {
      var front, last := cs[..|cs| - 1], cs[|cs| - 1];
      ComponentsRooted(front);
      RootedLast(cs);
      ComponentsJoin(Rooted(front), last);
      ComponentsOne(last);
    }
  }

  lemma RootedThree(cs: seq<seq<byte>>, a: seq<byte>, b: seq<byte>, c: seq<byte>)
    ensures Rooted(cs + [a, b, c]) == Rooted(cs) + [SLASH] + a + [SLASH] + b + [SLASH] + c
  {
    var one, two, three := cs + [a], cs + [a, b], cs + [a, b, c];
    assert three[..|three| - 1] == two && two[..|two| - 1] == one && one[..|one| - 1] == cs;
    RootedLast(three);
    RootedLast(two);
    RootedLast(one);
  }

  lemma {:induction false} RootedLast(cs: seq<seq<byte>>)
    requires cs != []
    ensures Rooted(cs) == Rooted(cs[..|cs| - 1]) + [SLASH] + cs[|cs| - 1]
  {
    var front, last := cs[..|cs| - 1], cs[|cs| - 1];
    if |cs| == 1 {
      assert Rooted(cs[1..]) == [] && [SLASH] + last + [] == [] + [SLASH] + last;
    } else {
      RootedLast(cs[1..]);
      assert cs[1..][..|cs| - 2] == front[1..];
      Regroup([SLASH] + cs[0], Rooted(front[1..]), [SLASH] + last);
      Regroup([SLASH] + cs[0] + Rooted(front[1..]), [SLASH], last);
      Regroup(Rooted(front[1..]), [SLASH], last);
    }
  }
}
