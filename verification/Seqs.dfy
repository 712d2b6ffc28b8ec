/** Sequences cut at a separator. */
module Seqs {

  function Split<T(==)>(sep: T, s: seq<T>): (r: seq<seq<T>>)
    ensures |r| > 0 && forall i :: 0 <= i < |r| ==> sep !in r[i]
  {
    if s == [] then [[]]
    else
      var r := Split(sep, s[1..]);
      if s[0] == sep then [[]] + r else [[s[0]] + r[0]] + r[1..]
  }

  lemma {:induction false} SplitJoin<T>(sep: T, a: seq<T>, b: seq<T>)
    ensures Split(sep, a + [sep] + b) == Split(sep, a) + Split(sep, b)
  {
    var s := a + [sep] + b;
    if a == [] {
      assert s[1..] == b;
    } else {
      assert s[1..] == a[1..] + [sep] + b;
      SplitJoin(sep, a[1..], b);
    }
  }

  lemma {:induction false} SplitWhole<T>(sep: T, c: seq<T>)
    requires sep !in c
    ensures Split(sep, c) == [c]
  {
    if c != [] {
      SplitWhole(sep, c[1..]);
      assert c == [c[0]] + c[1..];
    }
  }

  /** The piece before the first separator is split off. */
  lemma SplitFirst<T>(sep: T, c: seq<T>, rest: seq<T>)
    requires sep !in c
    ensures Split(sep, c + [sep] + rest) == [c] + Split(sep, rest)
  {
    SplitWhole(sep, c);
    SplitJoin(sep, c, rest);
  }

  lemma SplitAt<T>(s: seq<T>, k: nat)
    requires k <= |s|
    ensures if k < |s| then s == s[..k] + [s[k]] + s[k + 1..] else s == s[..k]
  {
  }

  lemma Uncons<T>(s: seq<T>)
    requires s != []
    ensures s == [s[0]] + s[1..]
  {
  }

  /** One step of a loop over s that has been looking for x. */
  lemma Onward<T>(s: seq<T>, i: nat, x: T)
    requires i < |s|
    ensures s[i..] != [] && s[i..][0] == s[i] && s[i..][1..] == s[i + 1..]
    ensures x in s[..i + 1] <==> x in s[..i] || s[i] == x
  {
    assert s[..i + 1] == s[..i] + [s[i]];
  }

  lemma Regroup<T>(a: seq<T>, b: seq<T>, c: seq<T>)
    ensures a + b + c == a + (b + c)
  {
  }

  lemma Nested<T>(a: seq<T>, b: seq<T>, c: seq<T>, d: seq<T>, e: seq<T>, f: seq<T>)
    ensures a + b + c + d + e + f == a + (b + (c + (d + (e + f))))
  {
  }

  lemma Cut<T>(a: seq<T>, b: seq<T>)
    ensures (a + b)[..|a|] == a && (a + b)[|a|..] == b
  {
  }

  // Rotation: elements leave at the front and come back, perhaps changed, at the end.

  lemma TurnOne<T>(todo: seq<T>, done: seq<T>, x: T)
    requires todo != []
    ensures (todo + done)[1..] + [x] == todo[1..] + (done + [x])
  {
  }

  lemma TurnTwo<T>(todo: seq<T>, done: seq<T>, x: T, y: T)
    requires |todo| > 1
    ensures ((todo + done)[1..] + [x, y])[1..] == todo[2..] + (done + [x, y])
    ensures ((todo + done)[1..] + [x])[1..] + [y] == todo[2..] + (done + [x, y])
    ensures (todo + done)[1..][0] == todo[1]
  {
  }

  lemma LastOne<T>(todo: seq<T>, done: seq<T>)
    requires |todo| == 1
    ensures (todo + done)[1..] == done && todo == [(todo + done)[0]]
  {
  }

  lemma TurnLast<T>(done: seq<T>, x: T, y: T)
    requires done != []
    ensures (done + [x, y])[1..] == (done + [x])[1..] + [y]
  {
  }

  lemma DropTwo<T>(todo: seq<T>, done: seq<T>)
    requires todo != [] && |todo + done| > 1
    ensures (todo + done)[1..][1..] == if |todo| > 1 then todo[2..] + done else done[1..]
    ensures (todo + done)[1..][0] == if |todo| > 1 then todo[1] else done[0]
  {
  }
}
