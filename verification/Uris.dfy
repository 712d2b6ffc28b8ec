/** Rewriting the file URIs of a file chooser's answer into URIs for the guest. */
module Uris {
  import opened Bytes
  import opened Hex
  import opened Options
  import opened Paths
  import opened Seqs

  const PERCENT: byte := 37
  const FILE: seq<byte> := [102, 105, 108, 101, 58, SLASH, SLASH]  // file://
  const DOC: seq<byte> := [100, 111, 99]

  // Percent-encoding, section 2.1 of RFC 3986.

  /** The bytes an encoder escapes. */
  type Escapes = byte -> bool

  function Encode(esc: Escapes, s: seq<byte>): seq<byte> {
    if s == [] then []
    else Escaped(esc, s[0]) + Encode(esc, s[1..])
  }

  /** A percent sign that no two hexadecimal digits follow stands for itself. */
  function Decode(s: seq<byte>): seq<byte> {
    if s == [] then []
    else if s[0] == PERCENT && |s| >= 3 && Value(s[1]).Some? && Value(s[2]).Some?
    then [16 * Value(s[1]).value + Value(s[2]).value] + Decode(s[3..])
    else [s[0]] + Decode(s[1..])
  }

  function Escaped(esc: Escapes, b: byte): seq<byte> {
    if esc(b) then [PERCENT, Digit(true, b / 16), Digit(true, b % 16)] else [b]
  }

  lemma DecodeEscaped(esc: Escapes, b: byte, rest: seq<byte>)
    requires esc(PERCENT)
    ensures Decode(Escaped(esc, b) + rest) == [b] + Decode(rest)
  {
    var text := Escaped(esc, b) + rest;
    assert text[|Escaped(esc, b)|..] == rest;
    if esc(b) {
      RoundTrip(true, b / 16);
      RoundTrip(true, b % 16);
    }
  }

  /** Decoding undoes encoding, wherever the encoded text stands. */
  lemma {:induction false} DecodeEncode(esc: Escapes, s: seq<byte>, rest: seq<byte>)
    requires esc(PERCENT)
    ensures Decode(Encode(esc, s) + rest) == s + Decode(rest)
  {
    if s == [] {
      assert Encode(esc, s) + rest == rest;
    } else {
      var tail := Encode(esc, s[1..]) + rest;
      assert Encode(esc, s) + rest == Escaped(esc, s[0]) + tail;
      DecodeEscaped(esc, s[0], tail);
      DecodeEncode(esc, s[1..], rest);
      assert s == [s[0]] + s[1..];
    }
  }

  /** Decoding, byte by byte: digits may be in either case, */
  lemma DecodeDigits(m: bool, h: nat, n: bool, l: nat, rest: seq<byte>)
    requires h < 16 && l < 16
    ensures Decode([37, Digit(m, h), Digit(n, l)] + rest) == [16 * h + l] + Decode(rest)
  {
    var text := [37, Digit(m, h), Digit(n, l)] + rest;
    RoundTrip(m, h);
    RoundTrip(n, l);
    assert text[3..] == rest;
  }

  /** and everything else stands for itself. */
  lemma DecodeOther(b: byte, rest: seq<byte>)
    requires b != 37 || |rest| < 2 || rest[0] as char !in HEX || rest[1] as char !in HEX
    ensures Decode([b] + rest) == [b] + Decode(rest) && Decode([]) == []
  {
    if |rest| >= 2 {
      OnlyDigits(rest[0]);
      OnlyDigits(rest[1]);
    }
    assert ([b] + rest)[1..] == rest;
  }

  const HEX := "0123456789ABCDEFabcdef"

  // File URIs.

  function RootedEncoded(esc: Escapes, cs: seq<seq<byte>>): seq<byte> {
    if cs == [] then [] else [SLASH] + Encode(esc, cs[0]) + RootedEncoded(esc, cs[1..])
  }

  /** Url::from_file_path, section 2 of RFC 8089. */
  function FromFilePath(esc: Escapes, p: seq<byte>): seq<byte> {
    FILE + RootedEncoded(esc, Components(p))
  }

  lemma DecodeSlash(a: seq<byte>, b: seq<byte>)
    ensures Decode([SLASH] + a + b) == [SLASH] + Decode(a + b)
  {
    assert ([SLASH] + a + b)[1..] == a + b;
  }

  lemma {:induction false} DecodeRooted(esc: Escapes, cs: seq<seq<byte>>)
    requires esc(PERCENT)
    ensures Decode(RootedEncoded(esc, cs)) == Rooted(cs)
  {
    if cs != [] {
      DecodeRooted(esc, cs[1..]);
      var tail := RootedEncoded(esc, cs[1..]);
      DecodeEncode(esc, cs[0], tail);
      DecodeSlash(Encode(esc, cs[0]), tail);
      Regroup([SLASH], cs[0], Rooted(cs[1..]));
    }
  }

  // The rewriting.

  /** What share_file makes of a path: doc, the document's id and the file's own name. */
  function SharedPath(id: seq<byte>, base: seq<byte>): seq<byte> {
    Push(Push(DOC, id), base)
  }

  predicate HasPrefix(uri: seq<byte>) {
    |uri| >= |FILE| && uri[..|FILE|] == FILE
  }

  /** The path a file URI names. */
  function PathOf(uri: seq<byte>): seq<byte>
    requires HasPrefix(uri)
  {
    Decode(uri[|FILE|..])
  }

  /** The path p names c in the directory dir. */
  predicate Names(p: seq<byte>, dir: seq<byte>, c: seq<byte>) {
    p == dir + [SLASH] + c && Ordinary(c) && c != [DOT, DOT]
  }

  /** The guest's path ends in /doc/, the id, and the name that the host's path ends in. */
  ghost predicate KeepsName(root: seq<byte>, path: seq<byte>, id: seq<byte>, out: seq<byte>) {
    forall dir, c :: Names(path, dir, c) ==>
      out == Rooted(Components(root)) + [SLASH] + DOC + [SLASH] + id + [SLASH] + c
  }

  /** What the guest is to see: the share root, doc, the id, and the base name of the host's file. */
  ghost predicate Corresponds(root: seq<byte>, uri: seq<byte>, id: seq<byte>, out: seq<byte>) {
    && HasPrefix(uri) && HasPrefix(out) && FileName(PathOf(uri)).Some?
    && PathOf(out) == Rooted(Components(root) + [DOC, id, FileName(PathOf(uri)).value])
    && Components(PathOf(out)) == Components(root) + [DOC, id, FileName(PathOf(uri)).value]
    && KeepsName(root, PathOf(uri), id, PathOf(out))
  }

  lemma NameKept(root: seq<byte>, path: seq<byte>, id: seq<byte>)
    requires FileName(path).Some?
    ensures KeepsName(root, path, id, Rooted(Components(root) + [DOC, id, FileName(path).value]))
  {
    forall dir, c | Names(path, dir, c) ensures FileName(path) == Some(c) { FileNameLast(dir, c); }
    RootedThree(Components(root), DOC, id, FileName(path).value);
  }

  lemma SharedComponents(root: seq<byte>, id: seq<byte>, base: seq<byte>)
    requires Ordinary(id) && Ordinary(base)
    ensures Components(Push(root, SharedPath(id, base))) == Components(root) + [DOC, id, base]
  {
    ComponentsPush(root, SharedPath(id, base));
    ComponentsPush(Push(DOC, id), base);
    ComponentsPush(DOC, id);
    ComponentsOne(DOC);
    ComponentsOne(id);
    ComponentsOne(base);
  }

  lemma GuestUri(esc: Escapes, root: seq<byte>, uri: seq<byte>, id: seq<byte>)
    requires esc(PERCENT) && HasPrefix(uri) && FileName(PathOf(uri)).Some? && Ordinary(id)
    ensures Corresponds(root, uri, id, FromFilePath(esc, Push(root, SharedPath(id, FileName(PathOf(uri)).value))))
  {
    var base := FileName(PathOf(uri)).value;
    var cs := Components(root) + [DOC, id, base];
    SharedComponents(root, id, base);
    NameKept(root, PathOf(uri), id);
    DecodeRooted(esc, cs);
    ComponentsRooted(cs);
    var out := FILE + RootedEncoded(esc, cs);
    assert out[..|FILE|] == FILE && out[|FILE|..] == RootedEncoded(esc, cs);
  }

  /** What the file system and the document portal say about a path: the first of share_file's
      questions that is answered badly, or the new document's id. */
  datatype Answer = NotRegular | ParentNotOpened | NotAdded | Added(id: seq<byte>)

  datatype Outcome<T> = Transformed(value: T) | Failed | Aborted

  /** What transforming a URI needs: the prefix, a file that is shared, and a file name. */
  predicate Sharable(uri: seq<byte>, a: Answer) {
    HasPrefix(uri) && a.Added? && FileName(PathOf(uri)).Some?
  }

  /** Whether the first thing that goes wrong is an error or a panic. */
  predicate Panics(uri: seq<byte>, a: Answer) {
    && HasPrefix(uri)
    && match a
       case NotRegular => false
       case ParentNotOpened => NoParent(PathOf(uri))
       case NotAdded => FileName(PathOf(uri)).None?
       case Added(_) => true
  }

  /** The loop's body, with share_file in it. */
  method TransformUri(esc: Escapes, root: seq<byte>, uri: seq<byte>, a: Answer) returns (r: Outcome<seq<byte>>)
    requires esc(PERCENT) && (a.Added? ==> Ordinary(a.id))
    ensures r.Transformed? <==> Sharable(uri, a) && Absolute(root)
    ensures r.Transformed? ==> Corresponds(root, uri, a.id, r.value)
    ensures !r.Transformed? ==> r == if Panics(uri, a) then Aborted else Failed
  {
    if !HasPrefix(uri) { return Failed; }
    var path := PathOf(uri);
    if a.NotRegular? { return Failed; }
    if NoParent(path) { return Aborted; }
    if a.ParentNotOpened? { return Failed; }
    var base := FileName(path);
    if base.None? { return Aborted; }
    if a.NotAdded? { return Failed; }
    if !Absolute(root) { return Aborted; }
    GuestUri(esc, root, uri, a.id);
    r := Transformed(FromFilePath(esc, Push(root, SharedPath(a.id, base.value))));
  }

  /** transform_uris: the list keeps its length and order, and it is all or nothing. Otherwise the
      first member that cannot be transformed decides. */
  method TransformUris(esc: Escapes, root: seq<byte>, uris: seq<seq<byte>>, answers: seq<Answer>)
    returns (r: Outcome<seq<seq<byte>>>)
    requires esc(PERCENT) && |answers| == |uris|
    requires forall i :: 0 <= i < |uris| && answers[i].Added? ==> Ordinary(answers[i].id)
    ensures r.Transformed? <==>
            (uris == [] || Absolute(root)) && forall i :: 0 <= i < |uris| ==> Sharable(uris[i], answers[i])
    ensures r.Transformed? ==>
              && |r.value| == |uris|
              && forall i :: 0 <= i < |uris| ==> Corresponds(root, uris[i], answers[i].id, r.value[i])
    ensures !r.Transformed? ==>
              exists k :: 0 <= k < |uris| && FirstBad(root, uris, answers, k)
                          && r == if Panics(uris[k], answers[k]) then Aborted else Failed
  {
    var list := uris;
    for i := 0 to |list|
      invariant |list| == |uris| && forall j :: i <= j < |uris| ==> list[j] == uris[j]
      invariant i > 0 ==> Absolute(root)
      invariant forall j :: 0 <= j < i ==> Sharable(uris[j], answers[j])
      invariant forall j :: 0 <= j < i ==> Corresponds(root, uris[j], answers[j].id, list[j])
    {
      var one := TransformUri(esc, root, list[i], answers[i]);
      assert one.Transformed? <==> Sharable(uris[i], answers[i]) && Absolute(root);
      if !one.Transformed? {
        assert FirstBad(root, uris, answers, i);
        return if one.Aborted? then Aborted else Failed;
      }
      list := list[i := one.value];
    }
    r := Transformed(list);
  }

  /** The first member that cannot be transformed; with a relative root, the first of all. */
  predicate FirstBad(root: seq<byte>, uris: seq<seq<byte>>, answers: seq<Answer>, k: nat)
    requires k < |uris| == |answers|
  {
    && !(Sharable(uris[k], answers[k]) && Absolute(root))
    && (k > 0 ==> Absolute(root)) && forall j :: 0 <= j < k ==> Sharable(uris[j], answers[j])
  }
}
