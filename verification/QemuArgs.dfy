/** run-qemu.sh: rewriting QEMU's arguments in place, option by option. */
module QemuArgs {
  import opened Options
  import opened Seqs

  const VIRT := "virtualization=on"

  /** The fields an unquoted expansion has under IFS=, : a final empty one is dropped. */
  function Fields(v: string): seq<string> {
    if v == "" then [] else var k := Comma(v); if k == |v| then [v] else [v[..k]] + Fields(v[k + 1..])
  }

  /** The place of the first comma, or the end. */
  function Comma(v: string): (k: nat)
    ensures k <= |v| && ',' !in v[..k] && (k < |v| ==> v[k] == ',')
  {
    if v == "" || v[0] == ',' then 0 else var k := Comma(v[1..]); assert v[..k + 1] == [v[0]] + v[1..][..k]; k + 1
  }

  /** Options joined by commas after what is there already. */
  function JoinOpts(arg: string, opts: seq<string>): string
    decreases opts
  {
    if opts == [] then arg
    else JoinOpts(With(arg, opts[0]), opts[1..])
  }

  function With(arg: string, opt: string): string {
    arg + (if arg != "" then "," else "") + opt
  }

  function Kept(aarch64: bool, opts: seq<string>): seq<string> {
    if opts == [] then []
    else (if opts[0] == VIRT && !aarch64 then [] else [opts[0]]) + Kept(aarch64, opts[1..])
  }

  function Filtered(aarch64: bool, v: string): string {
    JoinOpts("", Kept(aarch64, Fields(v)))
  }

  lemma KeptStep(aarch64: bool, arg: string, opts: seq<string>)
    requires opts != []
    ensures JoinOpts(arg, Kept(aarch64, opts))
         == JoinOpts(if opts[0] == VIRT && !aarch64 then arg else With(arg, opts[0]), Kept(aarch64, opts[1..]))
  {
    var rest := Kept(aarch64, opts[1..]);
    assert ([opts[0]] + rest)[1..] == rest && [] + rest == rest;
  }

  /** The inner loop over a -machine value. */
  method FilterMachine(aarch64: bool, v: string) returns (arg: string, tcg: bool)
    ensures arg == Filtered(aarch64, v)
    ensures tcg <==> aarch64 && VIRT in Fields(v)
  {
    arg, tcg := "", false;
    var opts := Fields(v);
    for i := 0 to |opts|
      invariant JoinOpts(arg, Kept(aarch64, opts[i..])) == Filtered(aarch64, v)
      invariant tcg <==> aarch64 && VIRT in opts[..i]
    {
      Onward(opts, i, VIRT);
      KeptStep(aarch64, arg, opts[i..]);
      if opts[i] == VIRT {
        if !aarch64 { continue; }
        tcg := true;
      }
      arg := With(arg, opts[i]);
    }
    assert opts[..|opts|] == opts;
  }

  lemma FieldsStep(v: string)
    requires v != ""
    ensures var k := Comma(v);
            if k == |v| then Fields(v) == [v]
            else Fields(v) == [v[..k]] + Fields(v[k + 1..]) && v == v[..k] + [','] + v[k + 1..]
  {
    var k := Comma(v);
    SplitAt(v, k);
    if k == |v| {
      assert [v] + [] == [v];
    }
  }

  lemma {:induction false} JoinFields(arg: string, v: string)
    requires arg != "" && v != "" && v[|v| - 1] != ','
    ensures JoinOpts(arg, Fields(v)) == arg + "," + v
    decreases |v|
  {
    FieldsStep(v);
    var k := Comma(v);
    if k < |v| {
      var first, rest := v[..k], v[k + 1..];
      var longer := With(arg, first);
      assert ([first] + Fields(rest))[1..] == Fields(rest);
      JoinFields(longer, rest);
      Regroup(arg + ",", first, "," + rest);
      Regroup(first, ",", rest);
      Regroup(longer, ",", rest);
    }
  }

  lemma {:induction false} KeptAll(aarch64: bool, opts: seq<string>)
    requires aarch64 || VIRT !in opts
    ensures Kept(aarch64, opts) == opts
  {
    if opts != [] {
      KeptAll(aarch64, opts[1..]);
    }
  }

  lemma JoinFirst(first: string, opts: seq<string>)
    ensures JoinOpts("", [first] + opts) == JoinOpts(first, opts)
  {
    assert With("", first) == first;
    assert ([first] + opts)[1..] == opts;
  }

  lemma NoOuterComma(v: string, k: nat)
    requires k < |v| && v[k] == ',' && v[0] != ',' && v[|v| - 1] != ','
    ensures v[..k] != "" && v[k + 1..] != "" && v[k + 1..][|v| - k - 2] != ','
  {
  }

  lemma JoinTwo(first: string, rest: string)
    requires first != "" && rest != "" && rest[|rest| - 1] != ','
    ensures JoinOpts("", [first] + Fields(rest)) == first + [','] + rest
  {
    JoinFirst(first, Fields(rest));
    JoinFields(first, rest);
  }

  lemma {:induction false} JoinAll(v: string)
    requires v != "" && v[0] != ',' && v[|v| - 1] != ','
    ensures JoinOpts("", Fields(v)) == v
  {
    FieldsStep(v);
    var k := Comma(v);
    if k < |v| {
      NoOuterComma(v, k);
      JoinTwo(v[..k], v[k + 1..]);
    } else {
      JoinFirst(v, []);
    }
  }

  /** A machine value that neither starts nor ends with a comma comes through as it is, unless
      virtualization=on is taken out of it. */
  lemma FilteredSame(aarch64: bool, v: string)
    requires aarch64 || VIRT !in Fields(v)
    requires v != "" ==> v[0] != ',' && v[|v| - 1] != ','
    ensures Filtered(aarch64, v) == v
  {
    KeptAll(aarch64, Fields(v));
    if v != "" {
      JoinAll(v);
    }
  }

  lemma {:induction false} FieldsAmong(v: string, f: string)
    requires f in Fields(v)
    ensures f in Split(',', v)
    decreases |v|
  {
    FieldsStep(v);
    var k := Comma(v);
    if k == |v| {
      SplitWhole(',', v);
    } else {
      SplitFirst(',', v[..k], v[k + 1..]);
      if f != v[..k] {
        FieldsAmong(v[k + 1..], f);
      }
    }
  }

  lemma {:induction false} JoinAmong(arg: string, opts: seq<string>, f: string)
    requires forall i :: 0 <= i < |opts| ==> ',' !in opts[i]
    requires f in Split(',', JoinOpts(arg, opts))
    ensures f in Split(',', arg) || f in opts
    decreases opts
  {
    if opts != [] {
      JoinAmong(With(arg, opts[0]), opts[1..], f);
      SplitWhole(',', opts[0]);
      SplitJoin(',', arg, opts[0]);
      assert arg == "" ==> With(arg, opts[0]) == opts[0];
    }
  }

  lemma {:induction false} KeptAmong(aarch64: bool, opts: seq<string>, f: string)
    requires f in Kept(aarch64, opts)
    ensures f in opts && (aarch64 || f != VIRT)
  {
    if f in Kept(aarch64, opts[1..]) {
      KeptAmong(aarch64, opts[1..], f);
    }
  }

  /** Except on aarch64, no machine value that is passed on asks for virtualization. */
  lemma FilteredDrops(v: string)
    ensures VIRT !in Fields(Filtered(false, v))
  {
    if VIRT in Fields(Filtered(false, v)) {
      FieldsAmong(Filtered(false, v), VIRT);
      var opts := Kept(false, Fields(v));
      forall i | 0 <= i < |opts| ensures ',' !in opts[i] {
        KeptAmong(false, Fields(v), opts[i]);
        FieldsAmong(v, opts[i]);
      }
      JoinAmong("", opts, VIRT);
      SplitWhole(',', "");
      if VIRT in opts { KeptAmong(false, Fields(v), VIRT); }
    }
  }

  /** Fields are the pieces between commas, less a last empty one. */
  lemma {:induction false} FieldsSplit(v: string)
    requires v != ""
    ensures var p := Split(',', v); Fields(v) == if p[|p| - 1] == "" then p[..|p| - 1] else p
    decreases |v|
  {
    FieldsStep(v);
    var k := Comma(v);
    if k == |v| {
      SplitWhole(',', v);
    } else {
      var first, rest := v[..k], v[k + 1..];
      SplitFirst(',', first, rest);
      if rest == "" {
        SplitWhole(',', rest);
        assert [first] + [""] == [first, ""] && [first, ""][..1] == [first];
      } else {
        FieldsSplit(rest);
        LastOf(first, Split(',', rest));
      }
    }
  }

  lemma LastOf<T>(x: T, p: seq<T>)
    requires p != []
    ensures var q := [x] + p; q[|q| - 1] == p[|p| - 1] && q[..|q| - 1] == [x] + p[..|p| - 1]
  {
  }

  lemma {:induction false} SplitOpts(arg: string, opts: seq<string>)
    requires arg != "" && forall i :: 0 <= i < |opts| ==> ',' !in opts[i]
    ensures Split(',', JoinOpts(arg, opts)) == Split(',', arg) + opts
    decreases opts
  {
    if opts != [] {
      SplitWhole(',', opts[0]);
      SplitJoin(',', arg, opts[0]);
      SplitOpts(With(arg, opts[0]), opts[1..]);
      Regroup(Split(',', arg), [opts[0]], opts[1..]);
      Uncons(opts);
    }
  }

  lemma {:induction false} JoinNonEmpty(arg: string, opts: seq<string>)
    requires arg != ""
    ensures JoinOpts(arg, opts) != ""
    decreases opts
  {
    if opts != [] { JoinNonEmpty(With(arg, opts[0]), opts[1..]); }
  }

  /** Options of which the first is not empty are read back, but for a last empty one. */
  lemma FieldsJoined(opts: seq<string>)
    requires opts != [] && opts[0] != "" && forall i :: 0 <= i < |opts| ==> ',' !in opts[i]
    ensures Fields(JoinOpts("", opts)) == if opts[|opts| - 1] == "" then opts[..|opts| - 1] else opts
  {
    var rest := opts[1..];
    Uncons(opts);
    JoinFirst(opts[0], rest);
    JoinNonEmpty(opts[0], rest);
    SplitWhole(',', opts[0]);
    SplitOpts(opts[0], rest);
    FieldsSplit(JoinOpts(opts[0], rest));
  }

  /** No more fields come out than options go in. */
  lemma {:induction false} FewFields(opts: seq<string>)
    requires forall i :: 0 <= i < |opts| ==> ',' !in opts[i]
    ensures |Fields(JoinOpts("", opts))| <= |opts|
  {
    if opts != [] {
      if opts[0] == "" {
        assert With("", "") == "";
        FewFields(opts[1..]);
      } else {
        FieldsJoined(opts);
      }
    }
  }

  lemma JoinedFields(opts: seq<string>)
    requires forall i :: 0 <= i < |opts| ==> ',' !in opts[i]
    ensures Fields(JoinOpts("", opts)) == opts <==> opts == [] || (opts[0] != "" && opts[|opts| - 1] != "")
  {
    if opts != [] {
      if opts[0] == "" {
        assert With("", "") == "" && JoinOpts("", opts) == JoinOpts("", opts[1..]);
        FewFields(opts[1..]);
      } else {
        FieldsJoined(opts);
      }
    }
  }

  /** The value passed on has exactly the options that are kept if and only if the first and the
      last of these are not empty. */
  lemma FilteredFields(aarch64: bool, v: string)
    ensures var opts := Kept(aarch64, Fields(v));
            Fields(Filtered(aarch64, v)) == opts <==> opts == [] || (opts[0] != "" && opts[|opts| - 1] != "")
  {
    var opts := Kept(aarch64, Fields(v));
    forall i | 0 <= i < |opts| ensures ',' !in opts[i] {
      KeptAmong(aarch64, Fields(v), opts[i]);
      FieldsAmong(v, opts[i]);
    }
    JoinedFields(opts);
  }

  /** -device takes its value's first field for a device; any kind of IOMMU counts. */
  predicate IsIommu(v: string) {
    v != "" && var d := v[..Comma(v)]; |d| >= 6 && d[|d| - 6..] == "-iommu"
  }

  predicate NamesIommu(v: string, a: string, b: string) {
    ',' !in a && (v == a + "-iommu" || v == a + "-iommu" + [','] + b)
  }

  lemma {:induction false} CommaAt(v: string, d: string, b: string)
    requires ',' !in d && (v == d || v == d + [','] + b)
    ensures Comma(v) == |d| && v[..|d|] == d
    decreases d
  {
    if d != "" {
      assert v[1..] == d[1..] || v[1..] == d[1..] + [','] + b;
      CommaAt(v[1..], d[1..], b);
    }
  }

  /** The first field ends in -iommu, with or without properties after it. */
  lemma IsIommuMeans(v: string)
    ensures IsIommu(v) <==> exists a, b :: NamesIommu(v, a, b)
  {
    if IsIommu(v) {
      var k := Comma(v);
      SplitAt(v, k);
      assert v[..k] == v[..k - 6] + "-iommu";
      assert NamesIommu(v, v[..k - 6], if k < |v| then v[k + 1..] else "");
    }
    if a, b :| NamesIommu(v, a, b) {
      var d := a + "-iommu";
      CommaAt(v, d, b);
      assert d[|d| - 6..] == "-iommu";
    }
  }

  function Prefixed(append: string, v: string): string {
    (if append != "" then append + " " else "") + v
  }

  datatype Env = Env(aarch64: bool, append: string)

  datatype Command = Command(args: seq<string>, tcg: bool, iommu: bool)

  datatype Kind = Append | Device | Machine | Other

  function KindOf(arg: string): Kind {
    if arg == "-append" then Append
    else if arg == "-device" then Device
    else if arg == "-machine" then Machine
    else Other
  }

  /** -append and -machine take the argument after them; -device only looks at it. */
  predicate Takes(arg: string) {
    KindOf(arg).Append? || KindOf(arg).Machine?
  }

  function Value(env: Env, option: string, v: string): string {
    if KindOf(option).Append? then Prefixed(env.append, v) else Filtered(env.aarch64, v)
  }

  function Rewrite(env: Env, args: seq<string>): (r: seq<string>)
    ensures |r| == |args|
  {
    if args == [] then []
    else if Takes(args[0]) && |args| > 1 then [args[0], Value(env, args[0], args[1])] + Rewrite(env, args[2..])
    else [args[0]] + Rewrite(env, args[1..])
  }

  /** Some machine asks for nested virtualization. */
  predicate WantsVirt(args: seq<string>) {
    if args == [] then false
    else if Takes(args[0]) && |args| > 1
    then (KindOf(args[0]).Machine? && VIRT in Fields(args[1])) || WantsVirt(args[2..])
    else WantsVirt(args[1..])
  }

  /** Some device is an IOMMU. */
  predicate HasIommu(args: seq<string>) {
    if args == [] then false
    else if Takes(args[0]) && |args| > 1 then HasIommu(args[2..])
    else (KindOf(args[0]).Device? && |args| > 1 && IsIommu(args[1])) || HasIommu(args[1..])
  }

  /** A single option, without a value. */
  predicate Lone(args: seq<string>) {
    |args| == 1 && !KindOf(args[0]).Other?
  }

  /** The list ends in an option that has no value. */
  predicate Dangling(args: seq<string>) {
    if args == [] then false
    else if Takes(args[0]) then |args| == 1 || Dangling(args[2..])
    else (KindOf(args[0]).Device? && |args| == 1) || Dangling(args[1..])
  }

  /** Order and count are kept, and so is every argument except the values that follow -append
      and -machine. */
  lemma {:induction false} RewriteAt(env: Env, args: seq<string>, i: nat)
    requires i < |args|
    ensures Rewrite(env, args)[i] == args[i]
            || (i > 0 && Takes(args[i - 1]) && Rewrite(env, args)[i] == Value(env, args[i - 1], args[i]))
    decreases |args|
  {
    if Takes(args[0]) && |args| > 1 {
      if i >= 2 { RewriteAt(env, args[2..], i - 2); }
    } else {
      if i >= 1 { RewriteAt(env, args[1..], i - 1); }
    }
  }

  // What the rewriting does to a list, piece by piece.

  lemma {:induction false} RewriteApart(env: Env, a: seq<string>, b: seq<string>)
    requires !Dangling(a)
    ensures Rewrite(env, a + b) == Rewrite(env, a) + Rewrite(env, b) && Dangling(a + b) == Dangling(b)
    ensures WantsVirt(a + b) <==> WantsVirt(a) || WantsVirt(b)
    ensures HasIommu(a + b) <==> HasIommu(a) || HasIommu(b)
    decreases |a|
  {
    if a == [] {
      assert a + b == b;
    } else if Takes(a[0]) {
      assert (a + b)[2..] == a[2..] + b;
      RewriteApart(env, a[2..], b);
      Regroup([a[0], Value(env, a[0], a[1])], Rewrite(env, a[2..]), Rewrite(env, b));
    } else {
      assert (a + b)[1..] == a[1..] + b;
      RewriteApart(env, a[1..], b);
      Regroup([a[0]], Rewrite(env, a[1..]), Rewrite(env, b));
    }
  }

  /** The kernel's arguments come after the script's own and a space. */
  lemma RewriteAppend(env: Env, v: string)
    ensures var a := ["-append", v];
            && Rewrite(env, a) == ["-append", if env.append == "" then v else env.append + " " + v]
            && !WantsVirt(a) && !HasIommu(a) && !Dangling(a)
  {
    assert ["-append", v][2..] == [] && "" + v == v;
  }

  /** A machine loses what FilterMachine takes out of it. */
  lemma RewriteMachine(env: Env, v: string)
    ensures var a := ["-machine", v];
            && Rewrite(env, a) == ["-machine", Filtered(env.aarch64, v)]
            && (WantsVirt(a) <==> "virtualization=on" in Fields(v)) && !HasIommu(a) && !Dangling(a)
  {
    assert ["-machine", v][2..] == [];
  }

  /** Everything else is passed on. */
  lemma RewriteOther(env: Env, x: string)
    requires x != "-append" && x != "-device" && x != "-machine"
    ensures Rewrite(env, [x]) == [x] && !WantsVirt([x]) && !HasIommu([x]) && !Dangling([x])
  {
    assert [x][1..] == [];
  }

  /** A device is only looked at. */
  lemma RewriteDevice(env: Env, v: string)
    requires v != "-append" && v != "-device" && v != "-machine"
    ensures var a := ["-device", v];
            Rewrite(env, a) == a && !WantsVirt(a) && (HasIommu(a) <==> IsIommu(v)) && !Dangling(a)
  {
    var a := ["-device", v];
    RewriteOther(env, v);
    assert a[1..] == [v] && KindOf(a[0]) == Device;
    assert Rewrite(env, a) == [a[0]] + Rewrite(env, [v]) && WantsVirt(a) == WantsVirt([v]);
    assert HasIommu(a) == (IsIommu(v) || HasIommu([v])) && Dangling(a) == Dangling([v]);
  }

  /** The options of a value are what stands between its commas, but for nothing after the last. */
  lemma FieldsAt(a: string, b: string)
    requires ',' !in a
    ensures Fields(a + [','] + b) == [a] + Fields(b)
    ensures Fields("") == [] && (a != "" ==> Fields(a) == [a])
  {
    var v := a + [','] + b;
    CommaAt(v, a, b);
    assert v[|a| + 1..] == b;
    if a != "" { CommaAt(a, a, ""); }
  }

  ghost predicate Rotating(env: Env, args: seq<string>, todo: seq<string>, done: seq<string>, tcg: bool, iommu: bool) {
    && (todo != [] ==> args != [] && todo[|todo| - 1] == args[|args| - 1])
    && Rewrite(env, args) == done + Rewrite(env, todo)
    && (WantsVirt(args) && env.aarch64 <==> tcg || (WantsVirt(todo) && env.aarch64))
    && (HasIommu(args) <==> iommu || HasIommu(todo))
    && Dangling(args) == Dangling(todo)
  }

  lemma Rotates(env: Env, args: seq<string>, todo: seq<string>, done: seq<string>, tcg: bool, iommu: bool)
    requires Rotating(env, args, todo, done, tcg, iommu) && todo != []
    ensures !Takes(todo[0]) && !Lone(todo) ==>
              Rotating(env, args, todo[1..], done + [todo[0]], tcg,
                       iommu || (KindOf(todo[0]).Device? && IsIommu(todo[1])))
    ensures Takes(todo[0]) && |todo| > 1 ==>
              Rotating(env, args, todo[2..], done + [todo[0], Value(env, todo[0], todo[1])],
                       tcg || (env.aarch64 && KindOf(todo[0]).Machine? && VIRT in Fields(todo[1])), iommu)
    ensures Lone(todo) ==> Dangling(args)
  {
  }

  /** What becomes of a list that ends in an option without a value: it takes, or looks at, the
      first argument that was put back, or itself. */
  function Overrun(env: Env, args: seq<string>): Command
    requires args != []
  {
    var w, option := Rewrite(env, args), args[|args| - 1];
    var tcg := env.aarch64 && (WantsVirt(args) || (KindOf(option).Machine? && VIRT in Fields(w[0])));
    if Takes(option) then Command(w[1..] + [Value(env, option, w[0])], tcg, HasIommu(args))
    else Command(w, tcg, HasIommu(args) || IsIommu(w[0]))
  }

  lemma Overruns(env: Env, args: seq<string>, todo: seq<string>, done: seq<string>, tcg: bool, iommu: bool)
    requires Rotating(env, args, todo, done, tcg, iommu) && Lone(todo)
    ensures Rewrite(env, args) == done + todo
    ensures var w := done + todo;
            Overrun(env, args) ==
            if Takes(todo[0])
            then Command(w[1..] + [Value(env, todo[0], w[0])],
                         tcg || (env.aarch64 && KindOf(todo[0]).Machine? && VIRT in Fields(w[0])), iommu)
            else Command(w, tcg, iommu || IsIommu(w[0]))
  {
    assert todo[1..] == [] && !WantsVirt(todo) && !HasIommu(todo);
    assert Rewrite(env, todo) == todo;
  }

  /** The script's variables, and what is known of them. */
  datatype Vars = Vars(params: seq<string>, i: nat, tcg: bool, iommu: bool)

  /** Midway: `todo` is still to be looked at and `done` has been put back. */
  ghost predicate Midway(env: Env, args: seq<string>, s: Vars, todo: seq<string>, done: seq<string>) {
    && s.params == todo + done && s.i == |done| && |s.params| == |args| && (done == [] ==> todo == args)
    && Rotating(env, args, todo, done, s.tcg, s.iommu)
  }

  /** An option without a value was the last. */
  ghost predicate Overran(env: Env, args: seq<string>, s: Vars) {
    && Dangling(args) && (Lone(args) ==> KindOf(args[0]).Machine?)
    && s.i >= |s.params| == |args| > 0 && Command(s.params, s.tcg, s.iommu) == Overrun(env, args)
  }

  ghost predicate AsksVirt(env: Env, option: string, v: string) {
    env.aarch64 && KindOf(option).Machine? && VIRT in Fields(v)
  }

  lemma TakingTurn(env: Env, args: seq<string>, s: Vars, todo: seq<string>, done: seq<string>)
    requires Midway(env, args, s, todo, done) && |todo| > 1 && Takes(todo[0])
    ensures var arg, v := todo[0], Value(env, todo[0], todo[1]);
            var params := (s.params[1..] + [arg, v])[1..];
            && s.params[1..][0] == todo[1] && params == (s.params[1..] + [arg])[1..] + [v]
            && Midway(env, args, Vars(params, s.i + 2, s.tcg || AsksVirt(env, arg, todo[1]), s.iommu),
                      todo[2..], done + [arg, v])
  {
    Rotates(env, args, todo, done, s.tcg, s.iommu);
    TurnTwo(todo, done, todo[0], Value(env, todo[0], todo[1]));
  }

  lemma PlainTurn(env: Env, args: seq<string>, s: Vars, todo: seq<string>, done: seq<string>)
    requires Midway(env, args, s, todo, done) && todo != [] && !Takes(todo[0]) && !Lone(todo)
    ensures KindOf(todo[0]).Device? ==> |todo| > 1 && s.params[1..][0] == todo[1]
    ensures Midway(env, args, Vars(s.params[1..] + [todo[0]], s.i + 1, s.tcg,
                                   s.iommu || (KindOf(todo[0]).Device? && IsIommu(todo[1]))),
                   todo[1..], done + [todo[0]])
  {
    Rotates(env, args, todo, done, s.tcg, s.iommu);
    TurnOne(todo, done, todo[0]);
  }

  lemma LastTurn(env: Env, args: seq<string>, s: Vars, todo: seq<string>, done: seq<string>)
    requires Midway(env, args, s, todo, done) && Lone(todo) && (KindOf(todo[0]).Machine? || done != [])
    ensures var arg := todo[0];
            if Takes(arg)
            then var first := (s.params[1..] + [arg])[0];
                 var params := (s.params[1..] + [arg])[1..] + [Value(env, arg, first)];
                 && (done != [] ==> first == s.params[1..][0] && (done + [arg, Value(env, arg, first)])[1..] == params)
                 && s.params[1..] == done
                 && Overran(env, args, Vars(params, s.i + 2, s.tcg || AsksVirt(env, arg, first), s.iommu))
            else Overran(env, args, Vars(s.params[1..] + [arg], s.i + 1, s.tcg, s.iommu || IsIommu(s.params[1..][0])))
  {
    Rotates(env, args, todo, done, s.tcg, s.iommu);
    Overruns(env, args, todo, done, s.tcg, s.iommu);
    LastOne(todo, done);
    if done != [] { TurnLast(done, todo[0], Value(env, todo[0], done[0])); }
  }

  /** One turn of the loop. */
  method Turn(env: Env, ghost args: seq<string>, s: Vars, ghost todo: seq<string>, ghost done: seq<string>)
    returns (r: Option<Vars>, ghost rest: seq<string>, ghost more: seq<string>)
    requires Midway(env, args, s, todo, done) && s.i < |s.params|
    ensures r.None? ==> Lone(args) && !KindOf(args[0]).Machine?
    ensures r.Some? ==> s.i < r.value.i
    ensures r.Some? && Lone(todo) ==> Overran(env, args, r.value)
    ensures r.Some? && !Lone(todo) ==> Midway(env, args, r.value, rest, more)
  {
    var arg := s.params[0];
    var params := s.params[1..];
    if KindOf(arg).Append? {
      r, rest, more := AppendTurn(env, args, s, todo, done);
    } else if KindOf(arg).Machine? {
      r, rest, more := MachineTurn(env, args, s, todo, done);
    } else {
      var iommu := s.iommu;
      rest, more := [], [];
      if KindOf(arg).Device? {
        if params == [] { return None, rest, more; }
        if IsIommu(params[0]) { iommu := true; }
      }
      r := Some(Vars(params + [arg], s.i + 1, s.tcg, iommu));
      if Lone(todo) {
        LastTurn(env, args, s, todo, done);
      } else {
        PlainTurn(env, args, s, todo, done);
        rest, more := todo[1..], done + [arg];
      }
    }
  }

  method AppendTurn(env: Env, ghost args: seq<string>, s: Vars, ghost todo: seq<string>, ghost done: seq<string>)
    returns (r: Option<Vars>, ghost rest: seq<string>, ghost more: seq<string>)
    requires Midway(env, args, s, todo, done) && s.i < |s.params| && KindOf(s.params[0]).Append?
    ensures r.None? ==> Lone(args)
    ensures r.Some? ==> s.i < r.value.i
    ensures r.Some? && Lone(todo) ==> Overran(env, args, r.value)
    ensures r.Some? && !Lone(todo) ==> Midway(env, args, r.value, rest, more)
  {
    var arg := s.params[0];
    var params := s.params[1..];
    rest, more := [], [];
    if params == [] { return None, rest, more; }
    params := params + [arg, Prefixed(env.append, params[0])];
    params := params[1..];
    r := Some(Vars(params, s.i + 2, s.tcg, s.iommu));
    if Lone(todo) {
      LastTurn(env, args, s, todo, done);
    } else {
      TakingTurn(env, args, s, todo, done);
      rest, more := todo[2..], done + [arg, Value(env, arg, todo[1])];
    }
  }

  method MachineTurn(env: Env, ghost args: seq<string>, s: Vars, ghost todo: seq<string>, ghost done: seq<string>)
    returns (r: Option<Vars>, ghost rest: seq<string>, ghost more: seq<string>)
    requires Midway(env, args, s, todo, done) && s.i < |s.params| && KindOf(s.params[0]).Machine?
    ensures r.Some? && s.i < r.value.i
    ensures Lone(todo) ==> Overran(env, args, r.value)
    ensures !Lone(todo) ==> Midway(env, args, r.value, rest, more)
  {
    var arg := s.params[0];
    var params := s.params[1..] + [arg];
    var v, t := FilterMachine(env.aarch64, params[0]);
    params := params[1..] + [v];
    r := Some(Vars(params, s.i + 2, s.tcg || t, s.iommu));
    rest, more := [], [];
    if Lone(todo) {
      LastTurn(env, args, s, todo, done);
    } else {
      TakingTurn(env, args, s, todo, done);
      rest, more := todo[2..], done + [arg, v];
    }
  }

  /** The loop. It ends on every list, keeps the number of arguments, fails only on a lone -append
      or -device, and does what Rewrite says unless the list ends in an option without a value. */
  method RunQemu(env: Env, args: seq<string>) returns (r: Option<Command>)
    ensures r.None? <==> Lone(args) && !KindOf(args[0]).Machine?
    ensures r.Some? ==> |r.value.args| == |args|
    ensures !Dangling(args) ==>
              r == Some(Command(Rewrite(env, args), WantsVirt(args) && env.aarch64, HasIommu(args)))
    ensures Dangling(args) && r.Some? ==> r.value == Overrun(env, args)
  {
    var s := Vars(args, 0, false, false);
    ghost var todo, done, dangled := args, [], false;
    while s.i < |s.params|
      invariant if dangled then Overran(env, args, s) else Midway(env, args, s, todo, done)
      decreases |args| - s.i
    {
      dangled := Lone(todo);
      var next;
      next, todo, done := Turn(env, args, s, todo, done);
      if next.None? { return None; }
      s := next.value;
    }
    if !dangled { assert todo == [] && s.params == done == Rewrite(env, args); }
    return Some(Command(s.params, s.tcg, s.iommu));
  }
}
