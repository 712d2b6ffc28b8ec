/** The two scripts that rewrite their positional parameters by rotating them: each argument is
    taken from the front and, perhaps changed, put back at the end, until every one has been. */
module Args {
  import opened Options
  import opened Seqs

  const CMDLINE := "--cmdline"

  // run-cloud-hypervisor.sh

  /** What the argument list means: plain arguments, and values for the kernel command line. */
  datatype Item = Plain(arg: string) | Cmdline(value: string)

  function Unparse(items: seq<Item>): seq<string> {
    if items == [] then []
    else (if items[0].Plain? then [items[0].arg] else [CMDLINE, items[0].value]) + Unparse(items[1..])
  }

  predicate Proper(items: seq<Item>) {
    forall i :: 0 <= i < |items| && items[i].Plain? ==> items[i].arg != CMDLINE
  }

  function Plains(items: seq<Item>): seq<string> {
    if items == [] then []
    else (if items[0].Plain? then [items[0].arg] else []) + Plains(items[1..])
  }

  function Values(items: seq<Item>): seq<string> {
    if items == [] then []
    else (if items[0].Plain? then [] else [items[0].value]) + Values(items[1..])
  }

  /** The values joined by spaces, in order, after what is there already. */
  function Join(cmdline: string, values: seq<string>): string
    decreases values
  {
    if values == [] then cmdline
    else Join(With(cmdline, values[0]), values[1..])
  }

  function With(cmdline: string, value: string): string {
    (if cmdline != "" then cmdline + " " else "") + value
  }

  function Parse(args: seq<string>): seq<Item> {
    if args == [] then []
    else if args[0] != CMDLINE then [Plain(args[0])] + Parse(args[1..])
    else if |args| == 1 then []
    else [Cmdline(args[1])] + Parse(args[2..])
  }

  /** The list ends in a --cmdline that has no value. */
  predicate Dangling(args: seq<string>) {
    if args == [] then false
    else if args[0] != CMDLINE then Dangling(args[1..])
    else |args| == 1 || Dangling(args[2..])
  }

  /** Parsing and unparsing are inverse, and the lists that parse are those without a dangling
      --cmdline. */
  lemma {:induction false} ParseUnparse(items: seq<Item>)
    requires Proper(items)
    ensures Parse(Unparse(items)) == items && !Dangling(Unparse(items))
  {
    if items != [] {
      ParseUnparse(items[1..]);
      var args := Unparse(items);
      assert args[if items[0].Plain? then 1 else 2..] == Unparse(items[1..]);
      assert items == [items[0]] + items[1..];
    }
  }

  lemma {:induction false} UnparseParse(args: seq<string>)
    ensures Proper(Parse(args))
    ensures Unparse(Parse(args)) + (if Dangling(args) then [CMDLINE] else []) == args
  {
    if args != [] {
      if args[0] != CMDLINE {
        UnparseParse(args[1..]);
        assert Parse(args)[1..] == Parse(args[1..]);
        assert args == [args[0]] + args[1..];
      } else if |args| > 1 {
        UnparseParse(args[2..]);
        assert Parse(args)[1..] == Parse(args[2..]);
        assert args == [args[0], args[1]] + args[2..];
      }
    }
  }

  lemma {:induction false} JoinApart(cmdline: string, a: seq<string>, b: seq<string>)
    ensures Join(cmdline, a + b) == Join(Join(cmdline, a), b)
    decreases a
  {
    if a == [] {
      assert a + b == b;
    } else {
      assert (a + b)[1..] == a[1..] + b;
      JoinApart(With(cmdline, a[0]), a[1..], b);
    }
  }

  ghost predicate Rotating(args: seq<string>, todo: seq<string>, kept: seq<string>, values: seq<string>) {
    && Dangling(args) == Dangling(todo)
    && Plains(Parse(args)) == kept + Plains(Parse(todo))
    && Values(Parse(args)) == values + Values(Parse(todo))
  }

  lemma RotatesPlain(args: seq<string>, todo: seq<string>, kept: seq<string>, values: seq<string>)
    requires Rotating(args, todo, kept, values) && todo != [] && todo[0] != CMDLINE
    ensures Rotating(args, todo[1..], kept + [todo[0]], values)
  {
    Regroup(kept, [todo[0]], Plains(Parse(todo[1..])));
    assert Parse(todo)[1..] == Parse(todo[1..]);
  }

  lemma RotatesPair(args: seq<string>, todo: seq<string>, kept: seq<string>, values: seq<string>)
    requires Rotating(args, todo, kept, values) && |todo| > 1 && todo[0] == CMDLINE
    ensures Rotating(args, todo[2..], kept, values + [todo[1]])
  {
    Regroup(values, [todo[1]], Values(Parse(todo[2..])));
    assert Parse(todo)[1..] == Parse(todo[2..]);
  }

  lemma RotatesLast(args: seq<string>, kept: seq<string>, values: seq<string>)
    requires Rotating(args, [CMDLINE], kept, values)
    ensures Dangling(args) && Plains(Parse(args)) == kept && Values(Parse(args)) == values
  {
  }

  /** The script's variables, and what is known of them. */
  datatype Vars = Vars(cmdline: string, params: seq<string>, i: nat)

  /** Midway: `todo` is still to be looked at and `kept` has been put back. */
  ghost predicate Midway(cmdline0: string, args: seq<string>, s: Vars,
                         todo: seq<string>, kept: seq<string>, values: seq<string>) {
    && s.params == todo + kept && s.i == |kept| && s.cmdline == Join(cmdline0, values)
    && Rotating(args, todo, kept, values)
  }

  /** A dangling --cmdline has taken the first plain argument. */
  ghost predicate Swallowed(cmdline0: string, args: seq<string>, s: Vars) {
    var plains := Plains(Parse(args));
    && Dangling(args) && plains != [] && s.params == plains[1..] && s.i == |plains|
    && s.cmdline == Join(cmdline0, Values(Parse(args)) + [plains[0]])
  }

  lemma PlainTurn(cmdline0: string, args: seq<string>, s: Vars,
                  todo: seq<string>, kept: seq<string>, values: seq<string>)
    requires Midway(cmdline0, args, s, todo, kept, values) && todo != [] && todo[0] != CMDLINE
    ensures s.params[0] == todo[0]
    ensures Midway(cmdline0, args, Vars(s.cmdline, s.params[1..] + [todo[0]], s.i + 1),
                   todo[1..], kept + [todo[0]], values)
  {
    RotatesPlain(args, todo, kept, values);
    TurnOne(todo, kept, todo[0]);
  }

  lemma PairTurn(cmdline0: string, args: seq<string>, s: Vars,
                 todo: seq<string>, kept: seq<string>, values: seq<string>)
    requires Midway(cmdline0, args, s, todo, kept, values) && |todo| > 1 && todo[0] == CMDLINE
    ensures Midway(cmdline0, args, Vars(With(s.cmdline, s.params[1..][0]), s.params[1..][1..], s.i),
                   todo[2..], kept, values + [todo[1]])
  {
    RotatesPair(args, todo, kept, values);
    DropTwo(todo, kept);
    JoinOne(cmdline0, values, todo[1]);
  }

  lemma LastTurn(cmdline0: string, args: seq<string>, s: Vars, kept: seq<string>, values: seq<string>)
    requires Midway(cmdline0, args, s, [CMDLINE], kept, values) && kept != []
    ensures Swallowed(cmdline0, args, Vars(With(s.cmdline, s.params[1..][0]), s.params[1..][1..], s.i))
  {
    RotatesLast(args, kept, values);
    DropTwo([CMDLINE], kept);
    JoinOne(cmdline0, values, kept[0]);
  }

  lemma JoinOne(cmdline0: string, values: seq<string>, v: string)
    ensures Join(cmdline0, values + [v]) == With(Join(cmdline0, values), v)
  {
    JoinApart(cmdline0, values, [v]);
  }

  /** Every value comes after the ones before it and one space, if there is anything before it. */
  lemma JoinSpaces(cmdline0: string, values: seq<string>, v: string)
    ensures Join(cmdline0, []) == cmdline0
    ensures var before := Join(cmdline0, values);
            Join(cmdline0, values + [v]) == if before == "" then v else before + " " + v
  {
    JoinOne(cmdline0, values, v);
  }

  /** The loop. On lists that parse, it takes out exactly the --cmdline pairs and joins their
      values. A dangling --cmdline takes the first plain argument for its value, and the script
      fails exactly when there is none. */
  method RunCloudHypervisor(cmdline0: string, args: seq<string>) returns (r: Option<(string, seq<string>)>)
    ensures !Dangling(args) ==> r == Some((Join(cmdline0, Values(Parse(args))), Plains(Parse(args))))
    ensures Dangling(args) ==>
              var plains := Plains(Parse(args));
              if plains == [] then r == None
              else r == Some((Join(cmdline0, Values(Parse(args)) + [plains[0]]), plains[1..]))
  {
    var cmdline, params, i := cmdline0, args, 0;
    ghost var todo, kept, values, swallowed := args, [], [], false;
    while i < |params|
      invariant if swallowed then Swallowed(cmdline0, args, Vars(cmdline, params, i))
                else Midway(cmdline0, args, Vars(cmdline, params, i), todo, kept, values)
      decreases |params| - i
    {
      ghost var s := Vars(cmdline, params, i);
      var arg := params[0];
      params := params[1..];
      if arg == CMDLINE {
        if params == [] {
          assert todo == [CMDLINE];
          RotatesLast(args, kept, values);
          return None;
        }
        cmdline := With(cmdline, params[0]);
        params := params[1..];
        if |todo| == 1 {
          assert todo == [CMDLINE];
          LastTurn(cmdline0, args, s, kept, values);
          swallowed := true;
        } else {
          PairTurn(cmdline0, args, s, todo, kept, values);
          values := values + [todo[1]];
          todo := todo[2..];
        }
      } else {
        PlainTurn(cmdline0, args, s, todo, kept, values);
        params := params + [arg];
        i := i + 1;
        kept := kept + [arg];
        todo := todo[1..];
      }
    }
    assert !swallowed ==> todo == [] && Values(Parse(args)) == values && Plains(Parse(args)) == kept;
    return Some((cmdline, params));
  }
}
