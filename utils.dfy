/** `cn` of src/lib/utils.ts: class names joined with spaces, falsy ones left out. */
module Utils {
  import opened Text

  /** An argument of `cn`: a string, or one of the falsy non-strings. */
  datatype ClassArg = Name(s: string) | False | Null | Undefined

  predicate Truthy(a: ClassArg) {
    a.Name? && a.s != ""
  }

  /** The truthy arguments' strings, in order. */
  function Kept(args: seq<ClassArg>): (r: seq<string>)
    ensures |r| <= |args|
    ensures forall i :: 0 <= i < |r| ==> r[i] != ""
    decreases |args|
  {
    if args == [] then []
    else (if Truthy(args[0]) then [args[0].s] else []) + Kept(args[1..])
  }

  /** `cn(...args)`. */
  function Cn(args: seq<ClassArg>): string {
    Join(Kept(args), " ")
  }

  /** Adding an argument at the end: a falsy one changes nothing, a truthy
      one is appended after a single space (or alone). */
  lemma {:induction false} CnAppend(args: seq<ClassArg>, a: ClassArg)
    ensures !Truthy(a) ==> Cn(args + [a]) == Cn(args)
    ensures Truthy(a) ==> Cn(args + [a]) == (if Cn(args) == "" then a.s else Cn(args) + " " + a.s)
  {
    KeptAppend(args, a);
    var k := Kept(args);
    if Truthy(a) {
      JoinAppend(k, a.s, " ");
      JoinEmptyIff(k);
    } else {
      assert k + [] == k;
    }
  }

  lemma {:induction false} KeptAppend(args: seq<ClassArg>, a: ClassArg)
    ensures Kept(args + [a]) == Kept(args) + (if Truthy(a) then [a.s] else [])
    decreases |args|
  {
    if args == [] {
      assert args + [a] == [a];
    } else {
      assert (args + [a])[1..] == args[1..] + [a];
      KeptAppend(args[1..], a);
    }
  }

  lemma {:induction false} JoinAppend(parts: seq<string>, x: string, sep: string)
    ensures Join(parts + [x], sep) == (if parts == [] then x else Join(parts, sep) + sep + x)
    decreases |parts|
  {
    if |parts| == 1 {
      assert (parts + [x])[1..] == [x];
    } else if |parts| > 1 {
      assert (parts + [x])[1..] == parts[1..] + [x];
      JoinAppend(parts[1..], x, sep);
    }
  }

  /** Joining non-empty parts is empty only when there are none. */
  lemma JoinEmptyIff(parts: seq<string>)
    requires forall i :: 0 <= i < |parts| ==> parts[i] != ""
    ensures Join(parts, " ") == "" <==> parts == []
  {
    if parts != [] {
      JoinLength(parts, " ");
      assert TotalLength(parts) >= |parts[0]|;
    }
  }

  /** The result is empty exactly when every argument is falsy. */
  lemma {:induction false} CnEmptyIff(args: seq<ClassArg>)
    ensures Cn(args) == "" <==> forall i :: 0 <= i < |args| ==> !Truthy(args[i])
    decreases |args|
  {
    JoinEmptyIff(Kept(args));
    if args != [] {
      CnEmptyIff(args[1..]);
      JoinEmptyIff(Kept(args[1..]));
      assert forall i :: 1 <= i < |args| ==> args[i] == args[1..][i - 1];
    }
  }

  /** Class names without spaces are recovered by splitting on spaces: the
      kept names, in order, with exactly one space between neighbours. */
  lemma {:induction false} CnSplits(args: seq<ClassArg>)
    requires forall i :: 0 <= i < |args| ==> args[i].Name? ==> ' ' !in args[i].s
    requires exists i :: 0 <= i < |args| && Truthy(args[i])
    ensures Split(Cn(args), ' ') == Kept(args)
  {
    KeptSpaceFree(args);
    CnEmptyIff(args);
    JoinEmptyIff(Kept(args));
    SplitJoinSpaces(Kept(args));
  }

  lemma {:induction false} KeptSpaceFree(args: seq<ClassArg>)
    requires forall i :: 0 <= i < |args| ==> args[i].Name? ==> ' ' !in args[i].s
    ensures forall i :: 0 <= i < |Kept(args)| ==> ' ' !in Kept(args)[i]
    decreases |args|
  {
    if args != [] {
      KeptSpaceFree(args[1..]);
    }
  }

  lemma {:induction false} SplitJoinSpaces(parts: seq<string>)
    requires parts != []
    requires forall i :: 0 <= i < |parts| ==> ' ' !in parts[i]
    ensures Split(Join(parts, " "), ' ') == parts
    decreases |parts|
  {
    if |parts| == 1 {
      SplitNone(parts[0], ' ');
    } else {
      SplitJoinSpaces(parts[1..]);
      assert Join(parts, " ") == parts[0] + [' '] + Join(parts[1..], " ");
      SplitAt(parts[0], ' ', Join(parts[1..], " "));
      assert parts == [parts[0]] + parts[1..];
    }
  }
}
