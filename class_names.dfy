/**
 * The class-name helper `cx(...c)`: drop the falsy arguments and join the
 * rest with single spaces. Its callers pass class-name strings and the
 * results of `cond && "name"`, so an argument is a string, a boolean or
 * missing (null/undefined).
 */
module ClassNames {

  datatype ClassArg = Name(s: string) | Flag(b: bool) | Absent

  /** JavaScript truthiness for the argument kinds above. */
  predicate Truthy(a: ClassArg) {
    match a
    case Name(s) => s != ""
    case Flag(b) => b
    case Absent => false
  }

  /** How `join` renders a truthy argument. */
  function Rendered(a: ClassArg): (s: string)
    requires Truthy(a)
    ensures s != ""
    ensures a.Name? ==> s == a.s
    ensures a.Flag? ==> s == "true"
  {
    match a
    case Name(s) => s
    case Flag(_) => "true"
  }

  /** `c.filter(Boolean)`: the truthy arguments, in their original order. */
  function Truthies(args: seq<ClassArg>): (r: seq<ClassArg>)
    ensures |r| <= |args|
    ensures forall i :: 0 <= i < |r| ==> Truthy(r[i])
    ensures (forall i :: 0 <= i < |args| ==> Truthy(args[i])) ==> r == args
    ensures r == [] <==> forall i :: 0 <= i < |args| ==> !Truthy(args[i])
  {
    if args == [] then []
    else if Truthy(args[0]) then [args[0]] + Truthies(args[1..])
    else Truthies(args[1..])
  }

  lemma {:induction false} TruthiesAppend(a: seq<ClassArg>, b: seq<ClassArg>)
    ensures Truthies(a + b) == Truthies(a) + Truthies(b)
  {
    if a == [] {
      assert a + b == b;
    } else {
      assert (a + b)[0] == a[0] && (a + b)[1..] == a[1..] + b;
      TruthiesAppend(a[1..], b);
    }
  }

  function RenderAll(ts: seq<ClassArg>): (r: seq<string>)
    requires forall i :: 0 <= i < |ts| ==> Truthy(ts[i])
    ensures |r| == |ts|
    ensures forall i :: 0 <= i < |ts| ==> r[i] == Rendered(ts[i])
  {
    if ts == [] then [] else [Rendered(ts[0])] + RenderAll(ts[1..])
  }

  lemma RenderAllAppend(a: seq<ClassArg>, b: seq<ClassArg>)
    requires forall i :: 0 <= i < |a| ==> Truthy(a[i])
    requires forall i :: 0 <= i < |b| ==> Truthy(b[i])
    ensures RenderAll(a + b) == RenderAll(a) + RenderAll(b)
  {
  }

  /**
   * `parts.join(sep)`: a single part joins to itself, the first part leads
   * the result, and when every part is non-empty the result is empty exactly
   * when there are no parts.
   */
  function Join(parts: seq<string>, sep: string): (r: string)
    ensures |parts| == 1 ==> r == parts[0]
    ensures parts != [] ==> |parts[0]| <= |r| && r[..|parts[0]|] == parts[0]
    ensures (forall i :: 0 <= i < |parts| ==> parts[i] != "") ==> (r == "" <==> parts == [])
  {
    if parts == [] then ""
    else if |parts| == 1 then parts[0]
    else parts[0] + sep + Join(parts[1..], sep)
  }

  /** Joining a concatenation puts one separator between two non-empty halves. */
  lemma {:induction false} JoinAppend(xs: seq<string>, ys: seq<string>, sep: string)
    ensures Join(xs + ys, sep) ==
      if xs == [] then Join(ys, sep)
      else if ys == [] then Join(xs, sep)
      else Join(xs, sep) + sep + Join(ys, sep)
  {
    if xs == [] {
      assert xs + ys == ys;
    } else if ys == [] {
      assert xs + ys == xs;
    } else if |xs| == 1 {
      assert (xs + ys)[1..] == ys;
    } else {
      assert (xs + ys)[1..] == xs[1..] + ys;
      JoinAppend(xs[1..], ys, sep);
    }
  }

  /** `cx(...c)`: empty exactly when no argument is truthy. */
  function Cx(args: seq<ClassArg>): (r: string)
    ensures r == "" <==> forall i :: 0 <= i < |args| ==> !Truthy(args[i])
  {
    Join(RenderAll(Truthies(args)), " ")
  }

  /**
   * `cx` distributes over a split of its arguments: the two halves' results
   * are joined by one space, and an empty half adds nothing.
   */
  lemma CxAppend(a: seq<ClassArg>, b: seq<ClassArg>)
    ensures Cx(a + b) ==
      if Cx(a) == "" then Cx(b)
      else if Cx(b) == "" then Cx(a)
      else Cx(a) + " " + Cx(b)
  {
    TruthiesAppend(a, b);
    RenderAllAppend(Truthies(a), Truthies(b));
    JoinAppend(RenderAll(Truthies(a)), RenderAll(Truthies(b)), " ");
  }

  /** A single argument contributes its text when truthy and nothing otherwise. */
  lemma CxSingle(a: ClassArg)
    ensures Cx([a]) == if Truthy(a) then Rendered(a) else ""
  {
  }

  /** The like button's classes, `cx("gap-2", post.liked && "text-red-500")`. */
  lemma LikeButtonClasses(liked: bool)
    ensures Cx([Name("gap-2"), if liked then Name("text-red-500") else Flag(false)])
      == if liked then "gap-2 text-red-500" else "gap-2"
  {
  }
}
