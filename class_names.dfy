/**
 * The class-name joiner `cn` of front-end/src/lib/utils.js: the arguments are
 * flattened to any depth, the falsy ones dropped, and the rest converted to
 * strings and joined by single spaces.
 */
module ClassNames {
  import opened Seqs
  import opened Text
  import opened JsValues

  /** No nested arrays: what `flat(Infinity)` leaves. */
  predicate Flat(s: seq<JsValue>)
  {
    forall i :: 0 <= i < |s| ==> !s[i].Arr?
  }

  /** `args.flat(Infinity)`: every nested array replaced, in place, by its flattened items. */
  function Flatten(args: seq<JsValue>): (r: seq<JsValue>)
    ensures Flat(r)
    decreases args
  {
    if args == [] then []
    else
      var head := if args[0].Arr? then Flatten(args[0].items) else [args[0]];
      head + Flatten(args[1..])
  }

  /** Flattening distributes over concatenation. */
  lemma {:induction false} FlattenConcat(a: seq<JsValue>, b: seq<JsValue>)
    ensures Flatten(a + b) == Flatten(a) + Flatten(b)
    decreases a
  {
    if a == [] {
      assert a + b == b;
    } else {
      assert (a + b)[0] == a[0];
      assert (a + b)[1..] == a[1..] + b;
      FlattenConcat(a[1..], b);
    }
  }

  /** A list without nested arrays flattens to itself. */
  lemma {:induction false} FlattenFlat(s: seq<JsValue>)
    requires Flat(s)
    ensures Flatten(s) == s
    decreases s
  {
    if s != [] {
      FlattenFlat(s[1..]);
    }
  }

  /** Flattening twice is flattening once. */
  lemma FlattenIdempotent(s: seq<JsValue>)
    ensures Flatten(Flatten(s)) == Flatten(s)
  {
    FlattenFlat(Flatten(s));
  }

  /** `String(v)` for the values that can reach the join (arrays are gone, falsy values dropped). */
  function ToJsString(v: JsValue): string
  {
    match v
    case Undefined => "undefined"
    case Null => "null"
    case Bool(b) => if b then "true" else "false"
    case Num(n) => IntToString(n)
    case Str(s) => s
    case Arr(_) => ""
    case Obj(_) => "[object Object]"
  }

  /** The surviving values of `cn(...args)`, in order. */
  function Classes(args: seq<JsValue>): (r: seq<JsValue>)
    ensures forall i :: 0 <= i < |r| ==> Truthy(r[i]) && !r[i].Arr? && r[i] in Flatten(args)
    ensures forall i :: 0 <= i < |Flatten(args)| && Truthy(Flatten(args)[i]) ==> Flatten(args)[i] in r
    ensures IsSubseq(r, Flatten(args))
  {
    FilterIsSubseq(Flatten(args), Truthy);
    Filter(Flatten(args), Truthy)
  }

  /** `cn(...args)`. */
  function Cn(args: seq<JsValue>): (r: string)
    ensures Classes(args) == [] ==> r == ""
    ensures |Classes(args)| == 1 ==> r == ToJsString(Classes(args)[0])
  {
    Join(Map(Classes(args), ToJsString), " ")
  }

  /** No arguments, or only falsy ones at any depth, give the empty string. */
  lemma AllFalsy(args: seq<JsValue>)
    requires forall i :: 0 <= i < |Flatten(args)| ==> !Truthy(Flatten(args)[i])
    ensures Cn(args) == ""
  {
    FilterNone(Flatten(args), Truthy);
  }

  /**
   * Splitting the result on spaces gives the surviving class names back, in
   * order, when each is a string without a space.
   */
  lemma CnWords(args: seq<JsValue>)
    requires Classes(args) != []
    requires forall i :: 0 <= i < |Classes(args)| ==> Classes(args)[i].Str? && ' ' !in Classes(args)[i].s
    ensures Split(Cn(args), ' ') == Map(Classes(args), ToJsString)
  {
    var words := Map(Classes(args), ToJsString);
    assert " " == [' '];
    SplitJoin(words, ' ');
  }

  /** Nesting does not matter: wrapping the arguments in an array, or splitting them across two, gives the same text. */
  lemma NestingIrrelevant(a: seq<JsValue>, b: seq<JsValue>)
    ensures Cn([Arr(a)] + b) == Cn(a + b)
  {
    FlattenConcat([Arr(a)], b);
    FlattenConcat(a, b);
    assert Flatten([Arr(a)]) == Flatten(a) + Flatten([]);
    assert Flatten(a) + [] == Flatten(a);
  }
}
