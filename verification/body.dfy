/** The message body of a category log line (`getLogString` in
    src/logger_base.ts): every argument as text, each followed by a tab. */
module Body {

  /** One logged argument. `Scalar` is a non-object value that converts
      to text, and carries that text (a Symbol, whose conversion throws,
      has no counterpart here); `Object` is any value whose `typeof` is
      "object" (records, arrays and `null`), of type `O`. */
  datatype Arg<O> = Scalar(text: string) | Object(obj: O)

  /** The text an argument is printed as; objects go through `serialize`,
      which stands for `JSON.stringify`. */
  function Text<O>(a: Arg<O>, serialize: O -> string): string
  {
    match a
    case Scalar(t) => t
    case Object(o) => serialize(o)
  }

  /** The argument as it is left in the array: an object is overwritten
      by its serialisation; anything else is kept. */
  function Overwrite<O>(a: Arg<O>, serialize: O -> string): (r: Arg<O>)
    ensures r.Scalar?
    ensures Text(r, serialize) == Text(a, serialize)
    ensures a.Scalar? ==> r == a
  {
    match a
    case Scalar(_) => a
    case Object(o) => Scalar(serialize(o))
  }

  /** The body: for each argument in order, its text and a tab. */
  function LogString<O>(args: seq<Arg<O>>, serialize: O -> string): string
  {
    if args == [] then ""
    else LogString(args[..|args| - 1], serialize) + Text(args[|args| - 1], serialize) + "\t"
  }

  /** The argument array after `getLogString` has run over it. */
  function Normalize<O>(args: seq<Arg<O>>, serialize: O -> string): (r: seq<Arg<O>>)
    ensures |r| == |args|
    ensures forall i :: 0 <= i < |args| ==> r[i] == Overwrite(args[i], serialize)
  {
    if args == [] then []
    else Normalize(args[..|args| - 1], serialize) + [Overwrite(args[|args| - 1], serialize)]
  }

  /** Total length of the argument texts. */
  function TextLength<O>(args: seq<Arg<O>>, serialize: O -> string): nat
  {
    if args == [] then 0
    else TextLength(args[..|args| - 1], serialize) + |Text(args[|args| - 1], serialize)|
  }

  /** The loop of `getLogString`: objects are overwritten in place by
      their serialisation, then each element and a tab are appended. The
      overwritten array is returned as `overwritten`. */
  method GetLogString<O>(args: seq<Arg<O>>, serialize: O -> string)
    returns (str: string, overwritten: seq<Arg<O>>)
    ensures str == LogString(args, serialize)
    ensures overwritten == Normalize(args, serialize)
    ensures |overwritten| == |args|
    ensures forall i :: 0 <= i < |args| ==>
              && overwritten[i].Scalar?
              && (args[i].Scalar? ==> overwritten[i] == args[i])
              && (args[i].Object? ==> overwritten[i].text == serialize(args[i].obj))
  {
    var a := args;
    str := "";
    var i := 0;
    while i < |a|
      invariant |a| == |args|
      invariant 0 <= i <= |a|
      invariant forall k :: 0 <= k < i ==> a[k] == Overwrite(args[k], serialize)
      invariant forall k :: i <= k < |a| ==> a[k] == args[k]
      invariant str == LogString(args[..i], serialize)
    {
      if a[i].Object? {
        a := a[i := Scalar(serialize(a[i].obj))];
      }
      str := str + a[i].text + "\t";
      TakeOneMore(args, i, serialize);
      i := i + 1;
    }
    assert args[..i] == args;
    overwritten := a;
  }

  /** Extending a prefix of the arguments by one extends its body by that
      argument's text and a tab. */
  lemma TakeOneMore<O>(args: seq<Arg<O>>, i: nat, serialize: O -> string)
    requires i < |args|
    ensures LogString(args[..i + 1], serialize) == LogString(args[..i], serialize) + Text(args[i], serialize) + "\t"
  {
    assert args[..i + 1][..i] == args[..i];
  }

  /** The body of a concatenated argument list is the concatenation of
      the bodies. */
  lemma {:induction false} LogStringAppend<O>(xs: seq<Arg<O>>, ys: seq<Arg<O>>, serialize: O -> string)
    ensures LogString(xs + ys, serialize) == LogString(xs, serialize) + LogString(ys, serialize)
    decreases |ys|
  {
    if ys == [] {
      assert xs + ys == xs;
    } else {
      var zs := xs + ys;
      var init, last := ys[..|ys| - 1], ys[|ys| - 1];
      assert zs[..|zs| - 1] == xs + init;
      assert zs[|zs| - 1] == last;
      calc {
        LogString(zs, serialize);
        LogString(xs + init, serialize) + Text(last, serialize) + "\t";
        { LogStringAppend(xs, init, serialize); }
        LogString(xs, serialize) + LogString(init, serialize) + Text(last, serialize) + "\t";
        LogString(xs, serialize) + (LogString(init, serialize) + Text(last, serialize) + "\t");
      }
    }
  }

  /** The body read front to back: the first argument's text and a tab,
      then the body of the rest. An empty argument list gives "". */
  lemma LogStringCons<O>(a: Arg<O>, rest: seq<Arg<O>>, serialize: O -> string)
    ensures LogString([a] + rest, serialize) == Text(a, serialize) + "\t" + LogString(rest, serialize)
  {
    LogStringAppend([a], rest, serialize);
    assert [a][..0] == [];
  }

  /** The body is as long as the argument texts plus one tab per argument. */
  lemma {:induction false} LogStringLength<O>(args: seq<Arg<O>>, serialize: O -> string)
    ensures |LogString(args, serialize)| == TextLength(args, serialize) + |args|
  {
    if args != [] {
      LogStringLength(args[..|args| - 1], serialize);
    }
  }

  /** The overwriting does not change what is printed, and running over
      the overwritten array again changes nothing: a second call would
      print the same body and leave the array as it is. */
  lemma {:induction false} NormalizeStable<O>(args: seq<Arg<O>>, serialize: O -> string)
    ensures LogString(Normalize(args, serialize), serialize) == LogString(args, serialize)
    ensures Normalize(Normalize(args, serialize), serialize) == Normalize(args, serialize)
  {
    if args != [] {
      var n := Normalize(args, serialize);
      assert n[..|n| - 1] == Normalize(args[..|args| - 1], serialize);
      NormalizeStable(args[..|args| - 1], serialize);
    }
  }
}
