/**
 * The part of `java.lang.String.format` that the authorization templates use:
 * `%s` takes the next argument verbatim, `%%` yields a single `%`, text is
 * copied, and arguments beyond the last `%s` are ignored. Running out of
 * arguments (MissingFormatArgumentException) and any other conversion are
 * failures (`None`).
 */
module StringFormat {
  import opened Wrappers

  /** `s` followed by the formatted rest, or failure if the rest failed. */
  function Prepend(s: string, o: Option<string>): Option<string> {
    match o
    case Some(rest) => Some(s + rest)
    case None => None
  }

  /** Does `t` start with the specifier `%s`? */
  predicate StartsWithSlot(t: string) {
    |t| >= 2 && t[0] == '%' && t[1] == 's'
  }

  /** Does `t` start with the escape `%%`? */
  predicate StartsWithPercent(t: string) {
    |t| >= 2 && t[0] == '%' && t[1] == '%'
  }

  /** Formats template `t` with `args`, left to right. */
  function Format(t: string, args: seq<string>): Option<string>
    decreases |t|
  {
    if |t| == 0 then Some("")
    else if StartsWithSlot(t) then
      if |args| == 0 then None else Prepend(args[0], Format(t[2..], args[1..]))
    else if StartsWithPercent(t) then Prepend("%", Format(t[2..], args))
    else if t[0] == '%' then None
    else Prepend(t[..1], Format(t[1..], args))
  }

  /** Every `%` in `t` begins `%s` or `%%`. */
  predicate WellFormed(t: string)
    decreases |t|
  {
    if |t| == 0 then true
    else if StartsWithSlot(t) || StartsWithPercent(t) then WellFormed(t[2..])
    else t[0] != '%' && WellFormed(t[1..])
  }

  /** The number of `%s` specifiers in `t`, read the way Format reads it. */
  function SlotCount(t: string): nat
    decreases |t|
  {
    if |t| == 0 then 0
    else if StartsWithSlot(t) then 1 + SlotCount(t[2..])
    else if StartsWithPercent(t) then SlotCount(t[2..])
    else SlotCount(t[1..])
  }

  /** Formatting succeeds exactly when the template is well formed and there is an argument for every `%s`. */
  lemma {:induction false} FormatDefined(t: string, args: seq<string>)
    ensures Format(t, args).Some? <==> WellFormed(t) && SlotCount(t) <= |args|
    decreases |t|
  {
    if |t| == 0 {
    } else if StartsWithSlot(t) {
      if |args| > 0 { FormatDefined(t[2..], args[1..]); }
    } else if StartsWithPercent(t) {
      FormatDefined(t[2..], args);
    } else if t[0] != '%' {
      FormatDefined(t[1..], args);
    }
  }

  /** Text without `%` is copied to the output unchanged, and consumes no argument. */
  lemma {:induction false} FormatLiteralThen(lit: string, t: string, args: seq<string>)
    requires '%' !in lit
    ensures Format(lit + t, args) == Prepend(lit, Format(t, args))
    decreases |lit|
  {
    if |lit| > 0 {
      var s := lit + t;
      assert s[0] == lit[0] != '%' && s[..1] == lit[..1];
      assert s[1..] == lit[1..] + t;
      assert Format(s, args) == Prepend(lit[..1], Format(lit[1..] + t, args));
      FormatLiteralThen(lit[1..], t, args);
      match Format(t, args)
      case Some(rest) =>
        assert Format(lit[1..] + t, args) == Some(lit[1..] + rest);
        assert lit[..1] + (lit[1..] + rest) == lit + rest;
      case None =>
        assert Format(lit[1..] + t, args) == None;
    } else {
      assert lit + t == t;
      match Format(t, args)
      case Some(rest) => assert lit + rest == rest;
      case None =>
    }
  }

  /** A `%s` is replaced by the next argument, inserted verbatim even if it contains `%`. */
  lemma FormatSlotThen(t: string, args: seq<string>)
    requires |args| > 0
    ensures Format("%s" + t, args) == Prepend(args[0], Format(t, args[1..]))
  {
    assert ("%s" + t)[2..] == t;
  }

  /** A `%s` with no argument left fails (`MissingFormatArgumentException`). */
  lemma FormatSlotWithoutArgument(t: string)
    ensures Format("%s" + t, []).None?
  {
    assert StartsWithSlot("%s" + t);
  }

  /** Arguments beyond the last `%s` make no difference to the output. */
  lemma {:induction false} FormatIgnoresExtraArgs(t: string, args: seq<string>, extra: seq<string>)
    requires SlotCount(t) <= |args|
    ensures Format(t, args + extra) == Format(t, args)
    decreases |t|
  {
    if |t| == 0 {
    } else if StartsWithSlot(t) {
      assert (args + extra)[1..] == args[1..] + extra;
      FormatIgnoresExtraArgs(t[2..], args[1..], extra);
    } else if StartsWithPercent(t) {
      FormatIgnoresExtraArgs(t[2..], args, extra);
    } else if t[0] != '%' {
      FormatIgnoresExtraArgs(t[1..], args, extra);
    }
  }

  /** `%`-free text followed by a `%s`: the text, then the next argument, then the rest formatted with the others. */
  lemma FormatPieceThen(l: string, t: string, args: seq<string>)
    requires '%' !in l && |args| > 0
    ensures Format(l + "%s" + t, args) == Prepend(l + args[0], Format(t, args[1..]))
  {
    assert l + "%s" + t == l + ("%s" + t);
    FormatLiteralThen(l, "%s" + t, args);
    FormatSlotThen(t, args);
    match Format(t, args[1..])
    case Some(rest) => assert l + (args[0] + rest) == l + args[0] + rest;
    case None =>
  }

  /** A two-specifier template made of `%`-free text is the plain concatenation of its pieces and arguments. */
  lemma FormatTwoSlots(l1: string, l2: string, a: string, b: string)
    requires '%' !in l1 && '%' !in l2
    ensures Format(l1 + "%s" + l2 + "%s", [a, b]) == Some(l1 + a + l2 + b)
  {
    var t2 := l2 + "%s" + "";
    assert l1 + "%s" + l2 + "%s" == l1 + "%s" + t2;
    FormatPieceThen(l1, t2, [a, b]);
    assert [a, b][1..] == [b];
    FormatPieceThen(l2, "", [b]);
    assert l1 + a + (l2 + b + "") == l1 + a + l2 + b;
  }

  /** The same for a template with three specifiers. */
  lemma FormatThreeSlots(l1: string, l2: string, l3: string, a: string, b: string, c: string)
    requires '%' !in l1 && '%' !in l2 && '%' !in l3
    ensures Format(l1 + "%s" + l2 + "%s" + l3 + "%s", [a, b, c]) == Some(l1 + a + l2 + b + l3 + c)
  {
    var t3 := l3 + "%s" + "";
    var t2 := l2 + "%s" + t3;
    assert l1 + "%s" + l2 + "%s" + l3 + "%s" == l1 + "%s" + t2;
    FormatPieceThen(l1, t2, [a, b, c]);
    assert [a, b, c][1..] == [b, c];
    FormatPieceThen(l2, t3, [b, c]);
    assert [b, c][1..] == [c];
    FormatPieceThen(l3, "", [c]);
    assert l1 + a + (l2 + b + (l3 + c + "")) == l1 + a + l2 + b + l3 + c;
  }
}
