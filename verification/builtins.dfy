/**
 * The three Python built-ins the core relies on: `str.join`, `str.format`
 * with named replacement fields, and `zip` over two lists.
 */
module Builtins {
  import opened Wrappers

  // ---------------------------------------------------------------------
  // sep.join(parts)
  // ---------------------------------------------------------------------

  /** `sep.join(parts)`: the parts in order, with `sep` between neighbours. */
  function Join(sep: string, parts: seq<string>): string
  {
    if |parts| == 0 then ""
    else if |parts| == 1 then parts[0]
    else parts[0] + sep + Join(sep, parts[1..])
  }

  /**
   * Where part `i` starts in `Join(sep, parts)`: the lengths of the parts
   * before it, each followed by one separator.
   */
  function Offset(sep: string, parts: seq<string>, i: nat): nat
    requires i <= |parts|
  {
    if i == 0 then 0 else |parts[0]| + |sep| + Offset(sep, parts[1..], i - 1)
  }

  /** Each part moves the next start by its own length plus one separator. */
  lemma {:induction false} OffsetStep(sep: string, parts: seq<string>, i: nat)
    requires i < |parts|
    ensures Offset(sep, parts, i + 1) == Offset(sep, parts, i) + |parts[i]| + |sep|
  {
    if i > 0 {
      OffsetStep(sep, parts[1..], i - 1);
    }
  }

  /** The joined string is exactly as long as the parts and the separators between them. */
  lemma {:induction false} JoinLength(sep: string, parts: seq<string>)
    requires |parts| > 0
    ensures |Join(sep, parts)| + |sep| == Offset(sep, parts, |parts|)
  {
    if |parts| > 1 {
      JoinLength(sep, parts[1..]);
    }
  }

  /** Part `i` of `Join(sep, parts)` sits at `Offset(i)`. */
  lemma {:induction false} JoinPartAt(sep: string, parts: seq<string>, i: nat)
    requires i < |parts|
    ensures Offset(sep, parts, i) + |parts[i]| <= |Join(sep, parts)|
    ensures Join(sep, parts)[Offset(sep, parts, i) .. Offset(sep, parts, i) + |parts[i]|] == parts[i]
  {
    if |parts| == 1 {
      assert Join(sep, parts) == parts[0];
      assert Offset(sep, parts, i) == 0;
    } else {
      var prefix, rest := parts[0] + sep, Join(sep, parts[1..]);
      assert Join(sep, parts) == prefix + rest;
      if i == 0 {
        assert Offset(sep, parts, i) == 0;
        assert (prefix + rest)[..|parts[0]|] == parts[0];
      } else {
        var o := Offset(sep, parts[1..], i - 1);
        assert Offset(sep, parts, i) == |prefix| + o;
        assert parts[1..][i - 1] == parts[i];
        JoinPartAt(sep, parts[1..], i - 1);
        SliceAfter(prefix, rest, o, o + |parts[i]|);
      }
    }
  }

  /** Between part `i` and part `i + 1` of `Join(sep, parts)` stands exactly one `sep`. */
  lemma {:induction false} JoinSeparatorAfter(sep: string, parts: seq<string>, i: nat)
    requires i + 1 < |parts|
    ensures Offset(sep, parts, i + 1) == Offset(sep, parts, i) + |parts[i]| + |sep|
    ensures Offset(sep, parts, i + 1) <= |Join(sep, parts)|
    ensures Join(sep, parts)[Offset(sep, parts, i) + |parts[i]| .. Offset(sep, parts, i + 1)] == sep
  {
    OffsetStep(sep, parts, i);
    var prefix, rest := parts[0] + sep, Join(sep, parts[1..]);
    assert Join(sep, parts) == prefix + rest;
    if i == 0 {
      assert (prefix + rest)[|parts[0]| .. |prefix|] == sep;
    } else {
      JoinSeparatorAfter(sep, parts[1..], i - 1);
      assert parts[1..][i - 1] == parts[i];
      var o := Offset(sep, parts[1..], i - 1);
      SliceAfter(prefix, rest, o + |parts[i]|, Offset(sep, parts[1..], i));
    }
  }

  /** The three layout facts together: length, each part at its offset, a separator after every part but the last. */
  lemma {:induction false} JoinLayout(sep: string, parts: seq<string>, i: nat)
    requires i < |parts|
    ensures |Join(sep, parts)| + |sep| == Offset(sep, parts, |parts|)
    ensures
      var s := Join(sep, parts);
      var o := Offset(sep, parts, i);
      o + |parts[i]| <= |s| && s[o .. o + |parts[i]|] == parts[i] &&
      (i + 1 < |parts| ==>
        o + |parts[i]| + |sep| <= |s| &&
        s[o + |parts[i]| .. o + |parts[i]| + |sep|] == sep)
  {
    JoinLength(sep, parts);
    JoinPartAt(sep, parts, i);
    if i + 1 < |parts| {
      JoinSeparatorAfter(sep, parts, i);
    }
  }

  /** A slice taken past a prefix is a slice of what follows the prefix. */
  lemma SliceAfter(prefix: string, rest: string, lo: nat, hi: nat)
    requires lo <= hi <= |rest|
    ensures (prefix + rest)[|prefix| + lo .. |prefix| + hi] == rest[lo .. hi]
  {
    assert (prefix + rest)[|prefix|..] == rest;
  }

  /** Joining one more part appends a separator and that part. */
  lemma {:induction false} JoinSnoc(sep: string, parts: seq<string>, last: string)
    requires |parts| > 0
    ensures Join(sep, parts + [last]) == Join(sep, parts) + sep + last
  {
    if |parts| > 1 {
      assert (parts + [last])[1..] == parts[1..] + [last];
      JoinSnoc(sep, parts[1..], last);
    }
  }

  // ---------------------------------------------------------------------
  // template.format(**args)
  // ---------------------------------------------------------------------

  /**
   * A format string already divided at its replacement fields: literal
   * text, or a field `{name}` to be replaced by the keyword argument `name`.
   */
  datatype Piece = Literal(text: string) | Field(name: string)

  /** The names of the replacement fields of a template. */
  function FieldNames(template: seq<Piece>): set<string>
  {
    set i | 0 <= i < |template| && template[i].Field? :: template[i].name
  }

  /**
   * `template.format(**args)`: each field replaced by its argument, the
   * literal text kept; a field without an argument raises `KeyError`
   * naming it (the leftmost such field). Unused arguments are ignored.
   */
  function Format(template: seq<Piece>, args: map<string, string>): Result<string, string>
  {
    if |template| == 0 then Ok("")
    else
      var rest := Format(template[1..], args);
      match template[0]
      case Literal(t) =>
        if rest.Ok? then Ok(t + rest.value) else rest
      case Field(n) =>
        if n !in args then Err(n)
        else if rest.Ok? then Ok(args[n] + rest.value) else rest
  }

  /**
   * Formatting succeeds exactly when every field has an argument; a failure
   * names a field of the template that has none.
   */
  lemma {:induction false} FormatSucceeds(template: seq<Piece>, args: map<string, string>)
    ensures Format(template, args).Ok? <==> FieldNames(template) <= args.Keys
    ensures Format(template, args).Err? ==>
      Format(template, args).error in FieldNames(template) && Format(template, args).error !in args
  {
    if |template| > 0 {
      FormatSucceeds(template[1..], args);
      FieldNamesCons(template);
    }
  }

  /** The fields of a non-empty template: those of its first piece and those of the rest. */
  lemma FieldNamesCons(template: seq<Piece>)
    requires |template| > 0
    ensures FieldNames(template) ==
      (if template[0].Field? then {template[0].name} else {}) + FieldNames(template[1..])
  {
    forall n | n in FieldNames(template)
      ensures n in (if template[0].Field? then {template[0].name} else {}) + FieldNames(template[1..])
    {
      var i :| 0 <= i < |template| && template[i].Field? && template[i].name == n;
      if i > 0 { assert template[1..][i - 1] == template[i]; }
    }
    forall n | n in FieldNames(template[1..]) ensures n in FieldNames(template) {
      var i :| 0 <= i < |template[1..]| && template[1..][i].Field? && template[1..][i].name == n;
      assert template[i + 1] == template[1..][i];
    }
  }

  /** Formatting a concatenation of templates formats each in turn; the first failure wins. */
  lemma {:induction false} FormatConcat(t1: seq<Piece>, t2: seq<Piece>, args: map<string, string>)
    ensures Format(t1 + t2, args) ==
      if Format(t1, args).Err? then Format(t1, args)
      else if Format(t2, args).Err? then Format(t2, args)
      else Ok(Format(t1, args).value + Format(t2, args).value)
  {
    if |t1| > 0 {
      assert (t1 + t2)[1..] == t1[1..] + t2;
      assert (t1 + t2)[0] == t1[0];
      FormatConcat(t1[1..], t2, args);
      var r1, r2 := Format(t1[1..], args), Format(t2, args);
      if r1.Ok? && r2.Ok? {
        var head := match t1[0] case Literal(t) => t case Field(n) => if n in args then args[n] else "";
        assert head + (r1.value + r2.value) == (head + r1.value) + r2.value;
      }
    } else {
      assert t1 + t2 == t2;
      assert Format(t1, args) == Ok("");
      if Format(t2, args).Ok? {
        assert "" + Format(t2, args).value == Format(t2, args).value;
      }
    }
  }

  /** A template with two fields between three literal texts, both fields bound. */
  lemma FormatTwoFields(lead: string, first: string, middle: string, second: string, trail: string,
                        args: map<string, string>)
    requires first in args && second in args
    ensures Format([Literal(lead), Field(first), Literal(middle), Field(second), Literal(trail)], args) ==
      Ok(lead + args[first] + middle + args[second] + trail)
  {
    var t := [Literal(lead), Field(first), Literal(middle), Field(second), Literal(trail)];
    assert t[5..] == [];
    assert Format(t[4..], args) == Ok(trail + "");
    assert Format(t[3..], args) == Ok(args[second] + (trail + ""));
    assert Format(t[2..], args) == Ok(middle + (args[second] + (trail + "")));
    assert Format(t[1..], args) == Ok(args[first] + (middle + (args[second] + (trail + ""))));
    assert Format(t, args) == Ok(lead + (args[first] + (middle + (args[second] + (trail + "")))));
    assert trail + "" == trail;
    assert lead + (args[first] + (middle + (args[second] + trail))) ==
      lead + args[first] + middle + args[second] + trail;
  }

  // ---------------------------------------------------------------------
  // list(zip(xs, ys))
  // ---------------------------------------------------------------------

  /** `list(zip(xs, ys))`: pairs of same-index elements, as many as the shorter list has. */
  function Zip<X, Y>(xs: seq<X>, ys: seq<Y>): (r: seq<(X, Y)>)
    ensures |r| == if |xs| <= |ys| then |xs| else |ys|
    ensures forall i :: 0 <= i < |r| ==> r[i] == (xs[i], ys[i])
  {
    if |xs| == 0 || |ys| == 0 then []
    else [(xs[0], ys[0])] + Zip(xs[1..], ys[1..])
  }
}
