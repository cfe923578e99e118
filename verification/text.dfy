/**
  Text primitives the renderers are built from: the platform line break,
  `string.Join`, `string.Split` on one character (and the arity stripping
  `Name.Split('`')[0]` that every renderer applies to reflected names), the
  angle-bracket escaping that separates the tag dialects from the others,
  and the `StringBuilder` that the document assemblers append to.
*/
module Text {

  /** `Environment.NewLine`, fixed to a line feed. */
  const NewLine: string := "\n"

  /** What `StringBuilder.AppendLine(s)` adds. */
  function Line(s: string): string
  {
    s + NewLine
  }

  predicate StartsWith(s: string, prefix: string)
  {
    prefix <= s
  }

  predicate EndsWith(s: string, suffix: string)
  {
    |suffix| <= |s| && s[|s| - |suffix|..] == suffix
  }

  /** `string.Join(sep, xs)`. */
  function Join(sep: string, xs: seq<string>): string
    decreases |xs|
  {
    if |xs| == 0 then ""
    else if |xs| == 1 then xs[0]
    else Join(sep, xs[..|xs| - 1]) + sep + xs[|xs| - 1]
  }

  /** `s.Split(c)`: the pieces between occurrences of `c`, in order. */
  function Split(s: string, c: char): (r: seq<string>)
    ensures |r| >= 1
    ensures r[0] <= s && c !in r[0]
    ensures c !in s ==> r == [s]
    decreases |s|
  {
    if |s| == 0 then [""]
    else if s[0] == c then [""] + Split(s[1..], c)
    else
      var rest := Split(s[1..], c);
      assert [s[0]] + s[1..] == s;
      [[s[0]] + rest[0]] + rest[1..]
  }

  /** `name.Split('`')[0]`: a reflected generic name without its arity suffix
      (`List`1` becomes `List`). */
  function StripArity(name: string): (r: string)
    ensures r <= name
    ensures '`' !in r
    ensures '`' !in name ==> r == name
  {
    Split(name, '`')[0]
  }

  /** The XML/HTML spelling of raw angle brackets. */
  function Escape(s: string): (r: string)
    ensures '<' !in s && '>' !in s ==> r == s
    ensures r == "" <==> s == ""
    decreases |s|
  {
    if |s| == 0 then ""
    else
      (if s[0] == '<' then "&lt;" else if s[0] == '>' then "&gt;" else [s[0]])
      + Escape(s[1..])
  }

  /** The concatenation of `f(x)` for each `x` in `xs`, in order; what a
      `foreach` that appends `f(x)` to a builder produces. */
  function ConcatMap<T>(xs: seq<T>, f: T -> string): string
    decreases |xs|
  {
    if |xs| == 0 then "" else ConcatMap(xs[..|xs| - 1], f) + f(xs[|xs| - 1])
  }

  /** The elements of `xs` that satisfy `keep`, in order (`Where`). */
  function Filter<T>(xs: seq<T>, keep: T -> bool): (r: seq<T>)
    ensures |r| <= |xs|
    ensures forall i :: 0 <= i < |r| ==> r[i] in xs && keep(r[i])
    ensures forall i :: 0 <= i < |xs| && keep(xs[i]) ==> xs[i] in r
    decreases |xs|
  {
    if |xs| == 0 then []
    else Filter(xs[..|xs| - 1], keep) + (if keep(xs[|xs| - 1]) then [xs[|xs| - 1]] else [])
  }

  /** The text that `AppendLine(x)` for each `x` in `xs` adds: one line per element. */
  function Lines(xs: seq<string>): string
  {
    ConcatMap(xs, Line)
  }

  // ----- lemmas -----

  /** Extending the list by one element extends the concatenation by that
      element's text; this is the step of every assembler loop. */
  lemma ConcatMapSnoc<T>(xs: seq<T>, x: T, f: T -> string)
    ensures ConcatMap(xs + [x], f) == ConcatMap(xs, f) + f(x)
  {
    assert (xs + [x])[..|xs|] == xs;
  }

  /** One turn of a loop over `xs`: the prefix grows by one element. */
  lemma ConcatMapStep<T>(xs: seq<T>, i: nat, f: T -> string)
    requires i < |xs|
    ensures ConcatMap(xs[..i + 1], f) == ConcatMap(xs[..i], f) + f(xs[i])
  {
    assert xs[..i + 1] == xs[..i] + [xs[i]];
    ConcatMapSnoc(xs[..i], xs[i], f);
  }

  /** Concatenating over two lists one after the other is concatenating
      their texts: output order follows list order. */
  lemma {:induction false} ConcatMapAppend<T>(xs: seq<T>, ys: seq<T>, f: T -> string)
    ensures ConcatMap(xs + ys, f) == ConcatMap(xs, f) + ConcatMap(ys, f)
    decreases |ys|
  {
    if |ys| > 0 {
      var init := ys[..|ys| - 1];
      var last := ys[|ys| - 1];
      assert ys == init + [last];
      assert xs + ys == (xs + init) + [last];
      ConcatMapSnoc(xs + init, last, f);
      ConcatMapAppend(xs, init, f);
      ConcatMapSnoc(init, last, f);
    } else {
      assert xs + ys == xs;
    }
  }

  /** The text of every element appears in the concatenation, between the
      texts of the elements before it and those after it. */
  lemma ConcatMapFactor<T>(xs: seq<T>, i: nat, f: T -> string)
    requires i < |xs|
    ensures ConcatMap(xs, f) == ConcatMap(xs[..i], f) + f(xs[i]) + ConcatMap(xs[i + 1..], f)
  {
    assert xs == xs[..i + 1] + xs[i + 1..];
    ConcatMapAppend(xs[..i + 1], xs[i + 1..], f);
    ConcatMapStep(xs, i, f);
  }

  /** Elements whose text is empty can be dropped before concatenating:
      skipping an empty section or paragraph changes nothing. */
  lemma {:induction false} ConcatMapSkipsEmpty<T>(xs: seq<T>, f: T -> string, keep: T -> bool)
    requires forall i :: 0 <= i < |xs| && !keep(xs[i]) ==> f(xs[i]) == ""
    ensures ConcatMap(xs, f) == ConcatMap(Filter(xs, keep), f)
    decreases |xs|
  {
    if |xs| > 0 {
      var init := xs[..|xs| - 1];
      var last := xs[|xs| - 1];
      ConcatMapSkipsEmpty(init, f, keep);
      if keep(last) {
        ConcatMapSnoc(Filter(init, keep), last, f);
      } else {
        assert Filter(xs, keep) == Filter(init, keep) + [];
        assert Filter(init, keep) + [] == Filter(init, keep);
      }
    }
  }

  /** Filtering twice by the same test is filtering once. */
  lemma {:induction false} FilterIdempotent<T>(xs: seq<T>, keep: T -> bool)
    ensures Filter(Filter(xs, keep), keep) == Filter(xs, keep)
    decreases |xs|
  {
    if |xs| > 0 {
      var init := xs[..|xs| - 1];
      var last := xs[|xs| - 1];
      FilterIdempotent(init, keep);
      var fi := Filter(init, keep);
      if keep(last) {
        assert (fi + [last])[..|fi|] == fi;
      } else {
        assert fi + [] == fi;
      }
    }
  }

  /** With no empty element, the joined text is empty exactly when the list is. */
  lemma JoinEmptyIff(sep: string, xs: seq<string>)
    requires forall i :: 0 <= i < |xs| ==> xs[i] != ""
    ensures Join(sep, xs) == "" <==> xs == []
  {
    if |xs| > 1 {
      assert |Join(sep, xs)| >= |xs[|xs| - 1]| > 0;
    }
  }

  /** Splitting text that holds one separator after `a` yields the pieces of
      `a` followed by the rest. */
  lemma {:induction false} SplitAround(a: string, c: char, b: string)
    requires c !in b
    ensures Split(a + [c] + b, c) == Split(a, c) + [b]
    decreases |a|
  {
    var s := a + [c] + b;
    if |a| == 0 {
      assert s == [c] + b;
      assert s[1..] == b;
    } else {
      assert s[0] == a[0];
      assert s[1..] == a[1..] + [c] + b;
      SplitAround(a[1..], c, b);
    }
  }

  /** `Join` and `Split` are inverse on pieces free of the separator: joining
      loses neither pieces nor their order. */
  lemma {:induction false} SplitJoin(xs: seq<string>, c: char)
    requires |xs| >= 1
    requires forall i :: 0 <= i < |xs| ==> c !in xs[i]
    ensures Split(Join([c], xs), c) == xs
    decreases |xs|
  {
    if |xs| > 1 {
      var init := xs[..|xs| - 1];
      SplitJoin(init, c);
      SplitAround(Join([c], init), c, xs[|xs| - 1]);
      assert init + [xs[|xs| - 1]] == xs;
    }
  }

  /** Prepending one line to a list of lines. */
  lemma LinesCons(x: string, xs: seq<string>)
    ensures Lines([x] + xs) == Line(x) + Lines(xs)
  {
    ConcatMapAppend([x], xs, Line);
    assert ConcatMap([x], Line) == ConcatMap([], Line) + Line(x);
  }

  /** Text made of whole lines, followed by a last piece without a break,
      splits back into those lines and that piece. */
  lemma {:induction false} SplitLinesThen(xs: seq<string>, x: string)
    requires forall i :: 0 <= i < |xs| ==> '\n' !in xs[i]
    requires '\n' !in x
    ensures Split(Lines(xs) + x, '\n') == xs + [x]
    decreases |xs|
  {
    if |xs| == 0 {
      assert Lines(xs) + x == x;
    } else {
      var init, last := xs[..|xs| - 1], xs[|xs| - 1];
      assert Lines(xs) + x == (Lines(init) + last) + ['\n'] + x;
      SplitAround(Lines(init) + last, '\n', x);
      SplitLinesThen(init, last);
      assert init + [last] == xs;
    }
  }

  /** The lines of `Lines(xs)` are exactly `xs`, then the empty piece after
      the final break: no line is lost, merged or reordered. */
  lemma SplitLines(xs: seq<string>)
    requires forall i :: 0 <= i < |xs| ==> '\n' !in xs[i]
    ensures Split(Lines(xs), '\n') == xs + [""]
  {
    SplitLinesThen(xs, "");
    assert Lines(xs) + "" == Lines(xs);
  }

  /** Escaping distributes over concatenation. */
  lemma {:induction false} EscapeAppend(a: string, b: string)
    ensures Escape(a + b) == Escape(a) + Escape(b)
    decreases |a|
  {
    if |a| > 0 {
      assert (a + b)[0] == a[0];
      assert (a + b)[1..] == a[1..] + b;
      EscapeAppend(a[1..], b);
    } else {
      assert a + b == b;
    }
  }

  /** Escaping a joined list is joining the escaped pieces, when the
      separator has no angle bracket. */
  lemma {:induction false} EscapeJoin(sep: string, xs: seq<string>, ys: seq<string>)
    requires '<' !in sep && '>' !in sep
    requires |xs| == |ys|
    requires forall i :: 0 <= i < |xs| ==> ys[i] == Escape(xs[i])
    ensures Escape(Join(sep, xs)) == Join(sep, ys)
    decreases |xs|
  {
    if |xs| > 1 {
      var n := |xs| - 1;
      EscapeJoin(sep, xs[..n], ys[..n]);
      EscapeAppend(Join(sep, xs[..n]) + sep, xs[n]);
      EscapeAppend(Join(sep, xs[..n]), sep);
    }
  }

  lemma EndsWithConcat(a: string, b: string)
    ensures StartsWith(a + b, a) && EndsWith(a + b, b)
  {
    assert (a + b)[..|a|] == a;
    assert (a + b)[|a|..] == b;
  }

  lemma PrefixExtend(a: string, b: string, c: string)
    requires StartsWith(b, a)
    ensures StartsWith(b + c, a)
  {
    assert (b + c)[..|a|] == b[..|a|];
  }

  lemma EndsWithAppend(a: string, b: string, c: string)
    ensures EndsWith(a + b + c, b + c)
  {
    assert a + b + c == a + (b + c);
    assert (a + (b + c))[|a|..] == b + c;
  }

  /** Regrouping appended pieces; the step that matches a builder's
      appends to the text a specification function builds. */
  lemma Regroup(s: string, a: string, b: string)
    ensures s + a + b == s + (a + b)
  {
  }

  lemma Regroup3(s: string, a: string, b: string, c: string)
    ensures s + a + b + c == s + (a + b + c)
  {
  }

  lemma Regroup4(s: string, a: string, b: string, c: string, d: string)
    ensures s + a + b + c + d == s + (a + b + c + d)
  {
  }

  lemma Regroup5(s: string, a: string, b: string, c: string, d: string, e: string)
    ensures s + a + b + c + d + e == s + (a + b + c + d + e)
  {
  }

  lemma Regroup6(s: string, a: string, b: string, c: string, d: string, e: string, f: string)
    ensures s + a + b + c + d + e + f == s + (a + b + c + d + e + f)
  {
  }

  lemma Regroup7(s: string, a: string, b: string, c: string, d: string, e: string, f: string, g: string)
    ensures s + a + b + c + d + e + f + g == s + (a + b + c + d + e + f + g)
  {
  }

  /** The buffer that the generators and annotation renderers append to. */
  class StringBuilder {
    var content: string

    constructor ()
      ensures content == ""
    {
      content := "";
    }

    /** `Append(s)`. */
    method Append(s: string)
      modifies this
      ensures content == old(content) + s
    {
      content := content + s;
    }

    /** `AppendLine(s)`; `AppendLine()` is `AppendLine("")`. */
    method AppendLine(s: string)
      modifies this
      ensures content == old(content) + Line(s)
    {
      content := content + Line(s);
    }

    function ToString(): string
      reads this
    {
      content
    }
  }
}
