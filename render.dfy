/** Building text by appending in a loop: `forEach` with `+=`, `filter`,
    `map`, and optional pushes. */
module Render {
  import opened Text

  /** The pieces written one after the other. */
  function Concat(parts: seq<string>): string {
    if parts == [] then "" else Concat(DropLast(parts)) + Last(parts)
  }

  /** `xs.map(f)` */
  function Map<T>(xs: seq<T>, f: T -> string): (r: seq<string>)
    ensures |r| == |xs| && forall i :: 0 <= i < |xs| ==> r[i] == f(xs[i])
  {
    seq(|xs|, i requires 0 <= i < |xs| => f(xs[i]))
  }

  /** `xs.filter(keep)` */
  function Filter<T>(xs: seq<T>, keep: T -> bool): seq<T> {
    if xs == [] then [] else Filter(DropLast(xs), keep) + (if keep(Last(xs)) then [Last(xs)] else [])
  }

  /** `xs.forEach(x => { if (keep(x)) content += render(x); })`, as the text
      it appends. */
  function EmitEach<T>(xs: seq<T>, keep: T -> bool, render: T -> string): string {
    if xs == [] then "" else EmitEach(DropLast(xs), keep, render) + (if keep(Last(xs)) then render(Last(xs)) else "")
  }

  lemma MapStep<T>(xs: seq<T>, f: T -> string, k: nat)
    requires k < |xs|
    ensures Map(xs[..k + 1], f) == Map(xs[..k], f) + [f(xs[k])]
  {
    assert Map(xs[..k + 1], f) == Map(xs[..k], f) + [f(xs[k])];
  }

  lemma {:induction false} MapAppend<T>(xs: seq<T>, x: T, f: T -> string)
    ensures Map(xs + [x], f) == Map(xs, f) + [f(x)]
  {
    assert Map(xs + [x], f) == Map(xs, f) + [f(x)];
  }

  /** Appending inside the loop is rendering the kept entries and writing
      them one after the other. */
  lemma {:induction false} EmitEachIsConcat<T>(xs: seq<T>, keep: T -> bool, render: T -> string)
    ensures EmitEach(xs, keep, render) == Concat(Map(Filter(xs, keep), render))
  {
    if xs != [] {
      EmitEachIsConcat(DropLast(xs), keep, render);
      var ys := Filter(DropLast(xs), keep);
      if keep(Last(xs)) {
        MapAppend(ys, Last(xs), render);
        assert DropLast(Map(ys, render) + [render(Last(xs))]) == Map(ys, render);
      } else {
        assert ys + [] == ys;
      }
    }
  }

  /** Nothing kept, nothing written. */
  lemma {:induction false} EmitEachNone<T>(xs: seq<T>, keep: T -> bool, render: T -> string)
    requires forall i :: 0 <= i < |xs| ==> !keep(xs[i])
    ensures EmitEach(xs, keep, render) == ""
  {
    if xs != [] {
      EmitEachNone(DropLast(xs), keep, render);
    }
  }

  lemma {:induction false} FilterSpec<T>(xs: seq<T>, keep: T -> bool)
    ensures forall x :: x in Filter(xs, keep) <==> x in xs && keep(x)
    ensures Filter(xs, keep) == [] <==> forall i :: 0 <= i < |xs| ==> !keep(xs[i])
  {
    if xs != [] {
      FilterSpec(DropLast(xs), keep);
      assert xs == DropLast(xs) + [Last(xs)];
      forall i | 0 <= i < |xs| - 1
        ensures xs[i] == DropLast(xs)[i]
      {
      }
    }
  }

  /** The kept elements are a subsequence of the input, in order. */
  lemma {:induction false} FilterSubsequence<T>(xs: seq<T>, keep: T -> bool)
    ensures IsSubsequence(Filter(xs, keep), xs)
  {
    if xs == [] {
      SubsequenceRefl(xs);
    } else {
      FilterSubsequence(DropLast(xs), keep);
      assert xs == DropLast(xs) + [Last(xs)];
      SubsequenceAppend(Filter(DropLast(xs), keep), DropLast(xs), if keep(Last(xs)) then [Last(xs)] else [], [Last(xs)]);
    }
  }

  /** Everything kept, the input back. */
  lemma {:induction false} FilterAll<T>(xs: seq<T>, keep: T -> bool)
    requires forall x :: x in xs ==> keep(x)
    ensures Filter(xs, keep) == xs
  {
    if xs != [] {
      var init := DropLast(xs);
      assert xs == init + [Last(xs)];
      FilterAll(init, keep);
    }
  }

  lemma {:induction false} ConcatContains(parts: seq<string>, k: nat)
    requires k < |parts|
    ensures Contains(Concat(parts), parts[k])
  {
    if k == |parts| - 1 {
      ContainsAt(parts[k], parts[k], 0);
      ContainsPrepend(Concat(DropLast(parts)), parts[k], parts[k]);
    } else {
      ConcatContains(DropLast(parts), k);
      ContainsAppend(Concat(DropLast(parts)), Last(parts), parts[k]);
    }
  }

  /** A kept entry's rendering appears in the emitted text. */
  lemma EmitEachContains<T>(xs: seq<T>, keep: T -> bool, render: T -> string, x: T)
    requires x in xs && keep(x)
    ensures Contains(EmitEach(xs, keep, render), render(x))
  {
    EmitEachIsConcat(xs, keep, render);
    FilterSpec(xs, keep);
    var ys := Filter(xs, keep);
    var j :| 0 <= j < |ys| && ys[j] == x;
    ConcatContains(Map(ys, render), j);
  }

  /** A list section guarded by `some`: nothing when no element passes
      `show`, otherwise the opening, each kept element rendered, and the
      closing. */
  function GuardedSection<T>(xs: seq<T>, show: T -> bool, keep: T -> bool, render: T -> string,
                             open: string, close: string): string {
    if !exists i :: 0 <= i < |xs| && show(xs[i]) then "" else open + EmitEach(xs, keep, render) + close
  }

  lemma GuardedSectionHidden<T>(xs: seq<T>, show: T -> bool, keep: T -> bool, render: T -> string,
                                open: string, close: string)
    requires forall i :: 0 <= i < |xs| ==> !show(xs[i])
    ensures GuardedSection(xs, show, keep, render, open, close) == ""
  {
  }

  lemma GuardedSectionShown<T>(xs: seq<T>, show: T -> bool, keep: T -> bool, render: T -> string,
                               open: string, close: string, i: nat)
    requires i < |xs| && show(xs[i])
    ensures GuardedSection(xs, show, keep, render, open, close) == open + EmitEach(xs, keep, render) + close
  {
  }

  /** With a non-empty opening, the section is empty exactly when no element
      passes `show`; otherwise it holds the kept elements, in order, and
      nothing else, so each kept element appears. */
  lemma GuardedSectionSpec<T>(xs: seq<T>, show: T -> bool, keep: T -> bool, render: T -> string,
                              open: string, close: string)
    requires open != ""
    ensures GuardedSection(xs, show, keep, render, open, close) == ""
            <==> forall i :: 0 <= i < |xs| ==> !show(xs[i])
    ensures (exists i :: 0 <= i < |xs| && show(xs[i])) ==>
      GuardedSection(xs, show, keep, render, open, close) == open + Concat(Map(Filter(xs, keep), render)) + close
    ensures (exists i :: 0 <= i < |xs| && show(xs[i])) ==>
      forall x :: x in xs && keep(x) ==> Contains(GuardedSection(xs, show, keep, render, open, close), render(x))
  {
    EmitEachIsConcat(xs, keep, render);
    if exists i :: 0 <= i < |xs| && show(xs[i]) {
      assert |open + EmitEach(xs, keep, render) + close| >= |open|;
      forall x | x in xs && keep(x)
        ensures Contains(open + EmitEach(xs, keep, render) + close, render(x))
      {
        EmitEachContains(xs, keep, render, x);
        ContainsMiddle(open, EmitEach(xs, keep, render), close, render(x));
      }
    }
  }

  lemma ContainsMiddle(a: string, b: string, c: string, needle: string)
    requires Contains(b, needle)
    ensures Contains(a + b + c, needle)
  {
    ContainsPrepend(a, b, needle);
    ContainsAppend(a + b, c, needle);
  }

  lemma ContainsTrans(a: string, b: string, c: string)
    requires Contains(a, b) && Contains(b, c)
    ensures Contains(a, c)
  {
    var i :| 0 <= i <= |a| - |b| && b <= a[i..];
    var j :| 0 <= j <= |b| - |c| && c <= b[j..];
    forall k | 0 <= k < |c|
      ensures a[i + j + k] == c[k]
    {
      assert c[k] == b[j + k] == a[i + j + k];
    }
    assert c <= a[i + j..];
  }

  /** `[line]` when `value` is filled in. */
  function Present(value: string, line: string): seq<string> {
    if value != "" then [line] else []
  }

  predicate EndsWith(s: string, suffix: string) {
    |suffix| <= |s| && s[|s| - |suffix|..] == suffix
  }

  /** A text assembled as opening, filler, middle, rest and closing starts with
      the opening, holds the middle and ends with the closing. */
  lemma Framed(open: string, filler: string, middle: string, rest: string, close: string)
    ensures open <= open + filler + middle + rest + close
    ensures Contains(open + filler + middle + rest + close, middle)
    ensures EndsWith(open + filler + middle + rest + close, close)
  {
    var s := open + filler + middle + rest + close;
    assert s[|open + filler|..|open + filler| + |middle|] == middle;
    ContainsAt(s, middle, |open + filler|);
    assert s[|s| - |close|..] == close;
  }
}
