/**
 * The select controls: the id a labelled select is rendered with, and the
 * multi-select's toggle and selected labels.
 */
module Select {
  import opened Base
  import opened Text

  /** An option of a select: the submitted value and the label shown. */
  datatype SelectOption = SelectOption(value: string, labelText: string)

  /** `value.filter((v) => v !== x)`: every occurrence of `x` dropped, the rest kept in order. */
  function Without(xs: seq<string>, x: string): (r: seq<string>)
    ensures x !in r
    ensures forall y :: y != x ==> (y in r <==> y in xs)
  {
    if xs == [] then []
    else
      assert xs == [xs[0]] + xs[1..];
      if xs[0] == x then Without(xs[1..], x) else [xs[0]] + Without(xs[1..], x)
  }

  /** Without drops every occurrence of x and keeps the count of every other value. */
  lemma {:induction false} WithoutCount(xs: seq<string>, x: string)
    ensures multiset(Without(xs, x)) == multiset(xs)[x := 0]
  {
    if xs != [] {
      WithoutCount(xs[1..], x);
      assert xs == [xs[0]] + xs[1..];
    }
  }

  /** What Without keeps of the first element, followed by the rest filtered. */
  lemma WithoutCons(xs: seq<string>, x: string)
    requires xs != []
    ensures Without(xs, x) == (if xs[0] == x then [] else [xs[0]]) + Without(xs[1..], x)
  {
  }

  /**
   * Without keeps the order of what it keeps: an element other than x at
   * index i lands right after what is kept of the elements before it.
   */
  lemma {:induction false} WithoutKeepsOrder(xs: seq<string>, x: string, i: nat)
    requires i < |xs| && xs[i] != x
    ensures var k := |Without(xs[..i], x)|;
            k < |Without(xs, x)| && Without(xs, x)[k] == xs[i]
  {
    var kept := if xs[0] == x then [] else [xs[0]];
    var r := Without(xs[1..], x);
    assert Without(xs, x) == kept + r by { WithoutCons(xs, x); }
    if i == 0 {
      assert Without(xs[..i], x) == [] by { assert xs[..i] == []; }
      assert kept == [xs[i]];
    } else {
      var k' := |Without(xs[1..][..i - 1], x)|;
      assert k' < |r| && r[k'] == xs[i] by { WithoutKeepsOrder(xs[1..], x, i - 1); }
      assert |Without(xs[..i], x)| == |kept| + k' by {
        var before := xs[..i];
        assert before[1..] == xs[1..][..i - 1];
        WithoutCons(before, x);
      }
      IndexAfter(kept, r, k');
    }
  }

  lemma IndexAfter(kept: seq<string>, r: seq<string>, k: nat)
    requires k < |r|
    ensures |kept| + k < |kept + r| && (kept + r)[|kept| + k] == r[k]
  {
  }

  /** MultiSelect's toggleOption: a selected value is removed everywhere, another one appended. */
  function ToggleOption(value: seq<string>, x: string): (r: seq<string>)
    ensures x in value ==> r == Without(value, x) && x !in r && multiset(r) == multiset(value)[x := 0]
    ensures x !in value ==> r == value + [x]
    ensures forall y :: y != x ==> (y in r <==> y in value)
  {
    if x in value then WithoutCount(value, x); Without(value, x) else value + [x]
  }

  predicate NoDuplicates(xs: seq<string>)
  {
    forall i, j :: 0 <= i < j < |xs| ==> xs[i] != xs[j]
  }

  lemma {:induction false} WithoutAbsent(xs: seq<string>, x: string)
    requires x !in xs
    ensures Without(xs, x) == xs
  {
    if xs != [] {
      WithoutAbsent(xs[1..], x);
      assert xs == [xs[0]] + xs[1..];
    }
  }

  lemma {:induction false} NoDuplicatesCount(xs: seq<string>, x: string)
    requires NoDuplicates(xs)
    ensures multiset(xs)[x] <= 1
  {
    if xs != [] {
      assert NoDuplicates(xs[1..]);
      NoDuplicatesCount(xs[1..], x);
      assert xs == [xs[0]] + xs[1..];
      if xs[0] == x {
        assert x !in xs[1..];
      }
    }
  }

  /**
   * Toggling the same value twice selects the same values again: exactly the
   * same list when it was not selected, and on a duplicate-free list the same
   * values, each once, when it was.
   */
  lemma {:induction false} ToggleTwice(value: seq<string>, x: string)
    ensures x !in value ==> ToggleOption(ToggleOption(value, x), x) == value
    ensures forall y :: y in ToggleOption(ToggleOption(value, x), x) <==> y in value
    ensures NoDuplicates(value) ==> multiset(ToggleOption(ToggleOption(value, x), x)) == multiset(value)
  {
    var once := ToggleOption(value, x);
    if x !in value {
      assert x in once;
      WithoutAbsent(value, x);
      assert Without(value + [x], x) == Without(value, x) by { WithoutAppend(value, x); }
    } else {
      assert x !in once;
      if NoDuplicates(value) {
        NoDuplicatesCount(value, x);
        assert multiset(value)[x] == 1;
        assert multiset(once + [x]) == multiset(once) + multiset{x};
      }
    }
  }

  lemma {:induction false} WithoutAppend(xs: seq<string>, x: string)
    ensures Without(xs + [x], x) == Without(xs, x)
  {
    var ys := xs + [x];
    if xs == [] {
      assert ys[0] == x && ys[1..] == [];
    } else {
      WithoutAppend(xs[1..], x);
      assert ys[0] == xs[0] && ys[1..] == xs[1..] + [x];
    }
  }

  /** The labels of the selected options, in the order of the options. */
  function SelectedLabels(options: seq<SelectOption>, value: seq<string>): (labels: seq<string>)
    ensures |labels| <= |options|
    ensures labels == [] <==> forall i :: 0 <= i < |options| ==> options[i].value !in value
  {
    if options == [] then []
    else if options[0].value in value then [options[0].labelText] + SelectedLabels(options[1..], value)
    else
      assert forall i :: 1 <= i < |options| ==> options[i] == options[1..][i - 1];
      SelectedLabels(options[1..], value)
  }

  /** One option: its label when its value is selected, nothing otherwise. */
  lemma SelectedLabelsSingle(option: SelectOption, value: seq<string>)
    ensures SelectedLabels([option], value) == if option.value in value then [option.labelText] else []
  {
    assert [option][1..] == [];
  }

  /** The labels of two lists of options one after the other are the labels of each, one after the other. */
  lemma {:induction false} SelectedLabelsAppend(a: seq<SelectOption>, b: seq<SelectOption>, value: seq<string>)
    ensures SelectedLabels(a + b, value) == SelectedLabels(a, value) + SelectedLabels(b, value)
  {
    if a == [] {
      assert a + b == b;
    } else {
      assert (a + b)[0] == a[0] && (a + b)[1..] == a[1..] + b;
      SelectedLabelsAppend(a[1..], b, value);
    }
  }

  /** Only which values are selected matters, not the order in which they were picked. */
  lemma {:induction false} SelectedLabelsFollowOptions(options: seq<SelectOption>, a: seq<string>, b: seq<string>)
    requires forall v :: v in a <==> v in b
    ensures SelectedLabels(options, a) == SelectedLabels(options, b)
  {
    if options != [] {
      SelectedLabelsFollowOptions(options[1..], a, b);
    }
  }

  /** The placeholder shows exactly when no option is selected. */
  predicate ShowsPlaceholder(options: seq<SelectOption>, value: seq<string>)
    ensures ShowsPlaceholder(options, value) <==> forall o :: o in options ==> o.value !in value
  {
    SelectedLabels(options, value) == []
  }

  /** The error line renders for a non-empty `error` only. */
  predicate ShowsError(error: Option<string>)
  {
    error.Some? && error.value != ""
  }

  /** The leading run of white space of `s` removed. */
  function DropSpaces(s: string): (r: string)
    ensures |r| <= |s| && r == s[|s| - |r|..]
    ensures r != [] ==> !IsSpace(r[0])
  {
    if s != [] && IsSpace(s[0]) then DropSpaces(s[1..]) else s
  }

  /** `replace(/\s+/g, '-')`: each run of white space becomes a single '-'. */
  function DashSpaceRuns(s: string): (r: string)
    ensures forall i :: 0 <= i < |r| ==> !IsSpace(r[i])
    ensures |r| <= |s|
    ensures (forall i :: 0 <= i < |s| ==> !IsSpace(s[i])) ==> r == s
    ensures (forall i :: 0 <= i < |s| ==> !IsUpperAscii(s[i])) ==> forall i :: 0 <= i < |r| ==> !IsUpperAscii(r[i])
    decreases |s|
  {
    if s == [] then []
    else if IsSpace(s[0]) then "-" + DashSpaceRuns(DropSpaces(s[1..]))
    else
      assert forall i :: 1 <= i < |s| ==> s[1..][i - 1] == s[i];
      [s[0]] + DashSpaceRuns(s[1..])
  }

  predicate NoSpace(s: string) {
    forall i :: 0 <= i < |s| ==> !IsSpace(s[i])
  }

  predicate AllSpace(s: string) {
    forall i :: 0 <= i < |s| ==> IsSpace(s[i])
  }

  /** A run of white space is dropped up to the first character that is not one. */
  lemma {:induction false} DropSpacesRun(sp: string, rest: string)
    requires AllSpace(sp) && (rest == [] || !IsSpace(rest[0]))
    ensures DropSpaces(sp + rest) == rest
    decreases |sp|
  {
    if sp != [] {
      assert (sp + rest)[1..] == sp[1..] + rest;
      DropSpacesRun(sp[1..], rest);
    } else {
      assert sp + rest == rest;
    }
  }

  /**
   * A word, then a non-empty run of white space, then the rest: the word is
   * kept, the whole run becomes one '-', and the rest is handled alike.
   */
  lemma {:induction false} DashSpaceRunsWord(w: string, sp: string, rest: string)
    requires NoSpace(w) && sp != [] && AllSpace(sp) && (rest == [] || !IsSpace(rest[0]))
    ensures DashSpaceRuns(w + (sp + rest)) == w + ("-" + DashSpaceRuns(rest))
    decreases |w|
  {
    var after := sp + rest;
    if w == [] {
      DashSpaceRunsRun(sp, rest);
      EmptyPrefix(w, sp + rest);
      EmptyPrefix(w, "-" + DashSpaceRuns(rest));
    } else {
      ConsSplit(w, after);
      ConsSplit(w, "-" + DashSpaceRuns(rest));
      DashSpaceRunsCons(w[0], w[1..] + after);
      DashSpaceRunsWord(w[1..], sp, rest);
    }
  }

  /** A character that is not white space is kept, and the rest is handled alike. */
  lemma DashSpaceRunsCons(c: char, t: string)
    requires !IsSpace(c)
    ensures DashSpaceRuns([c] + t) == [c] + DashSpaceRuns(t)
  {
    assert ([c] + t)[1..] == t;
  }

  lemma ConsSplit(w: string, x: string)
    requires w != []
    ensures w + x == [w[0]] + (w[1..] + x)
  {
    assert w == [w[0]] + w[1..];
  }

  lemma EmptyPrefix(w: string, x: string)
    requires w == []
    ensures w + x == x
  {
  }

  /** A non-empty run of white space, then the rest: the run becomes one '-'. */
  lemma DashSpaceRunsRun(sp: string, rest: string)
    requires sp != [] && AllSpace(sp) && (rest == [] || !IsSpace(rest[0]))
    ensures DashSpaceRuns(sp + rest) == "-" + DashSpaceRuns(rest)
  {
    var s := sp + rest;
    assert IsSpace(s[0]);
    assert s[1..] == sp[1..] + rest;
    DropSpacesRun(sp[1..], rest);
  }

  /** A label with no white space is left as it is; one made only of white space becomes a single '-'. */
  lemma DashSpaceRunsOfRuns(s: string)
    ensures NoSpace(s) ==> DashSpaceRuns(s) == s
    ensures s != [] && AllSpace(s) ==> DashSpaceRuns(s) == "-"
  {
    if s != [] && AllSpace(s) {
      DashSpaceRunsRun(s, []);
      assert s + [] == s;
    }
  }

  /**
   * The select's id: a non-empty `id` as given, otherwise the lowercased
   * label with each run of white space turned into '-', or none without a label.
   */
  function SelectId(id: Option<string>, labelText: Option<string>): (r: Option<string>)
    ensures id.Some? && id.value != "" ==> r == id
    ensures (id.None? || id.value == "") ==> (r.Some? <==> labelText.Some?)
    ensures (id.None? || id.value == "") && labelText.Some? ==>
              && (forall i :: 0 <= i < |r.value| ==> !IsSpace(r.value[i]) && !IsUpperAscii(r.value[i]))
              && |r.value| <= |labelText.value|
              && r.value == DashSpaceRuns(Lower(labelText.value))
  {
    if id.Some? && id.value != "" then id
    else match labelText
      case None => None
      case Some(l) => Some(DashSpaceRuns(Lower(l)))
  }
}
