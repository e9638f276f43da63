/** Free-text identifier parsing: `getCommaSeparatedValues` cuts the search box's
    text at every comma and keeps the pieces whose trim is not empty. The pieces
    that are kept are not trimmed themselves. */
module Input {
  import opened Wrappers

  /** The characters `String.prototype.trim` removes: ECMAScript's WhiteSpace
      (tab, vertical tab, form feed, space, no-break space, zero-width no-break
      space and every other Unicode space separator) and LineTerminator. */
  predicate IsWhitespace(c: char) {
    || c == '\t' || c == '\U{000B}' || c == '\U{000C}' || c == ' ' || c == '\U{00A0}'
    || c == '\U{FEFF}' || c == '\U{1680}' || ('\U{2000}' <= c <= '\U{200A}')
    || c == '\U{202F}' || c == '\U{205F}' || c == '\U{3000}'
    || c == '\n' || c == '\r' || c == '\U{2028}' || c == '\U{2029}'
  }

  /** Every character of `s` is whitespace (the empty string included). */
  predicate IsBlank(s: string) {
    forall i :: 0 <= i < |s| ==> IsWhitespace(s[i])
  }

  /** `s` with its leading whitespace removed: what is left does not start with whitespace. */
  function TrimStart(s: string): (r: string)
    ensures r == [] || !IsWhitespace(r[0])
  {
    if |s| > 0 && IsWhitespace(s[0]) then TrimStart(s[1..]) else s
  }

  /** `s` with its trailing whitespace removed: what is left does not end with whitespace. */
  function TrimEnd(s: string): (r: string)
    ensures r == [] || !IsWhitespace(r[|r| - 1])
  {
    if |s| > 0 && IsWhitespace(s[|s| - 1]) then TrimEnd(s[..|s| - 1]) else s
  }

  /** `s.trim()`. */
  function Trim(s: string): string {
    TrimEnd(TrimStart(s))
  }

  /** Stripping leading whitespace empties exactly the blank strings. */
  lemma {:induction false} TrimStartEmptyIffBlank(s: string)
    ensures TrimStart(s) == "" <==> IsBlank(s)
  {
    if |s| > 0 {
      TrimStartEmptyIffBlank(s[1..]);
      assert forall i :: 1 <= i < |s| ==> s[i] == s[1..][i - 1];
    }
  }

  /** Stripping trailing whitespace empties exactly the blank strings. */
  lemma {:induction false} TrimEndEmptyIffBlank(s: string)
    ensures TrimEnd(s) == "" <==> IsBlank(s)
  {
    if |s| > 0 {
      TrimEndEmptyIffBlank(s[..|s| - 1]);
      assert forall i :: 0 <= i < |s| - 1 ==> s[i] == s[..|s| - 1][i];
    }
  }

  /** A trim is empty exactly when the string is all whitespace. */
  lemma TrimEmptyIffBlank(s: string)
    ensures Trim(s) == "" <==> IsBlank(s)
  {
    var t := TrimStart(s);
    TrimStartEmptyIffBlank(s);
    TrimEndEmptyIffBlank(t);
    if t != "" {
      assert !IsWhitespace(t[0]);
    }
  }

  /** `s.split(",")`: the text between consecutive commas, always at least one piece. */
  function Split(s: string): (r: seq<string>)
    ensures |r| >= 1
    ensures forall i :: 0 <= i < |r| ==> ',' !in r[i]
  {
    if |s| == 0 then [""]
    else
      var rest := Split(s[1..]);
      if s[0] == ',' then [""] + rest
      else [[s[0]] + rest[0]] + rest[1..]
  }

  /** `ps.join(",")`, the inverse of `Split`. */
  function Join(ps: seq<string>): string {
    if |ps| == 0 then ""
    else if |ps| == 1 then ps[0]
    else ps[0] + "," + Join(ps[1..])
  }

  /** Splitting loses nothing: joining the pieces with commas gives the text back,
      so every piece is a verbatim slice of the input, surrounding spaces included. */
  lemma {:induction false} JoinSplit(s: string)
    ensures Join(Split(s)) == s
  {
    if |s| > 0 {
      var rest := Split(s[1..]);
      JoinSplit(s[1..]);
      if s[0] == ',' {
        assert Split(s) == [""] + rest;
        assert Join(Split(s)) == "" + "," + Join(rest);
        assert s == [s[0]] + s[1..];
      } else if |rest| == 1 {
        assert Split(s) == [[s[0]] + rest[0]];
        assert s == [s[0]] + s[1..];
      } else {
        assert Split(s) == [[s[0]] + rest[0]] + rest[1..];
        assert Join(Split(s)) == [s[0]] + rest[0] + "," + Join(rest[1..]);
        assert Join(rest) == rest[0] + "," + Join(rest[1..]);
        assert s == [s[0]] + s[1..];
      }
    }
  }

  /** A comma-free prefix joins the first piece of what follows it. */
  lemma {:induction false} SplitPrefix(p: string, t: string)
    requires ',' !in p
    ensures Split(p + t) == [p + Split(t)[0]] + Split(t)[1..]
  {
    if |p| > 0 {
      assert (p + t)[0] == p[0];
      assert (p + t)[1..] == p[1..] + t;
      SplitPrefix(p[1..], t);
      assert [p[0]] + (p[1..] + Split(t)[0]) == p + Split(t)[0];
    } else {
      assert p + t == t;
      assert p + Split(t)[0] == Split(t)[0];
      assert Split(t) == [Split(t)[0]] + Split(t)[1..];
    }
  }

  /** Splitting comma-free pieces joined by commas gives back the pieces. */
  lemma {:induction false} SplitJoin(ps: seq<string>)
    requires |ps| >= 1
    requires forall i :: 0 <= i < |ps| ==> ',' !in ps[i]
    ensures Split(Join(ps)) == ps
  {
    if |ps| == 1 {
      SplitPrefix(ps[0], "");
      assert ps[0] + "" == ps[0];
      assert Split("") == [""];
      assert Join(ps) == ps[0];
    } else {
      SplitJoin(ps[1..]);
      var u := Join(ps[1..]);
      assert Join(ps) == ps[0] + ("," + u);
      SplitPrefix(ps[0], "," + u);
      assert ("," + u)[0] == ',';
      assert ("," + u)[1..] == u;
      assert Split("," + u) == [""] + Split(u);
      assert ps[0] + "" == ps[0];
      assert ps == [ps[0]] + ps[1..];
    }
  }

  /** `xs.filter(keep)`: the elements `keep` accepts, in their order. */
  function Filter<T>(xs: seq<T>, keep: T -> bool): (r: seq<T>)
    ensures |r| <= |xs|
  {
    if |xs| == 0 then []
    else (if keep(xs[0]) then [xs[0]] else []) + Filter(xs[1..], keep)
  }

  /** The filter a concatenation piecewise. With the one-element case this pins
      the result down: the accepted elements, in their order, each as it was. */
  lemma {:induction false} FilterAppend<T>(xs: seq<T>, ys: seq<T>, keep: T -> bool)
    ensures Filter(xs + ys, keep) == Filter(xs, keep) + Filter(ys, keep)
  {
    if |xs| > 0 {
      assert (xs + ys)[0] == xs[0];
      assert (xs + ys)[1..] == xs[1..] + ys;
      FilterAppend(xs[1..], ys, keep);
    } else {
      assert xs + ys == ys;
    }
  }

  /** An element survives the filter exactly when it occurs in the input and is accepted. */
  lemma {:induction false} FilterMembers<T>(xs: seq<T>, keep: T -> bool, x: T)
    ensures x in Filter(xs, keep) <==> x in xs && keep(x)
  {
    if |xs| > 0 {
      FilterMembers(xs[1..], keep, x);
      assert xs == [xs[0]] + xs[1..];
    }
  }

  /** The test `val.trim() !== ""` the parser filters with. */
  predicate HasContent(p: string) {
    Trim(p) != ""
  }

  /** `ps.filter(val => val.trim() !== "")`. */
  function NonBlank(ps: seq<string>): seq<string> {
    Filter(ps, HasContent)
  }

  /** The filter keeps a single piece exactly when it is not blank. */
  lemma NonBlankSingle(p: string)
    ensures NonBlank([p]) == if IsBlank(p) then [] else [p]
  {
    TrimEmptyIffBlank(p);
    assert [p][1..] == [];
  }

  /** A piece is kept exactly when it occurs among the pieces and is not blank. */
  lemma NonBlankMembers(ps: seq<string>, p: string)
    ensures p in NonBlank(ps) <==> p in ps && !IsBlank(p)
  {
    TrimEmptyIffBlank(p);
    FilterMembers(ps, HasContent, p);
  }

  /** `getCommaSeparatedValues(stringValues)`: `undefined` (`None`) for a missing or
      empty text, otherwise the comma-separated pieces that are not blank. */
  function CommaSeparatedValues(text: Option<string>): (r: Option<seq<string>>)
    ensures r.None? <==> text.None? || text.value == ""
    ensures r.Some? ==> r.value == NonBlank(Split(text.value))
    ensures r.Some? ==> forall i :: 0 <= i < |r.value| ==>
      ',' !in r.value[i] && !IsBlank(r.value[i]) && r.value[i] in Split(text.value)
  {
    if text.Some? && text.value != "" then
      var ps := Split(text.value);
      var r := NonBlank(ps);
      assert forall i :: 0 <= i < |r| ==> r[i] in ps && !IsBlank(r[i]) by {
        forall i | 0 <= i < |r| ensures r[i] in ps && !IsBlank(r[i]) {
          NonBlankMembers(ps, r[i]);
        }
      }
      Some(r)
    else None
  }

  /** The pieces of the example text "1, , 4,". */
  lemma {:induction false} ExampleSplit(text: string)
    requires text == "1, , 4,"
    ensures Split(text) == ["1", " ", " 4", ""]
  {
    var pieces := ["1", " ", " 4", ""];
    assert Join(pieces) == text by {
      assert Join(pieces[3..]) == "";
      assert Join(pieces[2..]) == " 4" + "," + "";
      assert Join(pieces[1..]) == " " + "," + " 4,";
      assert Join(pieces) == "1" + "," + " , 4,";
    }
    SplitJoin(pieces);
  }

  /** Four elements of which the filter accepts the first and the third. */
  lemma FilterFirstAndThird<T>(a: T, b: T, c: T, d: T, keep: T -> bool)
    requires keep(a) && !keep(b) && keep(c) && !keep(d)
    ensures Filter([a, b, c, d], keep) == [a, c]
  {
    assert [a, b, c, d][1..] == [b, c, d];
    assert [b, c, d][1..] == [c, d];
    assert [c, d][1..] == [d];
    assert [d][1..] == [];
    assert Filter([d], keep) == [];
    assert Filter([c, d], keep) == [c];
    assert Filter([b, c, d], keep) == [c];
  }

  /** A piece with a non-whitespace character passes the filter's test. */
  lemma HasContentAt(p: string, i: nat)
    requires i < |p| && !IsWhitespace(p[i])
    ensures HasContent(p)
  {
    TrimEmptyIffBlank(p);
  }

  /** A blank piece fails the filter's test. */
  lemma BlankHasNoContent(p: string)
    requires IsBlank(p)
    ensures !HasContent(p)
  {
    TrimEmptyIffBlank(p);
  }

  /** The two blank pieces of the example are dropped. */
  lemma ExampleFilter(pieces: seq<string>)
    requires pieces == ["1", " ", " 4", ""]
    ensures NonBlank(pieces) == ["1", " 4"]
  {
    HasContentAt("1", 0);
    BlankHasNoContent(" ");
    HasContentAt(" 4", 1);
    BlankHasNoContent("");
    FilterFirstAndThird("1", " ", " 4", "", HasContent);
  }

  /** The blank pieces of "1, , 4," are dropped and the kept piece " 4" keeps its space. */
  lemma CommaSeparatedExample(text: string)
    requires text == "1, , 4,"
    ensures CommaSeparatedValues(Some(text)) == Some(["1", " 4"])
  {
    ExampleSplit(text);
    ExampleFilter(Split(text));
  }
}
