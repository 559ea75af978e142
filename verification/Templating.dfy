/**
Keyword replacement in helm values. The program runs one textual replacement pass per keyword over the escaped JSON; the
documentation promises one simultaneous substitution. This module says when the two agree.
 */
module Templating {
  // ---------------------------------------------------------------- the passes

  /** Go's strings.ReplaceAll: non-overlapping occurrences, found from left to right. */
  function ReplaceAll(s: string, pattern: string, value: string): string
    requires |pattern| > 0
  {
    if |s| < |pattern| then s
    else if s[..|pattern|] == pattern then value + ReplaceAll(s[|pattern|..], pattern, value)
    else [s[0]] + ReplaceAll(s[1..], pattern, value)
  }

  const OPEN := "\\u003c"
  const CLOSE := "\\u003e"

  function Placeholder(name: string): string { OPEN + name + CLOSE }

  /** A keyword and what it stands for. */
  datatype Binding = Binding(name: string, value: string)

  /** The replacement passes, one after the other. */
  function Sequential(s: string, bindings: seq<Binding>): string
    decreases |bindings|
  {
    if bindings == [] then s
    else Sequential(ReplaceAll(s, Placeholder(bindings[0].name), bindings[0].value), bindings[1..])
  }

  lemma FivePasses(s: string, b: seq<Binding>)
    requires |b| == 5
    ensures Sequential(s, b) ==
              var s1 := ReplaceAll(s, Placeholder(b[0].name), b[0].value);
              var s2 := ReplaceAll(s1, Placeholder(b[1].name), b[1].value);
              var s3 := ReplaceAll(s2, Placeholder(b[2].name), b[2].value);
              var s4 := ReplaceAll(s3, Placeholder(b[3].name), b[3].value);
              ReplaceAll(s4, Placeholder(b[4].name), b[4].value)
  {
    var s1 := ReplaceAll(s, Placeholder(b[0].name), b[0].value);
    var s2 := ReplaceAll(s1, Placeholder(b[1].name), b[1].value);
    var s3 := ReplaceAll(s2, Placeholder(b[2].name), b[2].value);
    var s4 := ReplaceAll(s3, Placeholder(b[3].name), b[3].value);
    var s5 := ReplaceAll(s4, Placeholder(b[4].name), b[4].value);
    assert Sequential(s, b) == Sequential(s1, b[1..]);
    assert b[1..][1..] == b[2..] && b[2..][1..] == b[3..] && b[3..][1..] == b[4..] && b[4..][1..] == b[5..] == [];
    assert Sequential(s1, b[1..]) == Sequential(s2, b[2..]);
    assert Sequential(s2, b[2..]) == Sequential(s3, b[3..]);
    assert Sequential(s3, b[3..]) == Sequential(s4, b[4..]);
    assert Sequential(s4, b[4..]) == Sequential(s5, b[5..]) == s5;
  }

  // ---------------------------------------------------------------- the reference

  /** What a name stands for; a name that is not bound stands for its own placeholder. */
  function ValueOf(bindings: seq<Binding>, name: string): string {
    if bindings == [] then Placeholder(name)
    else if bindings[0].name == name then bindings[0].value
    else ValueOf(bindings[1..], name)
  }

  predicate Heads(s: string, name: string) { Placeholder(name) <= s }

  predicate AtHead(s: string, names: set<string>) { exists n :: n in names && Heads(s, n) }

  ghost function HeadOf(s: string, names: set<string>): (n: string)
    requires AtHead(s, names)
    ensures n in names && Heads(s, n)
  {
    var n :| n in names && Heads(s, n);
    n
  }

  /** One pass over the text that replaces every placeholder by its value and never looks at a value again. */
  ghost function Simultaneous(s: string, names: set<string>, bindings: seq<Binding>): string {
    if s == "" then ""
    else if AtHead(s, names) then
      var n := HeadOf(s, names);
      ValueOf(bindings, n) + Simultaneous(s[|Placeholder(n)|..], names, bindings)
    else [s[0]] + Simultaneous(s[1..], names, bindings)
  }

  // ---------------------------------------------------------------- templates

  /** A text cut into characters and placeholders. */
  datatype Template = End | Ch(c: char, rest: Template) | Hole(name: string, rest: Template)

  /** The template of a text, with placeholders recognised from left to right. */
  ghost function Parse(s: string, names: set<string>): Template {
    if s == "" then End
    else if AtHead(s, names) then
      var n := HeadOf(s, names);
      Hole(n, Parse(s[|Placeholder(n)|..], names))
    else Ch(s[0], Parse(s[1..], names))
  }

  function Str(t: Template): string {
    match t
    case End => ""
    case Ch(c, rest) => [c] + Str(rest)
    case Hole(n, rest) => Placeholder(n) + Str(rest)
  }

  function Fill(t: Template, bindings: seq<Binding>): string {
    match t
    case End => ""
    case Ch(c, rest) => [c] + Fill(rest, bindings)
    case Hole(n, rest) => ValueOf(bindings, n) + Fill(rest, bindings)
  }

  function Prepend(s: string, t: Template): Template { if s == "" then t else Ch(s[0], Prepend(s[1..], t)) }

  /** The effect of one pass on the template. */
  function Put(t: Template, name: string, value: string): Template {
    match t
    case End => End
    case Ch(c, rest) => Ch(c, Put(rest, name, value))
    case Hole(n, rest) => if n == name then Prepend(value, Put(rest, name, value)) else Hole(n, Put(rest, name, value))
  }

  /** The characters up to the next placeholder. */
  function Lead(t: Template): string { if t.Ch? then [t.c] + Lead(t.rest) else "" }

  function Holes(t: Template): set<string> {
    match t
    case End => {}
    case Ch(_, rest) => Holes(rest)
    case Hole(n, rest) => {n} + Holes(rest)
  }

  predicate Plain(s: string) { '\\' !in s }

  predicate AllPlain(names: set<string>) { forall n :: n in names ==> Plain(n) }

  /** The text in front of a placeholder does not end in the beginning of a placeholder. */
  predicate HazardFree(t: Template, names: set<string>) {
    match t
    case End => true
    case Hole(_, rest) => HazardFree(rest, names)
    case Ch(_, rest) =>
      HazardFree(rest, names) && (Holes(t) != {} ==> forall n :: n in names ==> !(Lead(t) <= Placeholder(n)))
  }

  /** No placeholder starts here, whatever the placeholders further on are replaced by. */
  predicate SafeAt(t: Template, names: set<string>) {
    forall n :: n in names ==> !Heads(Lead(t), n) && (Lead(t) <= Placeholder(n) ==> Holes(t) == {})
  }

  predicate Safe(t: Template, names: set<string>) {
    match t
    case End => true
    case Hole(_, rest) => Safe(rest, names)
    case Ch(_, rest) => SafeAt(t, names) && Safe(rest, names)
  }

  lemma {:induction false} ParsesBack(s: string, names: set<string>)
    ensures Str(Parse(s, names)) == s && Holes(Parse(s, names)) <= names
  {
    if s == "" {
    } else if AtHead(s, names) {
      ParsesBack(s[|Placeholder(HeadOf(s, names))|..], names);
    } else {
      ParsesBack(s[1..], names);
    }
  }

  lemma {:induction false} ParseFills(s: string, names: set<string>, bindings: seq<Binding>)
    ensures Fill(Parse(s, names), bindings) == Simultaneous(s, names, bindings)
  {
    if s == "" {
    } else if AtHead(s, names) {
      ParseFills(s[|Placeholder(HeadOf(s, names))|..], names, bindings);
    } else {
      ParseFills(s[1..], names, bindings);
    }
  }

  lemma ParseTells(s: string, names: set<string>, bindings: seq<Binding>)
    ensures Str(Parse(s, names)) == s
    ensures Fill(Parse(s, names), bindings) == Simultaneous(s, names, bindings)
    ensures Holes(Parse(s, names)) <= names
  {
    ParsesBack(s, names);
    ParseFills(s, names, bindings);
  }

  // ---------------------------------------------------------------- one pass

  lemma ReplaceSteps(s: string, pattern: string, value: string)
    requires |pattern| > 0 && s != "" && !(pattern <= s)
    ensures ReplaceAll(s, pattern, value) == [s[0]] + ReplaceAll(s[1..], pattern, value)
  {
  }

  lemma {:induction false} ReplaceSkips(skipped: string, rest: string, pattern: string, value: string)
    requires |pattern| > 0
    requires forall o :: 0 <= o < |skipped| ==> !(pattern <= skipped[o..] + rest)
    ensures ReplaceAll(skipped + rest, pattern, value) == skipped + ReplaceAll(rest, pattern, value)
  {
    if skipped == "" {
      assert skipped + rest == rest;
    } else {
      var tail := skipped[1..];
      assert skipped[0..] + rest == skipped + rest;
      ReplaceSteps(skipped + rest, pattern, value);
      assert (skipped + rest)[1..] == tail + rest;
      forall o | 0 <= o < |tail| ensures !(pattern <= tail[o..] + rest) {
        assert tail[o..] == skipped[o + 1..];
      }
      ReplaceSkips(tail, rest, pattern, value);
      assert skipped == [skipped[0]] + tail;
    }
  }

  lemma PlaceholderShape(n: string)
    ensures var p := Placeholder(n);
            && |p| == |n| + 12 && p[..6] == OPEN && p[6..|n| + 6] == n && p[|n| + 6..] == CLOSE
            && p[0] == '\\' && p[5] == 'c' && p[|n| + 6] == '\\' && p[|n| + 11] == 'e'
            && (forall k :: 0 < k < |p| && k != |n| + 6 && Plain(n) ==> p[k] != '\\')
  {
  }

  /** A placeholder contains the beginning of no other one. */
  lemma NoOverlap(n: string, m: string, rest: string, o: nat)
    requires Plain(n) && Plain(m) && o < |Placeholder(m)| && (n != m || o > 0)
    ensures !(Placeholder(n) <= Placeholder(m)[o..] + rest)
  {
    var p, q := Placeholder(n), Placeholder(m);
    PlaceholderShape(n);
    PlaceholderShape(m);
    var s := q[o..] + rest;
    if |p| <= |s| {
      assert forall k :: 0 <= k < |q| - o ==> s[k] == q[o + k];
      var mismatch :=
        if o > 0 then (if o == |m| + 6 then 5 else 0)
        else if |n| != |m| then (if |n| < |m| then |n| else |m|) + 6
        else DifferAt(n, m) + 6;
      assert p[mismatch] != s[mismatch];
    }
  }

  function DifferAt(n: string, m: string): (k: nat)
    requires |n| == |m| && n != m
    ensures k < |n| && n[k] != m[k]
  {
    if n[0] != m[0] then 0 else
      assert n == [n[0]] + n[1..] && m == [m[0]] + m[1..];
      1 + DifferAt(n[1..], m[1..])
  }

  lemma {:induction false} StrStartsWithLead(t: Template)
    ensures Lead(t) <= Str(t)
    ensures Holes(t) == {} ==> Lead(t) == Str(t)
  {
    if t.Ch? { StrStartsWithLead(t.rest); }
  }

  lemma NothingStartsHere(t: Template, names: set<string>, n: string)
    requires t.Ch? && SafeAt(t, names) && n in names
    ensures !Heads(Str(t), n)
  {
    StrStartsWithLead(t);
  }

  /** One textual pass over a safe template replaces exactly the placeholders of its name. */
  lemma {:induction false} OnePass(t: Template, names: set<string>, n: string, value: string)
    requires Safe(t, names) && Holes(t) <= names && AllPlain(names) && n in names
    ensures ReplaceAll(Str(t), Placeholder(n), value) == Str(Put(t, n, value))
  {
    match t
    case End =>
    case Ch(c, rest) =>
      OnePass(rest, names, n, value);
      NothingStartsHere(t, names, n);
      ReplaceSteps(Str(t), Placeholder(n), value);
      assert Str(t)[1..] == Str(rest);
    case Hole(m, rest) =>
      OnePass(rest, names, n, value);
      if m == n {
        assert Str(t)[..|Placeholder(n)|] == Placeholder(n) && Str(t)[|Placeholder(n)|..] == Str(rest);
        StrPrepend(value, Put(rest, n, value));
      } else {
        forall o | 0 <= o < |Placeholder(m)| ensures !(Placeholder(n) <= Placeholder(m)[o..] + Str(rest)) {
          NoOverlap(n, m, Str(rest), o);
        }
        ReplaceSkips(Placeholder(m), Str(rest), Placeholder(n), value);
      }
  }

  lemma FirstAndRest(s: string, tail: string)
    requires s != ""
    ensures [s[0]] + (s[1..] + tail) == s + tail
  {
  }

  lemma {:induction false} StrPrepend(s: string, t: Template)
    ensures Str(Prepend(s, t)) == s + Str(t)
  {
    if s == "" {
    } else {
      var rest := s[1..];
      StrPrepend(rest, t);
      FirstAndRest(s, Str(t));
      assert Prepend(s, t) == Ch(s[0], Prepend(rest, t));
      assert Str(Prepend(s, t)) == [s[0]] + Str(Prepend(rest, t));
    }
  }

  lemma {:induction false} FillPrepend(s: string, t: Template, bindings: seq<Binding>)
    ensures Fill(Prepend(s, t), bindings) == s + Fill(t, bindings)
  {
    if s == "" {
    } else {
      var rest := s[1..];
      FillPrepend(rest, t, bindings);
      FirstAndRest(s, Fill(t, bindings));
      assert Prepend(s, t) == Ch(s[0], Prepend(rest, t));
      assert Fill(Prepend(s, t), bindings) == [s[0]] + Fill(Prepend(rest, t), bindings);
    }
  }

  lemma {:induction false} LeadPrepend(s: string, t: Template)
    ensures Lead(Prepend(s, t)) == s + Lead(t)
    ensures Holes(Prepend(s, t)) == Holes(t)
  {
    if s == "" {
    } else {
      var rest := s[1..];
      LeadPrepend(rest, t);
      FirstAndRest(s, Lead(t));
      assert Prepend(s, t) == Ch(s[0], Prepend(rest, t));
      assert Lead(Prepend(s, t)) == [s[0]] + Lead(Prepend(rest, t));
    }
  }

  // ---------------------------------------------------------------- a pass keeps the template safe

  lemma {:induction false} PutExtendsLead(t: Template, n: string, value: string)
    ensures Lead(t) <= Lead(Put(t, n, value))
    ensures Holes(Put(t, n, value)) == Holes(t) - {n}
    ensures Holes(t) == {} ==> Put(t, n, value) == t
  {
    match t
    case End =>
    case Ch(_, rest) => PutExtendsLead(rest, n, value);
    case Hole(_, rest) =>
      PutExtendsLead(rest, n, value);
      LeadPrepend(value, Put(rest, n, value));
  }

  lemma PutKeepsSafeAt(t: Template, names: set<string>, n: string, value: string)
    requires t.Ch? && SafeAt(t, names)
    ensures SafeAt(Put(t, n, value), names)
  {
    PutExtendsLead(t, n, value);
  }

  /** Text without backslashes starts no placeholder, whatever follows. */
  lemma {:induction false} PlainIsSafe(s: string, t: Template, names: set<string>)
    requires Plain(s) && Safe(t, names)
    ensures Safe(Prepend(s, t), names)
  {
    if s == "" {
    } else {
      PlainIsSafe(s[1..], t, names);
      LeadPrepend(s, t);
      forall m | m in names ensures !Heads(Lead(Prepend(s, t)), m) && !(Lead(Prepend(s, t)) <= Placeholder(m)) {
        PlaceholderShape(m);
        assert Lead(Prepend(s, t))[0] == s[0];
      }
    }
  }

  lemma {:induction false} PutKeepsSafe(t: Template, names: set<string>, n: string, value: string)
    requires Safe(t, names) && Plain(value)
    ensures Safe(Put(t, n, value), names)
  {
    match t
    case End =>
    case Ch(_, rest) =>
      PutKeepsSafe(rest, names, n, value);
      PutKeepsSafeAt(t, names, n, value);
    case Hole(_, rest) =>
      PutKeepsSafe(rest, names, n, value);
      PlainIsSafe(value, Put(rest, n, value), names);
  }

  lemma {:induction false} FillAfterPut(t: Template, bindings: seq<Binding>)
    requires bindings != []
    ensures Fill(Put(t, bindings[0].name, bindings[0].value), bindings[1..]) == Fill(t, bindings)
  {
    match t
    case End =>
    case Ch(_, rest) => FillAfterPut(rest, bindings);
    case Hole(_, rest) =>
      FillAfterPut(rest, bindings);
      FillPrepend(bindings[0].value, Put(rest, bindings[0].name, bindings[0].value), bindings[1..]);
  }

  lemma FillNothing(t: Template)
    ensures Fill(t, []) == Str(t)
  {
  }

  predicate Covered(bindings: seq<Binding>, names: set<string>) {
    forall b :: b in bindings ==> b.name in names && Plain(b.value)
  }

  function Bound(bindings: seq<Binding>): set<string> {
    if bindings == [] then {} else {bindings[0].name} + Bound(bindings[1..])
  }

  lemma BoundOfFive(b: seq<Binding>)
    requires |b| == 5
    ensures Bound(b) == {b[0].name, b[1].name, b[2].name, b[3].name, b[4].name}
  {
    assert b[1..][1..] == b[2..] && b[2..][1..] == b[3..] && b[3..][1..] == b[4..] && b[4..][1..] == [];
    assert Bound(b) == {b[0].name} + Bound(b[1..]);
    assert Bound(b[1..]) == {b[1].name} + Bound(b[2..]);
    assert Bound(b[2..]) == {b[2].name} + Bound(b[3..]);
    assert Bound(b[3..]) == {b[3].name} + Bound(b[4..]);
    assert Bound(b[4..]) == {b[4].name};
  }

  /** The passes over a safe template, in whatever order the list has, amount to filling every hole once. */
  lemma {:induction false} PassesFill(t: Template, names: set<string>, bindings: seq<Binding>) returns (u: Template)
    requires Safe(t, names) && Holes(t) <= names && AllPlain(names) && Covered(bindings, names)
    ensures Sequential(Str(t), bindings) == Fill(t, bindings) == Str(u)
    ensures Safe(u, names) && Holes(u) == Holes(t) - Bound(bindings)
    decreases |bindings|
  {
    if bindings == [] {
      FillNothing(t);
      u := t;
    } else {
      var b := bindings[0];
      OnePass(t, names, b.name, b.value);
      PutKeepsSafe(t, names, b.name, b.value);
      PutExtendsLead(t, b.name, b.value);
      u := PassesFill(Put(t, b.name, b.value), names, bindings[1..]);
      FillAfterPut(t, bindings);
    }
  }

  lemma {:induction false} HazardFreeIsSafe(s: string, names: set<string>)
    requires HazardFree(Parse(s, names), names)
    ensures Safe(Parse(s, names), names)
  {
    var t := Parse(s, names);
    ParseTells(s, names, []);
    if s == "" {
    } else if AtHead(s, names) {
      HazardFreeIsSafe(s[|Placeholder(HeadOf(s, names))|..], names);
    } else {
      HazardFreeIsSafe(s[1..], names);
      StrStartsWithLead(t);
      forall n | n in names ensures !Heads(Lead(t), n) {
        assert !Heads(s, n);
      }
    }
  }

  /**
  Main result: on a hazard-free template and with values that contain no backslash, the successive passes are one
  simultaneous substitution.
   */
  lemma SequentialIsSimultaneous(s: string, names: set<string>, bindings: seq<Binding>)
    requires HazardFree(Parse(s, names), names) && AllPlain(names) && Covered(bindings, names)
    ensures Sequential(s, bindings) == Simultaneous(s, names, bindings)
  {
    ParseTells(s, names, bindings);
    HazardFreeIsSafe(s, names);
    var u := PassesFill(Parse(s, names), names, bindings);
  }

  /** Two lists that bind the same names to the same values. */
  predicate SameBindings(a: seq<Binding>, b: seq<Binding>, names: set<string>) {
    forall n :: n in names ==> ValueOf(a, n) == ValueOf(b, n)
  }

  lemma {:induction false} FillAgrees(t: Template, names: set<string>, a: seq<Binding>, b: seq<Binding>)
    requires Holes(t) <= names && SameBindings(a, b, names)
    ensures Fill(t, a) == Fill(t, b)
  {
    if !t.End? { FillAgrees(t.rest, names, a, b); }
  }

  /** The order of the passes does not matter. */
  lemma PassOrder(s: string, names: set<string>, a: seq<Binding>, b: seq<Binding>)
    requires HazardFree(Parse(s, names), names) && AllPlain(names) && Covered(a, names) && Covered(b, names)
    requires SameBindings(a, b, names)
    ensures Sequential(s, a) == Sequential(s, b)
  {
    ParseTells(s, names, a);
    HazardFreeIsSafe(s, names);
    var u := PassesFill(Parse(s, names), names, a);
    var v := PassesFill(Parse(s, names), names, b);
    FillAgrees(Parse(s, names), names, a, b);
  }

  // ---------------------------------------------------------------- nothing is left

  predicate Contains(s: string, n: string) { exists i :: 0 <= i <= |s| && Heads(s[i..], n) }

  lemma {:induction false} SafeTextContainsNothing(t: Template, names: set<string>, n: string, i: nat)
    requires Safe(t, names) && Holes(t) == {} && n in names && i <= |Str(t)|
    ensures !Heads(Str(t)[i..], n)
  {
    if t.End? {
    } else if i == 0 {
      NothingStartsHere(t, names, n);
      assert Str(t)[0..] == Str(t);
    } else {
      SafeTextContainsNothing(t.rest, names, n, i - 1);
      assert Str(t)[i..] == Str(t.rest)[i - 1..];
    }
  }

  /** Once every name has had its pass, no placeholder is left, neither an original nor a new one. */
  lemma NoPlaceholderLeft(s: string, names: set<string>, bindings: seq<Binding>, n: string)
    requires HazardFree(Parse(s, names), names) && AllPlain(names) && Covered(bindings, names)
    requires names == Bound(bindings) && n in names
    ensures !Contains(Sequential(s, bindings), n)
  {
    ParseTells(s, names, bindings);
    HazardFreeIsSafe(s, names);
    var u := PassesFill(Parse(s, names), names, bindings);
    forall i | 0 <= i <= |Str(u)| ensures !Heads(Str(u)[i..], n) {
      SafeTextContainsNothing(u, names, n, i);
    }
  }

  // ---------------------------------------------------------------- what a value depends on

  lemma {:induction false} HolesAreContained(t: Template, n: string)
    requires n in Holes(t)
    ensures Contains(Str(t), n)
  {
    match t
    case Ch(_, rest) =>
      HolesAreContained(rest, n);
      var i :| 0 <= i <= |Str(rest)| && Heads(Str(rest)[i..], n);
      assert Str(t)[i + 1..] == Str(rest)[i..];
    case Hole(m, rest) =>
      if m == n {
        assert Str(t)[0..] == Str(t);
      } else {
        HolesAreContained(rest, n);
        var i :| 0 <= i <= |Str(rest)| && Heads(Str(rest)[i..], n);
        assert Str(t)[i + |Placeholder(m)|..] == Str(rest)[i..];
      }
  }

  /** Only the values of those names matter whose placeholders are in the text. */
  lemma OnlyContainedCount(s: string, names: set<string>, a: seq<Binding>, b: seq<Binding>)
    requires HazardFree(Parse(s, names), names) && AllPlain(names) && Covered(a, names) && Covered(b, names)
    requires forall n :: n in names && Contains(s, n) ==> ValueOf(a, n) == ValueOf(b, n)
    ensures Sequential(s, a) == Sequential(s, b)
  {
    var t := Parse(s, names);
    ParseTells(s, names, a);
    ParseTells(s, names, b);
    SequentialIsSimultaneous(s, names, a);
    SequentialIsSimultaneous(s, names, b);
    forall n | n in Holes(t) ensures ValueOf(a, n) == ValueOf(b, n) { HolesAreContained(t, n); }
    FillAgrees(t, Holes(t), a, b);
  }

  /** A placeholder between texts without backslashes becomes its value, and the texts stay. */
  lemma HoleInText(front: string, n: string, end: string, names: set<string>, b: seq<Binding>)
    requires Plain(front) && Plain(end) && AllPlain(names) && n in names && Covered(b, names)
    ensures Sequential(front + Placeholder(n) + end, b) == front + ValueOf(b, n) + end
  {
    hide Sequential, Placeholder, HazardFree, Parse, Prepend;
    var s, closing := front + Placeholder(n) + end, Prepend(end, End);
    ParseFront(front, n, end, names);
    EndIsHazardFree(names);
    PlainIsHazardFree(end, End, names);
    HoleIsHazardFree(n, closing, names);
    PlainIsHazardFree(front, Hole(n, closing), names);
    SequentialIsSimultaneous(s, names, b);
    ParseFills(s, names, b);
    FillPrepend(front, Hole(n, closing), b);
    FillPrepend(end, End, b);
    Regroup(front, ValueOf(b, n), end);
  }

  lemma Regroup(a: string, b: string, c: string)
    ensures a + (b + (c + "")) == a + b + c
  {
  }

  lemma EndIsHazardFree(names: set<string>)
    ensures HazardFree(End, names)
  {
  }

  lemma HoleIsHazardFree(n: string, rest: Template, names: set<string>)
    requires HazardFree(rest, names)
    ensures HazardFree(Hole(n, rest), names)
  {
  }

  lemma {:induction false} ParsePlain(s: string, names: set<string>)
    requires Plain(s)
    ensures Parse(s, names) == Prepend(s, End)
  {
    if s != "" {
      forall m | m in names ensures !Heads(s, m) { PlaceholderShape(m); }
      ParsePlain(s[1..], names);
    }
  }

  lemma {:induction false} ParseFront(front: string, n: string, end: string, names: set<string>)
    requires Plain(front) && Plain(end) && AllPlain(names) && n in names
    ensures Parse(front + Placeholder(n) + end, names) == Prepend(front, Hole(n, Prepend(end, End)))
  {
    var s := front + Placeholder(n) + end;
    if front == "" {
      assert s == Placeholder(n) + end;
      assert Heads(s, n);
      HeadIsUnique(n, HeadOf(s, names), end);
      assert s[|Placeholder(n)|..] == end;
      ParsePlain(end, names);
    } else {
      assert s[0] == front[0] && s[1..] == front[1..] + Placeholder(n) + end;
      forall m | m in names ensures !Heads(s, m) { PlaceholderShape(m); }
      ParseFront(front[1..], n, end, names);
    }
  }

  lemma {:induction false} PlainIsHazardFree(s: string, t: Template, names: set<string>)
    requires Plain(s) && HazardFree(t, names)
    ensures HazardFree(Prepend(s, t), names)
  {
    if s != "" {
      PlainIsHazardFree(s[1..], t, names);
      forall m | m in names ensures !(Lead(Prepend(s, t)) <= Placeholder(m)) {
        PlaceholderShape(m);
        assert Lead(Prepend(s, t))[0] == s[0];
      }
    }
  }

  lemma HeadIsUnique(n: string, m: string, rest: string)
    requires Plain(n) && Plain(m) && Heads(Placeholder(n) + rest, m)
    ensures m == n
  {
    assert Placeholder(n) == Placeholder(n)[0..];
    if m != n { NoOverlap(m, n, rest, 0); }
  }

  // ---------------------------------------------------------------- when the hypotheses hold, and when they fail

  /** The opening sequence occurs as the head of placeholders only, and no text in front of one ends in a part of it. */
  predicate OnlyHeads(t: Template) {
    match t
    case End => true
    case Hole(_, rest) => OnlyHeads(rest)
    case Ch(_, rest) => OnlyHeads(rest) && !(OPEN <= Lead(t)) && (Holes(t) != {} ==> !(Lead(t) <= OPEN))
  }

  /** A simpler condition that implies the general one. */
  lemma {:induction false} OnlyHeadsIsHazardFree(t: Template, names: set<string>)
    requires OnlyHeads(t)
    ensures HazardFree(t, names)
  {
    if t.Hole? {
      OnlyHeadsIsHazardFree(t.rest, names);
    } else if t.Ch? {
      OnlyHeadsIsHazardFree(t.rest, names);
      forall n | n in names && Holes(t) != {} ensures !(Lead(t) <= Placeholder(n)) {
        PlaceholderShape(n);
      }
    }
  }

  lemma ReplaceWhole(n: string, value: string)
    ensures ReplaceAll(Placeholder(n), Placeholder(n), value) == value
  {
  }

  /** A value with backslashes can itself be a placeholder: a later pass rewrites it. */
  lemma BackslashValueIsRewritten(n: string, m: string, value: string)
    requires Plain(n) && Plain(m) && n != m && value != Placeholder(m)
    ensures var b := [Binding(n, Placeholder(m)), Binding(m, value)];
            && Sequential(Placeholder(n), b) == value
            && Simultaneous(Placeholder(n), {n, m}, b) == Placeholder(m)
  {
    var b := [Binding(n, Placeholder(m)), Binding(m, value)];
    var p := Placeholder(n);
    ReplaceWhole(n, Placeholder(m));
    ReplaceWhole(m, value);
    assert b[1..] == [Binding(m, value)] && b[1..][1..] == [];
    assert Sequential(p, b) == Sequential(Placeholder(m), b[1..]) == Sequential(value, []);
    assert Heads(p, n);
    assert !Heads(p, m) by {
      NoOverlap(m, n, "", 0);
      assert p[0..] + "" == p;
    }
    assert p[|p|..] == "";
  }

  lemma OtherPass(n: string, m: string, value: string)
    requires Plain(n) && Plain(m) && n != m
    ensures ReplaceAll(Placeholder(n), Placeholder(m), value) == Placeholder(n)
  {
    hide Placeholder;
    var p := Placeholder(n);
    PlaceholderShape(m);
    forall o | 0 <= o < |p| ensures !(Placeholder(m) <= p[o..] + "") { NoOverlap(m, n, "", o); }
    ReplaceSkips(p, "", Placeholder(m), value);
    assert p + "" == p;
  }

  lemma PlainPass(s: string, m: string, value: string)
    requires Plain(s)
    ensures ReplaceAll(s, Placeholder(m), value) == s
  {
    hide Placeholder;
    PlaceholderShape(m);
    forall o | 0 <= o < |s| ensures !(Placeholder(m) <= s[o..] + "") {
      assert (s[o..] + "")[0] == s[o] && Placeholder(m)[0] == '\\';
    }
    ReplaceSkips(s, "", Placeholder(m), value);
    assert s + "" == s;
  }

  lemma {:induction false} PlainPasses(s: string, b: seq<Binding>)
    requires Plain(s)
    ensures Sequential(s, b) == s
  {
    hide Plain, Placeholder, ReplaceAll;
    if b == [] {
    } else {
      PlainPass(s, b[0].name, b[0].value);
      PlainPasses(s, b[1..]);
    }
  }

  lemma {:induction false} OtherPasses(n: string, b: seq<Binding>)
    requires Plain(n) && forall k :: 0 <= k < |b| ==> Plain(b[k].name) && b[k].name != n
    ensures Sequential(Placeholder(n), b) == Placeholder(n)
  {
    hide Plain, Placeholder, ReplaceAll;
    if b == [] {
    } else {
      OtherPass(n, b[0].name, b[0].value);
      OtherPasses(n, b[1..]);
    }
  }

  predicate DistinctPlain(b: seq<Binding>) {
    && (forall k :: 0 <= k < |b| ==> Plain(b[k].name))
    && forall k, l :: 0 <= k < l < |b| ==> b[k].name != b[l].name
  }

  /** A placeholder waits for its pass; what comes in its place is left to the later passes. */
  lemma {:induction false} PassOfPlaceholder(b: seq<Binding>, i: nat)
    requires DistinctPlain(b) && i < |b|
    ensures Sequential(Placeholder(b[i].name), b) == Sequential(b[i].value, b[i + 1..])
  {
    hide Plain, Placeholder, ReplaceAll;
    if i == 0 {
      ReplaceWhole(b[0].name, b[0].value);
    } else {
      OtherPass(b[i].name, b[0].name, b[0].value);
      PassOfPlaceholder(b[1..], i - 1);
      assert b[1..][i..] == b[i + 1..];
    }
  }

  /** A value that is the placeholder of another keyword is rewritten if and only if that keyword's pass comes later. */
  lemma RewrittenIffLater(b: seq<Binding>, i: nat, j: nat)
    requires DistinctPlain(b) && i < |b| && j < |b| && i != j
    requires b[i].value == Placeholder(b[j].name) && Plain(b[j].value)
    ensures Sequential(Placeholder(b[i].name), b) == if i < j then b[j].value else Placeholder(b[j].name)
  {
    hide Plain, Placeholder, Sequential;
    PassOfPlaceholder(b, i);
    var later := b[i + 1..];
    if i < j {
      PassOfPlaceholder(later, j - i - 1);
      PlainPasses(b[j].value, later[j - i..]);
    } else {
      OtherPasses(b[j].name, later);
    }
  }

  /** Text in front of a placeholder that ends in the beginning of another one: the first value completes it. */
  lemma HazardousTextIsCompleted(n: string, x: string, y: string, value: string)
    requires Plain(n) && Plain(x) && !(x <= n)
    ensures Sequential(OPEN + x + Placeholder(n) + CLOSE, [Binding(n, y), Binding(x + y, value)]) == value
  {
    var b := [Binding(n, y), Binding(x + y, value)];
    var s := OPEN + x + Placeholder(n) + CLOSE;
    HazardousPass(n, x, y);
    ReplaceWhole(x + y, value);
    assert b[1..] == [Binding(x + y, value)] && b[1..][1..] == [];
    assert Sequential(s, b) == Sequential(Placeholder(x + y), b[1..]) == Sequential(value, []);
  }

  lemma HazardousPass(n: string, x: string, y: string)
    requires Plain(n) && Plain(x) && !(x <= n)
    ensures ReplaceAll(OPEN + x + Placeholder(n) + CLOSE, Placeholder(n), y) == Placeholder(x + y)
  {
    hide Safe, ReplaceAll, Prepend, Plain;
    var front := OPEN + x;
    ShortIsSafe(CLOSE, n);
    IncomparableFront(n, x);
    FrontIsSafe(front, Hole(n, Prepend(CLOSE, End)), n);
    PassBetween(front, n, CLOSE, y);
    assert front + y + CLOSE == Placeholder(x + y);
  }

  lemma PassBetween(front: string, n: string, end: string, y: string)
    requires Plain(n) && Safe(Prepend(front, Hole(n, Prepend(end, End))), {n})
    ensures ReplaceAll(front + Placeholder(n) + end, Placeholder(n), y) == front + y + end
  {
    hide Placeholder, ReplaceAll, Safe;
    var t := Prepend(front, Hole(n, Prepend(end, End)));
    Between(front, n, end);
    BetweenPut(front, n, end, y);
    OnePass(t, {n}, n, y);
  }

  lemma Between(front: string, n: string, end: string)
    ensures var t := Prepend(front, Hole(n, Prepend(end, End)));
            Str(t) == front + Placeholder(n) + end && Holes(t) == {n}
  {
    hide Placeholder;
    var closing := Prepend(end, End);
    StrPrepend(front, Hole(n, closing));
    LeadPrepend(front, Hole(n, closing));
    StrPrepend(end, End);
    LeadPrepend(end, End);
    assert front + Placeholder(n) + end == front + (Placeholder(n) + end);
  }

  lemma BetweenPut(front: string, n: string, end: string, y: string)
    ensures Str(Put(Prepend(front, Hole(n, Prepend(end, End))), n, y)) == front + y + end
  {
    var closing := Prepend(end, End);
    PutPrepend(front, Hole(n, closing), n, y);
    PutPrepend(end, End, n, y);
    StrPrepend(front, Prepend(y, closing));
    StrPrepend(y, closing);
    StrPrepend(end, End);
    assert front + y + end == front + (y + end);
  }

  lemma IncomparableFront(n: string, x: string)
    requires Plain(n) && Plain(x) && !(x <= n)
    ensures forall i :: 0 <= i < |OPEN + x| ==>
              !((OPEN + x)[i..] <= Placeholder(n)) && !(Placeholder(n) <= (OPEN + x)[i..])
  {
    PlaceholderShape(n);
    var front, p := OPEN + x, Placeholder(n);
    forall i | 0 <= i < |front| ensures !(front[i..] <= p) && !(p <= front[i..]) {
      if i > 0 {
        assert front[i..][0] == front[i] != p[0];
      } else {
        assert front[0..] == front && front[6..] == x;
        if |x| <= |n| {
          assert p[..|front|][6..] == n[..|x|] != front[6..];
        } else {
          assert front[|n| + 6] == x[|n|] != p[|n| + 6];
        }
      }
    }
  }

  lemma {:induction false} ShortIsSafe(s: string, n: string)
    requires |s| <= 6
    ensures Safe(Prepend(s, End), {n})
  {
    if s != "" {
      ShortIsSafe(s[1..], n);
      LeadPrepend(s, End);
      PlaceholderShape(n);
    }
  }

  lemma {:induction false} FrontIsSafe(s: string, t: Template, n: string)
    requires Safe(t, {n}) && t.Hole?
    requires forall i :: 0 <= i < |s| ==> !(s[i..] <= Placeholder(n)) && !(Placeholder(n) <= s[i..])
    ensures Safe(Prepend(s, t), {n})
  {
    if s != "" {
      assert forall i :: 0 <= i < |s[1..]| ==> s[1..][i..] == s[i + 1..];
      FrontIsSafe(s[1..], t, n);
      LeadPrepend(s, t);
      assert s[0..] == s;
    }
  }

  lemma {:induction false} PutPrepend(s: string, t: Template, n: string, value: string)
    ensures Put(Prepend(s, t), n, value) == Prepend(s, Put(t, n, value))
  {
    if s != "" { PutPrepend(s[1..], t, n, value); }
  }
}
