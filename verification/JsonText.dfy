/**
The lexical structure of JSON strings (section 7 of RFC 8259), and what replacing placeholders does to it. Outside of
strings only quotation marks and backslashes matter here; everything else there is kept character by character.
 */
module JsonText {
  import opened Templating

  datatype Lex = Outside | InString | Escape | Hex(left: nat) | Invalid

  predicate IsHex(c: char) { '0' <= c <= '9' || 'a' <= c <= 'f' || 'A' <= c <= 'F' }

  function Step(q: Lex, c: char): Lex {
    match q
    case Outside => if c == '"' then InString else if c == '\\' then Invalid else Outside
    case InString => if c == '"' then Outside else if c == '\\' then Escape else if c < ' ' then Invalid else InString
    case Escape =>
      if c in {'"', '\\', '/', 'b', 'f', 'n', 'r', 't'} then InString else if c == 'u' then Hex(3) else Invalid
    case Hex(left) => if !IsHex(c) then Invalid else if left == 0 then InString else Hex(left - 1)
    case Invalid => Invalid
  }

  function Scan(q: Lex, s: string): Lex
    decreases s
  {
    if s == "" then q else Scan(Step(q, s[0]), s[1..])
  }

  predicate WellFormed(s: string) { Scan(Outside, s).Outside? }

  /** What is left of a text without the contents of its strings. */
  function Skeleton(q: Lex, s: string): string
    decreases s
  {
    if s == "" then ""
    else (if q.Outside? || (q.InString? && s[0] == '"') then [s[0]] else "") + Skeleton(Step(q, s[0]), s[1..])
  }

  /** Characters that stand for themselves inside a string. */
  predicate Harmless(s: string) { forall i :: 0 <= i < |s| ==> s[i] != '"' && s[i] != '\\' && s[i] >= ' ' }

  /** Every placeholder begins inside a string, with an escape of its own. */
  predicate HeadsAreEscapes(t: Template, q: Lex) {
    match t
    case End => true
    case Ch(c, rest) => HeadsAreEscapes(rest, Step(q, c))
    case Hole(n, rest) => q.InString? && HeadsAreEscapes(rest, Scan(q, Placeholder(n)))
  }

  predicate AllHarmless(bindings: seq<Binding>) { forall b :: b in bindings ==> Harmless(b.value) }

  predicate HarmlessNames(t: Template) { forall n :: n in Holes(t) ==> Harmless(n) }

  lemma {:induction false} ScanConcat(q: Lex, a: string, b: string)
    ensures Scan(q, a + b) == Scan(Scan(q, a), b)
    decreases a
  {
    if a == "" {
      assert a + b == b;
    } else {
      hide Step;
      assert (a + b)[0] == a[0] && (a + b)[1..] == a[1..] + b;
      ScanConcat(Step(q, a[0]), a[1..], b);
    }
  }

  lemma {:induction false} SkeletonConcat(q: Lex, a: string, b: string)
    ensures Skeleton(q, a + b) == Skeleton(q, a) + Skeleton(Scan(q, a), b)
    decreases a
  {
    if a == "" {
      assert a + b == b;
    } else {
      hide Step;
      var r := Step(q, a[0]);
      var first := if q.Outside? || (q.InString? && a[0] == '"') then [a[0]] else "";
      assert (a + b)[0] == a[0] && (a + b)[1..] == a[1..] + b;
      SkeletonConcat(r, a[1..], b);
      assert Skeleton(q, a + b) == first + Skeleton(r, a[1..] + b);
      assert Skeleton(q, a) == first + Skeleton(r, a[1..]);
      assert Scan(q, a) == Scan(r, a[1..]);
    }
  }

  lemma ConcatBoth(q: Lex, a: string, b: string)
    ensures Scan(q, a + b) == Scan(Scan(q, a), b)
    ensures Skeleton(q, a + b) == Skeleton(q, a) + Skeleton(Scan(q, a), b)
  {
    ScanConcat(q, a, b);
    SkeletonConcat(q, a, b);
  }

  lemma {:induction false} HarmlessStaysInString(s: string)
    requires Harmless(s)
    ensures Scan(InString, s) == InString && Skeleton(InString, s) == ""
  {
    if s != "" { HarmlessStaysInString(s[1..]); }
  }

  predicate Digits(s: string) { forall i :: 0 <= i < |s| ==> IsHex(s[i]) }

  /** The digits of an escape. */
  lemma {:induction false} HexDigits(left: nat, s: string)
    requires |s| == left + 1 && Digits(s)
    ensures Scan(Hex(left), s) == InString && Skeleton(Hex(left), s) == ""
  {
    var rest := s[1..];
    assert Scan(Hex(left), s) == Scan(Step(Hex(left), s[0]), rest)
           && Skeleton(Hex(left), s) == Skeleton(Step(Hex(left), s[0]), rest);
    if left == 0 {
      assert rest == "" && Step(Hex(left), s[0]) == InString;
    } else {
      assert Step(Hex(left), s[0]) == Hex(left - 1);
      HexDigits(left - 1, rest);
    }
  }

  /** One character. */
  lemma FirstCharacter(q: Lex, c: char, rest: string)
    ensures Scan(q, [c] + rest) == Scan(Step(q, c), rest)
    ensures !q.Outside? && !(q.InString? && c == '"') ==> Skeleton(q, [c] + rest) == Skeleton(Step(q, c), rest)
  {
    var s := [c] + rest;
    assert s[0] == c && s[1..] == rest;
  }

  lemma HexEscape(q: Lex, s: string)
    requires |s| == 6 && s[0] == '\\' && s[1] == 'u' && Digits(s[2..])
    ensures Scan(InString, s) == InString && Skeleton(InString, s) == ""
    ensures Scan(Escape, s) == InString && Skeleton(Escape, s) == ""
    ensures q.Outside? || q.Hex? ==> Scan(q, s) == Invalid
  {
    var digits := s[2..];
    var letter := ['u'] + digits;
    assert s[1..] == letter && s == ['\\'] + letter;
    hide Scan, Skeleton, Digits;
    FirstCharacter(InString, '\\', letter);
    FirstCharacter(Escape, 'u', digits);
    HexDigits(3, digits);
    FirstCharacter(Escape, '\\', letter);
    LetterIsHarmless(digits);
    HarmlessStaysInString(letter);
    FirstCharacter(q, '\\', letter);
    InvalidStays(letter);
  }

  lemma LetterIsHarmless(digits: string)
    requires Digits(digits)
    ensures Harmless(['u'] + digits)
  {
    var letter := ['u'] + digits;
    forall i | 0 <= i < |letter| ensures letter[i] != '"' && letter[i] != '\\' && letter[i] >= ' ' {
      assert i > 0 ==> IsHex(digits[i - 1]);
    }
  }

  lemma {:induction false} InvalidStays(s: string)
    ensures Scan(Invalid, s) == Invalid
  {
    if s != "" { InvalidStays(s[1..]); }
  }

  lemma MarksAreEscapes()
    ensures |OPEN| == 6 && OPEN[0] == '\\' && OPEN[1] == 'u' && Digits(OPEN[2..])
    ensures |CLOSE| == 6 && CLOSE[0] == '\\' && CLOSE[1] == 'u' && Digits(CLOSE[2..])
  {
  }

  lemma ScanPlaceholder(q: Lex, n: string)
    requires Harmless(n)
    ensures q.InString? || q.Escape? ==> Scan(q, Placeholder(n)) == InString && Skeleton(q, Placeholder(n)) == ""
    ensures q.Outside? || q.Hex? || q.Invalid? ==> Scan(q, Placeholder(n)) == Invalid
  {
    hide Scan, Skeleton, Digits, Harmless, OPEN, CLOSE;
    MarksAreEscapes();
    HexEscape(q, OPEN);
    HexEscape(InString, CLOSE);
    HarmlessStaysInString(n);
    assert Placeholder(n) == OPEN + (n + CLOSE);
    ConcatBoth(q, OPEN, n + CLOSE);
    ConcatBoth(InString, n, CLOSE);
    InvalidStays(n + CLOSE);
    InvalidStays(Placeholder(n));
  }

  lemma {:induction false} ValueIsHarmless(bindings: seq<Binding>, n: string)
    requires AllHarmless(bindings) && n in Bound(bindings)
    ensures Harmless(ValueOf(bindings, n))
  {
    if bindings[0].name != n { ValueIsHarmless(bindings[1..], n); }
  }

  /** Filling the holes of a template whose placeholders all are escapes of their own. */
  lemma {:induction false} FillKeepsStructure(t: Template, q: Lex, bindings: seq<Binding>)
    requires HeadsAreEscapes(t, q) && HarmlessNames(t) && AllHarmless(bindings) && Holes(t) <= Bound(bindings)
    ensures Scan(q, Fill(t, bindings)) == Scan(q, Str(t))
    ensures Skeleton(q, Fill(t, bindings)) == Skeleton(q, Str(t))
  {
    match t
    case End =>
    case Ch(c, rest) =>
      FillKeepsStructure(rest, Step(q, c), bindings);
      ConcatBoth(q, [c], Fill(rest, bindings));
      ConcatBoth(q, [c], Str(rest));
    case Hole(n, rest) =>
      ScanPlaceholder(q, n);
      ValueIsHarmless(bindings, n);
      HarmlessStaysInString(ValueOf(bindings, n));
      FillKeepsStructure(rest, InString, bindings);
      ConcatBoth(q, ValueOf(bindings, n), Fill(rest, bindings));
      ConcatBoth(q, Placeholder(n), Str(rest));
  }

  /** Binds every placeholder to the letter x. */
  function Crosses(t: Template): seq<Binding> {
    match t
    case End => []
    case Ch(_, rest) => Crosses(rest)
    case Hole(n, rest) => [Binding(n, "x")] + Crosses(rest)
  }

  lemma {:induction false} CrossesBind(t: Template)
    ensures Bound(Crosses(t)) == Holes(t) && AllHarmless(Crosses(t))
    ensures forall n :: n in Holes(t) ==> ValueOf(Crosses(t), n) == "x"
  {
    if !t.End? {
      CrossesBind(t.rest);
      if t.Hole? { assert Crosses(t)[1..] == Crosses(t.rest); }
    }
  }

  /**
  In a well-formed template, a placeholder that is not an escape of its own follows a backslash; an x there breaks the
  text.
   */
  lemma {:induction false} CrossesBreak(t: Template, q: Lex, bindings: seq<Binding>)
    requires !HeadsAreEscapes(t, q) && HarmlessNames(t) && Scan(q, Str(t)).Outside?
    requires forall n :: n in Holes(t) ==> ValueOf(bindings, n) == "x"
    ensures Scan(q, Fill(t, bindings)) == Invalid
  {
    match t
    case End =>
    case Ch(c, rest) =>
      ConcatBoth(q, [c], Str(rest));
      ConcatBoth(q, [c], Fill(rest, bindings));
      CrossesBreak(rest, Step(q, c), bindings);
    case Hole(n, rest) =>
      ConcatBoth(q, Placeholder(n), Str(rest));
      ConcatBoth(q, "x", Fill(rest, bindings));
      ScanPlaceholder(q, n);
      InvalidStays(Str(rest));
      InvalidStays(Fill(rest, bindings));
      assert Scan(q, "x") == Step(q, 'x');
      if q.InString? { CrossesBreak(rest, InString, bindings); }
  }

  /** The values a template may be given: harmless ones, and one for every placeholder. */
  predicate Suits(bindings: seq<Binding>, t: Template) { AllHarmless(bindings) && Holes(t) <= Bound(bindings) }

  /** The text is still well formed and has the same structure outside of its strings. */
  predicate SameStructure(t: Template, bindings: seq<Binding>) {
    WellFormed(Fill(t, bindings)) && Skeleton(Outside, Fill(t, bindings)) == Skeleton(Outside, Str(t))
  }

  /**
  Main result: substitution keeps a well-formed template well formed, with the same structure, for all harmless values
  if and only if every placeholder head is an escape of its own; a head behind an odd backslash is the exception.
   */
  lemma StructureKeptIffHeadsAreEscapes(t: Template)
    requires HarmlessNames(t) && WellFormed(Str(t))
    ensures (forall b :: Suits(b, t) ==> SameStructure(t, b)) <==> HeadsAreEscapes(t, Outside)
  {
    if HeadsAreEscapes(t, Outside) {
      forall b | Suits(b, t) ensures SameStructure(t, b) {
        FillKeepsStructure(t, Outside, b);
      }
    } else {
      CrossesBind(t);
      CrossesBreak(t, Outside, Crosses(t));
      assert Suits(Crosses(t), t) && !SameStructure(t, Crosses(t));
    }
  }

  /** Binds every name to the letter x. */
  lemma {:induction false} AllCrossed(names: set<string>) returns (b: seq<Binding>)
    ensures Bound(b) == names && AllHarmless(b)
    ensures forall n :: n in names ==> ValueOf(b, n) == "x"
    decreases names
  {
    if names == {} {
      b := [];
    } else {
      var n :| n in names;
      var others := AllCrossed(names - {n});
      b := [Binding(n, "x")] + others;
      assert b[1..] == others;
    }
  }

  /** The passes leave well-formed text with the structure of the template. */
  predicate PassesSucceed(s: string, bindings: seq<Binding>) {
    WellFormed(Sequential(s, bindings)) && Skeleton(Outside, Sequential(s, bindings)) == Skeleton(Outside, s)
  }

  /**
  The same exact condition for the program's successive passes: on a well-formed, hazard-free template they keep the
  text well formed, with the same structure, for all harmless values if and only if every placeholder head is an escape
  of its own.
   */
  lemma PassesKeepStructureIffHeadsAreEscapes(s: string, names: set<string>)
    requires HazardFree(Parse(s, names), names) && WellFormed(s) && forall n :: n in names ==> Harmless(n)
    ensures (forall b :: Bound(b) == names && AllHarmless(b) ==> PassesSucceed(s, b)) <==>
              HeadsAreEscapes(Parse(s, names), Outside)
  {
    if HeadsAreEscapes(Parse(s, names), Outside) {
      forall b | Bound(b) == names && AllHarmless(b) ensures PassesSucceed(s, b) {
        PassesKeepStructure(s, names, b);
      }
    } else {
      var b := AllCrossed(names);
      ParseTells(s, names, b);
      HarmlessIsPlain(names, b);
      SequentialIsSimultaneous(s, names, b);
      CrossesBreak(Parse(s, names), Outside, b);
      assert !PassesSucceed(s, b);
    }
  }

  /**
  What the successive passes produce from a well-formed, hazard-free template with harmless values is well formed.
   */
  lemma PassesKeepStructure(s: string, names: set<string>, bindings: seq<Binding>)
    requires HazardFree(Parse(s, names), names) && Bound(bindings) == names && AllHarmless(bindings)
    requires forall n :: n in names ==> Harmless(n)
    requires WellFormed(s) && HeadsAreEscapes(Parse(s, names), Outside)
    ensures WellFormed(Sequential(s, bindings)) && Skeleton(Outside, Sequential(s, bindings)) == Skeleton(Outside, s)
  {
    ParseTells(s, names, bindings);
    HarmlessIsPlain(names, bindings);
    SequentialIsSimultaneous(s, names, bindings);
    FillKeepsStructure(Parse(s, names), Outside, bindings);
  }

  lemma {:induction false} BindingsBound(bindings: seq<Binding>)
    ensures forall b :: b in bindings ==> b.name in Bound(bindings)
  {
    if bindings != [] {
      BindingsBound(bindings[1..]);
      forall b | b in bindings ensures b.name in Bound(bindings) {
        assert b == bindings[0] || b in bindings[1..];
      }
    }
  }

  lemma HarmlessIsPlain(names: set<string>, bindings: seq<Binding>)
    requires Bound(bindings) == names && AllHarmless(bindings)
    requires forall n :: n in names ==> Harmless(n)
    ensures AllPlain(names) && Covered(bindings, names)
  {
    BindingsBound(bindings);
  }
}
