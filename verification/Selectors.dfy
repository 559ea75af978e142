/**
Purpose selectors as immutable trees: the meaning that the pointer-based evaluator is proved against, and its algebra.
 */
module Selectors {
  import opened Options

  /** One requirement. A nil Go slice is Nil, an empty one is Items([]). */
  datatype Requirement = Requirement(name: string, not: Option<Requirement>, and: Slice, or: Slice)
  datatype Slice = Nil | Items(items: seq<Requirement>)

  /** The documented meaning, with precedence name, not, and, or; a requirement without any field matches. */
  predicate Matches(r: Requirement, purposes: seq<string>) {
    if r.name != "" then r.name in purposes
    else if r.not.Some? then !Matches(r.not.value, purposes)
    else if Filled(r.and) then forall i | 0 <= i < |r.and.items| :: Matches(r.and.items[i], purposes)
    else if Filled(r.or) then exists i | 0 <= i < |r.or.items| :: Matches(r.or.items[i], purposes)
    else true
  }

  predicate Filled(s: Slice) { s.Items? && s.items != [] }

  /** The requirement with all fields cleared, at every depth, that the precedence ignores. */
  function Normal(r: Requirement): Requirement {
    if r.name != "" then Requirement(r.name, None, Nil, Nil)
    else if r.not.Some? then Requirement("", Some(Normal(r.not.value)), Nil, Nil)
    else if Filled(r.and) then Requirement("", None,
                                           Items(seq(|r.and.items|,
                                                     i requires 0 <= i < |r.and.items| => Normal(r.and.items[i]))), Nil)
    else if Filled(r.or) then Requirement("", None, Nil,
                                          Items(seq(|r.or.items|,
                                                    i requires 0 <= i < |r.or.items| => Normal(r.or.items[i]))))
    else Requirement("", None, Nil, Nil)
  }

  /** At most one field is set, here and below. */
  predicate OneField(r: Requirement) {
    && (r.name != "" ==> r.not.None? && r.and.Nil? && r.or.Nil?)
    && (r.not.Some? ==> r.and.Nil? && r.or.Nil? && OneField(r.not.value))
    && (r.and.Items? ==>
          && r.or.Nil? && r.and.items != []
          && forall i | 0 <= i < |r.and.items| :: OneField(r.and.items[i]))
    && (r.or.Items? ==> r.or.items != [] && forall i | 0 <= i < |r.or.items| :: OneField(r.or.items[i]))
  }

  /** Clearing what the precedence ignores leaves one field per requirement and does not change the meaning. */
  lemma {:induction false} NormalMeansTheSame(r: Requirement, purposes: seq<string>)
    ensures OneField(Normal(r))
    ensures Matches(Normal(r), purposes) == Matches(r, purposes)
  {
    if r.name != "" {
    } else if r.not.Some? {
      NormalMeansTheSame(r.not.value, purposes);
    } else if Filled(r.and) {
      var n := Normal(r);
      forall i | 0 <= i < |r.and.items|
        ensures OneField(n.and.items[i]) && Matches(n.and.items[i], purposes) == Matches(r.and.items[i], purposes)
      {
        NormalMeansTheSame(r.and.items[i], purposes);
      }
    } else if Filled(r.or) {
      var n := Normal(r);
      forall i | 0 <= i < |r.or.items|
        ensures OneField(n.or.items[i]) && Matches(n.or.items[i], purposes) == Matches(r.or.items[i], purposes)
      {
        NormalMeansTheSame(r.or.items[i], purposes);
      }
    }
  }

  predicate Within(a: seq<string>, b: seq<string>) { forall n :: n in a ==> n in b }

  /** Every name that is evaluated stands under an even (or odd) number of nots. */
  predicate Polarity(r: Requirement, even: bool) {
    if r.name != "" then even
    else if r.not.Some? then Polarity(r.not.value, !even)
    else if Filled(r.and) then forall i | 0 <= i < |r.and.items| :: Polarity(r.and.items[i], even)
    else if Filled(r.or) then forall i | 0 <= i < |r.or.items| :: Polarity(r.or.items[i], even)
    else true
  }

  /**
  More purposes never lose a selector with all names under an even number of nots, and never win one with all under an
  odd number.
   */
  lemma {:induction false} Monotone(r: Requirement, even: bool, fewer: seq<string>, more: seq<string>)
    requires Polarity(r, even) && Within(fewer, more)
    ensures even ==> (Matches(r, fewer) ==> Matches(r, more))
    ensures !even ==> (Matches(r, more) ==> Matches(r, fewer))
  {
    if r.name != "" {
    } else if r.not.Some? {
      Monotone(r.not.value, !even, fewer, more);
    } else if Filled(r.and) {
      forall i | 0 <= i < |r.and.items|
        ensures even ==> (Matches(r.and.items[i], fewer) ==> Matches(r.and.items[i], more))
        ensures !even ==> (Matches(r.and.items[i], more) ==> Matches(r.and.items[i], fewer))
      {
        Monotone(r.and.items[i], even, fewer, more);
      }
    } else if Filled(r.or) {
      forall i | 0 <= i < |r.or.items|
        ensures even ==> (Matches(r.or.items[i], fewer) ==> Matches(r.or.items[i], more))
        ensures !even ==> (Matches(r.or.items[i], more) ==> Matches(r.or.items[i], fewer))
      {
        Monotone(r.or.items[i], even, fewer, more);
      }
    }
  }

  /** Names that an evaluation can come to look at. */
  function Names(r: Requirement): set<string> {
    if r.name != "" then {r.name}
    else if r.not.Some? then Names(r.not.value)
    else if Filled(r.and) then set i, n | 0 <= i < |r.and.items| && n in Names(r.and.items[i]) :: n
    else if Filled(r.or) then set i, n | 0 <= i < |r.or.items| && n in Names(r.or.items[i]) :: n
    else {}
  }

  /** Purposes that no evaluated name mentions do not matter. */
  lemma {:induction false} OnlyNamesCount(r: Requirement, a: seq<string>, b: seq<string>)
    requires forall n :: n in Names(r) ==> (n in a <==> n in b)
    ensures Matches(r, a) == Matches(r, b)
  {
    if r.name != "" {
    } else if r.not.Some? {
      OnlyNamesCount(r.not.value, a, b);
    } else if Filled(r.and) {
      forall i | 0 <= i < |r.and.items| ensures Matches(r.and.items[i], a) == Matches(r.and.items[i], b) {
        OnlyNamesCount(r.and.items[i], a, b);
      }
    } else if Filled(r.or) {
      forall i | 0 <= i < |r.or.items| ensures Matches(r.or.items[i], a) == Matches(r.or.items[i], b) {
        OnlyNamesCount(r.or.items[i], a, b);
      }
    }
  }

  /** Only the set of purposes counts, not their order or number. */
  lemma OnlyTheSetCounts(r: Requirement, a: seq<string>, b: seq<string>)
    requires Within(a, b) && Within(b, a)
    ensures Matches(r, a) == Matches(r, b)
  {
  }
}
