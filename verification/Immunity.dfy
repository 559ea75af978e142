/**
The exact condition on a template under which the successive replacement passes are one simultaneous substitution, for
all values without backslashes: no text of the template can be completed to a placeholder by the values of earlier
passes.
 */
module Immunity {
  import opened Templating

  function Names(order: seq<string>): set<string> { set n | n in order }

  /** The values of the keywords, in the order of the passes. */
  predicate Binds(b: seq<Binding>, order: seq<string>) {
    |b| == |order| && forall i :: 0 <= i < |b| ==> b[i].name == order[i] && Plain(b[i].value)
  }

  // ---------------------------------------------------------------- the condition

  /**
  Whether the beginning of a template can become the target, if the placeholders with the given names are replaced by
  suitable values without backslashes; `env` holds the values that are already fixed. The values to try are pieces of
  the target, so this can be computed.
   */
  predicate Completes(t: Template, target: string, prior: set<string>, env: map<string, string>)
    decreases t
  {
    target == "" ||
    match t
    case End => false
    case Ch(c, rest) => target[0] == c && Completes(rest, target[1..], prior, env)
    case Hole(m, rest) =>
      m in prior &&
      if m in env then target <= env[m] || (env[m] <= target && Completes(rest, target[|env[m]|..], prior, env))
      else exists k | 0 <= k <= |target| ::
        && Plain(target[..k])
        && Completes(rest, target[k..], prior, env[m := target[..k]])
  }

  /** No text can be completed to a placeholder by the values of the passes before that placeholder's pass. */
  predicate Immune(t: Template, order: seq<string>)
    decreases t
  {
    match t
    case End => true
    case Hole(_, rest) => Immune(rest, order)
    case Ch(_, rest) => Immune(rest, order) && ImmuneAt(t, order)
  }

  predicate ImmuneAt(t: Template, order: seq<string>) {
    forall j :: 0 <= j < |order| ==> !Completes(t, Placeholder(order[j]), Names(order[..j]), map[])
  }

  // ---------------------------------------------------------------- the condition suffices

  /** What a text with a filled placeholder completes, the template completes with this value. */
  lemma {:induction false} CompletesBefore(t: Template, n: string, v: string, target: string, prior: set<string>,
                                           env: map<string, string>)
    requires n !in env && Completes(Put(t, n, v), target, prior, env)
    ensures Completes(t, target, prior + {n}, env[n := v])
    decreases t
  {
    if target != "" {
      match t
      case End =>
      case Ch(_, rest) => CompletesBefore(rest, n, v, target[1..], prior, env);
      case Hole(m, rest) =>
        if m == n {
          CompletesPast(v, Put(rest, n, v), target, prior, env);
          if !(target <= v) { CompletesBefore(rest, n, v, target[|v|..], prior, env); }
        } else if m in env {
          if !(target <= env[m]) { CompletesBefore(rest, n, v, target[|env[m]|..], prior, env); }
        } else {
          var k :| 0 <= k <= |target| && Plain(target[..k])
          && Completes(Put(rest, n, v), target[k..], prior, env[m := target[..k]]);
          CompletesBefore(rest, n, v, target[k..], prior, env[m := target[..k]]);
          assert env[m := target[..k]][n := v] == env[n := v][m := target[..k]];
        }
    }
  }

  lemma {:induction false} CompletesPast(v: string, t: Template, target: string, prior: set<string>, env: map<string,
                                         string>)
    requires Completes(Prepend(v, t), target, prior, env)
    ensures target <= v || (v <= target && Completes(t, target[|v|..], prior, env))
  {
    if v == "" || target == "" {
    } else {
      CompletesPast(v[1..], t, target[1..], prior, env);
      assert v == [v[0]] + v[1..] && target == [target[0]] + target[1..];
      if v <= target { assert target[1..][|v[1..]|..] == target[|v|..]; }
    }
  }

  /** A value that is fixed can as well be chosen. */
  lemma {:induction false} ChoosesValue(t: Template, n: string, v: string, target: string, prior: set<string>,
                                        env: map<string, string>)
    requires n !in env && n in prior && Plain(v) && Completes(t, target, prior, env[n := v])
    ensures Completes(t, target, prior, env)
    decreases t
  {
    if target != "" {
      match t
      case End =>
      case Ch(_, rest) => ChoosesValue(rest, n, v, target[1..], prior, env);
      case Hole(m, rest) =>
        if m == n {
          var k := if target <= v then |target| else |v|;
          assert Plain(target[..k]) && Completes(rest, target[k..], prior, env[m := target[..k]]) by {
            if target <= v {
              assert target[k..] == "" && forall c :: c in target ==> c in v;
            } else {
              assert target[..k] == v;
            }
          }
        } else if m in env {
          if !(target <= env[m]) { ChoosesValue(rest, n, v, target[|env[m]|..], prior, env); }
        } else {
          var k :| 0 <= k <= |target| && Plain(target[..k])
          && Completes(rest, target[k..], prior, env[n := v][m := target[..k]]);
          assert env[n := v][m := target[..k]] == env[m := target[..k]][n := v];
          ChoosesValue(rest, n, v, target[k..], prior, env[m := target[..k]]);
        }
    }
  }

  /** A pass leaves the template immune against the passes that remain. */
  lemma {:induction false} PutKeepsImmune(t: Template, order: seq<string>, v: string)
    requires order != [] && Immune(t, order) && Plain(v)
    ensures Immune(Put(t, order[0], v), order[1..])
    decreases t
  {
    match t
    case End =>
    case Ch(_, rest) =>
      PutKeepsImmune(rest, order, v);
      forall j | 0 <= j < |order[1..]|
        ensures !Completes(Put(t, order[0], v), Placeholder(order[1..][j]), Names(order[1..][..j]), map[])
      {
        if Completes(Put(t, order[0], v), Placeholder(order[1..][j]), Names(order[1..][..j]), map[]) {
          CompletesBefore(t, order[0], v, Placeholder(order[1..][j]), Names(order[1..][..j]), map[]);
          assert order[..j + 1] == [order[0]] + order[1..][..j] && order[1..][j] == order[j + 1];
          assert Names(order[1..][..j]) + {order[0]} == Names(order[..j + 1]);
          ChoosesValue(t, order[0], v, Placeholder(order[j + 1]), Names(order[..j + 1]), map[]);
        }
      }
    case Hole(_, rest) =>
      PutKeepsImmune(rest, order, v);
      PlainIsImmune(v, Put(rest, order[0], v), order[1..]);
  }

  lemma {:induction false} PlainIsImmune(v: string, t: Template, order: seq<string>)
    requires Plain(v) && Immune(t, order)
    ensures Immune(Prepend(v, t), order)
  {
    if v != "" {
      PlainIsImmune(v[1..], t, order);
      forall j | 0 <= j < |order| ensures !Completes(Prepend(v, t), Placeholder(order[j]), Names(order[..j]), map[]) {
        PlaceholderShape(order[j]);
      }
    }
  }

  /** A placeholder in the text of a template that is none of its placeholders is there character by character. */
  lemma {:induction false} LiteralCompletes(t: Template, n: string, o: nat)
    requires Plain(n) && o <= |Placeholder(n)| && (o > 0 || t.Ch?) && Placeholder(n)[o..] <= Str(t)
    ensures Completes(t, Placeholder(n)[o..], {}, map[])
    decreases t
  {
    var p := Placeholder(n);
    PlaceholderShape(n);
    if o < |p| {
      assert Str(t)[0] == p[o];
      match t
      case Ch(_, rest) =>
        assert p[o..][1..] == p[o + 1..] && Str(t)[1..] == Str(rest);
        LiteralCompletes(rest, n, o + 1);
      case Hole(m, rest) =>
        PlaceholderShape(m);
        assert false;
    }
  }

  lemma NoFalseStart(t: Template, order: seq<string>)
    requires t.Ch? && ImmuneAt(t, order) && order != [] && Plain(order[0])
    ensures !Heads(Str(t), order[0])
  {
    assert Names(order[..0]) == {};
    if Heads(Str(t), order[0]) {
      assert Placeholder(order[0])[0..] == Placeholder(order[0]);
      LiteralCompletes(t, order[0], 0);
    }
  }

  /** One textual pass over an immune template replaces exactly the placeholders of its name. */
  lemma {:induction false} ImmunePass(t: Template, order: seq<string>, v: string)
    requires order != [] && Immune(t, order) && Plain(order[0]) && AllPlain(Holes(t))
    ensures ReplaceAll(Str(t), Placeholder(order[0]), v) == Str(Put(t, order[0], v))
    decreases t
  {
    var n := order[0];
    match t
    case End =>
    case Ch(_, rest) =>
      ImmunePass(rest, order, v);
      NoFalseStart(t, order);
      ReplaceSteps(Str(t), Placeholder(n), v);
      assert Str(t)[1..] == Str(rest);
    case Hole(m, rest) =>
      ImmunePass(rest, order, v);
      if m == n {
        assert Str(t)[..|Placeholder(n)|] == Placeholder(n) && Str(t)[|Placeholder(n)|..] == Str(rest);
        StrPrepend(v, Put(rest, n, v));
      } else {
        forall o | 0 <= o < |Placeholder(m)| ensures !(Placeholder(n) <= Placeholder(m)[o..] + Str(rest)) {
          NoOverlap(n, m, Str(rest), o);
        }
        ReplaceSkips(Placeholder(m), Str(rest), Placeholder(n), v);
      }
  }

  lemma {:induction false} ImmunePasses(t: Template, order: seq<string>, b: seq<Binding>)
    requires Immune(t, order) && Binds(b, order) && AllPlain(Names(order)) && AllPlain(Holes(t))
    ensures Sequential(Str(t), b) == Fill(t, b)
    decreases |b|
  {
    if b == [] {
      FillNothing(t);
    } else {
      assert order[0] in Names(order) && b[0].name == order[0];
      ImmunePass(t, order, b[0].value);
      PutKeepsImmune(t, order, b[0].value);
      PutExtendsLead(t, order[0], b[0].value);
      assert forall n :: n in Names(order[1..]) ==> n in Names(order);
      ImmunePasses(Put(t, order[0], b[0].value), order[1..], b[1..]);
      FillAfterPut(t, b);
    }
  }

  // ---------------------------------------------------------------- the condition is necessary

  /** The bindings give the names these values. */
  predicate Agrees(b: seq<Binding>, env: map<string, string>) { forall m :: m in env ==> ValueOf(b, m) == env[m] }

  predicate PlainValues(env: map<string, string>) { forall m :: m in env ==> Plain(env[m]) }

  /** Values with which the template begins with the target. */
  lemma {:induction false} CompletingValues(t: Template, target: string, prior: set<string>, env: map<string, string>)
      returns (values: map<string, string>)
    requires Completes(t, target, prior, env) && PlainValues(env)
    ensures env.Keys <= values.Keys <= env.Keys + prior && PlainValues(values) && forall m :: m in env ==>
              values[m] == env[m]
    ensures forall b :: Agrees(b, values) ==> target <= Fill(t, b)
    decreases t
  {
    values := env;
    if target != "" {
      match t
      case End =>
      case Ch(_, rest) => values := CompletingValues(rest, target[1..], prior, env);
      case Hole(m, rest) =>
        if m in env {
          if !(target <= env[m]) { values := CompletingValues(rest, target[|env[m]|..], prior, env); }
        } else {
          var k :| 0 <= k <= |target| && Plain(target[..k])
          && Completes(rest, target[k..], prior, env[m := target[..k]]);
          values := CompletingValues(rest, target[k..], prior, env[m := target[..k]]);
          assert values[m] == target[..k];
        }
    }
  }

  /** So many letters x. */
  function Crosses(n: nat): (s: string)
    ensures |s| == n && forall i :: 0 <= i < n ==> s[i] == 'x'
  {
    seq(n, _ => 'x')
  }

  /** What a placeholder ends with is not made by inserting letters x. */
  lemma {:induction false} EndIsOld(s: string, m: string, long: nat, n: string, o: nat)
    requires o <= |Placeholder(n)| <= long
    requires Placeholder(n)[o..] <= ReplaceAll(s, Placeholder(m), Crosses(long))
    ensures Placeholder(n)[o..] <= s
    decreases |s|
  {
    var p, q := Placeholder(m), Placeholder(n);
    PlaceholderShape(n);
    if o == |q| || |s| < |p| {
    } else if s[..|p|] == p {
      assert false;
    } else {
      assert q[o..][1..] == q[o + 1..];
      EndIsOld(s[1..], m, long, n, o + 1);
      assert s == [s[0]] + s[1..];
    }
  }

  /** A pass that inserts letters x makes no placeholder, and it leaves none of its own. */
  lemma {:induction false} NothingNew(s: string, m: string, long: nat, n: string, i: nat)
    requires |Placeholder(n)| <= long && i <= |ReplaceAll(s, Placeholder(m), Crosses(long))|
    requires Heads(ReplaceAll(s, Placeholder(m), Crosses(long))[i..], n)
    ensures m != n && Contains(s, n)
    decreases |s|
  {
    var p, x := Placeholder(m), Crosses(long);
    var r := ReplaceAll(s, p, x);
    PlaceholderShape(n);
    assert r[i] == '\\';
    if |s| < |p| {
      assert Heads(s[i..], n);
      assert m != n;
    } else if s[..|p|] == p {
      assert i >= long && r[i..] == ReplaceAll(s[|p|..], p, x)[i - long..];
      NothingNew(s[|p|..], m, long, n, i - long);
      ContainsLater(s, |p|, n);
    } else if i == 0 {
      assert Placeholder(n)[0..] == Placeholder(n) && r[0..] == r;
      EndIsOld(s, m, long, n, 0);
      assert s[0..] == s && Heads(s[0..], n);
    } else {
      assert r[i..] == ReplaceAll(s[1..], p, x)[i - 1..];
      NothingNew(s[1..], m, long, n, i - 1);
      ContainsLater(s, 1, n);
    }
  }

  lemma ContainsLater(s: string, k: nat, n: string)
    requires k <= |s| && Contains(s[k..], n)
    ensures Contains(s, n)
  {
    var i :| 0 <= i <= |s[k..]| && Heads(s[k..][i..], n);
    assert s[k..][i..] == s[k + i..];
  }

  /** Once a placeholder's pass is over and only letters x are inserted, it is not in the text any more. */
  lemma {:induction false} StaysAway(s: string, b: seq<Binding>, long: nat, n: string)
    requires !Contains(s, n) && |Placeholder(n)| <= long && forall i :: 0 <= i < |b| ==> b[i].value == Crosses(long)
    ensures !Contains(Sequential(s, b), n)
    decreases |b|
  {
    if b != [] {
      var r := ReplaceAll(s, Placeholder(b[0].name), b[0].value);
      if i :| 0 <= i <= |r| && Heads(r[i..], n) { NothingNew(s, b[0].name, long, n, i); }
      StaysAway(r, b[1..], long, n);
    }
  }

  lemma {:induction false} GoesAway(s: string, b: seq<Binding>, j: nat, long: nat)
    requires j < |b| && |Placeholder(b[j].name)| <= long && forall i :: j <= i < |b| ==> b[i].value == Crosses(long)
    ensures !Contains(Sequential(s, b), b[j].name)
    decreases j
  {
    var n, r := b[j].name, ReplaceAll(s, Placeholder(b[0].name), b[0].value);
    if j == 0 {
      if i :| 0 <= i <= |r| && Heads(r[i..], n) { NothingNew(s, n, long, n, i); }
      StaysAway(r, b[1..], long, n);
    } else {
      GoesAway(r, b[1..], j - 1, long);
    }
  }

  /** These values, and letters x for the other names. */
  function Valued(order: seq<string>, values: map<string, string>, long: nat): (b: seq<Binding>)
    ensures |b| == |order|
    ensures forall i :: 0 <= i < |b| ==>
              b[i] == Binding(order[i], if order[i] in values then values[order[i]] else Crosses(long))
  {
    seq(|order|, i requires 0 <= i < |order| => Binding(order[i], if order[i] in values then values[order[i]]
                                                        else Crosses(long)))
  }

  lemma {:induction false} ValuedAgrees(order: seq<string>, values: map<string, string>, long: nat, m: string)
    requires m in order && m in values
    ensures ValueOf(Valued(order, values, long), m) == values[m]
  {
    if order[0] != m {
      ValuedAgrees(order[1..], values, long, m);
      assert Valued(order, values, long)[1..] == Valued(order[1..], values, long);
    }
  }

  predicate Distinct(order: seq<string>) { forall i, j :: 0 <= i < j < |order| ==> order[i] != order[j] }

  /** Values that complete a text of the template to the placeholder of a later pass. */
  lemma CompletedPlaceholderSpoils(t: Template, order: seq<string>, j: nat, above: Template) returns (b: seq<Binding>)
    requires Distinct(order) && j < |order| && Completes(t, Placeholder(order[j]), Names(order[..j]), map[])
    ensures Binds(b, order) && Heads(Fill(t, b), order[j]) && !Contains(Sequential(Str(above), b), order[j])
  {
    var values := CompletingValues(t, Placeholder(order[j]), Names(order[..j]), map[]);
    var long := |Placeholder(order[j])|;
    b := Valued(order, values, long);
    forall i | 0 <= i < |b| ensures Plain(b[i].value) {}
    forall i | j <= i < |b| ensures b[i].value == Crosses(long) {
      assert order[i] !in order[..j];
    }
    forall m | m in values ensures ValueOf(b, m) == values[m] {
      assert m in order;
      ValuedAgrees(order, values, long, m);
    }
    GoesAway(Str(above), b, j, long);
  }

  /** A template that is not immune, below another one. */
  lemma {:induction false} NotImmune(t: Template, order: seq<string>, above: Template) returns (b: seq<Binding>, j: nat)
    requires !Immune(t, order) && Distinct(order)
    ensures j < |order| && Binds(b, order) && Contains(Fill(t, b), order[j])
            && !Contains(Sequential(Str(above), b), order[j])
    decreases t
  {
    if t.Hole? || !Immune(t.rest, order) {
      b, j := NotImmune(t.rest, order, above);
      var first := if t.Hole? then ValueOf(b, t.name) else [t.c];
      assert Fill(t, b)[|first|..] == Fill(t.rest, b);
      ContainsLater(Fill(t, b), |first|, order[j]);
    } else {
      j :| 0 <= j < |order| && Completes(t, Placeholder(order[j]), Names(order[..j]), map[]);
      b := CompletedPlaceholderSpoils(t, order, j, above);
      assert Fill(t, b)[0..] == Fill(t, b);
    }
  }

  /**
  The exact condition: the passes in the given order are one simultaneous substitution, for all values without
  backslashes, if and only if the template is immune.
   */
  lemma SequentialIffImmune(s: string, order: seq<string>)
    requires Distinct(order) && AllPlain(Names(order))
    ensures (forall b :: Binds(b, order) ==> Sequential(s, b) == Simultaneous(s, Names(order), b)) <==>
              Immune(Parse(s, Names(order)), order)
  {
    var t := Parse(s, Names(order));
    if Immune(t, order) {
      forall b | Binds(b, order) ensures Sequential(s, b) == Simultaneous(s, Names(order), b) {
        ParseTells(s, Names(order), b);
        ImmunePasses(t, order, b);
      }
    } else {
      var b, j := NotImmune(t, order, t);
      ParseTells(s, Names(order), b);
      assert Sequential(s, b) != Fill(t, b);
    }
  }

  /** The simpler condition, which does not look beyond the next placeholder, is a special case. */
  lemma HazardFreeIsImmune(s: string, order: seq<string>)
    requires Distinct(order) && AllPlain(Names(order)) && HazardFree(Parse(s, Names(order)), Names(order))
    ensures Immune(Parse(s, Names(order)), order)
  {
    forall b | Binds(b, order) ensures Sequential(s, b) == Simultaneous(s, Names(order), b) {
      forall x: Binding | x in b ensures x.name in Names(order) && Plain(x.value) {
        var i :| 0 <= i < |b| && b[i] == x;
        assert order[i] in order;
      }
      SequentialIsSimultaneous(s, Names(order), b);
    }
    SequentialIffImmune(s, order);
  }
}
