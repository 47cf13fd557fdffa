/** Atoms that are quantifier-free terms: substituting variables in them, what they say in a finite
    model, and the lemma languages and settings made of them. */
module AtomTerms {
  import opened Collections
  import opened Syntax
  import opened Semantics
  import opened Subsumption
  import opened BodyForms
  import opened Weakening
  import FM = FiniteModels
  import LS = LemmaSets
  import Q = Quantifiers

  predicate QuantifierFree(t: Term) {
    match t
    case Literal(_) => true
    case Id(_) => true
    case App(_, _, args) => forall i | 0 <= i < |args| :: QuantifierFree(args[i])
    case UnaryOp(_, x) => QuantifierFree(x)
    case BinOp(_, x, y) => QuantifierFree(x) && QuantifierFree(y)
    case NAryOp(_, args) => forall i | 0 <= i < |args| :: QuantifierFree(args[i])
    case Ite(c, x, y) => QuantifierFree(c) && QuantifierFree(x) && QuantifierFree(y)
    case Quantified(_, _, _) => false
  }

  function IdsOf(t: Term): set<string>
    decreases t, 0
  {
    match t
    case Literal(_) => {}
    case Id(name) => {name}
    case App(_, _, args) => IdsOfAll(args)
    case UnaryOp(_, x) => IdsOf(x)
    case BinOp(_, x, y) => IdsOf(x) + IdsOf(y)
    case NAryOp(_, args) => IdsOfAll(args)
    case Ite(c, x, y) => IdsOf(c) + IdsOf(x) + IdsOf(y)
    case Quantified(_, _, _) => {}
  }

  function IdsOfAll(ts: seq<Term>): (r: set<string>)
    ensures forall i | 0 <= i < |ts| :: IdsOf(ts[i]) <= r
    decreases ts, 1
  {
    if ts == [] then {}
    else
      assert forall i | 0 < i < |ts| :: ts[i] == ts[1..][i - 1];
      IdsOf(ts[0]) + IdsOfAll(ts[1..])
  }

  /** Rename the variables of a quantifier-free term. */
  function SubstituteQf(t: Term, s: map<string, string>): Term
    decreases t, 1
  {
    match t
    case Literal(_) => t
    case Id(name) => Id(LS.Target(s, name))
    case App(f, p, args) => App(f, p, SubstituteEach(args, s))
    case UnaryOp(op, x) => UnaryOp(op, SubstituteQf(x, s))
    case BinOp(op, x, y) => BinOp(op, SubstituteQf(x, s), SubstituteQf(y, s))
    case NAryOp(op, args) => NAryOp(op, SubstituteEach(args, s))
    case Ite(c, x, y) => Ite(SubstituteQf(c, s), SubstituteQf(x, s), SubstituteQf(y, s))
    case Quantified(_, _, _) => t
  }

  function SubstituteEach(ts: seq<Term>, s: map<string, string>): (r: seq<Term>)
    ensures |r| == |ts| && forall i | 0 <= i < |ts| :: r[i] == SubstituteQf(ts[i], s)
    decreases ts, 0
  {
    seq(|ts|, i requires 0 <= i < |ts| => SubstituteQf(ts[i], s))
  }

  // The value of a renamed term.

  /** The variables among some names have the values that their renamed ones have. */
  ghost predicate RenamedOn(ids: set<string>, vars: set<string>, s: map<string, string>, a: Assignment, b: Assignment) {
    && s.Keys <= vars && a.Keys <= vars && b.Keys <= vars
    && forall x | x in ids && x in vars :: x in b && LS.Target(s, x) in a && a[LS.Target(s, x)] == b[x]
  }

  lemma RenamedPart(ids: set<string>, part: set<string>, vars: set<string>, s: map<string, string>, a: Assignment, b: Assignment)
    requires RenamedOn(ids, vars, s, a, b) && part <= ids
    ensures RenamedOn(part, vars, s, a, b)
  {
  }

  lemma SubstituteEvalId(name: string, s: map<string, string>, vars: set<string>, m: FM.Model, a: Assignment, b: Assignment)
    requires RenamedOn({name}, vars, s, a, b)
    ensures FM.EvalAssign(Id(LS.Target(s, name)), m, a) == FM.EvalAssign(Id(name), m, b)
  {
    assert name in {name};
  }

  lemma {:induction false} SubstituteEval(t: Term, s: map<string, string>, vars: set<string>, m: FM.Model, a: Assignment, b: Assignment)
    requires QuantifierFree(t) && RenamedOn(IdsOf(t), vars, s, a, b)
    ensures FM.EvalAssign(SubstituteQf(t, s), m, a) == FM.EvalAssign(t, m, b)
    decreases t, 1
  {
    hide RenamedOn, FM.EvalArgs, FM.EvalMany, FM.ValueOf, FM.Compare;
    match t
    case Literal(_) =>
    case Id(name) => SubstituteEvalId(name, s, vars, m, a, b);
    case App(f, p, args) =>
      RenamedArgs(args, IdsOf(t), s, vars, a, b);
      SubstituteEvalArgs(args, s, vars, m, a, b);
    case UnaryOp(op, x) => SubstituteEval(x, s, vars, m, a, b);
    case BinOp(op, x, y) =>
      RenamedPart(IdsOf(t), IdsOf(x), vars, s, a, b);
      RenamedPart(IdsOf(t), IdsOf(y), vars, s, a, b);
      SubstituteEval(x, s, vars, m, a, b);
      SubstituteEval(y, s, vars, m, a, b);
    case NAryOp(op, args) =>
      RenamedArgs(args, IdsOf(t), s, vars, a, b);
      SubstituteEvalMany(args, s, vars, m, a, b, op == And);
    case Ite(c, x, y) =>
      RenamedPart(IdsOf(t), IdsOf(c), vars, s, a, b);
      RenamedPart(IdsOf(t), IdsOf(x), vars, s, a, b);
      RenamedPart(IdsOf(t), IdsOf(y), vars, s, a, b);
      SubstituteEval(c, s, vars, m, a, b);
      SubstituteEval(x, s, vars, m, a, b);
      SubstituteEval(y, s, vars, m, a, b);
  }

  lemma RenamedArgs(args: seq<Term>, ids: set<string>, s: map<string, string>, vars: set<string>, a: Assignment, b: Assignment)
    requires RenamedOn(ids, vars, s, a, b) && ids == IdsOfAll(args)
    requires forall i | 0 <= i < |args| :: QuantifierFree(args[i])
    ensures RenamedOnAll(args, vars, s, a, b)
  {
    hide RenamedOn, QuantifierFree;
    forall i | 0 <= i < |args| ensures RenamedOn(IdsOf(args[i]), vars, s, a, b) {
      RenamedPart(ids, IdsOf(args[i]), vars, s, a, b);
    }
  }

  ghost predicate RenamedOnAll(ts: seq<Term>, vars: set<string>, s: map<string, string>, a: Assignment, b: Assignment) {
    forall i | 0 <= i < |ts| :: QuantifierFree(ts[i]) && RenamedOn(IdsOf(ts[i]), vars, s, a, b)
  }

  lemma {:induction false} SubstituteEvalArgs(ts: seq<Term>, s: map<string, string>, vars: set<string>, m: FM.Model, a: Assignment, b: Assignment)
    requires RenamedOnAll(ts, vars, s, a, b)
    ensures FM.EvalArgs(SubstituteEach(ts, s), m, a) == FM.EvalArgs(ts, m, b)
    decreases ts, 0, |ts|
  {
    if ts != [] {
      assert SubstituteEach(ts, s)[1..] == SubstituteEach(ts[1..], s);
      assert forall i | 0 <= i < |ts[1..]| :: ts[1..][i] == ts[i + 1];
      SubstituteEval(ts[0], s, vars, m, a, b);
      SubstituteEvalArgs(ts[1..], s, vars, m, a, b);
    }
  }

  lemma {:induction false} SubstituteEvalMany(ts: seq<Term>, s: map<string, string>, vars: set<string>, m: FM.Model, a: Assignment, b: Assignment,
                                              truth: bool)
    requires RenamedOnAll(ts, vars, s, a, b)
    ensures FM.EvalMany(SubstituteEach(ts, s), truth, m, a) == FM.EvalMany(ts, truth, m, b)
    decreases ts, 0, |ts|
  {
    if ts != [] {
      assert SubstituteEach(ts, s)[1..] == SubstituteEach(ts[1..], s);
      assert forall i | 0 <= i < |ts[1..]| :: ts[1..][i] == ts[i + 1];
      SubstituteEval(ts[0], s, vars, m, a, b);
      SubstituteEvalMany(ts[1..], s, vars, m, a, b, truth);
    }
  }

  // Renamings that agree, and the one that does nothing.

  ghost predicate SameTargets(ids: set<string>, s: map<string, string>, s': map<string, string>) {
    forall x | x in ids :: LS.Target(s, x) == LS.Target(s', x)
  }

  lemma {:induction false} SubstituteSame(t: Term, s: map<string, string>, s': map<string, string>)
    requires SameTargets(IdsOf(t), s, s')
    ensures SubstituteQf(t, s) == SubstituteQf(t, s')
    decreases t
  {
    match t
    case Literal(_) =>
    case Id(name) =>
    case App(_, _, args) =>
      forall i | 0 <= i < |args| ensures SubstituteQf(args[i], s) == SubstituteQf(args[i], s') { SubstituteSame(args[i], s, s'); }
      assert SubstituteEach(args, s) == SubstituteEach(args, s');
    case UnaryOp(_, x) => SubstituteSame(x, s, s');
    case BinOp(_, x, y) => SubstituteSame(x, s, s'); SubstituteSame(y, s, s');
    case NAryOp(_, args) =>
      forall i | 0 <= i < |args| ensures SubstituteQf(args[i], s) == SubstituteQf(args[i], s') { SubstituteSame(args[i], s, s'); }
      assert SubstituteEach(args, s) == SubstituteEach(args, s');
    case Ite(c, x, y) => SubstituteSame(c, s, s'); SubstituteSame(x, s, s'); SubstituteSame(y, s, s');
    case Quantified(_, _, _) =>
  }

  lemma {:induction false} SubstituteNothing(t: Term)
    ensures SubstituteQf(t, map[]) == t
    decreases t
  {
    match t
    case Literal(_) =>
    case Id(name) =>
    case App(_, _, args) =>
      forall i | 0 <= i < |args| ensures SubstituteQf(args[i], map[]) == args[i] { SubstituteNothing(args[i]); }
      assert SubstituteEach(args, map[]) == args;
    case UnaryOp(_, x) => SubstituteNothing(x);
    case BinOp(_, x, y) => SubstituteNothing(x); SubstituteNothing(y);
    case NAryOp(_, args) =>
      forall i | 0 <= i < |args| ensures SubstituteQf(args[i], map[]) == args[i] { SubstituteNothing(args[i]); }
      assert SubstituteEach(args, map[]) == args;
    case Ite(c, x, y) => SubstituteNothing(c); SubstituteNothing(x); SubstituteNothing(y);
    case Quantified(_, _, _) =>
  }

  // Atoms.

  function IndexIn(terms: seq<Term>, allowed: set<nat>, t: Term): Option<nat> {
    var i := FM.Place(terms, t);
    if i.Some? && i.value in allowed then i else None
  }

  /** The atom that a renaming of variables turns an atom into; an equality may be listed the other way
      around. */
  function SubstituteAtom(terms: seq<Term>, allowed: set<nat>, vars: set<string>, i: nat, s: map<string, string>): Option<nat> {
    if i >= |terms| || !(s.Keys <= vars && s.Values <= vars) then None
    else
      var t := SubstituteQf(terms[i], s);
      if t.BinOp? && t.bop == Equals then
        var turned := IndexIn(terms, allowed, BinOp(Equals, t.rhs, t.lhs));
        if turned.Some? then turned else IndexIn(terms, allowed, t)
      else IndexIn(terms, allowed, t)
  }

  function AtomsFor(terms: seq<Term>, allowed: set<nat>, vars: set<string>): LS.Atoms {
    LS.Atoms((i: nat) => if i < |terms| then IdsOf(terms[i]) * vars else {},
             (i: nat, s: map<string, string>) => SubstituteAtom(terms, allowed, vars, i, s))
  }

  ghost predicate AllQuantifierFree(terms: seq<Term>) {
    forall t | t in terms :: QuantifierFree(t)
  }

  /** Different terms, and no equality both ways around. */
  ghost predicate ProperTerms(terms: seq<Term>) {
    && NoDuplicates(terms) && AllQuantifierFree(terms)
    && forall x, y | BinOp(Equals, x, y) in terms && BinOp(Equals, y, x) in terms :: x == y
  }

  function Kept(asg: Assignment, vars: set<string>): Assignment {
    map x | x in asg && x in vars :: asg[x]
  }

  /** What the atoms say in a finite model, under the values of the variables. */
  function ModelFor(m: FM.Model, sizes: seq<nat>, terms: seq<Term>, vars: set<string>): LS.Model {
    LS.Model(sizes, (i: nat, asg: Assignment) => i < |terms| && FM.EvalAssign(terms[i], m, Kept(asg, vars)) == Some(1))
  }

  lemma AtomValue(terms: seq<Term>, allowed: set<nat>, vars: set<string>, i: nat, s: map<string, string>, m: FM.Model, asg: Assignment)
    requires SubstituteAtom(terms, allowed, vars, i, s).Some?
    ensures i < |terms| && s.Keys <= vars && s.Values <= vars
    ensures var j := SubstituteAtom(terms, allowed, vars, i, s).value;
            j < |terms| && j in allowed && FM.EvalAssign(terms[j], m, asg) == FM.EvalAssign(SubstituteQf(terms[i], s), m, asg)
  {
  }

  /** In a finite model the atoms depend on their variables only, and respect renaming: they make a model
      of the lemma language. */
  lemma TermsModel(m: FM.Model, sizes: seq<nat>, terms: seq<Term>, allowed: set<nat>, vars: set<string>)
    requires AllQuantifierFree(terms) && forall k | 0 <= k < |sizes| :: sizes[k] > 0
    ensures LS.IsModel(ModelFor(m, sizes, terms, vars), AtomsFor(terms, allowed, vars), |sizes|)
  {
    var model, atoms := ModelFor(m, sizes, terms, vars), AtomsFor(terms, allowed, vars);
    hide FM.EvalAssign, QuantifierFree, SubstituteAtom, LS.Renamed, LS.SameOn;
    forall i: nat, a: Assignment, b: Assignment | LS.SameOn(atoms.vars(i), a, b) ensures model.holds(i, a) == model.holds(i, b) {
      if i < |terms| { SameHolds(m, terms[i], vars, a, b); }
    }
    forall i: nat, s: map<string, string>, a: Assignment, b: Assignment | atoms.substitute(i, s).Some? && LS.Renamed(atoms.vars(i), s, a, b)
      ensures model.holds(atoms.substitute(i, s).value, a) == model.holds(i, b)
    {
      AtomValue(terms, allowed, vars, i, s, m, Kept(a, vars));
      RenamedHolds(m, terms[i], vars, s, a, b);
    }
  }

  lemma RenamedHolds(m: FM.Model, t: Term, vars: set<string>, s: map<string, string>, a: Assignment, b: Assignment)
    requires QuantifierFree(t) && s.Keys <= vars && s.Values <= vars && LS.Renamed(IdsOf(t) * vars, s, a, b)
    ensures FM.EvalAssign(SubstituteQf(t, s), m, Kept(a, vars)) == FM.EvalAssign(t, m, Kept(b, vars))
  {
    hide FM.EvalAssign, QuantifierFree;
    forall x | x in IdsOf(t) && x in vars
      ensures x in Kept(b, vars) && LS.Target(s, x) in Kept(a, vars) && Kept(a, vars)[LS.Target(s, x)] == Kept(b, vars)[x]
    {
      assert x in IdsOf(t) * vars;
      if x in s { assert s[x] in s.Values; }
    }
    SubstituteEval(t, s, vars, m, Kept(a, vars), Kept(b, vars));
  }

  lemma SameHolds(m: FM.Model, t: Term, vars: set<string>, a: Assignment, b: Assignment)
    requires QuantifierFree(t) && LS.SameOn(IdsOf(t) * vars, a, b)
    ensures FM.EvalAssign(t, m, Kept(a, vars)) == FM.EvalAssign(t, m, Kept(b, vars))
  {
    hide FM.EvalAssign, QuantifierFree;
    var s: map<string, string> := map[];
    assert LS.Renamed(IdsOf(t) * vars, s, a, b);
    RenamedHolds(m, t, vars, s, a, b);
    SubstituteNothing(t);
  }

  // Renamings of atoms that agree, and the one that does nothing.

  ghost predicate Within(s: map<string, string>, vars: set<string>) {
    s.Keys <= vars && s.Values <= vars
  }

  lemma SubstituteAtomSame(terms: seq<Term>, allowed: set<nat>, vars: set<string>, i: nat, s: map<string, string>, s': map<string, string>)
    requires Within(s, vars) && Within(s', vars) && (i < |terms| ==> SameTargets(IdsOf(terms[i]) * vars, s, s'))
    ensures SubstituteAtom(terms, allowed, vars, i, s) == SubstituteAtom(terms, allowed, vars, i, s')
  {
    if i < |terms| {
      assert SameTargets(IdsOf(terms[i]), s, s') by {
        forall x | x in IdsOf(terms[i]) ensures LS.Target(s, x) == LS.Target(s', x) { if x in vars { assert x in IdsOf(terms[i]) * vars; } }
      }
      SubstituteSame(terms[i], s, s');
    }
  }

  ghost predicate DoesNothing(s: map<string, string>) {
    forall x | x in s :: s[x] == x
  }

  lemma SubstituteAtomNothing(terms: seq<Term>, allowed: set<nat>, vars: set<string>, i: nat, s: map<string, string>)
    requires ProperTerms(terms) && Within(s, vars) && DoesNothing(s) && i < |terms| && i in allowed
    ensures SubstituteAtom(terms, allowed, vars, i, s) == Some(i)
  {
    hide QuantifierFree;
    var t := terms[i];
    SubstituteSame(t, s, map[]);
    SubstituteNothing(t);
    assert t in terms;
    PlaceOf(terms, i);
  }

  lemma {:induction false} PlaceOf<T>(xs: seq<T>, i: nat)
    requires NoDuplicates(xs) && i < |xs|
    ensures FM.Place(xs, xs[i]) == Some(i)
  {
    var j := FM.Place(xs, xs[i]).value;
    assert xs[j] == xs[i];
  }

  // Renaming whole bodies.

  lemma {:induction false} BodySame(e: Elem, atoms: LS.Atoms, s: map<string, string>, s': map<string, string>)
    requires forall i | i in AtomsOf(e) :: atoms.substitute(i, s) == atoms.substitute(i, s')
    ensures LS.Substitute(e, atoms, s) == LS.Substitute(e, atoms, s')
    decreases e, 1
  {
    match e
    case ELit(_, _) =>
    case AndOf(es) => BodiesSame(es, atoms, s, s');
    case Rev(x) => BodySame(x, atoms, s, s');
    case PairOf(x, y) => BodySame(x, atoms, s, s'); BodySame(y, atoms, s, s');
  }

  lemma {:induction false} BodiesSame(es: seq<Elem>, atoms: LS.Atoms, s: map<string, string>, s': map<string, string>)
    requires forall i | i in AtomsOfAll(es) :: atoms.substitute(i, s) == atoms.substitute(i, s')
    ensures LS.SubstituteAll(es, atoms, s) == LS.SubstituteAll(es, atoms, s')
    decreases es, 0
  {
    if es != [] {
      BodySame(es[0], atoms, s, s');
      BodiesSame(es[1..], atoms, s, s');
    }
  }

  lemma {:induction false} BodyNothing(e: Elem, atoms: LS.Atoms, s: map<string, string>)
    requires forall i | i in AtomsOf(e) :: atoms.substitute(i, s) == Some(i)
    ensures LS.Substitute(e, atoms, s) == Some(e)
    decreases e, 1
  {
    match e
    case ELit(_, _) =>
    case AndOf(es) => BodiesNothing(es, atoms, s);
    case Rev(x) => BodyNothing(x, atoms, s);
    case PairOf(x, y) => BodyNothing(x, atoms, s); BodyNothing(y, atoms, s);
  }

  lemma {:induction false} BodiesNothing(es: seq<Elem>, atoms: LS.Atoms, s: map<string, string>)
    requires forall i | i in AtomsOfAll(es) :: atoms.substitute(i, s) == Some(i)
    ensures LS.SubstituteAll(es, atoms, s) == Some(es)
    decreases es, 0
  {
    if es != [] {
      BodyNothing(es[0], atoms, s);
      BodiesNothing(es[1..], atoms, s);
      assert [es[0]] + es[1..] == es;
    }
  }

  lemma {:induction false} VarsInside(e: Elem, terms: seq<Term>, allowed: set<nat>, vars: set<string>)
    ensures LS.Vars(e, AtomsFor(terms, allowed, vars)) <= vars
    ensures forall i | i in AtomsOf(e) && i < |terms| :: IdsOf(terms[i]) * vars <= LS.Vars(e, AtomsFor(terms, allowed, vars))
    decreases e, 1
  {
    match e
    case ELit(_, _) =>
    case AndOf(es) => VarsInsideAll(es, terms, allowed, vars);
    case Rev(x) => VarsInside(x, terms, allowed, vars);
    case PairOf(x, y) => VarsInside(x, terms, allowed, vars); VarsInside(y, terms, allowed, vars);
  }

  lemma {:induction false} VarsInsideAll(es: seq<Elem>, terms: seq<Term>, allowed: set<nat>, vars: set<string>)
    ensures LS.VarsAll(es, AtomsFor(terms, allowed, vars)) <= vars
    ensures forall i | i in AtomsOfAll(es) && i < |terms| :: IdsOf(terms[i]) * vars <= LS.VarsAll(es, AtomsFor(terms, allowed, vars))
    decreases es, 0
  {
    if es != [] {
      VarsInside(es[0], terms, allowed, vars);
      VarsInsideAll(es[1..], terms, allowed, vars);
    }
  }

  // The setting of a prefix.

  /** The permutations of the variables of the blocks from one on. */
  function PermutationsFrom(prefix: Q.Prefix, i: nat, ids: set<string>): seq<map<string, string>>
    requires Q.Proper(prefix)
  {
    if i >= |prefix.names| then [map[]] else Q.PermutationsOf(prefix.names[i..], ids)
  }

  /** The canonical forms of a body under some renamings. */
  function FormsUnder(e: Elem, atoms: LS.Atoms, perms: seq<map<string, string>>): seq<Elem> {
    if perms == [] then []
    else (match LS.Substitute(e, atoms, perms[0]) case Some(r) => [CanonicalForm(r)] case None => []) + FormsUnder(e, atoms, perms[1..])
  }

  ghost predicate SomeFormUnder(e: Elem, atoms: LS.Atoms, perms: seq<map<string, string>>, p: Elem) {
    exists s | s in perms :: FormUnder(e, atoms, s, p)
  }

  lemma {:induction false} FormsMembers(e: Elem, atoms: LS.Atoms, perms: seq<map<string, string>>, p: Elem)
    ensures p in FormsUnder(e, atoms, perms) <==> SomeFormUnder(e, atoms, perms, p)
    decreases |perms|
  {
    if perms != [] {
      FormsMembers(e, atoms, perms[1..], p);
      FirstForm(e, atoms, perms[0], p);
      hide FormUnder, LS.Substitute, CanonicalForm;
      assert perms == [perms[0]] + perms[1..];
      assert SomeFormUnder(e, atoms, perms, p) <==> FormUnder(e, atoms, perms[0], p) || SomeFormUnder(e, atoms, perms[1..], p);
    }
  }

  lemma FirstForm(e: Elem, atoms: LS.Atoms, s: map<string, string>, p: Elem)
    ensures FormUnder(e, atoms, s, p) <==> p in (match LS.Substitute(e, atoms, s) case Some(r) => [CanonicalForm(r)] case None => [])
  {
    hide LS.Substitute, CanonicalForm;
  }

  predicate FormUnder(e: Elem, atoms: LS.Atoms, s: map<string, string>, p: Elem) {
    LS.Substitute(e, atoms, s).Some? && p == CanonicalForm(LS.Substitute(e, atoms, s).value)
  }

  predicate SomeStoredSubsumes(es: set<Elem>, forms: seq<Elem>) {
    exists b | b in es :: exists p | p in forms :: Subsumes(b, p)
  }

  function SettingOf(prefix: Q.Prefix, kind: Kind, limits: Limits, terms: seq<Term>, allowed: seq<nat>, nonUniversal: set<string>): Setting
    requires Q.Proper(prefix)
  {
    var atoms := AtomsFor(terms, (set i | i in allowed), Q.AllVars(prefix));
    var permuted := (i: nat, e: Elem) => FormsUnder(e, atoms, PermutationsFrom(prefix, i, LS.Vars(e, atoms)));
    Setting(prefix, kind, limits, allowed,
            (i: nat) => i < |terms| && terms[i].BinOp? && terms[i].bop == Equals,
            (i: nat) => i < |terms| && !(IdsOf(terms[i]) !! nonUniversal),
            permuted,
            (ignore: seq<(set<Elem>, nat)>, b: Base) =>
              BaseFits(kind, b) && exists x | x in ignore :: SomeStoredSubsumes(x.0, permuted(x.1, CanonicalForm(ToElem(kind, b)))))
  }

  function LanguageOf(prefix: Q.Prefix, kind: Kind, terms: seq<Term>, allowed: seq<nat>): LS.Language {
    LS.Language(prefix.names, AtomsFor(terms, (set i | i in allowed), Q.AllVars(prefix)), FormOf(kind))
  }

  // What the setting satisfies.

  lemma InSomeBlockOf(prefix: Q.Prefix, x: string)
    requires Q.Proper(prefix)
    ensures Q.InSomeBlock(prefix.names, x) <==> x in Q.AllVars(prefix)
  {
  }

  lemma DistinctNames(prefix: Q.Prefix, i: nat)
    requires Q.Proper(prefix) && i <= |prefix.names|
    ensures Q.DistinctBlocks(prefix.names) && Q.DistinctBlocks(prefix.names[i..])
  {
    assert forall j | 0 <= j < |prefix.names| - i :: prefix.names[i..][j] == prefix.names[i + j];
  }

  /** Renaming in the blocks from one on, as a renaming of all variables. */
  function Widened(s: map<string, string>, ids: set<string>): map<string, string> {
    map x | x in ids :: LS.Target(s, x)
  }

  /** Every variable stays in its block, and those of the later blocks are the renamed ones. */
  ghost predicate Stays(names: seq<seq<string>>, i: nat, ids: set<string>, s: map<string, string>) {
    forall k, x | 0 <= k < |names| && x in names[k] && x in ids :: LS.Target(s, x) in names[k] && (k >= i <==> x in s)
  }

  lemma StaysInBlocks(names: seq<seq<string>>, i: nat, ids: set<string>, s: map<string, string>)
    requires Q.DistinctBlocks(names) && i <= |names| && Q.BlockInjection(names[i..], ids, s)
    ensures Stays(names, i, ids, s)
  {
    forall k, x | 0 <= k < |names| && x in names[k] && x in ids ensures LS.Target(s, x) in names[k] && (k >= i <==> x in s) {
      StaysInBlock(names, i, ids, s, k, x);
    }
  }

  lemma StaysInBlock(names: seq<seq<string>>, i: nat, ids: set<string>, s: map<string, string>, k: nat, x: string)
    requires Q.DistinctBlocks(names) && i <= |names| && Q.BlockInjection(names[i..], ids, s) && k < |names| && x in names[k] && x in ids
    ensures LS.Target(s, x) in names[k] && (k >= i <==> x in s)
  {
    var later := names[i..];
    if k >= i {
      assert later[k - i] == names[k];
      assert Q.InSomeBlock(later, x);
    }
    if x in s {
      assert Q.InSomeBlock(later, x);
      var j :| 0 <= j < |later| && x in later[j];
      assert later[j] == names[i + j];
      assert i + j == k;
    }
  }

  lemma WidenedInjective(names: seq<seq<string>>, i: nat, ids: set<string>, s: map<string, string>)
    requires i <= |names| && Q.InjectiveOnBlocks(names[i..], s) && Stays(names, i, ids, s)
    ensures Q.InjectiveOnBlocks(names, Widened(s, ids))
  {
    var w := Widened(s, ids);
    forall k, x, y | 0 <= k < |names| && x in names[k] && y in names[k] && x in w && y in w && w[x] == w[y] ensures x == y {
      if k >= i { assert names[i..][k - i] == names[k]; }
    }
  }

  lemma WidenedWithin(prefix: Q.Prefix, i: nat, ids: set<string>, s: map<string, string>)
    requires Q.Proper(prefix) && i <= |prefix.names| && ids <= Q.AllVars(prefix) && Q.OnBlocks(prefix.names[i..], ids, s)
    requires Stays(prefix.names, i, ids, s)
    ensures Within(s, Q.AllVars(prefix)) && Within(Widened(s, ids), Q.AllVars(prefix))
  {
    var vars := Q.AllVars(prefix);
    hide Q.AllVars, Q.Proper, Q.OnBlocks, Stays;
    forall x | x in ids ensures LS.Target(s, x) in vars { TargetInBlocks(prefix, i, ids, s, x); }
    forall x | x in s ensures x in ids { OnBlocksIds(prefix.names[i..], ids, s, x); }
    forall v | v in s.Values ensures v in vars { var x :| x in s && s[x] == v; assert LS.Target(s, x) == v; }
    forall v | v in Widened(s, ids).Values ensures v in vars { var x :| x in ids && LS.Target(s, x) == v; }
  }

  lemma OnBlocksIds(names: seq<seq<string>>, ids: set<string>, s: map<string, string>, x: string)
    requires Q.OnBlocks(names, ids, s) && x in s
    ensures x in ids
  {
  }

  lemma TargetInBlocks(prefix: Q.Prefix, i: nat, ids: set<string>, s: map<string, string>, x: string)
    requires Q.Proper(prefix) && x in ids && ids <= Q.AllVars(prefix) && Stays(prefix.names, i, ids, s)
    ensures LS.Target(s, x) in Q.AllVars(prefix)
  {
    InSomeBlockOf(prefix, x);
    InSomeBlockOf(prefix, LS.Target(s, x));
    hide Q.AllVars, Q.Proper;
    var k :| 0 <= k < |prefix.names| && x in prefix.names[k];
    assert LS.Target(s, x) in prefix.names[k];
  }

  lemma WidenedInjection(prefix: Q.Prefix, i: nat, ids: set<string>, s: map<string, string>)
    requires Q.Proper(prefix) && i <= |prefix.names| && ids <= Q.AllVars(prefix) && Q.BlockInjection(prefix.names[i..], ids, s)
    ensures Q.BlockInjection(prefix.names, ids, Widened(s, ids))
    ensures Within(s, Q.AllVars(prefix)) && Within(Widened(s, ids), Q.AllVars(prefix)) && SameTargets(ids, s, Widened(s, ids))
  {
    DistinctNames(prefix, i);
    hide Q.Proper, Q.AllVars, Q.DistinctBlocks, Within;
    StaysInBlocks(prefix.names, i, ids, s);
    WidenedInjective(prefix.names, i, ids, s);
    WidenedWithin(prefix, i, ids, s);
    hide Q.InjectiveOnBlocks;
    forall x | x in ids ensures Q.InSomeBlock(prefix.names, x) { InSomeBlockOf(prefix, x); }
  }

  lemma PermutationWithin(prefix: Q.Prefix, i: nat, ids: set<string>, s: map<string, string>)
    requires Q.Proper(prefix) && ids <= Q.AllVars(prefix) && s in PermutationsFrom(prefix, i, ids)
    ensures Q.BlockInjection(prefix.names, ids, Widened(s, ids))
    ensures Within(s, Q.AllVars(prefix)) && Within(Widened(s, ids), Q.AllVars(prefix)) && SameTargets(ids, s, Widened(s, ids))
  {
    var from := if i < |prefix.names| then i else |prefix.names|;
    DistinctNames(prefix, from);
    hide Q.BlockInjection, Q.PermutationsOf, Q.Proper, Q.AllVars, Within, SameTargets;
    if i < |prefix.names| {
      Q.PermutationsExact(prefix.names[i..], ids, s);
    } else {
      NothingInjects(ids);
      assert prefix.names[from..] == [];
    }
    WidenedInjection(prefix, from, ids, s);
  }

  lemma NothingInjects(ids: set<string>)
    ensures Q.BlockInjection([], ids, map[])
  {
  }

  /** The renaming that does nothing is among them. */
  lemma NothingPermutes(prefix: Q.Prefix, i: nat, ids: set<string>) returns (s: map<string, string>)
    requires Q.Proper(prefix)
    ensures s in PermutationsFrom(prefix, i, ids) && DoesNothing(s)
  {
    if i >= |prefix.names| { return map[]; }
    DistinctNames(prefix, i);
    var names := prefix.names[i..];
    s := map x | x in ids && InBlocks(names, x) :: x;
    assert Q.BlockInjection(names, ids, s);
    hide Q.BlockInjection, Q.PermutationsOf;
    Q.PermutationsExact(names, ids, s);
  }

  predicate InBlocks(names: seq<seq<string>>, x: string) {
    exists i :: 0 <= i < |names| && x in names[i]
  }

  lemma BodyTerms(prefix: Q.Prefix, kind: Kind, limits: Limits, terms: seq<Term>, allowed: seq<nat>, nonUniversal: set<string>, e: Elem)
    requires Q.Proper(prefix) && (forall i | i in allowed :: i < |terms|)
    requires BodyOk(SettingOf(prefix, kind, limits, terms, allowed, nonUniversal), e)
    ensures var atoms := LanguageOf(prefix, kind, terms, allowed).atoms;
            LS.Vars(e, atoms) <= Q.AllVars(prefix)
            && (forall i | i in AtomsOf(e) :: i < |terms| && i in allowed && IdsOf(terms[i]) * Q.AllVars(prefix) <= LS.Vars(e, atoms))
            && Has(e, FormOf(kind)) && Canonical(e)
  {
    hide Has, Canonical, Q.AllVars, Q.Proper;
    VarsInside(e, terms, (set i | i in allowed), Q.AllVars(prefix));
  }

  /** The permuted bodies of the setting are permutations in the lemma language. */
  lemma PermutedInLanguage(prefix: Q.Prefix, kind: Kind, limits: Limits, terms: seq<Term>, allowed: seq<nat>, nonUniversal: set<string>, i: nat,
                           e: Elem, p: Elem)
    requires Q.Proper(prefix) && (forall i | i in allowed :: i < |terms|)
    requires var env := SettingOf(prefix, kind, limits, terms, allowed, nonUniversal); BodyOk(env, e) && p in env.permuted(i, e)
    ensures exists s :: IsPermuted(LanguageOf(prefix, kind, terms, allowed), e, s, p)
  {
    var vars, allowedSet, l := Q.AllVars(prefix), (set i | i in allowed), LanguageOf(prefix, kind, terms, allowed);
    BodyTerms(prefix, kind, limits, terms, allowed, nonUniversal, e);
    var ids := LS.Vars(e, l.atoms);
    FormsMembers(e, l.atoms, PermutationsFrom(prefix, i, ids), p);
    var s :| s in PermutationsFrom(prefix, i, ids) && FormUnder(e, l.atoms, s, p);
    PermutationWithin(prefix, i, ids, s);
    var w := Widened(s, ids);
    hide Q.BlockInjection, Q.AllVars, Q.Proper, BodyOk, Has, Canonical, PermutationsFrom, CanonicalForm, Equivalent, LS.Substitute, LS.Vars;
    forall j | j in AtomsOf(e) ensures l.atoms.substitute(j, s) == l.atoms.substitute(j, w) {
      SubstituteAtomSame(terms, allowedSet, vars, j, s, w);
    }
    BodySame(e, l.atoms, s, w);
    LS.SubstituteHas(e, l.atoms, s, FormOf(kind));
    CanonicalFormExact(LS.Substitute(e, l.atoms, s).value, FormOf(kind));
    assert IsPermuted(l, e, w, p);
  }

  lemma SettingInLanguage(prefix: Q.Prefix, kind: Kind, limits: Limits, terms: seq<Term>, allowed: seq<nat>, nonUniversal: set<string>)
    requires Q.Proper(prefix) && forall i | i in allowed :: i < |terms|
    ensures InLanguage(SettingOf(prefix, kind, limits, terms, allowed, nonUniversal), LanguageOf(prefix, kind, terms, allowed))
  {
    var env, l := SettingOf(prefix, kind, limits, terms, allowed, nonUniversal), LanguageOf(prefix, kind, terms, allowed);
    DistinctNames(prefix, 0);
    hide BodyOk, Has, Canonical, IsPermuted, Q.DistinctBlocks, Q.AllVars, LS.Vars, LS.Substitute;
    forall e | BodyOk(env, e) ensures LS.IsLemma(l, prefix, e) { BodyTerms(prefix, kind, limits, terms, allowed, nonUniversal, e); }
    hide SettingOf;
    forall i: nat, e, p | BodyOk(env, e) && p in env.permuted(i, e) ensures exists s :: IsPermuted(l, e, s, p) {
      PermutedInLanguage(prefix, kind, limits, terms, allowed, nonUniversal, i, e, p);
    }
    assert env.prefix == prefix by { PrefixOf(prefix, kind, limits, terms, allowed, nonUniversal); }
  }

  lemma PrefixOf(prefix: Q.Prefix, kind: Kind, limits: Limits, terms: seq<Term>, allowed: seq<nat>, nonUniversal: set<string>)
    requires Q.Proper(prefix)
    ensures SettingOf(prefix, kind, limits, terms, allowed, nonUniversal).prefix == prefix
    ensures SettingOf(prefix, kind, limits, terms, allowed, nonUniversal).kind == kind
  {
  }

  lemma CanonicalFixed(e: Elem, raw: Elem, f: Form)
    requires Has(raw, f) && Has(e, f) && Canonical(e) && Equivalent(raw, e)
    ensures CanonicalForm(raw) == e
  {
    CanonicalFormExact(raw, f);
    hide Has, Canonical, Covers, Leq, CanonicalForm;
    var c := CanonicalForm(raw);
    CoversTransitive(c, raw, e, f);
    CoversTransitive(e, raw, c, f);
    CoversImpliesLeq(c, e, f);
    CoversImpliesLeq(e, c, f);
    LeqAntisymmetric(c, e, f);
  }

  /** Leaving a body as it is is one of its permutations. */
  lemma OwnPermutation(prefix: Q.Prefix, kind: Kind, limits: Limits, terms: seq<Term>, allowed: seq<nat>, nonUniversal: set<string>, i: nat, e: Elem)
    requires Q.Proper(prefix) && ProperTerms(terms) && forall j | j in allowed :: j < |terms|
    requires BodyOk(SettingOf(prefix, kind, limits, terms, allowed, nonUniversal), e)
    ensures e in SettingOf(prefix, kind, limits, terms, allowed, nonUniversal).permuted(i, e)
  {
    var vars, allowedSet, l := Q.AllVars(prefix), (set j | j in allowed), LanguageOf(prefix, kind, terms, allowed);
    BodyTerms(prefix, kind, limits, terms, allowed, nonUniversal, e);
    var ids := LS.Vars(e, l.atoms);
    var s := NothingPermutes(prefix, i, ids);
    PermutationWithin(prefix, i, ids, s);
    CoversReflexive(e);
    CanonicalFixed(e, e, FormOf(kind));
    FormsMembers(e, l.atoms, PermutationsFrom(prefix, i, ids), e);
    hide Q.AllVars, Q.Proper, BodyOk, Has, Canonical, PermutationsFrom, CanonicalForm, Covers, LS.Substitute, LS.Vars, ProperTerms, FormsUnder;
    forall j | j in AtomsOf(e) ensures l.atoms.substitute(j, s) == Some(j) { SubstituteAtomNothing(terms, allowedSet, vars, j, s); }
    BodyNothing(e, l.atoms, s);
    assert FormUnder(e, l.atoms, s, e);
  }

  /** What a set to ignore stores is ignored. */
  lemma StoredIsIgnored(prefix: Q.Prefix, kind: Kind, limits: Limits, terms: seq<Term>, allowed: seq<nat>, nonUniversal: set<string>,
                        ignore: seq<(set<Elem>, nat)>, b: Base, x: (set<Elem>, nat), e: Elem)
    requires Q.Proper(prefix) && BaseFits(kind, b) && x in ignore && e in x.0 && Has(e, FormOf(kind)) && Canonical(e)
    requires Equivalent(ToElem(kind, b), e)
    requires e in SettingOf(prefix, kind, limits, terms, allowed, nonUniversal).permuted(x.1, e)
    ensures SettingOf(prefix, kind, limits, terms, allowed, nonUniversal).ignored(ignore, b)
  {
    ToElemTrue(kind, b, _ => true);
    CanonicalFixed(e, ToElem(kind, b), FormOf(kind));
    CoversReflexive(e);
    SubsumesExact(e, e, FormOf(kind));
    hide Subsumes, Has, Canonical, CanonicalForm, ToElem, Covers, FormsUnder, PermutationsFrom, LS.Vars;
    assert SomeStoredSubsumes(x.0, SettingOf(prefix, kind, limits, terms, allowed, nonUniversal).permuted(x.1, e));
  }

  /** The setting made of terms does what weakening relies on: its permutations stay in the lemma language,
      a body is a permutation of itself, what is stored is ignored, and implication in every model with nonempty
      sorts is a preorder in which a body is above what it subsumes. */
  lemma SettingSound(prefix: Q.Prefix, kind: Kind, limits: Limits, terms: seq<Term>, allowed: seq<nat>, nonUniversal: set<string>)
    requires Q.Proper(prefix) && ProperTerms(terms) && forall i | i in allowed :: i < |terms|
    ensures var env := SettingOf(prefix, kind, limits, terms, allowed, nonUniversal); var l := LanguageOf(prefix, kind, terms, allowed);
            InLanguage(env, l) && Plain(env) && Covering(env, Implication(env, l))
  {
    var env, l := SettingOf(prefix, kind, limits, terms, allowed, nonUniversal), LanguageOf(prefix, kind, terms, allowed);
    SettingInLanguage(prefix, kind, limits, terms, allowed, nonUniversal);
    PrefixOf(prefix, kind, limits, terms, allowed, nonUniversal);
    hide SettingOf, LanguageOf, BodyOk, ToElem, Equivalent, InLanguage, ProperTerms, Covering, Implication;
    ImplicationCovers(env, l);
    forall i: nat, e | BodyOk(env, e) ensures e in env.permuted(i, e) {
      OwnPermutation(prefix, kind, limits, terms, allowed, nonUniversal, i, e);
    }
    forall ignore: seq<(set<Elem>, nat)>, b: Base | BaseFits(env.kind, b) && IgnoredIn(env, ignore, b) ensures env.ignored(ignore, b) {
      var x: (set<Elem>, nat), e: Elem :| x in ignore && e in x.0 && BodyOk(env, e) && Equivalent(ToElem(env.kind, b), e);
      OkForm(env, e);
      StoredIsIgnored(prefix, kind, limits, terms, allowed, nonUniversal, ignore, b, x, e);
    }
  }

  lemma OkForm(env: Setting, e: Elem)
    requires BodyOk(env, e)
    ensures Has(e, FormOf(env.kind)) && Canonical(e)
  {
  }
}
