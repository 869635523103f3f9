/// The fluent comparer of Sharpener.Types: a source string together with a
/// comparison mode that five transitions rewrite in place, one dimension at a
/// time, through fixed lookup tables.
module CultureComparison {
  import opened StringComparisonModes

  // ---------------------------------------------------------------------------
  // The five transition tables. A mode missing from a table is left as it is.
  // ---------------------------------------------------------------------------

  /// The table of NoCase: a case-sensitive mode moves to the ignore-case mode
  /// with the same locale basis.
  function NoCaseOf(m: StringComparison): (r: StringComparison)
    ensures IgnoresCase(r) && BasisOf(r) == BasisOf(m)
    ensures IgnoresCase(m) ==> r == m
  {
    match m
    case CurrentCulture => CurrentCultureIgnoreCase
    case Ordinal => OrdinalIgnoreCase
    case InvariantCulture => InvariantCultureIgnoreCase
    case _ => m
  }

  /// The table of Case: an ignore-case mode moves back to the case-sensitive
  /// mode with the same locale basis.
  function CaseOf(m: StringComparison): (r: StringComparison)
    ensures !IgnoresCase(r) && BasisOf(r) == BasisOf(m)
    ensures !IgnoresCase(m) ==> r == m
  {
    match m
    case CurrentCultureIgnoreCase => CurrentCulture
    case OrdinalIgnoreCase => Ordinal
    case InvariantCultureIgnoreCase => InvariantCulture
    case _ => m
  }

  /// The table of Current: the locale basis becomes the current culture.
  function CurrentOf(m: StringComparison): (r: StringComparison)
    ensures BasisOf(r) == CurrentBasis && IgnoresCase(r) == IgnoresCase(m)
    ensures BasisOf(m) == CurrentBasis ==> r == m
  {
    match m
    case Ordinal => CurrentCulture
    case InvariantCulture => CurrentCulture
    case OrdinalIgnoreCase => CurrentCultureIgnoreCase
    case InvariantCultureIgnoreCase => CurrentCultureIgnoreCase
    case _ => m
  }

  /// The table of Invariant: the locale basis becomes the invariant culture.
  function InvariantOf(m: StringComparison): (r: StringComparison)
    ensures BasisOf(r) == InvariantBasis && IgnoresCase(r) == IgnoresCase(m)
    ensures BasisOf(m) == InvariantBasis ==> r == m
  {
    match m
    case Ordinal => InvariantCulture
    case CurrentCulture => InvariantCulture
    case OrdinalIgnoreCase => InvariantCultureIgnoreCase
    case CurrentCultureIgnoreCase => InvariantCultureIgnoreCase
    case _ => m
  }

  /// The table of Ordinal: the locale basis becomes ordinal code-unit comparison.
  function OrdinalOf(m: StringComparison): (r: StringComparison)
    ensures BasisOf(r) == OrdinalBasis && IgnoresCase(r) == IgnoresCase(m)
    ensures BasisOf(m) == OrdinalBasis ==> r == m
  {
    match m
    case InvariantCulture => Ordinal
    case CurrentCulture => Ordinal
    case InvariantCultureIgnoreCase => OrdinalIgnoreCase
    case CurrentCultureIgnoreCase => OrdinalIgnoreCase
    case _ => m
  }

  // ---------------------------------------------------------------------------
  // Transitions as values, so that chains of fluent calls can be reasoned about.
  // ---------------------------------------------------------------------------

  /// One fluent call: SetCase(true) is NoCase(), SetCase(false) is Case(),
  /// SetBasis(b) is Current(), Invariant() or Ordinal() for b.
  datatype Transition = SetCase(ignoreCase: bool) | SetBasis(basis: Basis)

  /// The mode a transition produces, looked up in that transition's table.
  function Transit(m: StringComparison, t: Transition): (r: StringComparison)
    ensures r == match t
                 case SetCase(i) => Compose(i, BasisOf(m))
                 case SetBasis(b) => Compose(IgnoresCase(m), b)
  {
    var r := match t
      case SetCase(true) => NoCaseOf(m)
      case SetCase(false) => CaseOf(m)
      case SetBasis(CurrentBasis) => CurrentOf(m)
      case SetBasis(InvariantBasis) => InvariantOf(m)
      case SetBasis(OrdinalBasis) => OrdinalOf(m);
    SameDimensionsSameMode(r, Compose(
      if t.SetCase? then t.ignoreCase else IgnoresCase(m),
      if t.SetBasis? then t.basis else BasisOf(m)));
    r
  }

  /// The mode reached from m by the fluent chain m.ts[0]().ts[1]()...
  function Chain(m: StringComparison, ts: seq<Transition>): StringComparison
    decreases |ts|
  {
    if ts == [] then m else Transit(Chain(m, ts[..|ts| - 1]), ts[|ts| - 1])
  }

  /// The case setting of the last case transition in ts, or dflt if there is none.
  function LastCase(ts: seq<Transition>, dflt: bool): bool
    decreases |ts|
  {
    if ts == [] then dflt
    else match ts[|ts| - 1]
      case SetCase(i) => i
      case SetBasis(_) => LastCase(ts[..|ts| - 1], dflt)
  }

  /// The basis of the last locale transition in ts, or dflt if there is none.
  function LastBasis(ts: seq<Transition>, dflt: Basis): Basis
    decreases |ts|
  {
    if ts == [] then dflt
    else match ts[|ts| - 1]
      case SetBasis(b) => b
      case SetCase(_) => LastBasis(ts[..|ts| - 1], dflt)
  }

  // ---------------------------------------------------------------------------
  // Properties of the tables.
  // ---------------------------------------------------------------------------

  /// NoCase on each case-sensitive mode, and its no-op on ignore-case modes.
  lemma NoCaseTable()
    ensures NoCaseOf(CurrentCulture) == CurrentCultureIgnoreCase
    ensures NoCaseOf(Ordinal) == OrdinalIgnoreCase
    ensures NoCaseOf(InvariantCulture) == InvariantCultureIgnoreCase
    ensures forall m :: IgnoresCase(m) ==> NoCaseOf(m) == m
  {
  }

  /// Case undoes NoCase on case-sensitive modes, and NoCase undoes Case on
  /// ignore-case modes.
  lemma CaseNoCaseInverse(m: StringComparison)
    ensures !IgnoresCase(m) ==> CaseOf(NoCaseOf(m)) == m
    ensures IgnoresCase(m) ==> NoCaseOf(CaseOf(m)) == m
  {
    SameDimensionsSameMode(CaseOf(NoCaseOf(m)), m);
    SameDimensionsSameMode(NoCaseOf(CaseOf(m)), m);
  }

  /// Applying any transition twice reaches the mode applying it once does.
  lemma TransitIdempotent(m: StringComparison, t: Transition)
    ensures Transit(Transit(m, t), t) == Transit(m, t)
  {
  }

  /// Within one dimension the later transition wins.
  lemma SameDimensionLaterWins(m: StringComparison, t1: Transition, t2: Transition)
    requires t1.SetCase? == t2.SetCase?
    ensures Transit(Transit(m, t1), t2) == Transit(m, t2)
  {
  }

  /// Transitions on different dimensions commute.
  lemma CrossDimensionCommute(m: StringComparison, ignoreCase: bool, basis: Basis)
    ensures Transit(Transit(m, SetCase(ignoreCase)), SetBasis(basis))
         == Transit(Transit(m, SetBasis(basis)), SetCase(ignoreCase))
  {
  }

  /// The mode at the end of any chain of fluent calls depends only on the last
  /// call of each dimension; either dimension keeps its starting value when the
  /// chain never touches it.
  lemma {:induction false} ChainNormalForm(m: StringComparison, ts: seq<Transition>)
    ensures Chain(m, ts) == Compose(LastCase(ts, IgnoresCase(m)), LastBasis(ts, BasisOf(m)))
    decreases |ts|
  {
    if ts != [] {
      ChainNormalForm(m, ts[..|ts| - 1]);
    }
  }

  // ---------------------------------------------------------------------------
  // The comparer object.
  // ---------------------------------------------------------------------------

  /// A platform string primitive (String.Equals, Contains, EndsWith or
  /// StartsWith with a StringComparison argument): a deterministic function of
  /// the source, the string compared against and the mode.
  type StringPrimitive = (string, string, StringComparison) -> bool

  class CultureStringComparer {
    /// Get-only and set once, by the constructor.
    const Source: string
    var Comparison: StringComparison

    constructor (source: string, comparison: StringComparison)
      ensures Source == source && Comparison == comparison
    {
      Source := source;
      Comparison := comparison;
    }

    method NoCase() returns (r: CultureStringComparer)
      modifies this
      ensures r == this
      ensures Comparison == NoCaseOf(old(Comparison))
      ensures IgnoresCase(Comparison) && BasisOf(Comparison) == BasisOf(old(Comparison))
    {
      var newComparison := NoCaseOf(Comparison);
      Comparison := newComparison;
      r := this;
    }

    method Case() returns (r: CultureStringComparer)
      modifies this
      ensures r == this
      ensures Comparison == CaseOf(old(Comparison))
      ensures !IgnoresCase(Comparison) && BasisOf(Comparison) == BasisOf(old(Comparison))
    {
      var newComparison := CaseOf(Comparison);
      Comparison := newComparison;
      r := this;
    }

    method Current() returns (r: CultureStringComparer)
      modifies this
      ensures r == this
      ensures Comparison == CurrentOf(old(Comparison))
      ensures BasisOf(Comparison) == CurrentBasis && IgnoresCase(Comparison) == IgnoresCase(old(Comparison))
    {
      var newComparison := CurrentOf(Comparison);
      Comparison := newComparison;
      r := this;
    }

    method Invariant() returns (r: CultureStringComparer)
      modifies this
      ensures r == this
      ensures Comparison == InvariantOf(old(Comparison))
      ensures BasisOf(Comparison) == InvariantBasis && IgnoresCase(Comparison) == IgnoresCase(old(Comparison))
    {
      var newComparison := InvariantOf(Comparison);
      Comparison := newComparison;
      r := this;
    }

    method Ordinal() returns (r: CultureStringComparer)
      modifies this
      ensures r == this
      ensures Comparison == OrdinalOf(old(Comparison))
      ensures BasisOf(Comparison) == OrdinalBasis && IgnoresCase(Comparison) == IgnoresCase(old(Comparison))
    {
      var newComparison := OrdinalOf(Comparison);
      Comparison := newComparison;
      r := this;
    }

    /// The terminal predicates hand Source, the argument and the current mode
    /// to the platform primitive; having no modifies clause, they change nothing.
    method Equals(compare: string, stringEquals: StringPrimitive) returns (b: bool)
      ensures b == stringEquals(Source, compare, Comparison)
    {
      b := stringEquals(Source, compare, Comparison);
    }

    method Contains(compare: string, stringContains: StringPrimitive) returns (b: bool)
      ensures b == stringContains(Source, compare, Comparison)
    {
      b := stringContains(Source, compare, Comparison);
    }

    method EndsWith(compare: string, stringEndsWith: StringPrimitive) returns (b: bool)
      ensures b == stringEndsWith(Source, compare, Comparison)
    {
      b := stringEndsWith(Source, compare, Comparison);
    }

    method StartsWith(compare: string, stringStartsWith: StringPrimitive) returns (b: bool)
      ensures b == stringStartsWith(Source, compare, Comparison)
    {
      b := stringStartsWith(Source, compare, Comparison);
    }
  }
}
