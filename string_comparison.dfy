/// The six values of .NET's System.StringComparison enumeration, seen as the
/// product of two independent dimensions: whether case is ignored, and which
/// locale basis (current culture, invariant culture or ordinal code units) the
/// comparison uses.
module StringComparisonModes {

  datatype StringComparison =
    | CurrentCulture
    | CurrentCultureIgnoreCase
    | InvariantCulture
    | InvariantCultureIgnoreCase
    | Ordinal
    | OrdinalIgnoreCase

  /// The locale-basis dimension of a comparison mode.
  datatype Basis = CurrentBasis | InvariantBasis | OrdinalBasis

  /// The case dimension of a comparison mode.
  predicate IgnoresCase(m: StringComparison) {
    m.CurrentCultureIgnoreCase? || m.InvariantCultureIgnoreCase? || m.OrdinalIgnoreCase?
  }

  function BasisOf(m: StringComparison): Basis {
    match m
    case CurrentCulture | CurrentCultureIgnoreCase => CurrentBasis
    case InvariantCulture | InvariantCultureIgnoreCase => InvariantBasis
    case Ordinal | OrdinalIgnoreCase => OrdinalBasis
  }

  /// The mode with the given value in each dimension: the reference definition
  /// against which the transition tables are checked.
  function Compose(ignoreCase: bool, basis: Basis): (m: StringComparison)
    ensures IgnoresCase(m) == ignoreCase && BasisOf(m) == basis
  {
    match basis
    case CurrentBasis => if ignoreCase then CurrentCultureIgnoreCase else CurrentCulture
    case InvariantBasis => if ignoreCase then InvariantCultureIgnoreCase else InvariantCulture
    case OrdinalBasis => if ignoreCase then OrdinalIgnoreCase else Ordinal
  }

  /// The two dimensions determine the mode: every mode is the composition of its
  /// own dimensions, so no two of the six values share both.
  lemma Decompose(m: StringComparison)
    ensures Compose(IgnoresCase(m), BasisOf(m)) == m
  {
    match m
    case CurrentCulture =>
    case CurrentCultureIgnoreCase =>
    case InvariantCulture =>
    case InvariantCultureIgnoreCase =>
    case Ordinal =>
    case OrdinalIgnoreCase =>
  }

  lemma SameDimensionsSameMode(m1: StringComparison, m2: StringComparison)
    ensures (IgnoresCase(m1) == IgnoresCase(m2) && BasisOf(m1) == BasisOf(m2)) <==> m1 == m2
  {
    Decompose(m1);
    Decompose(m2);
  }
}
