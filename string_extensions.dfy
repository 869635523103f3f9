/// The string extension methods of Sharpener.Extensions that build a culture
/// comparer over a string with a fixed, case-sensitive starting mode.
module StringExtensions {
  import opened StringComparisonModes
  import CultureComparison

  method Current(source: string) returns (c: CultureComparison.CultureStringComparer)
    ensures fresh(c)
    ensures c.Source == source && c.Comparison == CurrentCulture
  {
    c := new CultureComparison.CultureStringComparer(source, CurrentCulture);
  }

  method Invariant(source: string) returns (c: CultureComparison.CultureStringComparer)
    ensures fresh(c)
    ensures c.Source == source && c.Comparison == InvariantCulture
  {
    c := new CultureComparison.CultureStringComparer(source, InvariantCulture);
  }

  method Ordinal(source: string) returns (c: CultureComparison.CultureStringComparer)
    ensures fresh(c)
    ensures c.Source == source && c.Comparison == StringComparison.Ordinal
  {
    c := new CultureComparison.CultureStringComparer(source, StringComparison.Ordinal);
  }

  /// Every factory starts case-sensitive, so source.Ordinal().NoCase() ends in
  /// OrdinalIgnoreCase over the same source.
  method OrdinalNoCase(source: string) returns (c: CultureComparison.CultureStringComparer)
    ensures c.Source == source && c.Comparison == OrdinalIgnoreCase
  {
    c := Ordinal(source);
    c := c.NoCase();
  }

  /// source.Invariant().NoCase() ends in InvariantCultureIgnoreCase.
  method InvariantNoCase(source: string) returns (c: CultureComparison.CultureStringComparer)
    ensures c.Source == source && c.Comparison == InvariantCultureIgnoreCase
  {
    c := Invariant(source);
    c := c.NoCase();
  }

  /// Two comparers built from the same string are distinct objects: a
  /// transition on one leaves the other in its starting mode. In general this
  /// follows from every factory returning a fresh object and every transition
  /// modifying only `this`; the method shows the case of Ordinal and NoCase.
  method IndependentComparers(source: string)
    returns (a: CultureComparison.CultureStringComparer, b: CultureComparison.CultureStringComparer)
    ensures a != b && a.Source == b.Source == source
    ensures a.Comparison == OrdinalIgnoreCase && b.Comparison == StringComparison.Ordinal
  {
    a := Ordinal(source);
    b := Ordinal(source);
    a := a.NoCase();
  }
}
