# Sharpener: comparison modes and JSON defaults

This project models two small, independent parts of the Sharpener C# library
and proves properties of them in Dafny.

The first part is `CultureStringComparer`. It holds a source string and one of
the six values of .NET's `StringComparison`. The six values are the product of
two dimensions: whether case is ignored, and the locale basis (current culture,
invariant culture or ordinal). Five fluent calls rewrite the mode in place
through fixed tables and return the same object. `NoCase` and `Case` set the
case dimension. `Current`, `Invariant` and `Ordinal` set the locale basis. The
extension methods `Current`, `Invariant` and `Ordinal` on `string` create a
comparer in the matching case-sensitive mode.

In the model:
- `StringComparisonModes` gives the six modes, the two dimension views
  (`IgnoresCase`, `BasisOf`) and `Compose`, which builds the mode with given
  dimensions. `Compose` is the reference definition the tables are checked against.
- `CultureComparison` holds the five tables as functions (`NoCaseOf`, …), their
  laws, and the class `CultureStringComparer`. Its methods assign the field from the tables.
- `Chain` folds a list of fluent calls. `ChainNormalForm` proves that the final
  mode depends only on the last call of each dimension.
- The four terminal predicates take the platform's string primitive as a
  parameter. They have no `modifies` clause, so they cannot change the comparer.

The second part is `SharpenerJsonSettings`. It is a static class with two
mutable slots: the default serializer type and the default deserializer type.
It has getters, generic setters bounded by the `IJsonSerializer, new()` and
`IJsonDeserializer, new()` constraints, and `ResetDefaults`, which installs
`SystemTo` and `SystemFrom`. The static constructor runs `ResetDefaults`.

In the model:
- .NET types are abstract identifiers (`TypeId`).
- The compile-time capability bound is membership in one of two sets,
  `Serializers` and `Deserializers`. These are constants of the object.
- The static class is an object whose constructor plays the static constructor.
- The object keeps the invariant that each slot holds a type of its own capability.
- `Perform` and `Run` describe the calls as values. This lets lemmas state
  last-write-wins, reset and invariant properties over any sequence of calls.

## Model

| member | source | states |
|---|---|---|
| StringComparisonModes.Compose | src/Sharpener/Types/CultureStringComparer.cs:15 | the mode built from a case setting and a locale basis has exactly those two dimensions |
| StringComparisonModes.SameDimensionsSameMode | src/Sharpener/Types/CultureStringComparer.cs:15 | two modes are equal exactly when they agree on both dimensions, so the six modes are the full product of the dimensions |
| CultureComparison.NoCaseOf | src/Sharpener/Types/CultureStringComparer.cs:31-37 | NoCase's table always yields an ignore-case mode with the same locale basis, and leaves an ignore-case mode unchanged |
| CultureComparison.CaseOf | src/Sharpener/Types/CultureStringComparer.cs:46-52 | Case's table always yields a case-sensitive mode with the same locale basis, and leaves a case-sensitive mode unchanged |
| CultureComparison.CurrentOf | src/Sharpener/Types/CultureStringComparer.cs:61-69 | Current's table always yields the current-culture basis, keeps the case setting, and leaves a current-culture mode unchanged |
| CultureComparison.InvariantOf | src/Sharpener/Types/CultureStringComparer.cs:78-86 | Invariant's table always yields the invariant-culture basis, keeps the case setting, and leaves an invariant-culture mode unchanged |
| CultureComparison.OrdinalOf | src/Sharpener/Types/CultureStringComparer.cs:95-103 | Ordinal's table always yields the ordinal basis, keeps the case setting, and leaves an ordinal mode unchanged |
| CultureComparison.Transit | src/Sharpener/Types/CultureStringComparer.cs:29-107 | every transition equals the reference composition that replaces only its own dimension |
| CultureComparison.NoCaseTable | src/Sharpener/Types/CultureStringComparer.cs:31-37 | NoCase maps CurrentCulture, Ordinal and InvariantCulture to their ignore-case counterparts and fixes every ignore-case mode |
| CultureComparison.CaseNoCaseInverse | src/Sharpener/Types/CultureStringComparer.cs:31-54 | Case after NoCase restores any case-sensitive mode; NoCase after Case restores any ignore-case mode |
| CultureComparison.TransitIdempotent | src/Sharpener/Types/CultureStringComparer.cs:31-103 | each of the five transitions applied twice reaches the same mode as applied once |
| CultureComparison.SameDimensionLaterWins | src/Sharpener/Types/CultureStringComparer.cs:31-103 | of two transitions on the same dimension only the later one matters |
| CultureComparison.CrossDimensionCommute | src/Sharpener/Types/CultureStringComparer.cs:31-103 | a case transition and a locale transition reach the same mode in either order, from all six modes |
| CultureComparison.ChainNormalForm | src/Sharpener/Types/CultureStringComparer.cs:29-107 | after any chain of fluent calls the mode is the composition of the last case call's setting and the last locale call's basis, each falling back to the starting mode's own |
| CultureComparison.CultureStringComparer.constructor | src/Sharpener/Types/CultureStringComparer.cs:22-26 | the new comparer holds the given source and mode |
| CultureComparison.CultureStringComparer.NoCase | src/Sharpener/Types/CultureStringComparer.cs:29-41 | rewrites the mode in place through NoCase's table, making it ignore-case with the same basis; returns this; Source is a constant |
| CultureComparison.CultureStringComparer.Case | src/Sharpener/Types/CultureStringComparer.cs:44-56 | rewrites the mode in place through Case's table, making it case-sensitive with the same basis; returns this |
| CultureComparison.CultureStringComparer.Current | src/Sharpener/Types/CultureStringComparer.cs:59-73 | rewrites the mode in place to the current-culture basis, keeping the case setting; returns this |
| CultureComparison.CultureStringComparer.Invariant | src/Sharpener/Types/CultureStringComparer.cs:76-90 | rewrites the mode in place to the invariant-culture basis, keeping the case setting; returns this |
| CultureComparison.CultureStringComparer.Ordinal | src/Sharpener/Types/CultureStringComparer.cs:93-107 | rewrites the mode in place to the ordinal basis, keeping the case setting; returns this |
| CultureComparison.CultureStringComparer.Equals | src/Sharpener/Types/CultureStringComparer.cs:110 | the answer is the platform's equality of Source and the argument under the current mode; nothing is modified |
| CultureComparison.CultureStringComparer.Contains | src/Sharpener/Types/CultureStringComparer.cs:113 | the answer is the platform's containment test under the current mode; nothing is modified |
| CultureComparison.CultureStringComparer.EndsWith | src/Sharpener/Types/CultureStringComparer.cs:116 | the answer is the platform's suffix test under the current mode; nothing is modified |
| CultureComparison.CultureStringComparer.StartsWith | src/Sharpener/Types/CultureStringComparer.cs:119 | the answer is the platform's prefix test under the current mode; nothing is modified |
| StringExtensions.Current | src/Sharpener/Extensions/StringExtensions.cs:20 | builds a fresh comparer over the string in mode CurrentCulture |
| StringExtensions.Invariant | src/Sharpener/Extensions/StringExtensions.cs:23 | builds a fresh comparer over the string in mode InvariantCulture |
| StringExtensions.Ordinal | src/Sharpener/Extensions/StringExtensions.cs:26 | builds a fresh comparer over the string in mode Ordinal |
| StringExtensions.OrdinalNoCase | src/Sharpener/Extensions/StringExtensions.cs:26 | s.Ordinal().NoCase() is a comparer over s in mode OrdinalIgnoreCase |
| StringExtensions.InvariantNoCase | src/Sharpener/Extensions/StringExtensions.cs:23 | s.Invariant().NoCase() is a comparer over s in mode InvariantCultureIgnoreCase |
| StringExtensions.IndependentComparers | src/Sharpener/Extensions/StringExtensions.cs:20-26 | two comparers built from one string are distinct; NoCase on one leaves the other in mode Ordinal |
| JsonSettings.RunLastWriteWins | src/Sharpener.Json/Types/SharpenerJsonSettings.cs:36-51 | after any calls, each slot holds what the last call writing it wrote (a reset writes the built-in type), and a call on one slot never changes the other |
| JsonSettings.SerializerOverwritten | src/Sharpener.Json/Types/SharpenerJsonSettings.cs:36 | setting the serializer to a and then to b leaves b, with the deserializer as before |
| JsonSettings.ResetForgetsHistory | src/Sharpener.Json/Types/SharpenerJsonSettings.cs:47-51 | whatever calls precede a reset, the calls after it act as if they started from (SystemTo, SystemFrom) |
| JsonSettings.ResetIdempotent | src/Sharpener.Json/Types/SharpenerJsonSettings.cs:47-51 | resetting twice is the same as resetting once, both giving (SystemTo, SystemFrom) |
| JsonSettings.RunPreservesWellTyped | src/Sharpener.Json/Types/SharpenerJsonSettings.cs:36-50 | any sequence of calls whose type arguments meet the capability bounds keeps each slot holding a type of its capability |
| JsonSettings.SharpenerJsonSettings.constructor | src/Sharpener.Json/Types/SharpenerJsonSettings.cs:16-18 | initialisation runs ResetDefaults, leaving SystemTo and SystemFrom in the slots and the invariant established |
| JsonSettings.SharpenerJsonSettings.GetDefaultSerializer | src/Sharpener.Json/Types/SharpenerJsonSettings.cs:24 | returns the serializer slot, a type with the serializer capability, and modifies nothing |
| JsonSettings.SharpenerJsonSettings.GetDefaultDeserializer | src/Sharpener.Json/Types/SharpenerJsonSettings.cs:30 | returns the deserializer slot, a type with the deserializer capability, and modifies nothing |
| JsonSettings.SharpenerJsonSettings.SetDefaultSerializer | src/Sharpener.Json/Types/SharpenerJsonSettings.cs:36 | accepts only a type with the serializer capability, writes it to the serializer slot, leaves the deserializer slot alone and keeps the invariant |
| JsonSettings.SharpenerJsonSettings.SetDefaultDeserializer | src/Sharpener.Json/Types/SharpenerJsonSettings.cs:42 | accepts only a type with the deserializer capability, writes it to the deserializer slot, leaves the serializer slot alone and keeps the invariant |
| JsonSettings.SharpenerJsonSettings.ResetDefaults | src/Sharpener.Json/Types/SharpenerJsonSettings.cs:47-51 | from any state, leaves (SystemTo, SystemFrom) in the slots and establishes the invariant |

## Left out

- The comparison semantics of `Equals`, `Contains`, `EndsWith` and `StartsWith`. They come from .NET's culture-aware collation and case folding. The model passes the platform primitive in as a function parameter and states only that the comparer hands it Source, the argument and the current mode.
- `StringExtensions.NoCase` and `Case` on `string`. They build a `CaseStringComparer`, which is not part of this model.
- `SystemTo`, `SystemFrom`, the JSON format and the `WriteJson` / `ReadJsonAs` extension methods, including how a per-call type argument overrides the default. Their source is not part of this model. Types are abstract identifiers, and reflection (`typeof`, `Type`) is not modelled.
- The registry is static in C#. The model makes it one object, whose constructor plays the static constructor. The sets of types meeting the capability bounds are given to that constructor, because in C# they are a fact of the program being compiled.
- The `default!` values the static fields hold before the static constructor body runs. No caller can observe them. In the model the fields hold arbitrary defaults until the constructor calls `ResetDefaults`.
- JsonSettings.SharpenerJsonSettings.SetDefaultSerializer and SetDefaultDeserializer state `old(Valid()) ==> Valid()` rather than requiring `Valid()`. `ResetDefaults` calls them during initialisation, before the invariant holds.
- Thread safety of the unsynchronised static slots: the model is sequential.
- The xUnit tests in SerializationExtensionsTests call `SetDefaultWriter` / `SetDefaultReader`, which `SharpenerJsonSettings` does not define; the tests and the `ForAll` helper are not modelled.
- Null strings: strings are never null in the model, and the exceptions .NET raises for a null `Source` or a null argument of `Equals`, `Contains`, `EndsWith` and `StartsWith` are not modelled.
