/// The process-wide registry of Sharpener.Json: one slot for the default
/// serializer type and one for the default deserializer type.
module JsonSettings {

  /// An abstract identifier of a .NET type, standing for what typeof(T) yields.
  /// SystemTo and SystemFrom are the built-in System.Text.Json adapters.
  datatype TypeId = SystemTo | SystemFrom | UserType(name: string)

  /// The contents of the two slots.
  datatype Defaults = Defaults(serializer: TypeId, deserializer: TypeId)

  /// What ResetDefaults installs.
  const BuiltIn := Defaults(SystemTo, SystemFrom)

  // ---------------------------------------------------------------------------
  // The registry's calls as values, so that sequences of calls can be reasoned
  // about.
  // ---------------------------------------------------------------------------

  datatype SettingsCall =
    | SetSerializer(serializer: TypeId)
    | SetDeserializer(deserializer: TypeId)
    | ResetCall

  /// The capability bound of the generic setters: the C# compiler admits
  /// SetDefaultSerializer<T> only for a T in `serializers` (the types that
  /// implement IJsonSerializer and have a public parameterless constructor),
  /// and SetDefaultDeserializer<T> only for a T in `deserializers`.
  predicate Admissible(call: SettingsCall, serializers: set<TypeId>, deserializers: set<TypeId>) {
    match call
    case SetSerializer(t) => t in serializers
    case SetDeserializer(t) => t in deserializers
    case ResetCall => true
  }

  /// Each slot holds a type of its own capability.
  predicate WellTyped(d: Defaults, serializers: set<TypeId>, deserializers: set<TypeId>) {
    d.serializer in serializers && d.deserializer in deserializers
  }

  /// The slots after one call.
  function Perform(d: Defaults, call: SettingsCall): Defaults {
    match call
    case SetSerializer(t) => d.(serializer := t)
    case SetDeserializer(t) => d.(deserializer := t)
    case ResetCall => BuiltIn
  }

  /// The slots after the calls, in order.
  function Run(d: Defaults, calls: seq<SettingsCall>): Defaults
    decreases |calls|
  {
    if calls == [] then d else Perform(Run(d, calls[..|calls| - 1]), calls[|calls| - 1])
  }

  /// The serializer written last in calls (a reset writes SystemTo), or dflt if
  /// no call writes that slot.
  function LastSerializer(calls: seq<SettingsCall>, dflt: TypeId): TypeId
    decreases |calls|
  {
    if calls == [] then dflt
    else match calls[|calls| - 1]
      case SetSerializer(t) => t
      case ResetCall => SystemTo
      case SetDeserializer(_) => LastSerializer(calls[..|calls| - 1], dflt)
  }

  /// The deserializer written last in calls (a reset writes SystemFrom), or
  /// dflt if no call writes that slot.
  function LastDeserializer(calls: seq<SettingsCall>, dflt: TypeId): TypeId
    decreases |calls|
  {
    if calls == [] then dflt
    else match calls[|calls| - 1]
      case SetDeserializer(t) => t
      case ResetCall => SystemFrom
      case SetSerializer(_) => LastDeserializer(calls[..|calls| - 1], dflt)
  }

  // ---------------------------------------------------------------------------
  // Properties of the registry.
  // ---------------------------------------------------------------------------

  /// Last write wins, slot by slot: after any calls each slot holds what the
  /// last call writing it wrote, and a call on one slot never disturbs the other.
  lemma {:induction false} RunLastWriteWins(d: Defaults, calls: seq<SettingsCall>)
    ensures Run(d, calls) == Defaults(LastSerializer(calls, d.serializer),
                                      LastDeserializer(calls, d.deserializer))
    decreases |calls|
  {
    if calls != [] {
      RunLastWriteWins(d, calls[..|calls| - 1]);
    }
  }

  /// After any calls, setting the serializer to a and then to b leaves b in the
  /// serializer slot and the deserializer slot as the earlier calls left it.
  lemma SerializerOverwritten(d: Defaults, calls: seq<SettingsCall>, a: TypeId, b: TypeId)
    ensures Run(d, calls + [SetSerializer(a), SetSerializer(b)])
         == Defaults(b, Run(d, calls).deserializer)
  {
    var all := calls + [SetSerializer(a), SetSerializer(b)];
    assert all[..|all| - 1] == calls + [SetSerializer(a)];
    assert (calls + [SetSerializer(a)])[..|calls|] == calls;
  }

  /// A reset forgets every call before it: what follows behaves as if it
  /// started from the built-in pair.
  lemma {:induction false} ResetForgetsHistory(d: Defaults, before: seq<SettingsCall>, after: seq<SettingsCall>)
    ensures Run(d, before + [ResetCall] + after) == Run(BuiltIn, after)
    decreases |after|
  {
    var calls := before + [ResetCall] + after;
    if after == [] {
      assert calls[..|calls| - 1] == before;
    } else {
      var prefix := after[..|after| - 1];
      assert calls[..|calls| - 1] == before + [ResetCall] + prefix;
      ResetForgetsHistory(d, before, prefix);
    }
  }

  /// Resetting twice equals resetting once, from any slots.
  lemma ResetIdempotent(d: Defaults)
    ensures Perform(Perform(d, ResetCall), ResetCall) == Perform(d, ResetCall) == BuiltIn
  {
  }

  /// The capability invariant: starting from well-typed slots, any sequence of
  /// calls the compiler admits leaves well-typed slots.
  lemma {:induction false} RunPreservesWellTyped(d: Defaults, calls: seq<SettingsCall>,
                                                 serializers: set<TypeId>, deserializers: set<TypeId>)
    requires SystemTo in serializers && SystemFrom in deserializers
    requires WellTyped(d, serializers, deserializers)
    requires forall i :: 0 <= i < |calls| ==> Admissible(calls[i], serializers, deserializers)
    ensures WellTyped(Run(d, calls), serializers, deserializers)
    decreases |calls|
  {
    if calls != [] {
      var prefix := calls[..|calls| - 1];
      assert forall i :: 0 <= i < |prefix| ==> prefix[i] == calls[i];
      RunPreservesWellTyped(d, prefix, serializers, deserializers);
    }
  }

  // ---------------------------------------------------------------------------
  // The static settings class, as an object whose constructor plays the part
  // of the static constructor.
  // ---------------------------------------------------------------------------

  class SharpenerJsonSettings {
    /// The types that satisfy `IJsonSerializer, new()` and `IJsonDeserializer, new()`.
    const Serializers: set<TypeId>
    const Deserializers: set<TypeId>

    var defaultSerializer: TypeId
    var defaultDeserializer: TypeId

    function State(): Defaults
      reads this
    {
      Defaults(defaultSerializer, defaultDeserializer)
    }

    /// The class invariant: the built-in adapters have their capabilities, and
    /// each slot holds a type of its own capability.
    predicate Valid()
      reads this
    {
      SystemTo in Serializers && SystemFrom in Deserializers &&
      WellTyped(State(), Serializers, Deserializers)
    }

    constructor (serializers: set<TypeId>, deserializers: set<TypeId>)
      requires SystemTo in serializers && SystemFrom in deserializers
      ensures Serializers == serializers && Deserializers == deserializers
      ensures Valid() && State() == BuiltIn
    {
      Serializers := serializers;
      Deserializers := deserializers;
      new;
      ResetDefaults();
    }

    method GetDefaultSerializer() returns (t: TypeId)
      requires Valid()
      ensures t == State().serializer && t in Serializers
    {
      t := defaultSerializer;
    }

    method GetDefaultDeserializer() returns (t: TypeId)
      requires Valid()
      ensures t == State().deserializer && t in Deserializers
    {
      t := defaultDeserializer;
    }

    method SetDefaultSerializer(t: TypeId)
      requires t in Serializers
      modifies this`defaultSerializer
      ensures State() == Perform(old(State()), SetSerializer(t))
      ensures defaultSerializer == t && defaultDeserializer == old(defaultDeserializer)
      ensures old(Valid()) ==> Valid()
    {
      defaultSerializer := t;
    }

    method SetDefaultDeserializer(t: TypeId)
      requires t in Deserializers
      modifies this`defaultDeserializer
      ensures State() == Perform(old(State()), SetDeserializer(t))
      ensures defaultDeserializer == t && defaultSerializer == old(defaultSerializer)
      ensures old(Valid()) ==> Valid()
    {
      defaultDeserializer := t;
    }

    method ResetDefaults()
      requires SystemTo in Serializers && SystemFrom in Deserializers
      modifies this
      ensures State() == Perform(old(State()), ResetCall) == BuiltIn
      ensures Valid()
    {
      SetDefaultSerializer(SystemTo);
      SetDefaultDeserializer(SystemFrom);
    }
  }
}
