/** `Interaction`: an SBOL object with four declared slots. Three are owned
    child containers, each accepting one child type and declared `0..*`; the
    fourth is the `types` URI slot, declared `1..*` and seeded with the
    constructor's interaction type. */
module Interaction {
  import opened Results
  import opened SbolErrors
  import opened Property
  import opened Vocabulary

  /** The child object types the containers are declared with. */
  datatype ChildType = FunctionalComponentType | ParticipationType | MeasurementType

  /** A child object: its runtime type and its identity URI. */
  datatype Child = Child(childType: ChildType, identity: string)

  /** An owned child container: the child type it accepts and its slot. */
  datatype Container = Container(accepts: ChildType, slot: Slot<Child>)

  /** The three owned child containers of an Interaction. */
  datatype ContainerName = FunctionalComponents | Participations | Measurements

  datatype Interaction = Interaction(
    rdfType: string,
    identity: string,
    functionalComponents: Container,
    types: Slot<string>,
    participations: Container,
    measurements: Container)

  /** The container an Interaction holds under `name`. */
  function ContainerOf(i: Interaction, name: ContainerName): Container {
    match name
    case FunctionalComponents => i.functionalComponents
    case Participations => i.participations
    case Measurements => i.measurements
  }

  /** `i` with the container under `name` replaced by `c`. */
  function WithContainer(i: Interaction, name: ContainerName, c: Container): Interaction {
    match name
    case FunctionalComponents => i.(functionalComponents := c)
    case Participations => i.(participations := c)
    case Measurements => i.(measurements := c)
  }

  /** The child type each container is declared to accept. */
  function DeclaredChildType(name: ContainerName): ChildType {
    match name
    case FunctionalComponents => FunctionalComponentType
    case Participations => ParticipationType
    case Measurements => MeasurementType
  }

  /** The predicate URI each container is declared with. */
  function DeclaredPredicate(name: ContainerName): string {
    match name
    case FunctionalComponents => SbolFunctionalComponents
    case Participations => SbolParticipations
    case Measurements => SbolMeasurements
  }

  /** The validation rules each container is declared with. */
  function DeclaredRules(name: ContainerName): seq<ValidationRule> {
    match name
    case FunctionalComponents => [LibsbolRule18]
    case Participations => []
    case Measurements => []
  }

  /** The container under `name` carries its declaration: predicate, `0..*`,
      rules, accepted child type. */
  predicate ContainerDeclared(i: Interaction, name: ContainerName) {
    var c := ContainerOf(i, name);
    && c.accepts == DeclaredChildType(name)
    && c.slot.predicateUri == DeclaredPredicate(name)
    && c.slot.lower == 0
    && c.slot.upper == Unbounded
    && c.slot.rules == DeclaredRules(name)
  }

  /** All four slots carry the declarations of `Interaction.__init__`. */
  predicate DeclaredSchema(i: Interaction) {
    && ContainerDeclared(i, FunctionalComponents)
    && ContainerDeclared(i, Participations)
    && ContainerDeclared(i, Measurements)
    && i.types.predicateUri == SbolTypes
    && i.types.lower == 1
    && i.types.upper == Unbounded
    && i.types.rules == []
  }

  /** Every child held under `name` has the container's accepted type. */
  predicate HoldsOnlyDeclaredType(i: Interaction, name: ContainerName) {
    forall k :: 0 <= k < |ContainerOf(i, name).slot.values| ==>
      ContainerOf(i, name).slot.values[k].childType == DeclaredChildType(name)
  }

  /** The invariant every reachable Interaction keeps: declared schema, every
      slot within its bounds, every child of its container's type. */
  predicate WellFormed(i: Interaction) {
    && DeclaredSchema(i)
    && WithinBounds(i.types)
    && WithinBounds(i.functionalComponents.slot)
    && WithinBounds(i.participations.slot)
    && WithinBounds(i.measurements.slot)
    && HoldsOnlyDeclaredType(i, FunctionalComponents)
    && HoldsOnlyDeclaredType(i, Participations)
    && HoldsOnlyDeclaredType(i, Measurements)
  }

  /** An empty container declared as `name` declares it. */
  function EmptyContainer(name: ContainerName): Container {
    Container(DeclaredChildType(name), Slot(DeclaredPredicate(name), 0, Unbounded, DeclaredRules(name), []))
  }

  /** `Interaction(rdf_type, uri, interaction_type)`. The identity is the `uri`
      argument as given. */
  function NewInteraction(rdfType: string, uri: string, interactionType: string): (r: Interaction)
    ensures WellFormed(r)
    ensures r.rdfType == rdfType && r.identity == uri
    ensures r.types.values == [interactionType]
    ensures forall name: ContainerName :: ContainerOf(r, name).slot.values == []
  {
    Interaction(rdfType, uri,
                EmptyContainer(FunctionalComponents),
                Slot(SbolTypes, 1, Unbounded, [], [interactionType]),
                EmptyContainer(Participations),
                EmptyContainer(Measurements))
  }

  /** `Interaction()` with every constructor default. */
  function DefaultInteraction(): (r: Interaction)
    ensures WellFormed(r)
    ensures r.rdfType == SbolInteraction && r.identity == "example"
    ensures r.types.values == [SboInteraction]
  {
    NewInteraction(SbolInteraction, "example", SboInteraction)
  }

  /** The `types` getter: the values of the single backing slot. */
  function Types(i: Interaction): (r: seq<string>)
    ensures WellFormed(i) ==> |r| >= 1
  {
    i.types.values
  }

  /** The `types` setter: writes the backing slot; an empty list violates the
      lower bound and leaves the object untouched. */
  function SetTypes(i: Interaction, newTypes: seq<string>): (r: Result<Interaction, Error>)
    requires DeclaredSchema(i)
    ensures r.Success? <==> |newTypes| >= 1
    ensures r.Failure? ==> IsSbolError(r.error) && Code(r.error) == CardinalityViolation
    ensures r.Success? ==> Types(r.value) == newTypes
    ensures r.Success? ==> r.value == i.(types := r.value.types)
    ensures r.Success? && WellFormed(i) ==> WellFormed(r.value)
  {
    var t :- Write(i.types, newTypes);
    Success(i.(types := t))
  }

  /** Adds a child to the container under `name`; a child of another type is a
      type mismatch and leaves the object untouched. */
  function AddChild(i: Interaction, name: ContainerName, child: Child): (r: Result<Interaction, Error>)
    requires WellFormed(i)
    ensures r.Success? <==> child.childType == DeclaredChildType(name)
    ensures r.Failure? ==> IsSbolError(r.error) && Code(r.error) == TypeMismatch
    ensures r.Success? ==> ContainerOf(r.value, name).slot.values == ContainerOf(i, name).slot.values + [child]
    ensures r.Success? ==> forall other: ContainerName :: other != name ==> ContainerOf(r.value, other) == ContainerOf(i, other)
    ensures r.Success? ==> Types(r.value) == Types(i) && r.value.identity == i.identity && r.value.rdfType == i.rdfType
    ensures r.Success? ==> WellFormed(r.value)
  {
    var c := ContainerOf(i, name);
    if child.childType != c.accepts then
      Failure(WrongChildType(c.slot.predicateUri))
    else
      match Append(c.slot, child)
      case Failure(e) => Failure(e)
      case Success(s) =>
        ReplacedContainerKeepsWellFormed(i, name, c.(slot := s));
        Success(WithContainer(i, name, c.(slot := s)))
  }

  /** Replacing a container by one with the same declaration, within bounds and
      holding only the declared child type keeps the Interaction well-formed. */
  lemma ReplacedContainerKeepsWellFormed(i: Interaction, name: ContainerName, c: Container)
    requires WellFormed(i)
    requires c.accepts == DeclaredChildType(name)
    requires SameDeclaration(ContainerOf(i, name).slot, c.slot) && WithinBounds(c.slot)
    requires forall k :: 0 <= k < |c.slot.values| ==> c.slot.values[k].childType == DeclaredChildType(name)
    ensures WellFormed(WithContainer(i, name, c))
  {
  }

  /** One mutation through the public interface of an Interaction. */
  datatype Mutation = WriteTypes(newTypes: seq<string>) | AddTo(name: ContainerName, child: Child)

  /** Applies one mutation; a refused one raises and leaves the object as it was. */
  function Apply(i: Interaction, m: Mutation): Interaction
    requires WellFormed(i)
  {
    var r := match m
      case WriteTypes(ts) => SetTypes(i, ts)
      case AddTo(name, child) => AddChild(i, name, child);
    if r.Success? then r.value else i
  }

  /** Applies mutations in order. */
  function ApplyAll(i: Interaction, ms: seq<Mutation>): Interaction
    requires WellFormed(i)
    decreases |ms|
  {
    if |ms| == 0 then i
    else
      var next := Apply(i, ms[0]);
      ApplyAll(next, ms[1..])
  }

  /** Whatever mutations follow construction, the object keeps its declared
      schema and bounds; in particular `types` never becomes empty. */
  lemma {:induction false} MutationsKeepWellFormed(i: Interaction, ms: seq<Mutation>)
    requires WellFormed(i)
    ensures WellFormed(ApplyAll(i, ms))
    ensures |Types(ApplyAll(i, ms))| >= 1
    decreases |ms|
  {
    if |ms| > 0 {
      MutationsKeepWellFormed(Apply(i, ms[0]), ms[1..]);
    }
  }
}
