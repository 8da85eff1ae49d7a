/**
 * The generator's fixed type tables and the classification of a declared
 * type into a scalar value, an empty collection element or a bean reference.
 */
module JavaTypes {

  /** The Java primitive types, as listed by the generator. */
  const PrimitiveTypes: seq<string> := ["byte", "short", "char", "int", "long", "float", "double", "boolean"]

  /** The wrapper classes of java.lang, with String. */
  const WrapperTypes: seq<string> := ["Byte", "Short", "Character", "Integer", "Long", "Float", "Double", "Boolean", "String"]

  /** A type written inline as a `value` (or a `type` plus empty `value`) rather than a reference. */
  predicate IsScalar(t: string) {
    t in PrimitiveTypes || t in WrapperTypes
  }

  /** The `type` attribute of a scalar constructor argument: wrappers are qualified with `java.lang.`. */
  function ScalarTypeAttr(t: string): (r: string)
    requires IsScalar(t)
    ensures t in WrapperTypes ==> r == "java.lang." + t
    ensures t in PrimitiveTypes ==> r == t
  {
    if t in WrapperTypes then "java.lang." + t else t
  }

  /** The four collection types a property may have, each rendered as an empty child element. */
  datatype Container = ListElement | SetElement | MapElement | PropsElement {

    /** The simple name of the java.util type. */
    function TypeName(): string {
      match this
      case ListElement => "List"
      case SetElement => "Set"
      case MapElement => "Map"
      case PropsElement => "Properties"
    }

    /** The name of the child element written inside the `property` element. */
    function Tag(): string {
      match this
      case ListElement => "list"
      case SetElement => "set"
      case MapElement => "map"
      case PropsElement => "props"
    }
  }

  /** The child element's name tells which container the declared type was. */
  lemma TagIdentifiesContainer(c1: Container, c2: Container)
    ensures c1.Tag() == c2.Tag() <==> c1 == c2
  {
  }

  /** A declared type spells `c`, bare or qualified with `java.util.`. */
  predicate Names(t: string, c: Container) {
    t == c.TypeName() || t == "java.util." + c.TypeName()
  }

  /** What a property's declared type becomes in the XML. */
  datatype TypeKind = Scalar | Collection(container: Container) | Reference

  /**
   * The if-chain the generator runs on a property's type: the scalar tables
   * first, then List, Set, Map and Properties, and a reference otherwise.
   */
  function ClassifyProperty(t: string): (k: TypeKind)
    ensures k == Scalar <==> IsScalar(t)
    ensures k.Collection? ==> Names(t, k.container)
    ensures k == Reference <==> !IsScalar(t) && forall c :: !Names(t, c)
  {
    if IsScalar(t) then Scalar
    else if t == "List" || t == "java.util.List" then assert Names(t, ListElement); Collection(ListElement)
    else if t == "Set" || t == "java.util.Set" then assert Names(t, SetElement); Collection(SetElement)
    else if t == "Map" || t == "java.util.Map" then assert Names(t, MapElement); Collection(MapElement)
    else if t == "Properties" || t == "java.util.Properties" then assert Names(t, PropsElement); Collection(PropsElement)
    else Reference
  }

  /** No type is both a primitive and a wrapper, and no scalar names a collection. */
  lemma TablesDisjoint(t: string)
    ensures !(t in PrimitiveTypes && t in WrapperTypes)
    ensures forall c :: IsScalar(t) ==> !Names(t, c)
  {
  }

  /** A type that spells a collection, in either form, is classified as that collection. */
  lemma NamesClassify(t: string, c: Container)
    requires Names(t, c)
    ensures ClassifyProperty(t) == Collection(c)
  {
    TablesDisjoint(t);
    // The bare names differ in their first character, the qualified ones in
    // the character after `java.util.`.
    if t == c.TypeName() {
      assert t[0] == c.TypeName()[0];
    } else {
      assert t[10] == c.TypeName()[0];
    }
  }

  /** Each collection type is recognised under both of its spellings, and only as itself. */
  lemma CollectionNames(c: Container)
    ensures ClassifyProperty(c.TypeName()) == Collection(c)
    ensures ClassifyProperty("java.util." + c.TypeName()) == Collection(c)
  {
    NamesClassify(c.TypeName(), c);
    NamesClassify("java.util." + c.TypeName(), c);
  }
}
