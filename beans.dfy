/**
 * The bean a Java source file describes, as specification functions over
 * the text and the regex matches found in it.
 *
 * A bean's children are its `constructor-arg` elements followed by its
 * `property` elements; the generator appends every argument before any
 * property, so the two sequences fix the document order of the children.
 */
module Beans {
  import opened Wrappers
  import opened JavaText
  import opened JavaTypes
  import opened SourceScan

  /** A `constructor-arg` element: its `index` and the attributes that were set. */
  datatype ConstructorArg = ConstructorArg(index: nat, typeAttr: Option<string>, value: Option<string>, ref: Option<string>)

  /** A `property` element: its `name`, its `value` or `ref` attribute, or its one empty collection child. */
  datatype Property = Property(name: string, value: Option<string>, ref: Option<string>, container: Option<Container>)

  /** A `bean` element: `id`, `class`, and its children in document order. */
  datatype Bean = Bean(id: string, classAttr: string, args: seq<ConstructorArg>, properties: seq<Property>)

  /** A property is written in exactly one of the three forms. */
  predicate HasOneOutcome(p: Property) {
    (p.value.Some? && p.ref.None? && p.container.None?) ||
    (p.value.None? && p.ref.Some? && p.container.None?) ||
    (p.value.None? && p.ref.None? && p.container.Some?)
  }

  // ---------------------------------------------------------------------
  // Bean header

  /** The `class` attribute: the class name, qualified by the package when one was found. */
  function ClassAttr(packageName: Option<string>, className: string): (r: string)
    ensures packageName.None? ==> r == className
    ensures packageName.Some? ==> (|r| == |packageName.value| + 1 + |className| &&
      r[..|packageName.value|] == packageName.value && r[|packageName.value|] == '.')
    ensures |r| >= |className| && r[|r| - |className|..] == className
    ensures packageName.None? <==> r == className
  {
    match packageName
    case None => className
    case Some(p) => p + "." + className
  }

  /** For a given class name, the `class` attribute tells which package (if any) was found. */
  lemma ClassAttrDeterminesPackage(p1: Option<string>, p2: Option<string>, className: string)
    requires ClassAttr(p1, className) == ClassAttr(p2, className)
    ensures p1 == p2
  {
    var r := ClassAttr(p1, className);
    if p1.Some? && p2.Some? {
      assert p1.value == r[..|p1.value|] == p2.value;
    }
  }

  // ---------------------------------------------------------------------
  // Constructor arguments

  /** The `constructor-arg` written for the parameter at `index` with declared type `t`. */
  function ArgFor(index: nat, t: Token): (a: ConstructorArg)
    ensures a.index == index
    ensures IsScalar(t) ==> a.typeAttr == Some(ScalarTypeAttr(t)) && a.value == Some("") && a.ref.None?
    ensures !IsScalar(t) ==> a.ref == Some(LowerFirst(t)) && a.typeAttr.None? && a.value.None?
  {
    if IsScalar(t) then ConstructorArg(index, Some(ScalarTypeAttr(t)), Some(""), None)
    else ConstructorArg(index, None, None, Some(LowerFirst(t)))
  }

  /** Every argument is either a typed empty value or a reference, never both. */
  lemma ArgHasOneOutcome(index: nat, t: Token)
    ensures ArgFor(index, t).value.Some? != ArgFor(index, t).ref.Some?
    ensures ArgFor(index, t).typeAttr.Some? == ArgFor(index, t).value.Some?
  {
  }

  /** The arguments for a parameter list, numbered 0, 1, 2, ... in match order. */
  function ArgsFrom(ps: seq<Parameter>): (r: seq<ConstructorArg>)
    ensures |r| == |ps|
    ensures forall k :: 0 <= k < |ps| ==> r[k] == ArgFor(k, ps[k].typeName)
  {
    if |ps| == 0 then []
    else ArgsFrom(ps[..|ps| - 1]) + [ArgFor(|ps| - 1, ps[|ps| - 1].typeName)]
  }

  /** Some constructor match has an empty parameter list. */
  predicate HasDefaultConstructor(cs: seq<ConstructorMatch>) {
    exists k :: 0 <= k < |cs| && cs[k].parameterList == ""
  }

  /**
   * The constructor whose parameters become arguments: after the scan, none
   * when a default constructor was seen, and otherwise the only one, if
   * exactly one was collected.
   */
  function SelectedConstructor(cs: seq<ConstructorMatch>): (r: Option<ConstructorMatch>)
    ensures r.Some? <==> |cs| == 1 && cs[0].parameterList != ""
    ensures r.Some? ==> r.value == cs[0]
  {
    if !HasDefaultConstructor(cs) && |cs| == 1 then Some(cs[0]) else None
  }

  /**
   * The bean's `constructor-arg` children: those of the one constructor with
   * parameters when it is the only match, and none otherwise.
   */
  function ConstructorArgs(cs: seq<ConstructorMatch>): (r: seq<ConstructorArg>)
    ensures |cs| == 1 && cs[0].parameterList != "" ==> r == ArgsFrom(cs[0].parameters)
    ensures !(|cs| == 1 && cs[0].parameterList != "") ==> r == []
  {
    match SelectedConstructor(cs)
    case None => []
    case Some(c) => ArgsFrom(c.parameters)
  }

  /** A default constructor anywhere in the file suppresses all arguments. */
  lemma DefaultConstructorWins(cs: seq<ConstructorMatch>)
    requires HasDefaultConstructor(cs)
    ensures ConstructorArgs(cs) == []
  {
    var k :| 0 <= k < |cs| && cs[k].parameterList == "";
    assert SelectedConstructor(cs).None?;
  }

  /** Two or more constructors, default or not, give no arguments. */
  lemma SeveralConstructorsGiveNoArgs(cs: seq<ConstructorMatch>)
    requires |cs| >= 2
    ensures ConstructorArgs(cs) == []
  {
  }

  /**
   * One constructor with a non-empty parameter list gives one argument per
   * parameter match, with indices 0 to n-1, scalars as a typed empty value
   * and everything else as a reference to the lower-cased type.
   */
  lemma SingleConstructorArgs(c: ConstructorMatch)
    requires c.parameterList != ""
    ensures var r := ConstructorArgs([c]);
      |r| == |c.parameters| &&
      forall k :: 0 <= k < |r| ==> (r[k].index == k &&
        (IsScalar(c.parameters[k].typeName) ==>
          r[k].typeAttr == Some(ScalarTypeAttr(c.parameters[k].typeName)) && r[k].value == Some("") && r[k].ref.None?) &&
        (!IsScalar(c.parameters[k].typeName) ==>
          r[k].ref == Some(LowerFirst(c.parameters[k].typeName)) && r[k].typeAttr.None? && r[k].value.None?))
  {
    assert SelectedConstructor([c]) == Some(c);
    var r := ConstructorArgs([c]);
    forall k | 0 <= k < |r| ensures r[k] == ArgFor(k, c.parameters[k].typeName) {
    }
  }

  /** Arguments exist only for a file with exactly one constructor, which takes parameters. */
  lemma ArgsNeedOneConstructor(cs: seq<ConstructorMatch>)
    requires ConstructorArgs(cs) != []
    ensures |cs| == 1 && cs[0].parameterList != "" && |ConstructorArgs(cs)| == |cs[0].parameters|
  {
  }

  // ---------------------------------------------------------------------
  // Properties

  /**
   * The `property` written for a declared type: scalars get `scalarValue`,
   * the four collection types an empty child element, others a reference.
   */
  function PropertyFor(name: string, t: Token, scalarValue: string): (p: Property)
    ensures p.name == name
    ensures HasOneOutcome(p)
    ensures p.value.Some? <==> IsScalar(t)
    ensures p.value.Some? ==> p.value.value == scalarValue
    ensures p.container.Some? ==> !IsScalar(t) && Names(t, p.container.value)
    ensures p.ref.Some? <==> !IsScalar(t) && forall c :: !Names(t, c)
    ensures p.ref.Some? ==> p.ref.value == LowerFirst(t)
  {
    match ClassifyProperty(t)
    case Scalar => Property(name, Some(scalarValue), None, None)
    case Collection(c) => Property(name, None, None, Some(c))
    case Reference => Property(name, None, Some(LowerFirst(t)), None)
  }

  /** A collection type, bare or qualified, gives exactly its empty child element. */
  lemma CollectionProperty(name: string, t: Token, scalarValue: string, c: Container)
    requires Names(t, c)
    ensures PropertyFor(name, t, scalarValue) == Property(name, None, None, Some(c))
  {
    NamesClassify(t, c);
  }

  /** The property for a public field: its own name, and the initializer text as a scalar's value. */
  function FieldProperty(f: FieldMatch): (p: Property)
    ensures p.name == f.name
    ensures HasOneOutcome(p)
    ensures IsScalar(f.typeName) ==> p.value == Some(f.initializer.GetOr(""))
  {
    PropertyFor(f.name, f.typeName, f.initializer.GetOr(""))
  }

  /** The property for a setter: the name after `set`, lower-cased first, and an empty value for scalars. */
  function SetterProperty(s: SetterMatch): (p: Property)
    ensures p.name == LowerFirst(s.suffix)
    ensures HasOneOutcome(p)
    ensures IsScalar(s.typeName) ==> p.value == Some("")
  {
    PropertyFor(LowerFirst(s.suffix), s.typeName, "")
  }

  /** One property per field match, in scan order. */
  function FieldProperties(fs: seq<FieldMatch>): (r: seq<Property>)
    ensures |r| == |fs|
    ensures forall k :: 0 <= k < |fs| ==> r[k] == FieldProperty(fs[k])
  {
    if |fs| == 0 then []
    else FieldProperties(fs[..|fs| - 1]) + [FieldProperty(fs[|fs| - 1])]
  }

  /** One property per setter match, in scan order. */
  function SetterProperties(ss: seq<SetterMatch>): (r: seq<Property>)
    ensures |r| == |ss|
    ensures forall k :: 0 <= k < |ss| ==> r[k] == SetterProperty(ss[k])
  {
    if |ss| == 0 then []
    else SetterProperties(ss[..|ss| - 1]) + [SetterProperty(ss[|ss| - 1])]
  }

  // ---------------------------------------------------------------------
  // The bean

  /**
   * The bean for a source file and the matches found in it: nothing when
   * no public class is declared; otherwise the id and class from the
   * class and package names, the constructor arguments, and the field
   * properties followed by the setter properties.
   */
  function BeanOf(source: string, m: Matches): (r: Option<Bean>)
    ensures r.None? <==> FindClassName(source).None?
    ensures r.Some? ==> var name := FindClassName(source).value; var id := r.value.id;
      |id| == |name| && id[0] == LowerChar(name[0]) && id[1..] == name[1..] && !IsUpper(id[0])
    ensures r.Some? ==> var name := FindClassName(source).value; var c := r.value.classAttr;
      |c| >= |name| && c[|c| - |name|..] == name && (FindPackage(source).None? <==> c == name)
    ensures r.Some? && FindPackage(source).Some? ==>
      r.value.classAttr == FindPackage(source).value + "." + FindClassName(source).value
    ensures r.Some? && r.value.args != [] ==> |m.constructors| == 1 && m.constructors[0].parameterList != ""
    ensures r.Some? && |m.constructors| == 1 && m.constructors[0].parameterList != "" ==>
      |r.value.args| == |m.constructors[0].parameters|
    ensures r.Some? ==> |r.value.properties| == |m.fields| + |m.setters|
  {
    match FindClassName(source)
    case None => None
    case Some(className) =>
      var id := LowerFirst(className);
      var classAttr := ClassAttr(FindPackage(source), className);
      assert id[1..] == className[1..];
      assert classAttr[|classAttr| - |className|..] == className;
      Some(Bean(id, classAttr, ConstructorArgs(m.constructors), FieldProperties(m.fields) + SetterProperties(m.setters)))
  }

  /**
   * The children of a bean: the arguments of the only constructor with
   * parameters, the k-th built from its k-th parameter (none in every other
   * case), then one property per field match in scan order, then one per
   * setter match in scan order.
   */
  lemma BeanChildren(source: string, m: Matches)
    requires BeanOf(source, m).Some?
    ensures var b := BeanOf(source, m).value; var cs := m.constructors;
      (|cs| == 1 && cs[0].parameterList != "" ==>
         |b.args| == |cs[0].parameters| &&
         forall k :: 0 <= k < |cs[0].parameters| ==> b.args[k] == ArgFor(k, cs[0].parameters[k].typeName)) &&
      (!(|cs| == 1 && cs[0].parameterList != "") ==> b.args == [])
    ensures var ps := BeanOf(source, m).value.properties; var fs, ss := m.fields, m.setters;
      |ps| == |fs| + |ss| &&
      (forall k :: 0 <= k < |fs| ==> ps[k] == FieldProperty(fs[k])) &&
      (forall k :: 0 <= k < |ss| ==> ps[|fs| + k] == SetterProperty(ss[k]))
  {
    PropertiesLayout(m.fields, m.setters);
  }

  /** A file yields a bean exactly when the class pattern matches somewhere in it. */
  lemma NoClassNoBean(source: string, m: Matches)
    ensures BeanOf(source, m).None? <==> forall i, n :: 0 <= i <= |source| ==> !IsClassMatch(source, i, n)
  {
    FindClassNameIsLeftmostMatch(source);
  }

  /**
   * The properties are all field properties in scan order, then all setter
   * properties in scan order; nothing is merged, so their number is the
   * number of matches.
   */
  lemma PropertiesLayout(fs: seq<FieldMatch>, ss: seq<SetterMatch>)
    ensures var ps := FieldProperties(fs) + SetterProperties(ss);
      |ps| == |fs| + |ss| &&
      (forall k :: 0 <= k < |fs| ==> ps[k] == FieldProperty(fs[k])) &&
      (forall k :: 0 <= k < |ss| ==> ps[|fs| + k] == SetterProperty(ss[k]))
  {
    AppendIndices(FieldProperties(fs), SetterProperties(ss));
  }

  /**
   * Where the elements of two sequences sit in their concatenation, stated
   * apart from the recursive functions above so that their contracts do not
   * enter this proof.
   */
  lemma AppendIndices(a: seq<Property>, b: seq<Property>)
    ensures |a + b| == |a| + |b|
    ensures forall k :: 0 <= k < |a| ==> (a + b)[k] == a[k]
    ensures forall k :: 0 <= k < |b| ==> (a + b)[|a| + k] == b[k]
  {
  }

  /** Every field and setter property is written in exactly one of the three forms. */
  lemma PropertiesHaveOneOutcome(fs: seq<FieldMatch>, ss: seq<SetterMatch>)
    ensures forall p :: p in FieldProperties(fs) + SetterProperties(ss) ==> HasOneOutcome(p)
  {
    PropertiesLayout(fs, ss);
    var ps := FieldProperties(fs) + SetterProperties(ss);
    forall p | p in ps ensures HasOneOutcome(p) {
      var k :| 0 <= k < |ps| && ps[k] == p;
      if k < |fs| {
        assert p == FieldProperty(fs[k]);
      } else {
        assert p == SetterProperty(ss[k - |fs|]);
      }
    }
  }
}
