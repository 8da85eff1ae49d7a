/**
 * `buildBeanElement` as the generator runs it: a scan for the class and
 * package, then one loop per kind of regex match, each appending to the
 * bean in turn.  The method is proved to build exactly the bean that
 * `Beans.BeanOf` specifies.
 */
module Extractor {
  import opened Wrappers
  import opened JavaText
  import opened JavaTypes
  import opened SourceScan
  import opened Beans

  /**
   * The `property` element for a declared type, by the generator's own
   * if-chain: the scalar tables, then List, Set, Map and Properties (bare
   * or qualified with `java.util.`), and a reference otherwise.
   */
  method NewProperty(name: string, t: Token, scalarValue: string) returns (p: Property)
    ensures p == PropertyFor(name, t, scalarValue)
  {
    if t in PrimitiveTypes || t in WrapperTypes {
      p := Property(name, Some(scalarValue), None, None);
    } else if t == "List" || t == "java.util.List" {
      p := Property(name, None, None, Some(ListElement));
    } else if t == "Set" || t == "java.util.Set" {
      p := Property(name, None, None, Some(SetElement));
    } else if t == "Map" || t == "java.util.Map" {
      p := Property(name, None, None, Some(MapElement));
    } else if t == "Properties" || t == "java.util.Properties" {
      p := Property(name, None, None, Some(PropsElement));
    } else {
      p := Property(name, None, Some(LowerFirst(t)), None);
    }
  }

  /**
   * The constructor scan: collect the non-empty parameter lists until the
   * first empty one, and use the parameters only when no default
   * constructor was seen and exactly one constructor was collected.
   */
  method BuildConstructorArgs(cs: seq<ConstructorMatch>) returns (args: seq<ConstructorArg>)
    ensures args == ConstructorArgs(cs)
  {
    var constructors: seq<ConstructorMatch> := [];
    var defaultConstructor := false;
    var i := 0;
    while i < |cs|
      invariant 0 <= i <= |cs|
      invariant constructors == cs[..i]
      invariant forall k :: 0 <= k < i ==> cs[k].parameterList != ""
    {
      if cs[i].parameterList == "" {
        defaultConstructor := true;
        break;
      }
      constructors := constructors + [cs[i]];
      i := i + 1;
    }
    assert defaultConstructor ==> HasDefaultConstructor(cs);
    assert !defaultConstructor ==> constructors == cs && !HasDefaultConstructor(cs);

    args := [];
    if !defaultConstructor && |constructors| == 1 {
      var ps := constructors[0].parameters;
      var index := 0;
      while index < |ps|
        invariant 0 <= index <= |ps|
        invariant args == ArgsFrom(ps[..index])
      {
        var t := ps[index].typeName;
        var arg;
        if t in WrapperTypes || t in PrimitiveTypes {
          var typeAttr := t;
          if t in WrapperTypes {
            typeAttr := "java.lang." + t;
          }
          arg := ConstructorArg(index, Some(typeAttr), Some(""), None);
        } else {
          arg := ConstructorArg(index, None, None, Some(LowerFirst(t)));
        }
        assert ps[..index + 1][..index] == ps[..index];
        args := args + [arg];
        index := index + 1;
      }
      assert ps[..index] == ps;
    }
  }

  /** One property per public field match, in scan order; a scalar takes the initializer text. */
  method BuildFieldProperties(fs: seq<FieldMatch>) returns (properties: seq<Property>)
    ensures properties == FieldProperties(fs)
  {
    properties := [];
    var j := 0;
    while j < |fs|
      invariant 0 <= j <= |fs|
      invariant properties == FieldProperties(fs[..j])
    {
      var f := fs[j];
      var p := NewProperty(f.name, f.typeName, f.initializer.GetOr(""));
      assert fs[..j + 1][..j] == fs[..j];
      properties := properties + [p];
      j := j + 1;
    }
    assert fs[..j] == fs;
  }

  /** One property per setter match, in scan order, named by the lower-cased suffix. */
  method BuildSetterProperties(ss: seq<SetterMatch>) returns (properties: seq<Property>)
    ensures properties == SetterProperties(ss)
  {
    properties := [];
    var j := 0;
    while j < |ss|
      invariant 0 <= j <= |ss|
      invariant properties == SetterProperties(ss[..j])
    {
      var s := ss[j];
      var name := LowerFirst(s.suffix);
      var p := NewProperty(name, s.typeName, "");
      assert ss[..j + 1][..j] == ss[..j];
      properties := properties + [p];
      j := j + 1;
    }
    assert ss[..j] == ss;
  }

  /**
   * The bean for a source file: nothing without a public class; otherwise
   * the header, the constructor arguments, and the field and then the
   * setter properties.
   */
  method BuildBean(source: string, m: Matches) returns (r: Option<Bean>)
    ensures r == BeanOf(source, m)
  {
    var found := FindClassName(source);
    if found.None? {
      return None;
    }
    var className := found.value;
    var packageName := FindPackage(source);
    var id := LowerFirst(className);
    var classAttr := if packageName.None? then className else packageName.value + "." + className;
    var args := BuildConstructorArgs(m.constructors);
    var fieldProperties := BuildFieldProperties(m.fields);
    var setterProperties := BuildSetterProperties(m.setters);
    r := Some(Bean(id, classAttr, args, fieldProperties + setterProperties));
  }
}
