/**
 * The generator's JUnit expectations, restated about the model: each lemma
 * takes one test input (or the regex matches it produces) and states the
 * attribute values the test asserts.
 */
module GeneratorExamples {
  import opened Wrappers
  import opened JavaText
  import opened JavaTypes
  import opened SourceScan
  import opened Beans

  /** The class name of the generator's smallest test input. */
  lemma ClassNameExample()
    ensures FindClassName("public class Clazz{}") == Some("Clazz")
  {
    assert "public class Clazz{}" == "" + "public class " + "Clazz" + "{}";
    ClassDeclaration("", "Clazz", "{}");
  }

  /** A file without a package statement has no package. */
  lemma NoPackageExample()
    ensures FindPackage("public class Clazz{}") == None
  {
    assert "public class Clazz{}"[1] != "package"[1];
  }

  /** `^\s*` admits only spaces before the keyword: a leading comment hides the package statement. */
  lemma CommentHidesPackage()
    ensures FindPackage("// x\npackage com.example;") == None
  {
    var s := "// x\npackage com.example;";
    assert s[0] == '/';
    PackageNeedsKeywordFirst(s);
  }

  /** `\s+` needs at least one space after the keyword. */
  lemma BarePackageKeyword()
    ensures FindPackage("package;") == None
  {
    assert "package;" == "package" + ";";
  }

  /** The package of the generator's package test. */
  lemma PackageExample()
    ensures FindPackage("package com.example; public class Clazz{}") == Some("com.example")
  {
    var name := "com.example";
    assert forall k :: 0 <= k < |name| ==> name[k] != ';';
    assert "package com.example; public class Clazz{}" == "package " + "com.example" + ";" + " public class Clazz{}";
    PackageDeclaration("com.example", " public class Clazz{}");
  }

  // ---------------------------------------------------------------------
  // Beans.  Each lemma starts from the matches the generator's regexes find
  // in a test's source text, written out by hand.

  /** Three parameter matches give three arguments, numbered in order. */
  lemma ThreeArgs(p0: Parameter, p1: Parameter, p2: Parameter)
    ensures ArgsFrom([p0, p1, p2]) == [ArgFor(0, p0.typeName), ArgFor(1, p1.typeName), ArgFor(2, p2.typeName)]
  {
    var r := ArgsFrom([p0, p1, p2]);
    assert r[0] == ArgFor(0, p0.typeName) && r[1] == ArgFor(1, p1.typeName) && r[2] == ArgFor(2, p2.typeName);
  }

  /** An `int` parameter is written with its own type. */
  lemma IntArg()
    ensures ArgFor(0, "int") == ConstructorArg(0, Some("int"), Some(""), None)
  {
    assert "int" == PrimitiveTypes[3];
  }

  /** A `String` parameter is written with the qualified wrapper type. */
  lemma StringArg()
    ensures ArgFor(1, "String") == ConstructorArg(1, Some("java.lang.String"), Some(""), None)
  {
    assert "String" == WrapperTypes[8];
    assert "java.lang." + "String" == "java.lang.String";
  }

  /** A parameter of a class type is a reference to the bean of that type. */
  lemma ObjectArg()
    ensures ArgFor(2, "AnObject") == ConstructorArg(2, None, None, Some("anObject"))
  {
    assert !IsScalar("AnObject");
    assert LowerFirst("AnObject") == "anObject";
  }

  /** `public Clazz(int arg, String arg2, AnObject obj)`: three arguments, indices 0, 1 and 2. */
  lemma ConstructorArgsExample()
    ensures ConstructorArgs([ConstructorMatch("int arg, String arg2, AnObject obj",
              [Parameter("int", "arg"), Parameter("String", "arg2"), Parameter("AnObject", "obj")])])
         == [ConstructorArg(0, Some("int"), Some(""), None),
             ConstructorArg(1, Some("java.lang.String"), Some(""), None),
             ConstructorArg(2, None, None, Some("anObject"))]
  {
    var c := ConstructorMatch("int arg, String arg2, AnObject obj",
               [Parameter("int", "arg"), Parameter("String", "arg2"), Parameter("AnObject", "obj")]);
    assert SelectedConstructor([c]) == Some(c);
    ThreeArgs(Parameter("int", "arg"), Parameter("String", "arg2"), Parameter("AnObject", "obj"));
    IntArg();
    StringArg();
    ObjectArg();
  }

  /** `public Clazz2(){}` before `public Clazz2(int arg){}`: the default constructor wins. */
  lemma DefaultConstructorExample()
    ensures ConstructorArgs([ConstructorMatch("", []), ConstructorMatch("int arg", [Parameter("int", "arg")])]) == []
  {
  }

  /** `public byte b; public byte bv = 5; public AnObject obj;`: values "" and "5", and a reference. */
  lemma FieldPropertiesExample()
    ensures FieldProperties([FieldMatch("byte", "b", None), FieldMatch("byte", "bv", Some("5")), FieldMatch("AnObject", "obj", None)])
         == [Property("b", Some(""), None, None), Property("bv", Some("5"), None, None), Property("obj", None, Some("anObject"), None)]
  {
    assert IsScalar("byte");
    assert !IsScalar("AnObject") && forall c :: !Names("AnObject", c);
    assert LowerFirst("AnObject") == "anObject";
  }

  /** `public void setFoo(int f)`: a scalar setter, so property `foo` with an empty value. */
  lemma FooSetterExample()
    ensures SetterProperty(SetterMatch("Foo", "int")) == Property("foo", Some(""), None, None)
  {
    assert LowerFirst("Foo") == "foo";
    assert IsScalar("int");
  }

  /** `public void setBar(AnObject b)`: property `bar`, a reference to bean `anObject`. */
  lemma BarSetterExample()
    ensures SetterProperty(SetterMatch("Bar", "AnObject")) == Property("bar", None, Some("anObject"), None)
  {
    assert LowerFirst("Bar") == "bar";
    assert !IsScalar("AnObject") && forall c :: !Names("AnObject", c);
    assert LowerFirst("AnObject") == "anObject";
  }

  /** The setter test: `setFoo` and `setBar` give properties foo and bar, in that order. */
  lemma SetterPropertiesExample()
    ensures SetterProperties([SetterMatch("Foo", "int"), SetterMatch("Bar", "AnObject")])
         == [Property("foo", Some(""), None, None), Property("bar", None, Some("anObject"), None)]
  {
    FooSetterExample();
    BarSetterExample();
  }

  /** `public List list1; public void setList2(java.util.List list2)`: two properties with an empty list. */
  lemma ListPropertiesExample()
    ensures FieldProperties([FieldMatch("List", "list1", None)]) + SetterProperties([SetterMatch("List2", "java.util.List")])
         == [Property("list1", None, None, Some(ListElement)), Property("list2", None, None, Some(ListElement))]
  {
    CollectionProperty("list1", "List", "", ListElement);
    CollectionProperty(LowerFirst("List2"), "java.util.List", "", ListElement);
    assert LowerFirst("List2") == "list2";
  }

  /** With no matches besides the class name, a bean is only its header. */
  lemma HeaderOnlyBean(source: string, name: string, id: string, packageName: Option<string>, classAttr: string)
    requires FindClassName(source) == Some(name) && LowerFirst(name) == id
    requires FindPackage(source) == packageName && ClassAttr(packageName, name) == classAttr
    ensures BeanOf(source, Matches([], [], [])) == Some(Bean(id, classAttr, [], []))
  {
  }

  /** The smallest test: `public class Clazz{}` gives id `clazz`, class `Clazz` and no children. */
  lemma DefaultPackageBeanExample()
    ensures BeanOf("public class Clazz{}", Matches([], [], [])) == Some(Bean("clazz", "Clazz", [], []))
  {
    ClassNameExample();
    NoPackageExample();
    LowerFirstExamples();
    HeaderOnlyBean("public class Clazz{}", "Clazz", "clazz", None, "Clazz");
  }

  /** The class name of the package test, found after the package statement. */
  lemma PackagedClassNameExample()
    ensures FindClassName("package com.example; public class Clazz{}") == Some("Clazz")
  {
    var pre := "package com.example; ";
    assert forall q :: 0 <= q < |pre| ==> pre[q] != 'p' || q + 1 == |pre| || pre[q + 1] != 'u';
    assert "package com.example; public class Clazz{}" == pre + "public class " + "Clazz" + "{}";
    ClassDeclaration(pre, "Clazz", "{}");
  }

  /** The class attribute of the package test. */
  lemma QualifiedClassExample()
    ensures ClassAttr(Some("com.example"), "Clazz") == "com.example.Clazz"
  {
  }

  /** The package test: the class attribute is the package, a dot and the class name. */
  lemma PackageBeanExample()
    ensures BeanOf("package com.example; public class Clazz{}", Matches([], [], []))
         == Some(Bean("clazz", "com.example.Clazz", [], []))
  {
    PackagedClassNameExample();
    PackageExample();
    LowerFirstExamples();
    QualifiedClassExample();
    HeaderOnlyBean("package com.example; public class Clazz{}", "Clazz", "clazz", Some("com.example"), "com.example.Clazz");
  }
}
