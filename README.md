# Spring application-context generator: the bean extractor

The generator reads Java source files and writes a Spring `beans` XML
document with one `bean` element per file that declares a public class.
This project models the core of `ApplicationContextGenerator`:

- **Class and package.** The leftmost `public class <Name>` match decides whether a file yields a bean. An optional leading `package x.y;` qualifies the `class` attribute. Both regexes (`classNameRegex` and `packageRegex`) get concrete scanners. Each scanner is proved equal to a declarative description of what the pattern matches (greedy `\s+` and `\w+`, the lazy package group, `^` anchored at the start of the text).
- **The bean header.** The `id` is the class name with its first character lower-cased. The `class` is the class name, or the package, a dot and the class name.
- **Constructor arguments.** A default constructor anywhere means no arguments. Otherwise, if exactly one constructor was found, its parameters give one `constructor-arg` each. Each argument has an index counted from 0. A scalar gets a `type` and an empty `value`, and any other type gets a `ref`.
- **Properties.** Every public field match gives one `property`, and so does every setter match, fields first. The declared type is classified against the primitive and wrapper tables and the four `java.util` containers. The result is a `value`, an empty `list`/`set`/`map`/`props` child, or a `ref` to the lower-camel type name.
- **The generator object.** The constructor fixes the `schemaLocation` of the root element for a Spring version. `addBean` appends the bean built from one file, or nothing when the file has no public class.
- **The file filter.** `JavaFileFilter.accept` lets through directories other than `.svn`, and files whose names end in `.java`.

The matches of the other four regexes are inputs, each in scan order:

| pattern | what each match gives |
|---|---|
| constructor (`public <Name>(...)`) | the raw parameter-list text, and the `(type, name)` pairs that `parameterRegex` finds in it |
| `publicFieldRegex` | `(type, name, initializer?)` |
| `setterRegex` | `(suffix, type)` |

Modules, one per file:

| module | file | contents |
|---|---|---|
| `Wrappers` | `wrappers.dfy` | the `Option` type |
| `JavaText` | `java_text.dfy` | the `\s` and `\w` classes; first-letter lower-casing |
| `JavaTypes` | `java_types.dfy` | the primitive and wrapper tables; the type classification chain |
| `SourceScan` | `source_scan.dfy` | the class and package scanners and their regex semantics; the match records |
| `Beans` | `beans.dfy` | the bean datatypes; the functions that specify the bean of a file; their lemmas |
| `Extractor` | `extractor.dfy` | `buildBeanElement` as loops over the matches, proved to build the specified bean |
| `AppContext` | `generator.dfy` | the schema location; the generator class with its list of beans |
| `FileFilter` | `file_filter.dfy` | the Java file filter |
| `GeneratorExamples` | `examples.dfy` | the generator's unit-test scenarios, proved about the model |

## Model

Source paths are relative to the repository root.

| member | source | states |
|---|---|---|
| JavaText.IsSpace | src/com/mangst/appcontext/ApplicationContextGenerator.java:187 | the definition of Java's `\s` class used by both scanners: space, tab, newline, vertical tab (0x0B), form feed (0x0C) and carriage return, and nothing else |
| JavaText.IsWordChar | src/com/mangst/appcontext/ApplicationContextGenerator.java:192 | the definition of Java's `\w` class: the ASCII letters, the digits and the underscore, and nothing else |
| JavaText.LowerChar | src/com/mangst/appcontext/ApplicationContextGenerator.java:328 | an ASCII capital becomes the matching small letter; every other character is unchanged; the result is never a capital |
| JavaText.LowerFirst | src/com/mangst/appcontext/ApplicationContextGenerator.java:328 | same length; the first character is `LowerChar` of the input's first character, so a capital becomes its matching small letter and is never left a capital; every later character is unchanged; the result equals the input exactly when the input does not start with a capital |
| JavaText.LowerFirstIdempotent | src/com/mangst/appcontext/ApplicationContextGenerator.java:328 | lower-casing the first letter twice is the same as once |
| JavaText.LowerFirstDeterminesTail | src/com/mangst/appcontext/ApplicationContextGenerator.java:328 | two names with the same lower-first form have the same length and the same characters after the first |
| JavaText.LowerFirstExamples | test/com/mangst/appcontext/ApplicationContextGeneratorTest.java:80-211 | the tests' names: `Clazz`→`clazz`, `AnObject`→`anObject`, `Foo`→`foo`, `List2`→`list2`, and `bar` stays |
| JavaTypes.PrimitiveTypes | src/com/mangst/appcontext/ApplicationContextGenerator.java:212 | the `primatives` table: `byte`, `short`, `char`, `int`, `long`, `float`, `double`, `boolean` |
| JavaTypes.WrapperTypes | src/com/mangst/appcontext/ApplicationContextGenerator.java:217 | the `wrappers` table: `Byte`, `Short`, `Character`, `Integer`, `Long`, `Float`, `Double`, `Boolean`, `String` |
| JavaTypes.IsScalar | src/com/mangst/appcontext/ApplicationContextGenerator.java:357 | the definition: a type is scalar when it is in the primitive table or the wrapper table (`primatives.contains(type)` or `wrappers.contains(type)`, the test at :357, :384 and :414) |
| JavaTypes.ScalarTypeAttr | src/com/mangst/appcontext/ApplicationContextGenerator.java:357-361 | a wrapper type is written with the `java.lang.` prefix; a primitive type is written as is |
| JavaTypes.ClassifyProperty | src/com/mangst/appcontext/ApplicationContextGenerator.java:384-401 | scalar exactly when the type is in one of the two tables; a container only when the type spells that container, bare or `java.util.`-qualified; a reference exactly when neither holds |
| JavaTypes.TablesDisjoint | src/com/mangst/appcontext/ApplicationContextGenerator.java:212-217 | no type is in both tables; no scalar type spells a container |
| JavaTypes.Names | src/com/mangst/appcontext/ApplicationContextGenerator.java:386-397 | the definition of the test `"X".equals(type)` or `"java.util.X".equals(type)` for a container `X` (for fields here, and the same test for setters at :416-427): the type is the bare or the `java.util.`-qualified name, and nothing else |
| JavaTypes.NamesClassify | src/com/mangst/appcontext/ApplicationContextGenerator.java:386-397 | every spelling of a container reaches its own branch of the chain |
| JavaTypes.CollectionNames | src/com/mangst/appcontext/ApplicationContextGenerator.java:386-397 | `List`, `Set`, `Map`, `Properties` and their `java.util.` forms classify as the list, set, map and props containers |
| JavaTypes.TagIdentifiesContainer | src/com/mangst/appcontext/ApplicationContextGenerator.java:386-397 | the child element written for a container (`list`, `set`, `map`, `props`) determines the container, and so the declared type's family |
| SourceScan.SpaceRun | src/com/mangst/appcontext/ApplicationContextGenerator.java:192 | the greedy `\s*` run: all spaces, and not followed by a space |
| SourceScan.WordRun | src/com/mangst/appcontext/ApplicationContextGenerator.java:192 | the greedy `\w*` run: all word characters, and not followed by one |
| SourceScan.ClassMatchAt | src/com/mangst/appcontext/ApplicationContextGenerator.java:192 | a class name found at a position is never empty |
| SourceScan.ClassMatchShape | src/com/mangst/appcontext/ApplicationContextGenerator.java:192 | the definition of a match of `public\s+class\s+(\w+)` at `i`: `public` at `i`, one or more spaces up to `b`, `class` at `b`, one or more spaces up to `d`, word characters from `d` to `e`, and no word character at `e` (the greedy `\w+` takes the whole run) |
| SourceScan.IsClassMatch | src/com/mangst/appcontext/ApplicationContextGenerator.java:192 | the definition: the pattern matches at `i` with group 1 equal to `name` when some such `b`, `d`, `e` exist with `name` the text from `d` to `e` |
| SourceScan.ClassMatchAtSound | src/com/mangst/appcontext/ApplicationContextGenerator.java:192 | a name the scanner finds at a position is a match of `public\s+class\s+(\w+)` there, with that group |
| SourceScan.ClassMatchAtComplete | src/com/mangst/appcontext/ApplicationContextGenerator.java:192 | every match of the pattern at a position is what the scanner finds there |
| SourceScan.ClassMatchAtIsRegexMatch | src/com/mangst/appcontext/ApplicationContextGenerator.java:192 | the scanner finds `name` at a position if and only if the pattern matches there with group 1 equal to `name` |
| SourceScan.FirstClassMatch | src/com/mangst/appcontext/ApplicationContextGenerator.java:312-313 | the first position from `i` at which the class pattern matches, with no match before it; none when no position matches |
| SourceScan.FindClassName | src/com/mangst/appcontext/ApplicationContextGenerator.java:311-317 | none exactly when no position matches; otherwise the nonempty name found at the leftmost matching position |
| SourceScan.FindClassNameAt | src/com/mangst/appcontext/ApplicationContextGenerator.java:312-314 | a match with no match before it gives the class name |
| SourceScan.NoClassMatchAt | src/com/mangst/appcontext/ApplicationContextGenerator.java:192 | no match starts where the text does not read `pu` |
| SourceScan.ClassDeclaration | src/com/mangst/appcontext/ApplicationContextGenerator.java:311-314 | text with no `pu` before `public class <name>`, where the name is followed by a non-word character or the end, yields that name |
| SourceScan.FindClassNameIsLeftmostMatch | src/com/mangst/appcontext/ApplicationContextGenerator.java:311-317 | no bean exactly when the pattern matches nowhere; otherwise the name is the group of a match with no match at any earlier position |
| SourceScan.IndexOf | src/com/mangst/appcontext/ApplicationContextGenerator.java:187 | the first `;` at or after a position, or none when there is none |
| SourceScan.SpaceRunBefore | src/com/mangst/appcontext/ApplicationContextGenerator.java:187 | the start of the run of spaces that ends at a position, which the final `\s*` takes |
| SourceScan.FindPackage | src/com/mangst/appcontext/ApplicationContextGenerator.java:320-324 | a package name contains no `;`; when nonempty it starts and ends with a non-space |
| SourceScan.PackageNeedsKeywordFirst | src/com/mangst/appcontext/ApplicationContextGenerator.java:187 | a text that starts with a character that is neither a space nor `p` has no package statement |
| SourceScan.PackageMatchShape | src/com/mangst/appcontext/ApplicationContextGenerator.java:187 | the definition of a match of `^\s*package\s+(.*?)\s*;` with DOTALL: spaces from 0 to `a`, `package` at `a`, spaces up to a non-space at `g` (the greedy `\s+`), no `;` from `g` to the `;` at `p` (the lazy group stops at the first `;`), and `e` the start of the spaces just before `p` (the group gives them back to `\s*`) |
| SourceScan.IsPackageMatch | src/com/mangst/appcontext/ApplicationContextGenerator.java:187 | the definition: the pattern matches with group 1 equal to `name` when some such `a`, `g`, `e`, `p` exist with `name` the text from `g` to `e` |
| SourceScan.FindPackageSound | src/com/mangst/appcontext/ApplicationContextGenerator.java:187 | a package the scanner finds is a match of `^\s*package\s+(.*?)\s*;` with that group |
| SourceScan.FindPackageComplete | src/com/mangst/appcontext/ApplicationContextGenerator.java:187 | a match of the pattern gives its group as the package |
| SourceScan.FindPackageIsRegexMatch | src/com/mangst/appcontext/ApplicationContextGenerator.java:320-324 | the package is `name` if and only if the pattern matches with group 1 equal to `name` |
| SourceScan.PackageDeclaration | src/com/mangst/appcontext/ApplicationContextGenerator.java:187 | `package <name>;` at the start gives `name` for any name without `;` and without spaces at its ends |
| Beans.ClassAttr | src/com/mangst/appcontext/ApplicationContextGenerator.java:330 | the bare class name exactly when there is no package; otherwise the package, a `.`, then the class name; the class name always ends it |
| Beans.ClassAttrDeterminesPackage | src/com/mangst/appcontext/ApplicationContextGenerator.java:330 | the `class` attribute determines whether there was a package, and which |
| Beans.ArgFor | src/com/mangst/appcontext/ApplicationContextGenerator.java:355-369 | the argument has the given index; a scalar gets its type attribute and an empty value and no ref; any other type gets only the ref to its lower-first name |
| Beans.ArgHasOneOutcome | src/com/mangst/appcontext/ApplicationContextGenerator.java:357-366 | an argument has a value or a ref, never both; a type attribute goes with a value |
| Beans.ArgsFrom | src/com/mangst/appcontext/ApplicationContextGenerator.java:349-372 | one argument per parameter; the k-th argument is built from the k-th parameter with index k |
| Beans.HasDefaultConstructor | src/com/mangst/appcontext/ApplicationContextGenerator.java:340-342 | the definition: some matched constructor has an empty parameter list, which sets `defaultConstructor` |
| Beans.SelectedConstructor | src/com/mangst/appcontext/ApplicationContextGenerator.java:336-347 | a constructor is selected exactly when one constructor was matched and it has parameters; that one is selected |
| Beans.ConstructorArgs | src/com/mangst/appcontext/ApplicationContextGenerator.java:347-373 | the parameters of the only matched constructor become the arguments when it has parameters; in every other case there are none |
| Beans.DefaultConstructorWins | src/com/mangst/appcontext/ApplicationContextGenerator.java:337-347 | any default constructor among the matches, wherever it is, means no arguments |
| Beans.SeveralConstructorsGiveNoArgs | src/com/mangst/appcontext/ApplicationContextGenerator.java:345-347 | two or more matched constructors mean no arguments |
| Beans.SingleConstructorArgs | src/com/mangst/appcontext/ApplicationContextGenerator.java:347-372 | the only constructor, with parameters, gives one argument per parameter, indexed 0, 1, 2, …, each a typed empty value or a ref as its type decides |
| Beans.ArgsNeedOneConstructor | src/com/mangst/appcontext/ApplicationContextGenerator.java:347 | arguments appear only for exactly one matched constructor with parameters, one per parameter |
| Beans.PropertyFor | src/com/mangst/appcontext/ApplicationContextGenerator.java:384-401 | the given name; exactly one of value, ref and container; a value exactly for scalar types, and it is the given value; a container only for a type that spells it; a ref exactly for the other types, to the lower-first type name |
| Beans.CollectionProperty | src/com/mangst/appcontext/ApplicationContextGenerator.java:386-397 | a container type gives a property with only that empty container child |
| Beans.FieldProperty | src/com/mangst/appcontext/ApplicationContextGenerator.java:378-402 | named by the field; one outcome; a scalar field's value is its initializer text, or empty without one |
| Beans.SetterProperty | src/com/mangst/appcontext/ApplicationContextGenerator.java:408-432 | named by the lower-first suffix after `set`; one outcome; a scalar setter's value is empty |
| Beans.FieldProperties | src/com/mangst/appcontext/ApplicationContextGenerator.java:376-403 | one property per field match, the k-th from the k-th match |
| Beans.SetterProperties | src/com/mangst/appcontext/ApplicationContextGenerator.java:406-433 | one property per setter match, the k-th from the k-th match |
| Beans.BeanOf | src/com/mangst/appcontext/ApplicationContextGenerator.java:307-436 | no bean exactly when no public class is found; otherwise the id is the class name with its first character lowered by `LowerChar` and the rest unchanged; the class attribute is the bare class name exactly when no package was found, and the package, a `.` and the class name when one was; arguments appear only for a single constructor with parameters and then one per parameter; there is one property per field and setter match |
| Beans.BeanChildren | src/com/mangst/appcontext/ApplicationContextGenerator.java:334-433 | the bean's arguments are those of the only constructor with parameters, the k-th built from its k-th parameter with index k, and none in every other case; its properties are the field properties in scan order followed by the setter properties in scan order, one per match |
| Beans.NoClassNoBean | src/com/mangst/appcontext/ApplicationContextGenerator.java:312-317 | no bean if and only if the class pattern matches nowhere in the text |
| Beans.PropertiesLayout | src/com/mangst/appcontext/ApplicationContextGenerator.java:376-433 | fields plus setters properties, no de-duplication; the field properties come first in scan order, then the setter properties in scan order |
| Beans.PropertiesHaveOneOutcome | src/com/mangst/appcontext/ApplicationContextGenerator.java:376-433 | every property of a bean has exactly one of value, ref and container |
| Extractor.NewProperty | src/com/mangst/appcontext/ApplicationContextGenerator.java:384-401 | the generator's if-chain builds the property that `Beans.PropertyFor` specifies |
| Extractor.BuildConstructorArgs | src/com/mangst/appcontext/ApplicationContextGenerator.java:334-373 | the constructor loop, with its flag and early `break`, and the parameter loop with its counter build exactly `Beans.ConstructorArgs` |
| Extractor.BuildFieldProperties | src/com/mangst/appcontext/ApplicationContextGenerator.java:376-403 | the field loop builds exactly `Beans.FieldProperties` |
| Extractor.BuildSetterProperties | src/com/mangst/appcontext/ApplicationContextGenerator.java:406-433 | the setter loop builds exactly `Beans.SetterProperties` |
| Extractor.BuildBean | src/com/mangst/appcontext/ApplicationContextGenerator.java:307-436 | `buildBeanElement` builds exactly `Beans.BeanOf`, and nothing without a public class |
| AppContext.SchemaLocation | src/com/mangst/appcontext/ApplicationContextGenerator.java:246 | the beans namespace, a space and the schema URL prefix, then the version, then `.xsd` |
| AppContext.SchemaLocationDeterminesVersion | src/com/mangst/appcontext/ApplicationContextGenerator.java:246 | the schema location determines the Spring version |
| AppContext.SchemaLocationExample | test/com/mangst/appcontext/ApplicationContextGeneratorTest.java:51-58 | version `2.0` gives the `spring-beans-2.0.xsd` location |
| AppContext.ApplicationContextGenerator.constructor | src/com/mangst/appcontext/ApplicationContextGenerator.java:233-248 | the schema location for the given version, and no beans |
| AppContext.ApplicationContextGenerator.AddBean | src/com/mangst/appcontext/ApplicationContextGenerator.java:266-277 | without a public class the beans are unchanged; otherwise the file's bean is appended at the end; the list grows by at most one, exactly when there is a public class, and the earlier beans stay in place |
| AppContext.AddBeanKeepsEarlierBeans | src/com/mangst/appcontext/ApplicationContextGenerator.java:266-277 | adding a file grows the list by at most one; the earlier beans are kept in place; it grows exactly when the file has a public class |
| FileFilter.EndsWith | src/com/mangst/appcontext/ApplicationContextGenerator.java:176 | the definition of `String.endsWith`: the suffix is no longer than the name and equals its last characters |
| FileFilter.Accept | src/com/mangst/appcontext/ApplicationContextGenerator.java:169-181 | a directory is accepted unless it is named `.svn`; a file is accepted exactly when its name ends in `.java` |
| GeneratorExamples.ClassNameExample | test/com/mangst/appcontext/ApplicationContextGeneratorTest.java:80-97 | `public class Clazz{}` declares `Clazz` |
| GeneratorExamples.NoPackageExample | test/com/mangst/appcontext/ApplicationContextGeneratorTest.java:80-97 | `public class Clazz{}` has no package |
| GeneratorExamples.CommentHidesPackage | src/com/mangst/appcontext/ApplicationContextGenerator.java:187 | a comment before the package statement hides it |
| GeneratorExamples.BarePackageKeyword | src/com/mangst/appcontext/ApplicationContextGenerator.java:187 | `package;` is not a package statement, since `\s+` needs a space |
| GeneratorExamples.PackageExample | test/com/mangst/appcontext/ApplicationContextGeneratorTest.java:105-122 | the test's source is in package `com.example` |
| GeneratorExamples.IntArg | test/com/mangst/appcontext/ApplicationContextGeneratorTest.java:364-398 | an `int` parameter at index 0 gives `type="int"` and an empty value |
| GeneratorExamples.StringArg | test/com/mangst/appcontext/ApplicationContextGeneratorTest.java:364-398 | a `String` parameter at index 1 gives `type="java.lang.String"` and an empty value |
| GeneratorExamples.ObjectArg | test/com/mangst/appcontext/ApplicationContextGeneratorTest.java:364-398 | an `AnObject` parameter at index 2 gives `ref="anObject"` |
| GeneratorExamples.ConstructorArgsExample | test/com/mangst/appcontext/ApplicationContextGeneratorTest.java:364-398 | `public Clazz(int arg, String arg2, AnObject obj)` gives the three arguments the test expects |
| GeneratorExamples.DefaultConstructorExample | test/com/mangst/appcontext/ApplicationContextGeneratorTest.java:339-356 | a default constructor before `public Clazz2(int arg)` leaves no arguments |
| GeneratorExamples.FieldPropertiesExample | test/com/mangst/appcontext/ApplicationContextGeneratorTest.java:129-150 | the fields `b`, `bv = 5` and `obj` give values `""` and `"5"` and `ref="anObject"` |
| GeneratorExamples.FooSetterExample | test/com/mangst/appcontext/ApplicationContextGeneratorTest.java:158-177 | `setFoo(int f)` gives property `foo` with an empty value and no ref |
| GeneratorExamples.BarSetterExample | test/com/mangst/appcontext/ApplicationContextGeneratorTest.java:158-177 | `setBar(AnObject b)` gives property `bar` with `ref="anObject"` and no value |
| GeneratorExamples.SetterPropertiesExample | test/com/mangst/appcontext/ApplicationContextGeneratorTest.java:158-177 | `setFoo(int f)` and `setBar(AnObject b)` give `foo` with an empty value and `bar` with `ref="anObject"` |
| GeneratorExamples.ListPropertiesExample | test/com/mangst/appcontext/ApplicationContextGeneratorTest.java:185-211 | a `List` field and a `java.util.List` setter both give an empty list child |
| GeneratorExamples.DefaultPackageBeanExample | test/com/mangst/appcontext/ApplicationContextGeneratorTest.java:80-97 | `public class Clazz{}` gives the bean `clazz` of class `Clazz` |
| GeneratorExamples.PackagedClassNameExample | test/com/mangst/appcontext/ApplicationContextGeneratorTest.java:105-122 | the class name is found after the package statement |
| GeneratorExamples.QualifiedClassExample | test/com/mangst/appcontext/ApplicationContextGeneratorTest.java:105-122 | package `com.example` and class `Clazz` give `com.example.Clazz` |
| GeneratorExamples.PackageBeanExample | test/com/mangst/appcontext/ApplicationContextGeneratorTest.java:105-122 | the packaged source gives the bean `clazz` of class `com.example.Clazz` |

## Left out

- `main` (src/com/mangst/appcontext/ApplicationContextGenerator.java:49-161): argument parsing, help text, the directory walk and printing the document. This is process control and I/O. Its default Spring version is left out with it.
- `getFileContents` (src/com/mangst/appcontext/ApplicationContextGenerator.java:285-299) reads the file through a `Reader`. This is I/O, so the file's text is a `string` parameter.
- The DOM. The XML document, its elements and attribute nodes, `getDocument` and serialisation are not modelled. A bean is a datatype, and the root element is the generator's list of beans. The root's namespace is not represented.
- The regex engine for the constructor, parameter, field and setter patterns (src/com/mangst/appcontext/ApplicationContextGenerator.java:197-207, :334). Their matches are parameters in scan order, and the model does not relate them to the source text. Cases such as matches inside comments or generic types are therefore whatever the given matches say.
- Beans.FieldProperty: a scalar field without an initializer gets the empty value. The Java code passes `null` to `setAttribute` here, and the tests expect an empty `value` attribute.
- Beans.ArgFor: the `index` attribute is the number itself, not its decimal text `index + ""`.
- JavaText.LowerChar: only ASCII capitals are lower-cased, and each to its ASCII small letter. Every lower-cased capture group is made of characters from `\w` (class and setter names), `[a-zA-Z_0-9.]` (field and setter types) or `[a-zA-Z_0-9<>.]` (constructor parameter types), all of them ASCII. `String.toLowerCase()` follows the JVM's default locale, and the model assumes a locale that maps ASCII capitals to ASCII small letters. Under a Turkish or Azerbaijani default locale Java lowers `I` to the dotless `ı` (U+0131), so `Item` gives the id `ıtem`, where the model gives `item`.
- The `JavaFileFilter` is applied by `main` only. The model gives the predicate itself, without the directory walk.
