/**
 * The generator object: the `schemaLocation` of the document's root
 * `beans` element, fixed by the constructor, and the beans appended to
 * that root, one per source file that declares a public class.
 */
module AppContext {
  import opened Wrappers
  import opened SourceScan
  import opened Beans
  import opened Extractor

  /** Everything in the schema location up to the Spring version: the beans namespace, a space, and the schema's URL. */
  const SchemaPrefix: string := "http://www.springframework.org/schema/beans http://www.springframework.org/schema/beans/spring-beans-"

  /** The namespace, a space, and the URL of the schema for the given Spring version. */
  function SchemaLocation(springVersion: string): (r: string)
    ensures |r| == |SchemaPrefix| + |springVersion| + 4
    ensures r[..|SchemaPrefix|] == SchemaPrefix
    ensures r[|SchemaPrefix|..|r| - 4] == springVersion
    ensures r[|r| - 4..] == ".xsd"
  {
    SchemaPrefix + springVersion + ".xsd"
  }

  /** The version can be read back from the schema location. */
  lemma SchemaLocationDeterminesVersion(v1: string, v2: string)
    requires SchemaLocation(v1) == SchemaLocation(v2)
    ensures v1 == v2
  {
    var r := SchemaLocation(v1);
    assert v1 == r[|SchemaPrefix|..|r| - 4] == v2;
  }

  /** The schema location the generator's tests construct the generator with. */
  lemma SchemaLocationExample()
    ensures SchemaLocation("2.0") ==
      "http://www.springframework.org/schema/beans http://www.springframework.org/schema/beans/spring-beans-2.0.xsd"
  {
  }

  class ApplicationContextGenerator {
    /** The `xsi:schemaLocation` attribute of the root element. */
    const schemaLocation: string

    /** The `bean` children of the root element, in the order they were added. */
    var beans: seq<Bean>

    /** A document whose root has no beans yet. */
    constructor(springVersion: string)
      ensures schemaLocation == SchemaLocation(springVersion)
      ensures beans == []
    {
      schemaLocation := SchemaLocation(springVersion);
      beans := [];
    }

    /**
     * Adds the bean for one source file: nothing changes when the file
     * declares no public class; otherwise its bean goes after the others.
     */
    method AddBean(source: string, m: Matches)
      modifies this
      ensures FindClassName(source).None? ==> beans == old(beans)
      ensures FindClassName(source).Some? ==> beans == old(beans) + [BeanOf(source, m).value]
      ensures |old(beans)| <= |beans| <= |old(beans)| + 1
      ensures beans[..|old(beans)|] == old(beans)
      ensures |beans| == |old(beans)| + 1 <==> FindClassName(source).Some?
    {
      var bean := BuildBean(source, m);
      if bean.Some? {
        beans := beans + [bean.value];
      }
      AddBeanKeepsEarlierBeans(old(beans), beans, source, m);
    }
  }

  /** Adding a file never removes or reorders the beans already there, and adds at most one. */
  lemma AddBeanKeepsEarlierBeans(before: seq<Bean>, after: seq<Bean>, source: string, m: Matches)
    requires FindClassName(source).None? ==> after == before
    requires FindClassName(source).Some? ==> after == before + [BeanOf(source, m).value]
    ensures |before| <= |after| <= |before| + 1
    ensures after[..|before|] == before
    ensures |after| == |before| + 1 <==> FindClassName(source).Some?
  {
  }
}
