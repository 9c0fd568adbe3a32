/**
 * `com.expretio.maven.plugins.capnproto.ResourceProvider`: fixed relative paths under
 * `src/main/resources/`, nothing staged.
 */
module CapnprotoResources {
  import opened Wrappers
  import opened Files

  const ResourceDir: string := "src/main/resources/"

  /** The names of `src/main/resources/<name>` for a plain file name. */
  lemma ResourceNames(name: string)
    requires name != "" && '/' !in name
    ensures Names(ResourceDir + name) == ["src", "main", "resources", name]
  {
    var r2 := "resources/" + name;
    var r1 := "main/" + r2;
    assert NamesFrom(r2, "") == ["resources", name] by {
      assert r2 == "resources" + "/" + name;
      NamesFromSeparator("resources", name, "");
      NamesFromPlain(name, "");
      assert "" + "resources" == "resources" && "" + name == name;
    }
    assert NamesFrom(r1, "") == ["main"] + NamesFrom(r2, "") by {
      assert r1 == "main" + "/" + r2;
      NamesFromSeparator("main", r2, "");
      assert "" + "main" == "main";
    }
    assert Names(ResourceDir + name) == ["src"] + NamesFrom(r1, "") by {
      assert ResourceDir + name == "src" + "/" + r1;
      NamesFromSeparator("src", r1, "");
      assert "" + "src" == "src";
    }
  }

  /** `new File("src/main/resources/<name>")`: a path relative to the working directory. */
  function Resource(name: string): (f: FilePath)
    requires name != "" && '/' !in name
    ensures f == FilePath(false, ["src", "main", "resources", name])
  {
    ResourceNames(name);
    Parse(ResourceDir + name)
  }

  /** `getCapnp()`. */
  function GetCapnp(): (f: FilePath)
    ensures f == FilePath(false, ["src", "main", "resources", "capnp"])
  {
    Resource("capnp")
  }

  /** `getCapnpcJava()`. */
  function GetCapnpcJava(): (f: FilePath)
    ensures f == FilePath(false, ["src", "main", "resources", "capnpc-java"])
  {
    Resource("capnpc-java")
  }

  /** `getJavaSchema()`. */
  function GetJavaSchema(): (f: FilePath)
    ensures f == FilePath(false, ["src", "main", "resources", "java.capnp"])
  {
    Resource("java.capnp")
  }

  /** `getJavaSchemaDirectory()`: the parent of the java schema, which is never `null`. */
  function GetJavaSchemaDirectory(): (d: Option<FilePath>)
    ensures d == Parent(GetJavaSchema())
    ensures d == Some(FilePath(false, ["src", "main", "resources"]))
  {
    var schema := Resource("java.capnp");
    assert schema.names[..3] == ["src", "main", "resources"];
    Parent(schema)
  }
}
