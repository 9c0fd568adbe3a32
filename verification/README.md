# capnp-maven-plugin core, modelled in Dafny

The capnp-maven-plugin is a Maven plugin that runs the Cap'n Proto schema compiler (`capnp compile`
with the java plugin `capnpc-java`) over a project's schema files. It writes the generated Java
sources into an output directory. The repository holds three generations of the plugin, each with
its own compiler adapter, resource provider and mojo. The variants are modelled one by one, each
against its own code:

- `org.expretio.maven.plugins.capnp`. The compiler adapter is `CapnpCompiler`, with its `Builder`
  and `Command`. `ResourceProvider` stages the native files of a `Platform` from the classpath.
  `NativesManager` holds a registry of native descriptors keyed by OS and architecture. The
  `generate` mojo is `CapnProtoMojo`.
- `com.expretio.maven.plugins.capnp`. It has a `CapnpCompiler` that also rejects regular files
  where directories are expected, and a `ResourceProvider` over three fixed resource names.
- `com.expretio.maven.plugins.capnproto`. Its `CapnpCompiler` validates in its constructor and runs
  one process for all schemas. Its `ResourceProvider` has constant paths, and its `CapnProtoMojo`
  discovers schemas by a recursive file listing.

The world outside the plugin becomes values:
- The filesystem is the class `Files.FileSystem`, a map from absolute name lists to directories and
  regular files, together with the directory relative paths resolve against.
- `java.io.File` is `Files.FilePath`.
- Shared `ArrayList`s are `Lists.JList` objects, so aliasing between a builder and the command it
  builds is kept.
- A process launch is an oracle from an invocation to an outcome: an exit value, or an I/O or
  interruption failure.
- The classpath is a map from resource locations to bytes.
- A parsed natives descriptor is a `NativesManagement.Descriptor` record.
- The class loader, the JNA canonical-architecture lookup, the host OS constant and URL streams are
  function parameters.
- The order of a directory traversal or listing is a parameter, given as the names below the root of
  every entry visited.

Where Java code can throw, the model returns a `Result` or an `Option` of a fault datatype with one
case per exception the code raises. A case keeps the data the message is built from, not the
formatted message. Some cases carry data the Java exception does not. `Platforms.UnsupportedPlatform`,
for example, holds the OS name and architecture, while `Platform.detect()` reports only the list of
supported platforms. Every class method is specified against a function
on values (`Fetch`, `RegisterOf`, `SetupOf`, `CompileOf`, `RunSchemas`, `SchemasOf`, ...), and the
properties the code promises are proved about those functions.

## Model

| member | source | states |
|---|---|---|
| Orchestration.Launch | src/main/java/org/expretio/maven/plugins/capnp/CapnpCompiler.java:136-142 | `Command.get(schema)`: the argument vector is the base vector followed by exactly one more word, the schema; working directory and streams are passed through |
| Orchestration.FaultOf | src/main/java/org/expretio/maven/plugins/capnp/CapnpCompiler.java:86-98 | a schema fails exactly when its process does not exit with 0; a non-zero exit reports the schema and exit value, a launch/wait failure reports the schema and the cause |
| Orchestration.Launches | src/main/java/org/expretio/maven/plugins/capnp/CapnpCompiler.java:61-68 | the launches of a list of schemas are one per schema, in list order |
| Orchestration.RunSchemas | src/main/java/org/expretio/maven/plugins/capnp/CapnpCompiler.java:61-68 | no more processes than schemas are launched; a run without fault launched one per schema; a run that failed reports the last schema it launched |
| Orchestration.RunSucceedsIff | src/main/java/org/expretio/maven/plugins/capnp/CapnpCompiler.java:61-68 | `compile()` succeeds iff every schema's process exits with 0, and then every schema was launched once, in order |
| Orchestration.RunStopsAtFirstFault | src/main/java/org/expretio/maven/plugins/capnp/CapnpCompiler.java:61-68 | when schema k is the first to fail, the run reports k's fault and launched exactly schemas 0..k; no later schema runs |
| CommandLine.ImportFlags | src/main/java/org/expretio/maven/plugins/capnp/CapnpCompiler.java:173-176 | one `-I<dir>` flag per import directory, in list order |
| CommandLine.Prefix | src/main/java/org/expretio/maven/plugins/capnp/CapnpCompiler.java:165-177 | the base vector is compiler, `compile`, `--verbose`, `-o<plugin>:<output>`, then the import flags; `--verbose` is there whatever the verbose setting |
| CommandLine.BaseOf | src/main/java/org/expretio/maven/plugins/capnp/CapnpCompiler.java:165-177 | the compiler's absolute path, `compile`, `--verbose`, `-o<plugin>:<output>` over absolute paths, then one `-I` flag per import directory's absolute path, in order |
| CommandLine.PrefixSnoc | src/main/java/org/expretio/maven/plugins/capnp/CapnpCompiler.java:173-176 | one more import directory adds exactly one flag at the end of the vector |
| Validation.Labelled | src/main/java/org/expretio/maven/plugins/capnp/CapnpCompiler.java:298-301 | every import directory is checked under the same name, in list order |
| Validation.FirstRejected | src/main/java/org/expretio/maven/plugins/capnp/CapnpCompiler.java:287-316 | validation reports the first rejected setting in check order, and reports none iff every setting passes |
| Validation.FirstRejectedUnique | src/main/java/org/expretio/maven/plugins/capnp/CapnpCompiler.java:287-316 | the first rejected setting is unique, so the scan reports exactly it |
| OrgCompiler.Named | src/main/java/org/expretio/maven/plugins/capnp/CapnpCompiler.java:290-301 | the six settings and then the import directories, in check order, each under the name its message uses |
| OrgCompiler.ConfigurationFault | src/main/java/org/expretio/maven/plugins/capnp/CapnpCompiler.java:287-316 | configuration is accepted iff no setting is `null` and the schema list is non-empty; a `null` is reported by the name of the first one; an empty schema list is reported only when nothing is `null` |
| OrgCompiler.Builder.constructor | src/main/java/org/expretio/maven/plugins/capnp/CapnpCompiler.java:180-190 | a new builder has no settings, two fresh empty lists, and verbose on |
| OrgCompiler.Builder.SetOutputDirectory | src/main/java/org/expretio/maven/plugins/capnp/CapnpCompiler.java:210-215 | sets the output directory and nothing else |
| OrgCompiler.Builder.SetSchemaDirectory | src/main/java/org/expretio/maven/plugins/capnp/CapnpCompiler.java:217-222 | sets the schema directory and nothing else |
| OrgCompiler.Builder.SetWorkDirectory | src/main/java/org/expretio/maven/plugins/capnp/CapnpCompiler.java:224-229 | sets the work directory and nothing else |
| OrgCompiler.Builder.SetCapnpFile | src/main/java/org/expretio/maven/plugins/capnp/CapnpCompiler.java:231-236 | sets the compiler file and nothing else |
| OrgCompiler.Builder.SetCapnpcJavaFile | src/main/java/org/expretio/maven/plugins/capnp/CapnpCompiler.java:238-243 | sets the java plugin file and nothing else |
| OrgCompiler.Builder.SetCapnpJavaSchemaFile | src/main/java/org/expretio/maven/plugins/capnp/CapnpCompiler.java:245-250 | sets the java schema file and nothing else |
| OrgCompiler.Builder.AddImportDirectory | src/main/java/org/expretio/maven/plugins/capnp/CapnpCompiler.java:252-257 | appends one import directory; nothing else changes |
| OrgCompiler.Builder.AddImportDirectories | src/main/java/org/expretio/maven/plugins/capnp/CapnpCompiler.java:259-264 | appends the directories in order; nothing else changes |
| OrgCompiler.Builder.AddSchema | src/main/java/org/expretio/maven/plugins/capnp/CapnpCompiler.java:266-271 | appends one schema; nothing else changes |
| OrgCompiler.Builder.AddSchemas | src/main/java/org/expretio/maven/plugins/capnp/CapnpCompiler.java:273-278 | appends the schemas in order; nothing else changes |
| OrgCompiler.Builder.SetVerbose | src/main/java/org/expretio/maven/plugins/capnp/CapnpCompiler.java:280-285 | sets the verbose flag and nothing else |
| OrgCompiler.Builder.Validate | src/main/java/org/expretio/maven/plugins/capnp/CapnpCompiler.java:287-316 | the checks in order report exactly `ConfigurationFault` of the settings |
| OrgCompiler.Builder.Build | src/main/java/org/expretio/maven/plugins/capnp/CapnpCompiler.java:192-208 | a rejected configuration throws before any directory is made or file copied; otherwise the output and work directories are made; a schema directory that is a regular file (and not the work directory) throws the `NullPointerException` plexus raises on its `null` listing, uncaught, with the import list untouched; a schema directory that is missing or is the work directory throws "Unable to initialize"; otherwise the schema tree is copied, the java schema's parent and the schema directory are appended to the builder's own import list, and the command's base vector is `Prefix` over the absolute paths |
| OrgCompiler.Command.constructor | src/main/java/org/expretio/maven/plugins/capnp/CapnpCompiler.java:115-134 | the command keeps the settings and shares the builder's import list object |
| OrgCompiler.Command.Initialize | src/main/java/org/expretio/maven/plugins/capnp/CapnpCompiler.java:144-163 | directories are made (a failure ignored); a schema directory that is a regular file throws the uncaught `NullPointerException`; any other failed tree copy (a missing source, a source equal to the work directory, a work directory blocked by a file) throws "Unable to initialize"; in both cases the import list is untouched; otherwise the list gains the two implicit directories after the user's, and the vector is fixed |
| OrgCompiler.Command.Extend | src/main/java/org/expretio/maven/plugins/capnp/CapnpCompiler.java:154-157 | the java schema's parent, then the schema directory, join the end of the import list before the vector is built |
| OrgCompiler.Command.SetBase | src/main/java/org/expretio/maven/plugins/capnp/CapnpCompiler.java:165-177 | the vector is `Prefix` over the absolute paths; a `null` import directory throws |
| OrgCompiler.Command.AddImportFlags | src/main/java/org/expretio/maven/plugins/capnp/CapnpCompiler.java:173-176 | the loop adds one flag per import directory, in order, and throws iff one is `null` |
| OrgCompiler.Compiler.constructor | src/main/java/org/expretio/maven/plugins/capnp/CapnpCompiler.java:54-59 | the compiler keeps the command, the builder's schema list and the verbose flag |
| OrgCompiler.Compiler.CompileSchema | src/main/java/org/expretio/maven/plugins/capnp/CapnpCompiler.java:72-99 | one launch of `get(schema)` in the work directory; its stream choice is the class's `Io`, inherited iff verbose and piped otherwise; the fault is `FaultOf` its outcome |
| OrgCompiler.Compiler.Compile | src/main/java/org/expretio/maven/plugins/capnp/CapnpCompiler.java:61-68 | the loop equals `RunSchemas`: schemas in list order, stopping at the first fault |
| ComCompiler.Named | src/main/java/com/expretio/maven/plugins/capnp/CapnpCompiler.java:234-250 | the three directories and then the import directories, in check order, with their message names |
| ComCompiler.ConfigurationFault | src/main/java/com/expretio/maven/plugins/capnp/CapnpCompiler.java:234-264 | accepted iff no directory is `null` or a regular file and the schema list is non-empty; otherwise the first bad directory is reported with the reason ("must be specified" before "must not be a file"); an empty schema list only when every directory passes |
| ComCompiler.JavaSchemaParent | src/main/java/com/expretio/maven/plugins/capnp/CapnpCompiler.java:126-127 | the directory the java schema is staged into is the work directory itself |
| ComCompiler.BaseSetup | src/main/java/com/expretio/maven/plugins/capnp/CapnpCompiler.java:144-156 | a built vector needs every import directory set and has 4 + imports words; a failure is a staging failure, or a `null` import directory once both files are staged |
| ComCompiler.BaseSetupAfter | src/main/java/com/expretio/maven/plugins/capnp/CapnpCompiler.java:144-156 | after the compiler is staged: a plugin staging failure is reported, a `null` import directory throws, and otherwise the vector is `Prefix` over the two staged files |
| ComCompiler.SetupOf | src/main/java/com/expretio/maven/plugins/capnp/CapnpCompiler.java:117-142 | the caller's import directories stay first in the list; the copy failure is reported exactly when the schema tree cannot be copied: the source is not a directory, is the work directory, or a file blocks the work directory |
| ComCompiler.StagedSetup | src/main/java/com/expretio/maven/plugins/capnp/CapnpCompiler.java:124-136 | the caller's import directories stay first; a success appends exactly two directories, none `null`, the schema base directory last; it never reports a copy failure |
| ComCompiler.SetupOfSteps | src/main/java/com/expretio/maven/plugins/capnp/CapnpCompiler.java:117-142 | setup makes the output directory, and a failed schema copy (the source not a directory, the same directory as the work directory, or the work directory blocked by a file) stops it with the import list unchanged; otherwise staging continues on the copied tree |
| ComCompiler.StagedSetupAfter | src/main/java/com/expretio/maven/plugins/capnp/CapnpCompiler.java:126-129 | a failed java schema staging is reported with the imports unchanged; otherwise its parent and the schema base directory are appended before `setBase()` |
| ComCompiler.SetupSucceeded | src/main/java/com/expretio/maven/plugins/capnp/CapnpCompiler.java:117-156 | a successful setup's import list is the user's, then the work directory, then the schema base directory, and the vector uses the staged compiler and plugin in the work directory |
| ComCompiler.Builder.constructor | src/main/java/com/expretio/maven/plugins/capnp/CapnpCompiler.java:159-166 | a new builder has no directories, two fresh empty lists, and verbose on |
| ComCompiler.Builder.SetOutputDirectory | src/main/java/com/expretio/maven/plugins/capnp/CapnpCompiler.java:178-183 | sets the output directory and nothing else |
| ComCompiler.Builder.SetSchemaBaseDirectory | src/main/java/com/expretio/maven/plugins/capnp/CapnpCompiler.java:185-190 | sets the schema base directory and nothing else |
| ComCompiler.Builder.SetWorkDirectory | src/main/java/com/expretio/maven/plugins/capnp/CapnpCompiler.java:192-197 | sets the work directory and nothing else |
| ComCompiler.Builder.AddImportDirectory | src/main/java/com/expretio/maven/plugins/capnp/CapnpCompiler.java:199-204 | appends one import directory |
| ComCompiler.Builder.AddImportDirectoryCollection | src/main/java/com/expretio/maven/plugins/capnp/CapnpCompiler.java:206-211 | as written: the caller's collection is appended to itself and the builder's own list is unchanged |
| ComCompiler.Builder.AddImportDirectories | src/main/java/com/expretio/maven/plugins/capnp/CapnpCompiler.java:206-211 | as intended: the directories are appended to the builder's list in order |
| ComCompiler.Builder.AddSchema | src/main/java/com/expretio/maven/plugins/capnp/CapnpCompiler.java:213-218 | appends one schema |
| ComCompiler.Builder.AddSchemas | src/main/java/com/expretio/maven/plugins/capnp/CapnpCompiler.java:220-225 | appends the schemas in order |
| ComCompiler.Builder.SetVerbose | src/main/java/com/expretio/maven/plugins/capnp/CapnpCompiler.java:227-232 | sets the verbose flag and nothing else |
| ComCompiler.Builder.ValidateDirectory | src/main/java/com/expretio/maven/plugins/capnp/CapnpCompiler.java:252-264 | a directory passes iff it is set and not a regular file; `null` is reported as "must be specified", a file as "must not be a file", under the given name |
| ComCompiler.Builder.Validate | src/main/java/com/expretio/maven/plugins/capnp/CapnpCompiler.java:234-250 | the checks in order report exactly `ConfigurationFault` |
| ComCompiler.Builder.Build | src/main/java/com/expretio/maven/plugins/capnp/CapnpCompiler.java:168-176 | a rejected configuration throws with the filesystem and lists untouched; otherwise the filesystem, import list and vector are those of `SetupOf` (where a schema base directory equal to the work directory is a copy failure), and a setup failure is wrapped as "Unable to initialize capnp environment." |
| ComCompiler.Command.constructor | src/main/java/com/expretio/maven/plugins/capnp/CapnpCompiler.java:93-107 | a fresh resource provider for the work directory with nothing cached; the builder's import list is shared |
| ComCompiler.Command.Initialize | src/main/java/com/expretio/maven/plugins/capnp/CapnpCompiler.java:117-136 | the filesystem, import list and vector or fault are exactly `SetupOf`'s, so a schema base directory equal to the work directory is a copy failure |
| ComCompiler.Command.Stage | src/main/java/com/expretio/maven/plugins/capnp/CapnpCompiler.java:126-129 | after the copy, the filesystem, imports and vector or fault are exactly `StagedSetup`'s |
| ComCompiler.Command.Extend | src/main/java/com/expretio/maven/plugins/capnp/CapnpCompiler.java:126-129 | the java schema's directory and the schema base directory are appended, then the result is `BaseSetup`'s |
| ComCompiler.Command.SetBase | src/main/java/com/expretio/maven/plugins/capnp/CapnpCompiler.java:144-156 | stage the compiler, then the plugin, then the flags: exactly `BaseSetup` |
| ComCompiler.Command.SetPlugin | src/main/java/com/expretio/maven/plugins/capnp/CapnpCompiler.java:147-155 | once the compiler word is written: the plugin fetch, then the output flag and the import flags, or the fault |
| ComCompiler.Command.AddImportFlags | src/main/java/com/expretio/maven/plugins/capnp/CapnpCompiler.java:152-155 | one flag per import directory, in order; throws iff one is `null` |
| ComCompiler.Compiler.constructor | src/main/java/com/expretio/maven/plugins/capnp/CapnpCompiler.java:33-38 | the compiler keeps the command, the schema list and the verbose flag |
| ComCompiler.Compiler.CompileSchema | src/main/java/com/expretio/maven/plugins/capnp/CapnpCompiler.java:51-78 | one launch of `get(schema)` in the work directory; its stream choice is the class's `Io`, inherited iff verbose and piped otherwise; the fault is `FaultOf` its outcome |
| ComCompiler.Compiler.Compile | src/main/java/com/expretio/maven/plugins/capnp/CapnpCompiler.java:40-47 | schemas in list order, stopping at the first fault (`RunSchemas`) |
| ComCompiler.ShadowedImportDirectories | src/main/java/com/expretio/maven/plugins/capnp/CapnpCompiler.java:206-211 | a concrete directory passed to the as-written method lands twice in the caller's collection and not in the builder, while the intended method adds it once |
| CapnprotoCompiler.ConfigurationFault | src/main/java/com/expretio/maven/plugins/capnproto/CapnpCompiler.java:134-177 | accepted iff output and schema base directory are set and not files, no import directory is a file, the schema list is non-empty and no schema is a directory; each rejection names the first offender in check order |
| CapnprotoCompiler.BaseCommandOf | src/main/java/com/expretio/maven/plugins/capnproto/CapnpCompiler.java:101-132 | a failed temp-file creation throws; otherwise the packaged compiler is copied into the new executable temp file, whose absolute path is the first word; a missing compiler leaves an empty executable file and throws |
| CapnprotoCompiler.CommandOf | src/main/java/com/expretio/maven/plugins/capnproto/CapnpCompiler.java:79-99 | the vector is compiler, `compile`, `--verbose`, `-o<plugin>:<output>`, then one `-I` flag per import directory, then every schema path, each in list order |
| CapnprotoCompiler.OutcomeFault | src/main/java/com/expretio/maven/plugins/capnproto/CapnpCompiler.java:64-74 | no fault iff exit value 0; a non-zero exit carries the exit value; a launch failure is wrapped |
| CapnprotoCompiler.CompileSucceedsIff | src/main/java/com/expretio/maven/plugins/capnproto/CapnpCompiler.java:52-75 | with a fresh temp file, exactly one process is launched iff the packaged compiler exists and no element is `null`; it runs `CommandOf` in the schema base directory with inherited streams, and `compile()` succeeds iff that process exits with 0 |
| CapnprotoCompiler.FreshTemp | src/main/java/com/expretio/maven/plugins/capnproto/CapnpCompiler.java:118-127 | the file `createTempFile` returns is new: no regular file lies at its path yet, and it is not the packaged compiler |
| CapnprotoCompiler.CreateCommandOf | src/main/java/com/expretio/maven/plugins/capnproto/CapnpCompiler.java:79-99 | the filesystem is the base command's; the vector is built iff the compiler copy succeeded and no import directory or schema is `null`; a copy failure is passed on, else a `null` element throws; a built vector has 4 + imports + schemas words and starts with the temp file's path |
| CapnprotoCompiler.CompileOf | src/main/java/com/expretio/maven/plugins/capnproto/CapnpCompiler.java:52-75 | the filesystem is `createCommand()`'s; one process is launched iff the vector could be built, on exactly that vector, in the schema base directory with inherited streams; `compile()` succeeds iff that process exits with 0 |
| CapnprotoCompiler.Compiler.constructor | src/main/java/com/expretio/maven/plugins/capnproto/CapnpCompiler.java:40-50 | the compiler shares the builder's two lists |
| CapnprotoCompiler.Compiler.Initialize | src/main/java/com/expretio/maven/plugins/capnproto/CapnpCompiler.java:179-183 | makes the output directory and appends the java schema directory after the user's import directories |
| CapnprotoCompiler.Compiler.BaseCommand | src/main/java/com/expretio/maven/plugins/capnproto/CapnpCompiler.java:101-116 | the filesystem and result are exactly `BaseCommandOf`'s |
| CapnprotoCompiler.Compiler.CreateCommand | src/main/java/com/expretio/maven/plugins/capnproto/CapnpCompiler.java:79-99 | the filesystem and vector or fault are exactly `CreateCommandOf`'s |
| CapnprotoCompiler.Compiler.AddImportFlags | src/main/java/com/expretio/maven/plugins/capnproto/CapnpCompiler.java:83-91 | the fixed words, then one `-I` flag per import directory in list order; throws iff one is `null` |
| CapnprotoCompiler.Compiler.AddSchemaPaths | src/main/java/com/expretio/maven/plugins/capnproto/CapnpCompiler.java:93-96 | the vector followed by every schema's path in list order; throws iff one is `null` |
| CapnprotoCompiler.Compiler.Compile | src/main/java/com/expretio/maven/plugins/capnproto/CapnpCompiler.java:52-75 | the filesystem, fault and single launch are exactly `CompileOf`'s |
| CapnprotoCompiler.Builder.constructor | src/main/java/com/expretio/maven/plugins/capnproto/CapnpCompiler.java:187-192 | nothing set, two distinct fresh empty lists |
| CapnprotoCompiler.Builder.SetOutputDirectory | src/main/java/com/expretio/maven/plugins/capnproto/CapnpCompiler.java:199-204 | sets the output directory and nothing else |
| CapnprotoCompiler.Builder.SetSchemaBaseDirectory | src/main/java/com/expretio/maven/plugins/capnproto/CapnpCompiler.java:206-211 | sets the schema base directory and nothing else |
| CapnprotoCompiler.Builder.AddImportDirectory | src/main/java/com/expretio/maven/plugins/capnproto/CapnpCompiler.java:213-218 | appends one import directory |
| CapnprotoCompiler.Builder.AddImportDirectoryCollection | src/main/java/com/expretio/maven/plugins/capnproto/CapnpCompiler.java:220-225 | as written: the caller's collection is appended to itself, the builder's list is unchanged |
| CapnprotoCompiler.Builder.AddImportDirectories | src/main/java/com/expretio/maven/plugins/capnproto/CapnpCompiler.java:220-225 | as intended: the directories are appended to the builder's list in order |
| CapnprotoCompiler.Builder.AddSchema | src/main/java/com/expretio/maven/plugins/capnproto/CapnpCompiler.java:227-232 | appends one schema |
| CapnprotoCompiler.Builder.AddSchemasCollection | src/main/java/com/expretio/maven/plugins/capnproto/CapnpCompiler.java:234-239 | as written: the caller's collection is appended to itself, the builder's schema list is unchanged |
| CapnprotoCompiler.Builder.AddSchemas | src/main/java/com/expretio/maven/plugins/capnproto/CapnpCompiler.java:234-239 | as intended: the schemas are appended to the builder's list in order |
| CapnprotoCompiler.Builder.Validate | src/main/java/com/expretio/maven/plugins/capnproto/CapnpCompiler.java:134-177 | the checks in order report exactly `ConfigurationFault` |
| CapnprotoCompiler.Builder.ValidateLists | src/main/java/com/expretio/maven/plugins/capnproto/CapnpCompiler.java:157-176 | the first import directory that is a file (or `null`), then an empty schema list, then the first schema that is a directory (or `null`) |
| CapnprotoCompiler.Builder.Build | src/main/java/com/expretio/maven/plugins/capnproto/CapnpCompiler.java:194-197 | validation runs before initialization: a rejected configuration leaves the filesystem and lists untouched; otherwise the output directory is made and the java schema directory appended |
| CapnprotoCompiler.ShadowedCollections | src/main/java/com/expretio/maven/plugins/capnproto/CapnpCompiler.java:220-239 | a concrete directory and schema passed to the as-written collection methods do not reach the builder; the intended methods add them once each |
| Platforms.Capnp | src/main/java/org/expretio/maven/plugins/capnp/platform/Platform.java:6-20 | the compiler lies under `org/expretio/maven/capnp/compiler/` and ends in ".exe" exactly on `WIN32` |
| Platforms.CapnpcJava | src/main/java/org/expretio/maven/plugins/capnp/platform/Platform.java:6-20 | the java plugin lies under `org/expretio/maven/capnp/javaplugin/` and ends in ".exe" exactly on `WIN32` |
| Platforms.JavaSchema | src/main/java/org/expretio/maven/plugins/capnp/platform/Platform.java:15-20 | the java schema is the file `java.capnp` |
| Platforms.IsLinux64 | src/main/java/org/expretio/maven/plugins/capnp/platform/Platform.java:56 | an OS name that passes the Linux test never passes the Windows test, so the order of the two checks does not matter |
| Platforms.IsWindows | src/main/java/org/expretio/maven/plugins/capnp/platform/Platform.java:61 | an OS name that passes the Windows test never starts with "linux" |
| Platforms.LocationsDistinct | src/main/java/org/expretio/maven/plugins/capnp/platform/Platform.java:6-20 | a platform's compiler, plugin and schema locations are pairwise distinct, and the java schema location is the same on every platform |
| Platforms.Classifier | src/main/java/org/expretio/maven/plugins/capnp/platform/Platform.java:22-25 | the classifier is the lower-cased constant name: `linux64` or `win32` |
| Platforms.LowerEnumName | src/main/java/org/expretio/maven/plugins/capnp/platform/Platform.java:22-25 | lower-casing the constant names gives `linux64` and `win32` |
| Platforms.Detect | src/main/java/org/expretio/maven/plugins/capnp/platform/Platform.java:51-67 | `LINUX64` iff the lower-cased OS name starts with "linux" and the lower-cased architecture contains "64"; otherwise `WIN32` iff the OS name starts with "windows"; otherwise the unsupported-platform exception |
| Platforms.WindowsAnyArchitecture | src/main/java/org/expretio/maven/plugins/capnp/platform/Platform.java:61-64 | any Windows OS name gives `WIN32`, whatever the architecture |
| Platforms.DetectIgnoresCase | src/main/java/org/expretio/maven/plugins/capnp/platform/Platform.java:53-54 | lower-casing either input first does not change the answer |
| Platforms.MacIsUnsupported | src/main/java/org/expretio/maven/plugins/capnp/platform/Platform.java:66 | "Mac OS X" is unsupported whatever the architecture |
| Files.FileSystem.Mkdirs | src/main/java/org/expretio/maven/plugins/capnp/CapnpCompiler.java:146-147 | `mkdirs()`: the filesystem becomes `MkdirsOf`, which makes every missing directory along the path, keeps every existing entry, and changes nothing when a regular file is in the way |
| Files.FileSystem.CopyDirectory | src/main/java/com/expretio/maven/plugins/capnp/CapnpCompiler.java:138-142 | the copy succeeds iff the source is a directory other than the destination and no file blocks the destination; then every entry below the source reappears at the same place below the destination; a failure changes nothing |
| Staging.StageOf | src/main/java/com/expretio/maven/plugins/capnp/ResourceProvider.java:106-122 | staging succeeds iff the destination can be opened and the resource exists; then the destination holds the resource's bytes and is executable; a missing resource leaves an empty file; nothing else changes |
| Staging.StageTwice | src/main/java/com/expretio/maven/plugins/capnp/ResourceProvider.java:106-122 | staging again after a success changes nothing |
| Staging.MkdirsAfterStage | src/main/java/org/expretio/maven/plugins/capnp/ResourceProvider.java:110-127 | making the parent directories again after a staging is a no-op |
| Staging.MkdirsThenStage | src/main/java/org/expretio/maven/plugins/capnp/ResourceProvider.java:113-123 | once the parent directories are made, staging an existing resource succeeds unless a file blocks the parent or the destination is a directory |
| ComResources.ResourcePathValue | src/main/java/com/expretio/maven/plugins/capnp/ResourceProvider.java:40 | the resource path is the package name with '.' replaced by '/', plus '/' |
| ComResources.DestinationIsChild | src/main/java/com/expretio/maven/plugins/capnp/ResourceProvider.java:109 | the destination is the work directory's child named after the resource |
| ComResources.Fetch | src/main/java/com/expretio/maven/plugins/capnp/ResourceProvider.java:106-122 | the resource at package path + name is staged into the work directory with no directory made first; on success the destination is returned |
| ComResources.FetchTwice | src/main/java/com/expretio/maven/plugins/capnp/ResourceProvider.java:106-122 | fetching again after a success leaves the filesystem as it is and returns the same file |
| ComResources.ResourceProvider.constructor | src/main/java/com/expretio/maven/plugins/capnp/ResourceProvider.java:46-62 | a new provider has nothing cached |
| ComResources.ResourceProvider.GetResource | src/main/java/com/expretio/maven/plugins/capnp/ResourceProvider.java:106-122 | the step-by-step staging equals `Fetch` |
| ComResources.ResourceProvider.GetCapnp | src/main/java/com/expretio/maven/plugins/capnp/ResourceProvider.java:67-76 | a cached compiler is returned with no I/O; otherwise `Fetch` of "capnp", cached only on success |
| ComResources.ResourceProvider.GetCapnpcJava | src/main/java/com/expretio/maven/plugins/capnp/ResourceProvider.java:81-90 | the same for "capnpc-java" |
| ComResources.ResourceProvider.GetJavaSchema | src/main/java/com/expretio/maven/plugins/capnp/ResourceProvider.java:95-104 | the same for "java.capnp" |
| OrgResources.Fetch | src/main/java/org/expretio/maven/plugins/capnp/ResourceProvider.java:110-127 | the destination's parent directories are made, then the resource at its platform location is staged there; on success the destination is returned |
| OrgResources.ResolveParent | src/main/java/org/expretio/maven/plugins/capnp/ResourceProvider.java:113-114 | the parent's absolute names are the destination's without the last name |
| OrgResources.FetchSucceeds | src/main/java/org/expretio/maven/plugins/capnp/ResourceProvider.java:110-127 | fetching succeeds whenever the resource exists, no file blocks the parent directories and the destination is not a directory |
| OrgResources.FetchTwice | src/main/java/org/expretio/maven/plugins/capnp/ResourceProvider.java:110-127 | fetching again after a success leaves the filesystem as it is and returns the same file |
| OrgResources.ResourceProvider.constructor | src/main/java/org/expretio/maven/plugins/capnp/ResourceProvider.java:47-66 | `create(platform, workDirectory)`: the given platform and work directory, nothing cached |
| OrgResources.ResourceProvider.GetResource | src/main/java/org/expretio/maven/plugins/capnp/ResourceProvider.java:110-127 | the step-by-step staging equals `Fetch` |
| OrgResources.ResourceProvider.GetCapnp | src/main/java/org/expretio/maven/plugins/capnp/ResourceProvider.java:71-80 | a cached compiler is returned with no I/O; otherwise the platform's compiler is fetched, cached only on success |
| OrgResources.ResourceProvider.GetCapnpcJava | src/main/java/org/expretio/maven/plugins/capnp/ResourceProvider.java:85-94 | the same for the java plugin |
| OrgResources.ResourceProvider.GetJavaSchema | src/main/java/org/expretio/maven/plugins/capnp/ResourceProvider.java:99-108 | the same for the java schema |
| CapnprotoResources.ResourceNames | src/main/java/com/expretio/maven/plugins/capnproto/ResourceProvider.java:10-13 | the resource directory string splits into `src`, `main`, `resources` and the name |
| CapnprotoResources.Resource | src/main/java/com/expretio/maven/plugins/capnproto/ResourceProvider.java:10-13 | a resource is the relative path `src/main/resources/<name>` |
| CapnprotoResources.GetCapnp | src/main/java/com/expretio/maven/plugins/capnproto/ResourceProvider.java:25-28 | `src/main/resources/capnp` |
| CapnprotoResources.GetCapnpcJava | src/main/java/com/expretio/maven/plugins/capnproto/ResourceProvider.java:33-36 | `src/main/resources/capnpc-java` |
| CapnprotoResources.GetJavaSchema | src/main/java/com/expretio/maven/plugins/capnproto/ResourceProvider.java:41-44 | `src/main/resources/java.capnp` |
| CapnprotoResources.GetJavaSchemaDirectory | src/main/java/com/expretio/maven/plugins/capnproto/ResourceProvider.java:49-52 | the parent of the java schema, which exists and is `src/main/resources` |
| NativesManagement.NormalizeBase | src/main/java/org/expretio/maven/plugins/capnp/util/NativesManager.java:146-155 | the result is empty iff the base path is `null` or empty; otherwise it ends in exactly one '/' after the base path's own text, with only trailing '/'s dropped |
| NativesManagement.NormalizeIdempotent | src/main/java/org/expretio/maven/plugins/capnp/util/NativesManager.java:146-155 | normalizing a normalized base path changes nothing |
| NativesManagement.InfoOf | src/main/java/org/expretio/maven/plugins/capnp/util/NativesManager.java:159-173 | an entry is produced iff the OS name is set and the architecture has a canonical name; its key is the upper-cased OS and canonical architecture, each path is the base path followed by the configured path, and each URL is the class loader's answer for that path |
| NativesManagement.Inserted | src/main/java/org/expretio/maven/plugins/capnp/util/NativesManager.java:175 | no key is lost; every inserted entry's key is present; every key present was there before or is an inserted entry's key |
| NativesManagement.InsertedLastWins | src/main/java/org/expretio/maven/plugins/capnp/util/NativesManager.java:175 | a key holds the entry inserted last under it |
| NativesManagement.InsertedFrame | src/main/java/org/expretio/maven/plugins/capnp/util/NativesManager.java:175 | a key no entry is inserted under keeps its value or stays absent |
| NativesManagement.ArchPlan | src/main/java/org/expretio/maven/plugins/capnp/util/NativesManager.java:161-176 | at most one entry per `arch` element, all of them when none throws; when one throws, it is the element right after the entries produced, and its exception is the plan's |
| NativesManagement.NativesPlan | src/main/java/org/expretio/maven/plugins/capnp/util/NativesManager.java:157-177 | at most one entry per `arch` element of the document; an exception leaves at least one element without its entry |
| NativesManagement.ArchPlanOnePerArch | src/main/java/org/expretio/maven/plugins/capnp/util/NativesManager.java:161-176 | when no `arch` element throws, each produces exactly one entry, in order |
| NativesManagement.NativesPlanOnePerArch | src/main/java/org/expretio/maven/plugins/capnp/util/NativesManager.java:157-177 | a descriptor that does not throw inserts one entry per `arch` element in the whole document |
| NativesManagement.Wrap | src/main/java/org/expretio/maven/plugins/capnp/util/NativesManager.java:179-182 | every exception but the `AssertionError` becomes a `NativesManagerException` around it |
| NativesManagement.RegisterOf | src/main/java/org/expretio/maven/plugins/capnp/util/NativesManager.java:134-183 | an unreadable descriptor throws wrapped with the table unchanged; no key is ever removed; what escapes is a `NativesManagerException` or the unwrapped `AssertionError` |
| NativesManagement.RegisterAllFrom | src/main/java/org/expretio/maven/plugins/capnp/util/NativesManager.java:110-126 | over the listed descriptors in order: no key is removed, only a `NativesManagerException` or the `AssertionError` escapes, and an empty list changes nothing |
| NativesManagement.RegisterKeepsWellKeyed | src/main/java/org/expretio/maven/plugins/capnp/util/NativesManager.java:134-183 | registration, complete or interrupted, keeps every key upper case and equal to its entry's names |
| NativesManagement.InsertedWellKeyed | src/main/java/org/expretio/maven/plugins/capnp/util/NativesManager.java:175 | inserting entries with upper-case names keeps the table well keyed |
| NativesManagement.ArchPlanUpper | src/main/java/org/expretio/maven/plugins/capnp/util/NativesManager.java:165-166 | every entry an `arch` list produces has upper-case names |
| NativesManagement.NativesPlanWellKeyed | src/main/java/org/expretio/maven/plugins/capnp/util/NativesManager.java:157-177 | every entry a descriptor produces has upper-case names |
| NativesManagement.InsertedAppend | src/main/java/org/expretio/maven/plugins/capnp/util/NativesManager.java:157-177 | inserting two lists one after the other is inserting their concatenation |
| NativesManagement.NativesManager.constructor | src/main/java/org/expretio/maven/plugins/capnp/util/NativesManager.java:100-103 | no URLs, an empty table |
| NativesManagement.NativesManager.AddResourceUrl | src/main/java/org/expretio/maven/plugins/capnp/util/NativesManager.java:105-108 | appends the URL and leaves the table alone |
| NativesManagement.NativesManager.GetNativesInfo | src/main/java/org/expretio/maven/plugins/capnp/util/NativesManager.java:185-188 | the entry stored under exactly this key, or `null` iff there is none; in a well-keyed table it carries those names |
| NativesManagement.NativesManager.LowerCaseMisses | src/main/java/org/expretio/maven/plugins/capnp/util/NativesManager.java:185-188 | lookup is exact: names that are not upper case never find an entry |
| NativesManagement.NativesManager.GetNativesInfoForCurrentPlatform | src/main/java/org/expretio/maven/plugins/capnp/util/NativesManager.java:190-196 | an architecture with no canonical name raises the `AssertionError` first, then a missing OS constant throws, else the lookup under the OS constant and upper-cased canonical architecture |
| NativesManagement.NativesManager.RegisterFromDescriptor | src/main/java/org/expretio/maven/plugins/capnp/util/NativesManager.java:134-183 | the table and exception are `RegisterOf`'s; the table stays well keyed |
| NativesManagement.NativesManager.RegisterPlan | src/main/java/org/expretio/maven/plugins/capnp/util/NativesManager.java:157-177 | the outer loop inserts the descriptor's entries in document order and stops at the first exception |
| NativesManagement.NativesManager.RegisterNatives | src/main/java/org/expretio/maven/plugins/capnp/util/NativesManager.java:161-176 | the inner loop inserts one `natives` element's entries in order and stops at the first exception |
| NativesManagement.NativesManager.RegisterAllDescriptors | src/main/java/org/expretio/maven/plugins/capnp/util/NativesManager.java:110-126 | a failed descriptor listing throws wrapped with the table unchanged; otherwise every listed descriptor is registered in order until one throws; the table stays well keyed |
| OrgMojo.ClassifierOf | src/main/java/org/expretio/maven/plugins/capnp/CapnProtoMojo.java:209-219 | a classifier other than "auto" is kept. "auto" becomes exactly the lower-cased OS constant, '-', and the lower-cased canonical architecture, a lower-case string that starts with the OS part. A missing OS constant throws the `NullPointerException` before the architecture is looked up; a missing canonical architecture throws the `AssertionError` |
| Strings.ToLowerAppend | src/main/java/org/expretio/maven/plugins/capnp/CapnProtoMojo.java:213-218 | lower-casing the pieces one by one is lower-casing the classifier |
| OrgMojo.ExplicitClassifierKept | src/main/java/org/expretio/maven/plugins/capnp/CapnProtoMojo.java:211 | the comparison is case-sensitive: "AUTO" is used as configured |
| OrgMojo.Relativize | src/main/java/org/expretio/maven/plugins/capnp/CapnProtoMojo.java:295-301 | the relativized path contains no '\\' |
| OrgMojo.RelativizeHostIndependent | src/main/java/org/expretio/maven/plugins/capnp/CapnProtoMojo.java:295-301 | the result is the same on a Windows and on a Unix host |
| OrgMojo.RelativizeParsesBack | src/main/java/org/expretio/maven/plugins/capnp/CapnProtoMojo.java:295-301 | on either host the relativized path reads back as the names below the schema directory |
| OrgMojo.RelativizeKeepsSuffix | src/main/java/org/expretio/maven/plugins/capnp/CapnProtoMojo.java:295-301 | a schema keeps its file extension once relativized |
| OrgMojo.TargetFile | src/main/java/org/expretio/maven/plugins/capnp/CapnProtoMojo.java:308-309 | the target file lies directly in the target directory, named after the URL's last path name; it is absolute iff the target directory is absolute or empty, as `new File(parent, child)` resolves it |
| OrgMojo.CopyOf | src/main/java/org/expretio/maven/plugins/capnp/CapnProtoMojo.java:303-327 | the copy succeeds iff the source is set and readable and the target file can be opened; then the target file, named after the URL's last path name, holds the bytes and is executable; nothing else changes, and a failure changes nothing |
| OrgMojo.CopyTwice | src/main/java/org/expretio/maven/plugins/capnp/CapnProtoMojo.java:303-327 | copying the same resource again changes nothing |
| OrgMojo.StagedOf | src/main/java/org/expretio/maven/plugins/capnp/CapnProtoMojo.java:187-189 | a successful staging yields three files |
| OrgMojo.StagedFiles | src/main/java/org/expretio/maven/plugins/capnp/CapnProtoMojo.java:187-189 | after staging, the three files lie in the work directory under the URLs' last names and hold their bytes, a later copy winning when names collide; nothing else changes |
| OrgMojo.CapnProtoMojo.constructor | src/main/java/org/expretio/maven/plugins/capnp/CapnProtoMojo.java:92-157 | the configured parameters |
| OrgMojo.CapnProtoMojo.CreateNativeArtifact | src/main/java/org/expretio/maven/plugins/capnp/CapnProtoMojo.java:206-227 | `org.expretio.maven:capnp-natives`, a jar of the configured version, with the classifier rule's result, or its exception |
| OrgMojo.CapnProtoMojo.IsSchema | src/main/java/org/expretio/maven/plugins/capnp/CapnProtoMojo.java:285-293 | on a regular file, and on a path that does not exist, the test is the extension test alone: only directories are excluded |
| OrgMojo.CapnProtoMojo.SchemasOf | src/main/java/org/expretio/maven/plugins/capnp/CapnProtoMojo.java:260-273 | at most one path per visited file, none containing '\\' |
| OrgMojo.CapnProtoMojo.SchemasComplete | src/main/java/org/expretio/maven/plugins/capnp/CapnProtoMojo.java:260-293 | every visited file that is a schema is reported |
| OrgMojo.CapnProtoMojo.SchemasSound | src/main/java/org/expretio/maven/plugins/capnp/CapnProtoMojo.java:260-293 | everything reported is the relativized path of a visited schema |
| OrgMojo.CapnProtoMojo.SchemasFindEveryFile | src/main/java/org/expretio/maven/plugins/capnp/CapnProtoMojo.java:120-121 | with a schema directory that is a directory and a traversal of its whole tree, every regular file below it whose name ends with "." and the extension is reported, relativized |
| OrgMojo.CapnProtoMojo.SchemasFindOnlyFiles | src/main/java/org/expretio/maven/plugins/capnp/CapnProtoMojo.java:260-293 | with a schema directory that is a directory, everything reported is the relativized path of such a file |
| OrgMojo.CapnProtoMojo.ReportedSchema | src/main/java/org/expretio/maven/plugins/capnp/CapnProtoMojo.java:260-293 | a reported path comes from the schema directory itself, when it is not a directory and its name has the extension, or from a matching regular file below a schema directory that is a directory |
| OrgMojo.CapnProtoMojo.SchemasOfRootOnly | src/main/java/org/expretio/maven/plugins/capnp/CapnProtoMojo.java:264 | `preOrderTraversal` of a path that is not a directory visits that path alone, so "" is reported iff its own name ends with "." and the extension, and nothing else is |
| OrgMojo.CapnProtoMojo.SchemasKeepExtension | src/main/java/org/expretio/maven/plugins/capnp/CapnProtoMojo.java:285-301 | every reported schema ends with "." and the extension |
| OrgMojo.CapnProtoMojo.GetAllSchemas | src/main/java/org/expretio/maven/plugins/capnp/CapnProtoMojo.java:260-273 | the traversal loop computes `SchemasOf`; over a traversal of the whole tree, a schema directory that is a directory yields exactly the regular files below it whose name ends with "." and the extension, relativized, and any other schema directory yields "" iff its own name has the extension |
| OrgMojo.CapnProtoMojo.GetSchemas | src/main/java/org/expretio/maven/plugins/capnp/CapnProtoMojo.java:250-258 | the configured array verbatim and in order when set; else, over a traversal of the whole tree, exactly the matching regular files below the schema directory (or the schema directory itself when it is not a directory), relativized |
| OrgMojo.CapnProtoMojo.GetImportDirectories | src/main/java/org/expretio/maven/plugins/capnp/CapnProtoMojo.java:275-283 | an empty list for a missing array, else the array in order |
| OrgMojo.CapnProtoMojo.CopyResource | src/main/java/org/expretio/maven/plugins/capnp/CapnProtoMojo.java:303-327 | the filesystem is `CopyOf`'s; any failure is the exception naming the work directory |
| OrgMojo.CapnProtoMojo.StageNatives | src/main/java/org/expretio/maven/plugins/capnp/CapnProtoMojo.java:187-189 | the three copies in argument order are exactly `StagedOf` |
| OrgMojo.CapnProtoMojo.Configure | src/main/java/org/expretio/maven/plugins/capnp/CapnProtoMojo.java:182-192 | a fresh builder holding every setting, the three staged natives, the schema list and the import directories |
| OrgMojo.CapnProtoMojo.BuildCompiler | src/main/java/org/expretio/maven/plugins/capnp/CapnProtoMojo.java:182-193 | an empty schema list is rejected with the filesystem untouched; a success compiles the given schemas with the configured verbosity in the work directory |
| OrgMojo.CapnProtoMojo.Generate | src/main/java/org/expretio/maven/plugins/capnp/CapnProtoMojo.java:176-193 | the output directory becomes a compile source root and the work directory is made; a missing natives entry throws; the three natives are copied before the builder is validated, so an empty schema list is rejected only after staging |
| CapnprotoMojo.CapnProtoMojo.constructor | src/main/java/com/expretio/maven/plugins/capnproto/CapnProtoMojo.java:49-88 | the configured parameters |
| CapnprotoMojo.CapnProtoMojo.Listed | src/main/java/com/expretio/maven/plugins/capnproto/CapnProtoMojo.java:126-137 | every listed file is a regular file whose name ends with "." and the extension, and comes from the listing |
| CapnprotoMojo.CapnProtoMojo.ListedComplete | src/main/java/com/expretio/maven/plugins/capnproto/CapnProtoMojo.java:126-137 | every accepted entry of the listing is kept |
| CapnprotoMojo.CapnProtoMojo.ListedIsEverySchema | src/main/java/com/expretio/maven/plugins/capnproto/CapnProtoMojo.java:80-81 | over a listing of the whole tree, the accepted files are exactly the regular files strictly below the schema base directory whose name ends with "." and the extension |
| CapnprotoMojo.CapnProtoMojo.RelativePaths | src/main/java/com/expretio/maven/plugins/capnproto/CapnProtoMojo.java:139-151 | one path per file, in order, each the file's names below the base directory joined by the host separator, with no conversion |
| CapnprotoMojo.CapnProtoMojo.RelativePathsSnoc | src/main/java/com/expretio/maven/plugins/capnproto/CapnProtoMojo.java:139-151 | one more file adds exactly its relative path at the end |
| CapnprotoMojo.CapnProtoMojo.RelativePathResolvesBack | src/main/java/com/expretio/maven/plugins/capnproto/CapnProtoMojo.java:139-151 | on a Unix host a relative path resolved against the schema base directory is the file it came from |
| CapnprotoMojo.CapnProtoMojo.Relativize | src/main/java/com/expretio/maven/plugins/capnproto/CapnProtoMojo.java:139-151 | the loop computes `RelativePaths` |
| CapnprotoMojo.CapnProtoMojo.GetAllSchemas | src/main/java/com/expretio/maven/plugins/capnproto/CapnProtoMojo.java:126-137 | a schema base directory that is missing or not a directory makes `listFiles` throw; otherwise the accepted files of the listing, relativized, and over a listing of the whole tree every regular file below the base whose name ends with "." and the extension is reported and nothing else is |
| CapnprotoMojo.CapnProtoMojo.GetSchemas | src/main/java/com/expretio/maven/plugins/capnproto/CapnProtoMojo.java:116-124 | the configured array verbatim and in order when set; else, over a listing of the whole tree, exactly the regular files below the base whose name ends with "." and the extension, relativized; it throws exactly when no array is set and the schema base directory is not a directory |
| CapnprotoMojo.CapnProtoMojo.Accepted | src/main/java/com/expretio/maven/plugins/capnproto/CapnProtoMojo.java:128-132 | an accepted entry exists and is not a directory |

## Left out

- Process spawning, `inheritIO` and `waitFor` are an oracle from an invocation to its outcome. Only the inherit-or-pipe choice is kept.
- Byte streams, `mkdirs`, `setExecutable`, recursive directory copies and temporary files are updates of the filesystem map. I/O errors in the middle of a byte copy are not modelled; only failures to open a stream are.
- The schema traversal of the `org` mojo (Guava `preOrderTraversal`) and the listing of the `capnproto` mojo (`FileUtils.listFiles` with `TrueFileFilter`) are input sequences. `OrgMojo.CapnProtoMojo.TraversalCovers` and `CapnprotoMojo.CapnProtoMojo.ListingCovers` state which entries a real walk visits, and the discovery contracts hold over such a walk. The order of the visit (directory listing order, pre-order) is not derived from the tree, and a walk is not assumed to visit an entry only once; that is why the discovery contracts speak of membership and not of positions.
- The filesystem map is not required to be a well-formed tree (an entry whose parent is missing or a regular file can occur in it). The walks are described as visiting every entry whose names extend the base directory's names, which is what a real walk does on a well-formed tree.
- Maven and Aether artifact resolution are not modelled: `ArtifactHandlerMojo`, and `resolve` and `doHandleNativeDependency` of the `org` mojo, are network and repository plumbing.
- `org` `CapnProtoMojo.execute` calls `registerAllClassPathDescriptors()` (line 175) and `new NativesManager(URLClassLoader)` (line 203). `NativesManager` defines neither. `OrgMojo.CapnProtoMojo.Generate` therefore starts from the natives entry the manager returned.
- `com.expretio...capnproto` `CapnProtoMojo.execute` (lines 98-112) calls builder methods its `CapnpCompiler.Builder` does not define, so `execute` is not modelled. That includes registering the output directory as a compile source root before compilation.
- `org` `ResourceProvider` imports `org.expretio.maven.plugins.capnp.util.Platform` (`ResourceProvider.java` line 32). That class is not part of this model. The `org.expretio.maven.plugins.capnp.platform.Platform` enum (`Platforms.Platform`) stands in for it. Its `getCapnp`, `getCapnpcJava` and `getJavaSchema` give the locations. `create(workDirectory)` (lines 42-45) calls `Platform.getCurrent()` on that class, so only `create(platform, workDirectory)` is modelled.
- XML parsing of native descriptors (commons-configuration) is not modelled. The descriptor arrives as a parsed `Descriptor` record, or `None` when it cannot be read. Splitting list values on commas is part of that input.
- `JavaPlatform`, a reflective call into JNA, is not modelled. The canonical-architecture lookup is a function parameter whose `None` is the `AssertionError` for a null name. `getCurrentOs` is an optional OS constant name.
- Class loaders are a `Loader` record: the descriptor URLs they list and their `getResource` answers.
- `ConvertUtils` and the exception classes are not modelled as classes. The exceptions are cases of fault datatypes.
- `String.toLowerCase` and `toUpperCase` are modelled on ASCII letters only. Locale-specific and non-ASCII case mappings are not.
- `File(URL.getPath()).getName()` takes the last name of the URL string after `/` separators. Query strings, fragments and percent-encoding are not modelled.
- `MavenProject.addCompileSourceRoot` is modelled as add-if-absent on a list of absolute paths. OrgMojo.CapnProtoMojo.Generate states only that the output directory is then a root and that no earlier root is lost.
- OrgMojo.CapnProtoMojo.BuildCompiler: its contract states the empty-schema rejection and the success case. The other outcomes of `build()` follow from `OrgCompiler.Builder.Build`, whose contract states them in full.
- OrgMojo.CapnProtoMojo.Generate: the outcome after a successful staging with a non-empty schema list is left to `BuildCompiler`. The compilation that `execute()` then runs is `OrgCompiler.Compiler.Compile`.
- OrgMojo.CapnProtoMojo.SchemasOf: its own contract states only the count bound and the absence of '\\'. Membership in both directions is in `SchemasComplete` and `SchemasSound`.
- The exception messages are kept as fault cases with their data, not as formatted strings. Some cases carry fields the model adds: `UnsupportedPlatform(osName, osArch)` and `ListingFault.NotADirectory(directory)` name their inputs, while the Java messages list the supported platforms or name the directory in text.
- OrgCompiler.Command.Initialize: plexus `copyDirectoryStructure` compares the two `File` objects as written (`File.equals`), while the model compares the resolved paths. Two different spellings of the same directory therefore fail in the model, although plexus would go on copying the tree into itself. An empty schema directory copied onto a work directory blocked by a regular file fails in the model; plexus copies nothing and does not throw.
- OrgCompiler.Builder.Build: the same two simplifications of the tree copy as `OrgCompiler.Command.Initialize`.
- Files.FileSystem.CopyDirectory: both libraries leave out of the copy a destination nested inside the source. The model's `MirrorOf` does not single that case out.

## Findings

| source | as written | input that shows it | evidently intended | confidence | as-written member | corrected member |
|---|---|---|---|---|---|---|
| src/main/java/com/expretio/maven/plugins/capnp/CapnpCompiler.java:206-211 | `addImportDirectory(Collection<File> importDirectories)` calls `importDirectories.addAll(importDirectories)`. The parameter shadows the field, so the caller's collection is doubled and the builder's list is unchanged | a collection holding one directory `d`: afterwards the builder has no import directory and the caller's collection holds `d` twice | append the collection to the builder's import list | not executed | ComCompiler.ShadowedImportDirectories | ComCompiler.Builder.AddImportDirectories |
| src/main/java/com/expretio/maven/plugins/capnproto/CapnpCompiler.java:220-225 | the same shadowing in `addImportDirectory(Collection<File> importDirectories)` | a collection holding one directory `d`: the builder still has no import directory | append the collection to the builder's import list | not executed | CapnprotoCompiler.ShadowedCollections | CapnprotoCompiler.Builder.AddImportDirectories |
| src/main/java/com/expretio/maven/plugins/capnproto/CapnpCompiler.java:234-239 | `addSchemas(Collection<File> schemas)` calls `schemas.addAll(schemas)`, leaving the builder's schema list unchanged | a collection holding one schema `s`: the builder's schema list stays empty, so `build()` rejects "At least one schema file must be specified." | append the schemas to the builder's schema list | not executed | CapnprotoCompiler.Builder.AddSchemasCollection | CapnprotoCompiler.Builder.AddSchemas |
