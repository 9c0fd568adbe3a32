/**
 * `NativesManager`: the resource URLs it was given, and the table of native executables found in
 * `capnp-natives.xml` descriptors, keyed by upper-case OS name and upper-case canonical architecture.
 * The XML is taken already read; the class loader, the reflective architecture lookup and the
 * descriptor streams are oracles.
 */
module NativesManagement {
  import opened Wrappers
  import opened Strings

  /** A URL, written out. */
  type Url = string

  /** One `arch` element: its `name` attribute and the three paths, each `null` where absent. */
  datatype ArchConfig = ArchConfig(name: Option<string>, capnpExecPath: Option<string>,
                                   capnpcJavaExecPath: Option<string>, javaSchemaPath: Option<string>)

  /** One `natives` element: the `name` attribute of its `os` element and its `arch` elements, in document order. */
  datatype NativesConfig = NativesConfig(osName: Option<string>, archs: seq<ArchConfig>)

  /** A descriptor as `XMLConfiguration` reads it: `base-path` and the `natives` elements, in document order. */
  datatype Descriptor = Descriptor(basePath: Option<string>, natives: seq<NativesConfig>)

  /** `NativesInfo`: the names it is stored under, the three resource paths and what the class loader found there. */
  datatype NativesInfo = NativesInfo(osName: string, archName: string,
                                     capnpPath: string, capnpUrl: Option<Url>,
                                     capnpcJavaPath: string, capnpcJavaUrl: Option<Url>,
                                     capnpJavaSchemaPath: string, capnpJavaSchemaUrl: Option<Url>)

  /** What registration throws. */
  datatype Thrown =
    | ManagerException(cause: Thrown)  // NativesManagerException wrapping the cause
    | IoFailure                        // the descriptor or the descriptor list could not be read
    | NullPointer                      // an `arch` element under a `natives` element without an OS name
    | AssertionFailed                  // the reflective architecture lookup failed: an Error, never wrapped

  /** The table: `(osName, archName)` to the entry stored last under it. */
  type Table = map<(string, string), NativesInfo>

  /** `getCanonicalArchitecture`: the canonical name, or `None` where it throws its `AssertionError`. */
  type Canonical = Option<string> -> Option<string>

  /** A class loader: the descriptors `getResources` lists (`None` where it throws), and `getResource`. */
  datatype Loader = Loader(descriptors: Option<seq<Url>>, getResource: string -> Option<Url>)

  /** The key an entry is stored under. */
  function Key(info: NativesInfo): (string, string)
  {
    (info.osName, info.archName)
  }

  /**
   * The base path as registration uses it: `null` and "" give "", anything else loses its trailing
   * '/' characters and gains exactly one.
   */
  function NormalizeBase(basePath: Option<string>): (r: string)
    ensures basePath.None? || basePath.value == "" <==> r == ""
    ensures r != "" ==> r[|r| - 1] == '/' && (|r| == 1 || r[|r| - 2] != '/')
    ensures r != "" ==> |r| - 1 <= |basePath.value| && r[..|r| - 1] == basePath.value[..|r| - 1]
    ensures r != "" ==> forall i :: |r| - 1 <= i < |basePath.value| ==> basePath.value[i] == '/'
  {
    if basePath.None? then ""
    else if basePath.value == "" then ""
    else StripEnd(basePath.value, '/') + "/"
  }

  /** Normalizing a normalized base path changes nothing. */
  lemma NormalizeIdempotent(basePath: Option<string>)
    ensures NormalizeBase(Some(NormalizeBase(basePath))) == NormalizeBase(basePath)
  {
    var once := NormalizeBase(basePath);
    if once != "" {
      var stripped := once[..|once| - 1];
      assert once == stripped + "/";
      assert StripEnd(once, '/') == StripEnd(stripped, '/');
    }
  }

  /** Java's `s + v` for a string `v` that may be `null`. */
  function Concat(s: string, v: Option<string>): string
  {
    s + (if v.Some? then v.value else "null")
  }

  /**
   * The entry one `arch` element produces: the upper-cased OS name (`null` throws), the upper-cased
   * canonical architecture, the three paths after the base path, and the class loader's answers.
   */
  function InfoOf(base: string, osName: Option<string>, arch: ArchConfig, cl: Loader, canonical: Canonical)
    : (r: Result<NativesInfo, Thrown>)
    ensures r.Success? <==> osName.Some? && canonical(arch.name).Some?
    ensures osName.None? ==> r == Failure(NullPointer)
    ensures osName.Some? && canonical(arch.name).None? ==> r == Failure(AssertionFailed)
    ensures r.Success? ==>
      Key(r.value) == (ToUpper(osName.value), ToUpper(canonical(arch.name).value)) &&
      r.value.capnpPath == Concat(base, arch.capnpExecPath) &&
      r.value.capnpcJavaPath == Concat(base, arch.capnpcJavaExecPath) &&
      r.value.capnpJavaSchemaPath == Concat(base, arch.javaSchemaPath) &&
      r.value.capnpUrl == cl.getResource(r.value.capnpPath) &&
      r.value.capnpcJavaUrl == cl.getResource(r.value.capnpcJavaPath) &&
      r.value.capnpJavaSchemaUrl == cl.getResource(r.value.capnpJavaSchemaPath)
  {
    if osName.None? then Failure(NullPointer)
    else
      match canonical(arch.name)
      case None => Failure(AssertionFailed)
      case Some(archName) =>
        var capnp := Concat(base, arch.capnpExecPath);
        var capnpcJava := Concat(base, arch.capnpcJavaExecPath);
        var javaSchema := Concat(base, arch.javaSchemaPath);
        Success(NativesInfo(ToUpper(osName.value), ToUpper(archName),
                            capnp, cl.getResource(capnp), capnpcJava, cl.getResource(capnpcJava),
                            javaSchema, cl.getResource(javaSchema)))
  }

  /** The table after `Table.put` of every entry, in order. */
  function Inserted(table: Table, infos: seq<NativesInfo>): (r: Table)
    ensures forall k :: k in table ==> k in r
    ensures forall j :: 0 <= j < |infos| ==> Key(infos[j]) in r
    ensures forall k :: k in r ==> k in table || exists j :: 0 <= j < |infos| && Key(infos[j]) == k
  {
    if infos == [] then table
    else Inserted(table, infos[..|infos| - 1])[Key(infos[|infos| - 1]) := infos[|infos| - 1]]
  }

  /** The entry inserted last under a key is the one the table holds. */
  lemma {:induction false} InsertedLastWins(table: Table, infos: seq<NativesInfo>, j: int)
    requires 0 <= j < |infos|
    requires forall l :: j < l < |infos| ==> Key(infos[l]) != Key(infos[j])
    ensures Key(infos[j]) in Inserted(table, infos) && Inserted(table, infos)[Key(infos[j])] == infos[j]
  {
    if j < |infos| - 1 {
      InsertedLastWins(table, infos[..|infos| - 1], j);
    }
  }

  /** A key no entry is inserted under keeps what it had, or stays absent. */
  lemma {:induction false} InsertedFrame(table: Table, infos: seq<NativesInfo>, k: (string, string))
    requires forall l :: 0 <= l < |infos| ==> Key(infos[l]) != k
    ensures k in Inserted(table, infos) <==> k in table
    ensures k in table ==> Inserted(table, infos)[k] == table[k]
  {
    if infos != [] {
      InsertedFrame(table, infos[..|infos| - 1], k);
    }
  }

  /** The entries a registration inserts, in order, and the exception that stopped it, if any. */
  datatype Plan = Plan(infos: seq<NativesInfo>, fault: Option<Thrown>)

  /** `done` was inserted before the plan `p`. */
  function Then(done: seq<NativesInfo>, p: Plan): Plan
  {
    Plan(done + p.infos, p.fault)
  }

  /** `p`, then `q` if `p` did not throw. */
  function Seq(p: Plan, q: Plan): Plan
  {
    if p.fault.Some? then p else Then(p.infos, q)
  }

  /** The inner loop: one entry per `arch` element, until one throws. */
  function ArchPlan(base: string, osName: Option<string>, archs: seq<ArchConfig>, cl: Loader, canonical: Canonical)
    : (r: Plan)
    ensures |r.infos| <= |archs|
    ensures r.fault.None? ==> |r.infos| == |archs|
    ensures r.fault.Some? ==> |r.infos| < |archs| && InfoOf(base, osName, archs[|r.infos|], cl, canonical) == Failure(r.fault.value)
    decreases |archs|
  {
    if archs == [] then Plan([], None)
    else
      match InfoOf(base, osName, archs[0], cl, canonical)
      case Failure(e) => Plan([], Some(e))
      case Success(info) => Then([info], ArchPlan(base, osName, archs[1..], cl, canonical))
  }

  /** The outer loop: the `arch` elements of every `natives` element, in document order, until one throws. */
  function NativesPlan(base: string, natives: seq<NativesConfig>, cl: Loader, canonical: Canonical): (r: Plan)
    ensures |r.infos| <= ArchCount(natives)
    ensures r.fault.Some? ==> natives != [] && |r.infos| < ArchCount(natives)
    decreases |natives|
  {
    if natives == [] then Plan([], None)
    else Seq(ArchPlan(base, natives[0].osName, natives[0].archs, cl, canonical), NativesPlan(base, natives[1..], cl, canonical))
  }

  /** Every `arch` element of a list that does not throw gives exactly one entry, in order. */
  lemma {:induction false} ArchPlanOnePerArch(base: string, osName: Option<string>, archs: seq<ArchConfig>, cl: Loader,
                                              canonical: Canonical)
    requires ArchPlan(base, osName, archs, cl, canonical).fault.None?
    ensures var p := ArchPlan(base, osName, archs, cl, canonical);
      |p.infos| == |archs| &&
      forall j :: 0 <= j < |archs| ==> InfoOf(base, osName, archs[j], cl, canonical) == Success(p.infos[j])
    decreases |archs|
  {
    if archs != [] {
      ArchPlanOnePerArch(base, osName, archs[1..], cl, canonical);
      var p := ArchPlan(base, osName, archs, cl, canonical);
      var rest := ArchPlan(base, osName, archs[1..], cl, canonical);
      assert p.infos == [p.infos[0]] + rest.infos;
      forall j | 1 <= j < |archs|
        ensures InfoOf(base, osName, archs[j], cl, canonical) == Success(p.infos[j])
      {
        assert archs[j] == archs[1..][j - 1];
      }
    }
  }

  /** The number of `arch` elements in all the `natives` elements. */
  function ArchCount(natives: seq<NativesConfig>): nat
  {
    if natives == [] then 0 else |natives[0].archs| + ArchCount(natives[1..])
  }

  /** A descriptor that does not throw inserts one entry per `arch` element. */
  lemma {:induction false} NativesPlanOnePerArch(base: string, natives: seq<NativesConfig>, cl: Loader, canonical: Canonical)
    requires NativesPlan(base, natives, cl, canonical).fault.None?
    ensures |NativesPlan(base, natives, cl, canonical).infos| == ArchCount(natives)
    decreases |natives|
  {
    if natives != [] {
      ArchPlanOnePerArch(base, natives[0].osName, natives[0].archs, cl, canonical);
      NativesPlanOnePerArch(base, natives[1..], cl, canonical);
    }
  }

  /** Every exception but the `AssertionError` is wrapped in a `NativesManagerException`. */
  function Wrap(e: Thrown): (r: Thrown)
    ensures e == AssertionFailed <==> r == AssertionFailed
    ensures r != AssertionFailed ==> r == ManagerException(e)
  {
    if e == AssertionFailed then e else ManagerException(e)
  }

  /**
   * `registerFromDescriptor(url, cl)`: the table after it (entries inserted before an exception
   * stay), and what it throws.
   */
  function RegisterOf(table: Table, parsed: Option<Descriptor>, cl: Loader, canonical: Canonical): (r: (Table, Option<Thrown>))
    ensures parsed.None? ==> r == (table, Some(ManagerException(IoFailure)))
    ensures forall k :: k in table ==> k in r.0
    ensures r.1.Some? ==> r.1.value == AssertionFailed || r.1.value.ManagerException?
  {
    match parsed
    case None => (table, Some(ManagerException(IoFailure)))
    case Some(d) =>
      var p := NativesPlan(NormalizeBase(d.basePath), d.natives, cl, canonical);
      (Inserted(table, p.infos), if p.fault.Some? then Some(Wrap(p.fault.value)) else None)
  }

  /** `registerAllDescriptors()` from the `i`-th listed descriptor on. */
  function RegisterAllFrom(table: Table, urls: seq<Url>, read: Url -> Option<Descriptor>, cl: Loader,
                           canonical: Canonical): (r: (Table, Option<Thrown>))
    ensures forall k :: k in table ==> k in r.0
    ensures r.1.Some? ==> r.1.value == AssertionFailed || r.1.value.ManagerException?
    ensures urls == [] ==> r == (table, None)
    decreases |urls|
  {
    if urls == [] then (table, None)
    else
      var r := RegisterOf(table, read(urls[0]), cl, canonical);
      if r.1.Some? then (r.0, Some(Wrap(r.1.value)))
      else RegisterAllFrom(r.0, urls[1..], read, cl, canonical)
  }

  /** The names of every key are upper case, and every entry is stored under its own names. */
  predicate WellKeyed(table: Table)
  {
    forall k :: k in table ==> k == Key(table[k]) && ToUpper(k.0) == k.0 && ToUpper(k.1) == k.1
  }

  /** Registration keeps the table well keyed, whether it completes or throws. */
  lemma RegisterKeepsWellKeyed(table: Table, parsed: Option<Descriptor>, cl: Loader, canonical: Canonical)
    requires WellKeyed(table)
    ensures WellKeyed(RegisterOf(table, parsed, cl, canonical).0)
  {
    if parsed.Some? {
      var d := parsed.value;
      var base := NormalizeBase(d.basePath);
      var p := NativesPlan(base, d.natives, cl, canonical);
      NativesPlanWellKeyed(base, d.natives, cl, canonical);
      InsertedWellKeyed(table, p.infos);
    }
  }

  /** An entry whose names are upper case. */
  predicate UpperNames(info: NativesInfo)
  {
    ToUpper(info.osName) == info.osName && ToUpper(info.archName) == info.archName
  }

  /** Every entry's names are upper case. */
  predicate AllUpper(infos: seq<NativesInfo>)
  {
    forall j :: 0 <= j < |infos| ==> UpperNames(infos[j])
  }

  lemma {:induction false} InsertedWellKeyed(table: Table, infos: seq<NativesInfo>)
    requires WellKeyed(table)
    requires AllUpper(infos)
    ensures WellKeyed(Inserted(table, infos))
  {
    if infos != [] {
      InsertedWellKeyed(table, infos[..|infos| - 1]);
      assert UpperNames(infos[|infos| - 1]);
    }
  }

  lemma {:induction false} ArchPlanUpper(base: string, osName: Option<string>, archs: seq<ArchConfig>, cl: Loader,
                                         canonical: Canonical)
    ensures AllUpper(ArchPlan(base, osName, archs, cl, canonical).infos)
    decreases |archs|
  {
    if archs != [] {
      ArchPlanUpper(base, osName, archs[1..], cl, canonical);
      var info := InfoOf(base, osName, archs[0], cl, canonical);
      if info.Success? {
        ToUpperIdempotent(osName.value);
        ToUpperIdempotent(canonical(archs[0].name).value);
        var rest := ArchPlan(base, osName, archs[1..], cl, canonical);
        var p := ArchPlan(base, osName, archs, cl, canonical);
        assert p.infos == [info.value] + rest.infos;
        forall j | 0 <= j < |p.infos|
          ensures UpperNames(p.infos[j])
        {
          if j > 0 {
            assert p.infos[j] == rest.infos[j - 1];
            assert UpperNames(rest.infos[j - 1]);
          } else {
            assert p.infos[j] == info.value;
            assert info.value.osName == ToUpper(osName.value);
            assert UpperNames(info.value);
          }
        }
      }
    }
  }

  lemma {:induction false} NativesPlanWellKeyed(base: string, natives: seq<NativesConfig>, cl: Loader, canonical: Canonical)
    ensures AllUpper(NativesPlan(base, natives, cl, canonical).infos)
    decreases |natives|
  {
    if natives != [] {
      ArchPlanUpper(base, natives[0].osName, natives[0].archs, cl, canonical);
      NativesPlanWellKeyed(base, natives[1..], cl, canonical);
      var first := ArchPlan(base, natives[0].osName, natives[0].archs, cl, canonical);
      var rest := NativesPlan(base, natives[1..], cl, canonical);
      if first.fault.None? {
        AllUpperConcat(first.infos, rest.infos);
      }
    }
  }

  lemma AllUpperConcat(a: seq<NativesInfo>, b: seq<NativesInfo>)
    requires AllUpper(a) && AllUpper(b)
    ensures AllUpper(a + b)
  {
    forall j | 0 <= j < |a + b|
      ensures UpperNames((a + b)[j])
    {
      if j >= |a| {
        assert (a + b)[j] == b[j - |a|];
      }
    }
  }

  /** One `arch` element more. */
  lemma ArchStep(base: string, osName: Option<string>, archs: seq<ArchConfig>, a: int, cl: Loader, canonical: Canonical)
    requires 0 <= a < |archs|
    ensures var info := InfoOf(base, osName, archs[a], cl, canonical);
      ArchPlan(base, osName, archs[a..], cl, canonical) ==
        if info.Failure? then Plan([], Some(info.error)) else Then([info.value], ArchPlan(base, osName, archs[a + 1..], cl, canonical))
  {
    assert archs[a..][1..] == archs[a + 1..];
  }

  /** One `natives` element more. */
  lemma NativesStep(base: string, natives: seq<NativesConfig>, n: int, cl: Loader, canonical: Canonical)
    requires 0 <= n < |natives|
    ensures NativesPlan(base, natives[n..], cl, canonical) ==
      Seq(ArchPlan(base, natives[n].osName, natives[n].archs, cl, canonical), NativesPlan(base, natives[n + 1..], cl, canonical))
  {
    assert natives[n..][1..] == natives[n + 1..];
  }

  lemma ThenThen(done: seq<NativesInfo>, more: seq<NativesInfo>, p: Plan)
    ensures Then(done, Then(more, p)) == Then(done + more, p)
  {
    assert done + (more + p.infos) == (done + more) + p.infos;
  }

  lemma InsertedSnoc(table: Table, infos: seq<NativesInfo>, info: NativesInfo)
    ensures Inserted(table, infos + [info]) == Inserted(table, infos)[Key(info) := info]
  {
    assert (infos + [info])[..|infos|] == infos;
  }

  /** Inserting two lists one after the other is inserting their concatenation. */
  lemma {:induction false} InsertedAppend(table: Table, first: seq<NativesInfo>, second: seq<NativesInfo>)
    ensures Inserted(Inserted(table, first), second) == Inserted(table, first + second)
  {
    if second != [] {
      var last := second[|second| - 1];
      InsertedAppend(table, first, second[..|second| - 1]);
      assert (first + second)[..|first + second| - 1] == first + second[..|second| - 1];
    } else {
      assert first + second == first;
    }
  }

  /** `NativesManager`. */
  class NativesManager {
    var resourceUrls: seq<Url>
    var nativesTable: Table

    /** The table invariant every operation keeps. */
    predicate Valid()
      reads this
    {
      WellKeyed(nativesTable)
    }

    /** `new NativesManager()`: no URLs, an empty table. */
    constructor ()
      ensures resourceUrls == [] && nativesTable == map[] && Valid()
    {
      resourceUrls := [];
      nativesTable := map[];
    }

    /** `addResourceUrl(url)`: appends the URL; the table is untouched. */
    method AddResourceUrl(url: Url)
      modifies this`resourceUrls
      ensures resourceUrls == old(resourceUrls) + [url]
    {
      resourceUrls := resourceUrls + [url];
    }

    /** `getNativesInfo(osName, archName)`: the entry under exactly this key, or `null`. */
    function GetNativesInfo(osName: string, archName: string): (r: Option<NativesInfo>)
      reads this
      ensures r.Some? <==> (osName, archName) in nativesTable
      ensures r.Some? ==> r.value == nativesTable[(osName, archName)]
      ensures Valid() && r.Some? ==> Key(r.value) == (osName, archName)
    {
      if (osName, archName) in nativesTable then Some(nativesTable[(osName, archName)]) else None
    }

    /** Lookup is exact: a name that is not upper case never finds an entry. */
    lemma LowerCaseMisses(osName: string, archName: string)
      requires Valid()
      requires ToUpper(osName) != osName || ToUpper(archName) != archName
      ensures GetNativesInfo(osName, archName).None?
    {
    }

    /**
     * `getNativesInfoForCurrentPlatform()`: the host's OS constant (`None` where JNA's OS type has no
     * constant) and its upper-cased canonical architecture. The architecture is looked up first, so
     * its `AssertionError` wins over the `NullPointerException` of a missing OS constant.
     */
    method GetNativesInfoForCurrentPlatform(currentOs: Option<string>, osArch: Option<string>, canonical: Canonical)
      returns (r: Result<Option<NativesInfo>, Thrown>)
      ensures canonical(osArch).None? ==> r == Failure(AssertionFailed)
      ensures canonical(osArch).Some? && currentOs.None? ==> r == Failure(NullPointer)
      ensures canonical(osArch).Some? && currentOs.Some? ==>
        r == Success(GetNativesInfo(currentOs.value, ToUpper(canonical(osArch).value)))
    {
      var arch := canonical(osArch);
      if arch.None? {
        return Failure(AssertionFailed);
      }
      var currentArch := ToUpper(arch.value);
      if currentOs.None? {
        return Failure(NullPointer);
      }
      r := Success(GetNativesInfo(currentOs.value, currentArch));
    }

    /**
     * `registerFromDescriptor(url, cl)` with the descriptor as read (`None` where the stream or the
     * XML cannot be read): the base path, then one insertion per `arch` element.
     */
    method RegisterFromDescriptor(parsed: Option<Descriptor>, cl: Loader, canonical: Canonical) returns (fault: Option<Thrown>)
      requires Valid()
      modifies this`nativesTable
      ensures (nativesTable, fault) == RegisterOf(old(nativesTable), parsed, cl, canonical)
      ensures Valid()
    {
      RegisterKeepsWellKeyed(nativesTable, parsed, cl, canonical);
      if parsed.None? {
        return Some(ManagerException(IoFailure));
      }
      var basePath := parsed.value.basePath;
      var base: string;
      if basePath.None? {
        base := "";
      } else if basePath.value != "" {
        base := StripEnd(basePath.value, '/') + "/";
      } else {
        base := basePath.value;
      }
      assert base == NormalizeBase(basePath);
      fault := RegisterPlan(base, parsed.value.natives, cl, canonical);
      if fault.Some? {
        fault := Some(Wrap(fault.value));
      }
    }

    /** The outer loop of `registerFromDescriptor`: every `natives` element, in order, until one throws. */
    method RegisterPlan(base: string, natives: seq<NativesConfig>, cl: Loader, canonical: Canonical)
      returns (fault: Option<Thrown>)
      modifies this`nativesTable
      ensures var p := NativesPlan(base, natives, cl, canonical);
        fault == p.fault && nativesTable == Inserted(old(nativesTable), p.infos)
    {
      var n := 0;
      ghost var done: seq<NativesInfo> := [];
      while n < |natives|
        invariant 0 <= n <= |natives|
        invariant nativesTable == Inserted(old(nativesTable), done)
        invariant NativesPlan(base, natives, cl, canonical) == Then(done, NativesPlan(base, natives[n..], cl, canonical))
      {
        NativesStep(base, natives, n, cl, canonical);
        fault := RegisterNatives(base, natives[n], cl, canonical);
        ghost var p := ArchPlan(base, natives[n].osName, natives[n].archs, cl, canonical);
        InsertedAppend(old(nativesTable), done, p.infos);
        if fault.Some? {
          return;
        }
        ThenThen(done, p.infos, NativesPlan(base, natives[n + 1..], cl, canonical));
        done := done + p.infos;
        n := n + 1;
      }
      assert done + [] == done;
      fault := None;
    }

    /** The inner loop of `registerFromDescriptor`: every `arch` element of one `natives` element. */
    method RegisterNatives(base: string, config: NativesConfig, cl: Loader, canonical: Canonical)
      returns (fault: Option<Thrown>)
      modifies this`nativesTable
      ensures var p := ArchPlan(base, config.osName, config.archs, cl, canonical);
        fault == p.fault && nativesTable == Inserted(old(nativesTable), p.infos)
    {
      var archs := config.archs;
      var a := 0;
      ghost var inserted: seq<NativesInfo> := [];
      while a < |archs|
        invariant 0 <= a <= |archs|
        invariant nativesTable == Inserted(old(nativesTable), inserted)
        invariant ArchPlan(base, config.osName, archs, cl, canonical) ==
          Then(inserted, ArchPlan(base, config.osName, archs[a..], cl, canonical))
      {
        ArchStep(base, config.osName, archs, a, cl, canonical);
        var info := InfoOf(base, config.osName, archs[a], cl, canonical);
        if info.Failure? {
          assert inserted + [] == inserted;
          return Some(info.error);
        }
        nativesTable := nativesTable[Key(info.value) := info.value];
        InsertedSnoc(old(nativesTable), inserted, info.value);
        ThenThen(inserted, [info.value], ArchPlan(base, config.osName, archs[a + 1..], cl, canonical));
        inserted := inserted + [info.value];
        a := a + 1;
      }
      assert inserted + [] == inserted;
      fault := None;
    }

    /**
     * `registerAllDescriptors()`: a class loader over the resource URLs, then every descriptor it
     * lists, in order, until one throws; every exception but the `AssertionError` is wrapped again.
     */
    method RegisterAllDescriptors(loaderOf: seq<Url> -> Loader, read: Url -> Option<Descriptor>, canonical: Canonical)
      returns (fault: Option<Thrown>)
      requires Valid()
      modifies this`nativesTable
      ensures var cl := loaderOf(resourceUrls);
        (cl.descriptors.None? ==> nativesTable == old(nativesTable) && fault == Some(ManagerException(IoFailure))) &&
        (cl.descriptors.Some? ==>
          (nativesTable, fault) == RegisterAllFrom(old(nativesTable), cl.descriptors.value, read, cl, canonical))
      ensures Valid()
    {
      var cl := loaderOf(resourceUrls);
      if cl.descriptors.None? {
        return Some(ManagerException(IoFailure));
      }
      var urls := cl.descriptors.value;
      var i := 0;
      while i < |urls|
        invariant 0 <= i <= |urls|
        invariant Valid()
        invariant RegisterAllFrom(old(nativesTable), urls, read, cl, canonical) ==
          RegisterAllFrom(nativesTable, urls[i..], read, cl, canonical)
      {
        assert urls[i..][1..] == urls[i + 1..];
        var f := RegisterFromDescriptor(read(urls[i]), cl, canonical);
        if f.Some? {
          return Some(Wrap(f.value));
        }
        i := i + 1;
      }
      fault := None;
    }
  }
}
