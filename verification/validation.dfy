/**
 * The builders' `validate()` pattern: a list of named directory settings checked in order, the
 * first one that is rejected deciding the exception.
 */
module Validation {
  import opened Wrappers
  import opened Files

  /**
   * What a setting is checked for: `null` alone (the `org` builder); `null` and then an existing
   * regular file at the path (the directories of the `com` and `capnproto` builders); or `null` and
   * then an existing directory at the path (the schema files of the `capnproto` builder).
   */
  datatype Rule =
    | NullOnly
    | NullOrFile(cwd: seq<string>, entries: Entries)
    | NullOrDirectory(cwd: seq<string>, entries: Entries)

  /** The setting fails the rule. */
  predicate Rejected(rule: Rule, v: Option<FilePath>)
  {
    v.None? ||
    (rule.NullOrFile? && IsFileAt(rule.entries, ResolveIn(rule.cwd, v.value))) ||
    (rule.NullOrDirectory? && IsDirectoryAt(rule.entries, ResolveIn(rule.cwd, v.value)))
  }

  /** Every element of a list under the same name. */
  function Labelled(name: string, xs: seq<Option<FilePath>>): (r: seq<(string, Option<FilePath>)>)
    ensures |r| == |xs| && forall i :: 0 <= i < |xs| ==> r[i] == (name, xs[i])
  {
    if xs == [] then [] else [(name, xs[0])] + Labelled(name, xs[1..])
  }

  /** `named[i]` is rejected and every setting before it passes. */
  predicate FirstRejectedAt(named: seq<(string, Option<FilePath>)>, rule: Rule, i: int)
  {
    0 <= i < |named| && Rejected(rule, named[i].1) && forall j :: 0 <= j < i ==> !Rejected(rule, named[j].1)
  }

  /** The index of the first rejected setting, or `None` when all pass. */
  function FirstRejected(named: seq<(string, Option<FilePath>)>, rule: Rule): (r: Option<nat>)
    ensures r.None? <==> forall i :: 0 <= i < |named| ==> !Rejected(rule, named[i].1)
    ensures r.Some? ==> FirstRejectedAt(named, rule, r.value)
    decreases |named|
  {
    if named == [] then None
    else if Rejected(rule, named[0].1) then Some(0)
    else
      var rest := FirstRejected(named[1..], rule);
      if rest.None? then None else Some(rest.value + 1)
  }

  /** At most one setting is the first rejected one, so the scan reports exactly it. */
  lemma FirstRejectedUnique(named: seq<(string, Option<FilePath>)>, rule: Rule, i: int)
    requires FirstRejectedAt(named, rule, i)
    ensures FirstRejected(named, rule) == Some(i)
  {
  }
}
