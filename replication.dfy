/**
 * The test double for a replication handle. Each optional function field is
 * represented by the string it yields when set (`Some`) or by `None` when the
 * field is nil. `Source` and `Target` fall back to a name derived from the
 * replication's `id` when their function is nil.
 */
module Replication {
  import opened Wrappers

  const SourceSuffix: string := "-source"
  const TargetSuffix: string := "-target"

  datatype Replication = Replication(
    id: string,
    sourceFunc: Option<string>,
    targetFunc: Option<string>)
  {
    /** The replication source: the supplied function's result, or `id` followed by "-source". */
    function Source(): (s: string)
      ensures sourceFunc.Some? ==> s == sourceFunc.value
      ensures sourceFunc.None? ==>
        |s| == |id| + |SourceSuffix| && s[..|id|] == id && s[|id|..] == SourceSuffix
    {
      match sourceFunc
      case None => id + SourceSuffix
      case Some(name) => name
    }

    /** The replication target: the supplied function's result, or `id` followed by "-target". */
    function Target(): (t: string)
      ensures targetFunc.Some? ==> t == targetFunc.value
      ensures targetFunc.None? ==>
        |t| == |id| + |TargetSuffix| && t[..|id|] == id && t[|id|..] == TargetSuffix
    {
      match targetFunc
      case None => id + TargetSuffix
      case Some(name) => name
    }
  }

  /**
   * A default source name never equals a default target name, whatever the
   * two ids are: equal lengths force equal ids, and then the suffixes differ.
   */
  lemma DefaultSourceNeverDefaultTarget(r1: Replication, r2: Replication)
    requires r1.sourceFunc.None? && r2.targetFunc.None?
    ensures r1.Source() != r2.Target()
  {
    // Follows from the prefix and suffix stated by Source and Target.
  }

  /** Two handles with default sources have the same source exactly when they have the same id. */
  lemma DefaultSourceDeterminesId(r1: Replication, r2: Replication)
    requires r1.sourceFunc.None? && r2.sourceFunc.None?
    ensures r1.Source() == r2.Source() <==> r1.id == r2.id
  {
    // The id is the prefix of the source that Source states.
  }

  /** Two handles with default targets have the same target exactly when they have the same id. */
  lemma DefaultTargetDeterminesId(r1: Replication, r2: Replication)
    requires r1.targetFunc.None? && r2.targetFunc.None?
    ensures r1.Target() == r2.Target() <==> r1.id == r2.id
  {
    // The id is the prefix of the target that Target states.
  }
}
