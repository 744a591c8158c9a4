/** Types shared by the components. */
module Common {

  datatype Option<+T> = None | Some(value: T)

  /** How commits relate to standbys. */
  datatype ReplicationMode = Async | Sync | SyncStrict

  /** A subset has no more elements. */
  lemma {:induction false} SubsetCount<T>(a: set<T>, b: set<T>)
    requires a <= b
    ensures |a| <= |b|
  {
    if |a| > 0 {
      var x :| x in a;
      SubsetCount(a - {x}, b - {x});
    }
  }
}
