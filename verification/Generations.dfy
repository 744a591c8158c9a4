/** Generations that an operation publishes, and its wait for the nodes of a database to report them. */
module Generations {
  type NodeId = nat

  /** What a host last said of a node: the generation it has in place, and whether its instance runs. */
  datatype Reported = Reported(generation: nat, running: bool)

  /** Every node that is not excused as offline runs and has reported the target. */
  predicate AllApplied(reports: map<NodeId, Reported>, offline: set<NodeId>, target: nat) {
    forall id <- reports :: id in offline || (target <= reports[id].generation && reports[id].running)
  }

  /** Look at nodes in turn until one is not there yet, leaving out those excused. */
  method WaitedFor(reports: map<NodeId, Reported>, offline: set<NodeId>, target: nat) returns (done: bool)
    ensures done == AllApplied(reports, offline, target)
    ensures done <==> forall id <- reports.Keys - offline :: target <= reports[id].generation && reports[id].running
  {
    var todo := reports.Keys;
    while todo != {}
      invariant todo <= reports.Keys
      invariant forall id <- reports.Keys - todo :: id in offline || (target <= reports[id].generation && reports[id].running)
      decreases todo
    {
      var id :| id in todo;
      if id !in offline && (reports[id].generation < target || !reports[id].running) {
        return false;
      }
      todo := todo - {id};
    }
    return true;
  }
}
