/** The running operator: the cluster it talks to and the custom resource copy it works on. */
module OperatorState {
  import opened Kube

  class Operator {
    var cluster: World
    var script: seq<Tick>
    var order: set<string> -> seq<string>
    var cr: Cr

    ghost function Now(): Sys
      reads this
    {
      Sys(cluster, cr, script, order)
    }

    /** Every API request of the operator goes through here; whatever the others do happens in between. */
    method Call(q: Request) returns (reply: Reply)
      modifies this
      ensures Ans(Now(), reply) == Kube.Call(old(Now()), q)
    {
      var a := Kube.Call(Sys(cluster, cr, script, order), q);
      cluster, script, reply := a.s.w, a.s.ticks, a.reply;
    }
  }
}
