/** The invariant of the lifecycle engine, and that every reachable state satisfies it. */
module PanelInvariant {
  import opened Panel
  import opened PanelTickets
  import opened PanelNoLoss
  import opened PanelRows
  import opened PanelRowsKept
  import opened PanelFreshKept
  import opened PanelStuckKept
  import opened PanelHosts
  import opened PanelGuests

  ghost predicate Inv(s: State) {
    Tickets(s) && NoLoss(s) && Rows(s) && Fresh(s) && Unstuck(s) && Hosts(s) && GuestRefs(s)
  }

  ghost predicate Reachable(s: State) {
    exists run, steps :: IsRun(run, steps) && run[|steps|] == s
  }

  lemma InitInv()
    ensures Inv(INIT)
  {
  }

  lemma StepKeepsInv(s: State, step: Step)
    requires Inv(s) && Enabled(s, step)
    ensures Inv(Apply(s, step))
  {
    StepKeepsTickets(s, step);
    StepKeepsNoLoss(s, step);
    StepKeepsRows(s, step);
    StepKeepsFresh(s, step);
    StepKeepsUnstuck(s, step);
    StepKeepsHosts(s, step);
    StepKeepsGuestRefs(s, step);
  }

  lemma {:induction false} FollowsKeepsInv(run: seq<State>, steps: seq<Step>, n: nat)
    requires |run| == |steps| + 1 && Follows(run, steps) && Inv(run[0]) && n <= |steps|
    ensures Inv(run[n])
  {
    if n > 0 {
      FollowsKeepsInv(run, steps, n - 1);
      StepKeepsInv(run[n - 1], steps[n - 1]);
    }
  }

  lemma RunInv(run: seq<State>, steps: seq<Step>)
    requires IsRun(run, steps)
    ensures forall i :: 0 <= i < |run| ==> Inv(run[i])
  {
    InitInv();
    forall i | 0 <= i < |run| ensures Inv(run[i]) { FollowsKeepsInv(run, steps, i); }
  }

  lemma ReachableInv(s: State)
    requires Reachable(s)
    ensures Inv(s)
  {
    var run, steps :| IsRun(run, steps) && run[|steps|] == s;
    RunInv(run, steps);
  }
}
