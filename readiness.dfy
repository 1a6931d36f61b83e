/**
 * The readiness gate at the top of `main`: poll the controller's `info`
 * until its state is `ready`, sleeping between polls, then announce the
 * client. The real loop has no bound; here it runs over a finite prefix of
 * the controller's answers, and `Waiting` means that prefix held no
 * `ready` answer.
 */
module Readiness {
  import opened Wrappers
  import opened Gcode

  /** The reply to one `info` poll: its `result` mapping, if it has one. */
  datatype Poll = Poll(result: Option<map<string, string>>)

  /** How the gate ends: ready, an uncaught lookup failure, or still
      polling. */
  datatype Gate = Ready | Crashed(exc: Exc) | Waiting

  /** A poll whose answer is well formed and not `ready`: the loop sleeps and
      polls again. */
  predicate NotReady(p: Poll)
  {
    p.result.Some? && "state" in p.result.value && p.result.value["state"] != "ready"
  }

  /** Runs the polling loop over `polls`. `n` is the number of `sleep(2)`
      calls made, which is also the index of the poll the loop stopped on. */
  method AwaitReady(polls: seq<Poll>) returns (n: nat, gate: Gate)
    ensures n <= |polls|
    ensures forall j :: 0 <= j < n ==> NotReady(polls[j])
    ensures gate.Waiting? <==> n == |polls|
    ensures gate.Ready? <==> n < |polls| && polls[n].result.Some? && Get(polls[n].result.value, "state") == Some("ready")
    ensures gate.Crashed? ==> n < |polls| && (polls[n].result.None? <==> gate.exc == KeyError("result"))
    ensures gate.Crashed? && polls[n].result.Some? ==> "state" !in polls[n].result.value && gate.exc == KeyError("state")
  {
    n := 0;
    while n < |polls|
      invariant n <= |polls|
      invariant forall j :: 0 <= j < n ==> NotReady(polls[j])
    {
      var resp := polls[n];
      if resp.result.None? {
        return n, Crashed(KeyError("result"));
      }
      var result := resp.result.value;
      if "state" !in result {
        return n, Crashed(KeyError("state"));
      }
      if result["state"] == "ready" {
        return n, Ready;
      }
      n := n + 1;
    }
    gate := Waiting;
  }
}
