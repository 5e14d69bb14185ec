/** The `delete-branch` command (src/cli/pact_broker/main/branches/delete_branch.rs):
    a DELETE of the index's `pb:pacticipant-branch` template; a branch that
    is not found is an error unless `--error-when-not-found` is false. */
module Branches {
  import opened Wrappers
  import opened Json
  import opened Errors
  import opened Client
  import Hal
  import Utils

  /** How the `error-when-not-found` argument reads: not readable as a
      boolean, absent, or given. */
  datatype FlagRead = Unreadable | Absent | Given(value: bool)

  /** Whether a missing branch is an error: only an explicit `false` says no. */
  function ErrorWhenNotFound(f: FlagRead): (r: bool)
    ensures !r <==> f == Given(false)
  {
    match f
    case Given(b) => b
    case _ => true
  }

  function BranchValues(pacticipant: string, branch: string): (m: map<string, string>)
    ensures m.Keys == {"pacticipant", "branch"} && m["pacticipant"] == pacticipant && m["branch"] == branch
  {
    map["pacticipant" := pacticipant, "branch" := branch]
  }

  /** The async block: the relation, then the DELETE of its template. */
  function DeleteRun(broker: Broker, pacticipant: string, branch: string): (r: Run<Json>)
    ensures |r.sent| >= 1 && r.sent[0] == Request(GET, "/", None)
    ensures Utils.GetBrokerRelation(broker, "pb:pacticipant-branch").outcome.Err? ==>
              r == Run(Err(Utils.GetBrokerRelation(broker, "pb:pacticipant-branch").outcome.error), [Request(GET, "/", None)])
    ensures Utils.GetBrokerRelation(broker, "pb:pacticipant-branch").outcome.Ok? ==>
              var target := Hal.Expand(Utils.GetBrokerRelation(broker, "pb:pacticipant-branch").outcome.value,
                                       BranchValues(pacticipant, branch));
              r == Run(broker(Request(DELETE, target, None)), [Request(GET, "/", None), Request(DELETE, target, None)])
  {
    var rel := Utils.GetBrokerRelation(broker, "pb:pacticipant-branch");
    match rel.outcome
    case Err(e) => Run(Err(e), rel.sent)
    case Halted(h) => Run(Halted(h), rel.sent)
    case Ok(href) =>
      var d := Utils.DeleteTemplatedBrokerRelation(broker, "pb:pacticipant-branch", href, BranchValues(pacticipant, branch), "");
      Run(d.outcome, rel.sent + d.sent)
  }

  function DeletedMessage(pacticipant: string, branch: string): string {
    "Successfully deleted branch '" + branch + "' of pacticipant '" + pacticipant + "'"
  }

  function BranchNotFoundMessage(pacticipant: string, branch: string): string {
    "Could not delete branch '" + branch + "' of pacticipant '" + pacticipant + "' as it was not found"
  }

  /** The reply for the outcome of the async block: a NotFound (from the
      relation or the DELETE) becomes the not-found message, as an error or
      as a success as the flag says; other errors are passed on. */
  function Report(inner: Outcome<Json, BrokerError>, pacticipant: string, branch: string, errorWhenNotFound: bool): (r: Outcome<string, BrokerError>)
    ensures inner.Ok? ==> r == Ok(DeletedMessage(pacticipant, branch))
    ensures inner.Err? && inner.error.NotFound? && errorWhenNotFound ==> r == Err(NotFound(BranchNotFoundMessage(pacticipant, branch)))
    ensures inner.Err? && inner.error.NotFound? && !errorWhenNotFound ==> r == Ok(BranchNotFoundMessage(pacticipant, branch))
    ensures inner.Err? && !inner.error.NotFound? ==> r == Err(inner.error)
    ensures inner.Halted? ==> r == Halted(inner.halt)
  {
    match inner
    case Ok(_) => Ok(DeletedMessage(pacticipant, branch))
    case Err(NotFound(_)) =>
      if errorWhenNotFound then Err(NotFound(BranchNotFoundMessage(pacticipant, branch)))
      else Ok(BranchNotFoundMessage(pacticipant, branch))
    case Err(e) => Err(e)
    case Halted(h) => Halted(h)
  }

  /** `delete_branch`. */
  function DeleteBranch(broker: Broker, pacticipant: string, branch: string, flag: FlagRead): (r: Run<string>)
    ensures var inner := DeleteRun(broker, pacticipant, branch);
            r.sent == inner.sent &&
            (r.outcome == Ok(DeletedMessage(pacticipant, branch)) <==> inner.outcome.Ok?) &&
            (r.outcome.Halted? <==> inner.outcome.Halted?)
    ensures var inner := DeleteRun(broker, pacticipant, branch);
            inner.outcome.Err? && inner.outcome.error.NotFound? ==>
              (r.outcome.Err? <==> flag != Given(false)) &&
              (r.outcome.Err? ==> r.outcome.error == NotFound(BranchNotFoundMessage(pacticipant, branch))) &&
              (r.outcome.Ok? ==> r.outcome.value == BranchNotFoundMessage(pacticipant, branch))
    ensures var inner := DeleteRun(broker, pacticipant, branch);
            inner.outcome.Err? && !inner.outcome.error.NotFound? ==> r.outcome == Err(inner.outcome.error)
    ensures Utils.GetBrokerRelation(broker, "pb:pacticipant-branch").outcome.Ok? ==>
              var target := Hal.Expand(Utils.GetBrokerRelation(broker, "pb:pacticipant-branch").outcome.value,
                                       BranchValues(pacticipant, branch));
              (r.outcome == Ok(DeletedMessage(pacticipant, branch)) <==> broker(Request(DELETE, target, None)).Ok?)
  {
    var inner := DeleteRun(broker, pacticipant, branch);
    DeletedIffOk(inner.outcome, pacticipant, branch, ErrorWhenNotFound(flag));
    Run(Report(inner.outcome, pacticipant, branch, ErrorWhenNotFound(flag)), inner.sent)
  }

  /** A branch that is not found fails the command exactly when the flag is
      not an explicit `false`; either way the message names the branch. */
  lemma NotFoundFailsUnlessDisabled(broker: Broker, pacticipant: string, branch: string, flag: FlagRead)
    requires DeleteRun(broker, pacticipant, branch).outcome.Err?
    requires DeleteRun(broker, pacticipant, branch).outcome.error.NotFound?
    ensures var r := DeleteBranch(broker, pacticipant, branch, flag);
            (r.outcome.Err? <==> flag != Given(false)) &&
            (r.outcome.Err? ==> r.outcome.error == NotFound(BranchNotFoundMessage(pacticipant, branch))) &&
            (r.outcome.Ok? ==> r.outcome.value == BranchNotFoundMessage(pacticipant, branch))
  {
  }

  /** The success messages are told apart: the deleted message exactly when
      the DELETE succeeded. */
  lemma DeletedIffOk(inner: Outcome<Json, BrokerError>, pacticipant: string, branch: string, errorWhenNotFound: bool)
    ensures Report(inner, pacticipant, branch, errorWhenNotFound) == Ok(DeletedMessage(pacticipant, branch)) <==> inner.Ok?
  {
    assert DeletedMessage(pacticipant, branch)[0] != BranchNotFoundMessage(pacticipant, branch)[0];
  }

  /** When the relation is found, the one write is the DELETE of the
      template expanded with the pacticipant and branch. */
  lemma DeleteTargetsTemplate(broker: Broker, pacticipant: string, branch: string, flag: FlagRead)
    requires Utils.GetBrokerRelation(broker, "pb:pacticipant-branch").outcome.Ok?
    ensures var target := Hal.Expand(Utils.GetBrokerRelation(broker, "pb:pacticipant-branch").outcome.value,
                                     BranchValues(pacticipant, branch));
            var r := DeleteBranch(broker, pacticipant, branch, flag);
            WithVerb(r.sent, DELETE) == [Request(DELETE, target, None)]
  {
    var target := Hal.Expand(Utils.GetBrokerRelation(broker, "pb:pacticipant-branch").outcome.value,
                             BranchValues(pacticipant, branch));
    var sent := [Request(GET, "/", None), Request(DELETE, target, None)];
    assert sent[1..] == [Request(DELETE, target, None)] && sent[1..][1..] == [];
  }
}
