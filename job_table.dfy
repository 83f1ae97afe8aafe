/**
 * The job table with row colours and a details modal
 * (components/ui/tables/JobList.tsx): a live list of the signed-in user's jobs,
 * the outcome and priority switches that style each row, and the selection that
 * opens the details modal.
 */
module JobTable {
  import opened Wrappers
  import opened Values
  import opened LiveQuery
  import opened JobListing
  import Jobs

  /** `getRowBgColor(outcome)`: a strict-equality switch over the outcome text. */
  function RowBgColor(outcome: Value): (color: string)
    ensures color == "bg-rose-50" <==> outcome == Str("Denied")
    ensures color == "bg-emerald-50" <==> outcome == Str("Interview")
    ensures color == "bg-emerald-200" <==> outcome == Str("Hired")
    ensures color == "bg-slate-50" <==> outcome !in {Str("Denied"), Str("Interview"), Str("Hired")}
  {
    match outcome
    case Str("Denied") => "bg-rose-50"
    case Str("Interview") => "bg-emerald-50"
    case Str("Hired") => "bg-emerald-200"
    case _ => "bg-slate-50"
  }

  /** `getRowWeight(priority)`: LOW is light, HIGH semi-bold, anything else (MEDIUM, absent) plain. */
  function RowWeight(priority: Value): (weight: string)
    ensures weight == "font-light" <==> priority == Str("LOW")
    ensures weight == "font-semibold" <==> priority == Str("HIGH")
    ensures weight == "" <==> priority != Str("LOW") && priority != Str("HIGH")
  {
    match priority
    case Str("LOW") => "font-light"
    case Str("HIGH") => "font-semibold"
    case _ => ""
  }

  /** The style of a job's row: its colour from the outcome, its weight from the priority. */
  datatype RowStyle = RowStyle(background: string, weight: string)

  function JobRowStyle(job: Doc): RowStyle {
    RowStyle(RowBgColor(Lookup(job, Outcome)), RowWeight(Lookup(job, Priority)))
  }

  /** The weight of the priority text a stored job carries. */
  function PriorityWeight(priority: Option<Jobs.Priority>): string {
    if priority == Some(Jobs.LOW) then "font-light"
    else if priority == Some(Jobs.HIGH) then "font-semibold"
    else ""
  }

  /** The priority text `createJob` stores (MEDIUM when none was given) is weighted by the priority. */
  lemma StoredPriorityWeight(priority: Option<Jobs.Priority>)
    ensures RowWeight(Str(priority.GetOr(Jobs.MEDIUM).Name())) == PriorityWeight(priority)
  {
    if priority == Some(Jobs.LOW) {
      assert priority.GetOr(Jobs.MEDIUM).Name() == "LOW";
    } else if priority == Some(Jobs.HIGH) {
      assert priority.GetOr(Jobs.MEDIUM).Name() == "HIGH";
    } else {
      assert priority.GetOr(Jobs.MEDIUM).Name() == "MEDIUM";
    }
  }

  /**
   * A job as `createJob` stored it, read back into the list, is drawn on slate
   * (its outcome is Applied) and light, plain or semi-bold by its priority.
   */
  lemma CreatedJobRowStyle(uid: string, data: Jobs.JobData, id: string)
    ensures JobRowStyle(WithId(id, Jobs.JobPayload(uid, data))).background == "bg-slate-50"
    ensures JobRowStyle(WithId(id, Jobs.JobPayload(uid, data))).weight == PriorityWeight(data.priority)
  {
    var job := WithId(id, Jobs.JobPayload(uid, data));
    Jobs.JobPayloadDefaults(uid, data);
    assert Lookup(job, Outcome) == Str("Applied");
    assert Lookup(job, Priority) == Str(data.priority.GetOr(Jobs.MEDIUM).Name());
    StoredPriorityWeight(data.priority);
  }

  /** Company, title, outcome, the three contact fields, link, priority and follow-up. */
  const TableColumns: seq<Column> := [
    Text(CompanyName), Text(JobTitle), Text(Outcome), Text(ContactName), Text(ContactEmail),
    Text(ContactPhone), PostingLink, Text(Priority), FollowUp]

  class JobTable {
    /** The uid of the signed-in user the last effect ran for, if any. */
    var user: Option<string>
    var jobs: seq<Doc>
    var loading: bool
    var selectedJob: Option<Doc>
    var isDetailsModalOpen: bool
    /** The live query the effect opened, until its cleanup cancels it. */
    var subscription: Option<Query>

    /** The first render and its effect: no user ends loading, a user opens the query. */
    constructor (user: Option<string>)
      ensures this.user == user && jobs == [] && selectedJob == None && !isDetailsModalOpen
      ensures user.None? ==> !loading && subscription == None
      ensures user.Some? ==> loading && subscription == Some(JobsQuery(user.value))
    {
      this.user := user;
      jobs := [];
      selectedJob := None;
      isDetailsModalOpen := false;
      if user.None? {
        loading := false;
        subscription := None;
      } else {
        loading := true;
        subscription := Some(JobsQuery(user.value));
      }
    }

    /**
     * A render with a different signed-in user reruns the effect: the old query is
     * cancelled; without a user loading ends, with one the new user's query opens.
     * The list keeps its jobs until a snapshot arrives.
     */
    method UserChanged(newUser: Option<string>)
      modifies this
      ensures user == newUser && jobs == old(jobs)
      ensures selectedJob == old(selectedJob) && isDetailsModalOpen == old(isDetailsModalOpen)
      ensures newUser == old(user) ==> subscription == old(subscription) && loading == old(loading)
      ensures newUser != old(user) && newUser.None? ==> subscription == None && !loading
      ensures newUser != old(user) && newUser.Some? ==>
        subscription == Some(JobsQuery(newUser.value)) && loading == old(loading)
    {
      if newUser == user {
        return;
      }
      user := newUser;
      subscription := None;
      if newUser.None? {
        loading := false;
      } else {
        subscription := Some(JobsQuery(newUser.value));
      }
    }

    /** Unmounting runs the cleanup: the query is cancelled. */
    method Unmount()
      modifies this
      ensures subscription == None
      ensures user == old(user) && jobs == old(jobs) && loading == old(loading)
      ensures selectedJob == old(selectedJob) && isDetailsModalOpen == old(isDetailsModalOpen)
    {
      subscription := None;
    }

    /** The snapshot callback: the jobs are replaced wholesale, in delivered order, and loading ends. */
    method OnSnapshot(snapshot: seq<SnapshotDoc>)
      requires subscription.Some?
      modifies this
      ensures jobs == Materialize(snapshot) && !loading
      ensures user == old(user) && subscription == old(subscription)
      ensures selectedJob == old(selectedJob) && isDetailsModalOpen == old(isDetailsModalOpen)
    {
      jobs := Materialize(snapshot);
      loading := false;
    }

    /** What the list renders. */
    function Display(): JobListView
      reads this
    {
      View(user.Some?, loading, jobs)
    }

    /** The details modal is part of the table, and shows while it is open on a selected job. */
    function DetailsShown(): (shown: bool)
      reads this
      ensures shown ==> Display().Table? && isDetailsModalOpen && selectedJob.Some?
    {
      Display().Table? && isDetailsModalOpen && selectedJob.Some?
    }

    /** `handleRowClick(job)`: selects the job and opens its details. */
    method HandleRowClick(job: Doc)
      modifies this
      ensures selectedJob == Some(job) && isDetailsModalOpen
      ensures user == old(user) && jobs == old(jobs) && loading == old(loading) && subscription == old(subscription)
      ensures old(Display()).Table? ==> DetailsShown()
    {
      selectedJob := Some(job);
      isDetailsModalOpen := true;
    }

    /** `closeDetailsModal()`: clears the selection and closes the details. */
    method CloseDetailsModal()
      modifies this
      ensures selectedJob == None && !isDetailsModalOpen && !DetailsShown()
      ensures user == old(user) && jobs == old(jobs) && loading == old(loading) && subscription == old(subscription)
    {
      selectedJob := None;
      isDetailsModalOpen := false;
    }

    /** The rows of the table, one per job in list order, with their styles. */
    function RowsWithStyle(): (rows: seq<(Row, RowStyle)>)
      reads this
      ensures |rows| == |jobs|
      ensures forall i | 0 <= i < |rows| :: rows[i].0.key == Lookup(jobs[i], Id)
      ensures forall i | 0 <= i < |rows| :: rows[i].1 == JobRowStyle(jobs[i])
    {
      var list := jobs;
      var rows := Rows(list, TableColumns);
      seq(|list|, i requires 0 <= i < |list| => (rows[i], JobRowStyle(list[i])))
    }
  }
}
