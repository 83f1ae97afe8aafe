/**
 * The job list the profile page mounts (components/ui/tabls/JobList.tsx): a live
 * list of the signed-in user's jobs shown as a plain table.
 */
module ProfileJobList {
  import opened Wrappers
  import opened Values
  import opened LiveQuery
  import opened JobListing

  /** Company, title, outcome, notes, the three contact fields, link, priority and follow-up. */
  const ProfileColumns: seq<Column> := [
    Text(CompanyName), Text(JobTitle), Text(Outcome), Text(Notes), Text(ContactName),
    Text(ContactEmail), Text(ContactPhone), PostingLink, Text(Priority), FollowUp]

  class ProfileJobList {
    /** The uid of the signed-in user the last effect ran for, if any. */
    var user: Option<string>
    var jobs: seq<Doc>
    var loading: bool
    /** The live query the effect opened, until its cleanup cancels it. */
    var subscription: Option<Query>

    /** The first render and its effect: no user ends loading, a user opens the query. */
    constructor (user: Option<string>)
      ensures this.user == user && jobs == []
      ensures user.None? ==> !loading && subscription == None
      ensures user.Some? ==> loading && subscription == Some(JobsQuery(user.value))
    {
      this.user := user;
      jobs := [];
      if user.None? {
        loading := false;
        subscription := None;
      } else {
        loading := true;
        subscription := Some(JobsQuery(user.value));
      }
    }

    /**
     * A render with a different signed-in user: the cleanup cancels the old query,
     * then without a user loading ends, with one the new user's query opens.
     */
    method UserChanged(newUser: Option<string>)
      modifies this
      ensures user == newUser && jobs == old(jobs)
      ensures newUser == old(user) ==> subscription == old(subscription) && loading == old(loading)
      ensures newUser != old(user) && newUser.None? ==> subscription == None && !loading
      ensures newUser != old(user) && newUser.Some? ==>
        subscription == Some(JobsQuery(newUser.value)) && loading == old(loading)
    {
      if newUser == user {
        return;
      }
      user := newUser;
      subscription := None;
      if newUser.None? {
        loading := false;
      } else {
        subscription := Some(JobsQuery(newUser.value));
      }
    }

    /** Unmounting runs the cleanup: the query is cancelled. */
    method Unmount()
      modifies this
      ensures subscription == None
      ensures user == old(user) && jobs == old(jobs) && loading == old(loading)
    {
      subscription := None;
    }

    /** The snapshot callback: the jobs are replaced wholesale, in delivered order, and loading ends. */
    method OnSnapshot(snapshot: seq<SnapshotDoc>)
      requires subscription.Some?
      modifies this
      ensures jobs == Materialize(snapshot) && !loading
      ensures user == old(user) && subscription == old(subscription)
    {
      jobs := Materialize(snapshot);
      loading := false;
    }

    /** What the list renders: prompt, loading, empty message, or one row per job in list order. */
    function Display(): JobListView
      reads this
    {
      View(user.Some?, loading, jobs)
    }

    function TableRows(): seq<Row>
      reads this
    {
      Rows(jobs, ProfileColumns)
    }
  }

  /**
   * Once a snapshot arrived for a signed-in user, the list shows the empty message
   * for an empty snapshot and otherwise a table whose rows follow the snapshot.
   */
  lemma SnapshotDisplay(snapshot: seq<SnapshotDoc>)
    ensures |snapshot| == 0 ==> View(true, false, Materialize(snapshot)) == NoJobsMessage
    ensures |snapshot| > 0 ==> View(true, false, Materialize(snapshot)) == Table(Materialize(snapshot))
    ensures |Rows(Materialize(snapshot), ProfileColumns)| == |snapshot|
  {
  }
}
