/**
 * The interviews section of the job details
 * (components/layouts/form-components/InterviewComponent.tsx): a live list of the
 * signed-in user's interviews for one job, and the modal to add one.
 */
module InterviewList {
  import opened Wrappers
  import opened Values
  import opened LiveQuery
  import Interviews

  /**
   * `query(collection(db, 'interviews'), where('jobId', '==', jobId),
   * where('userId', '==', uid), orderBy('interviewDateTime', 'asc'))`
   */
  function InterviewsQuery(jobId: string, uid: string): (q: Query)
    ensures q.collection == Interviews.InterviewsCollection
    ensures q.filters == [Equals(JobId, jobId), Equals(UserId, uid)]
    ensures q.orders == [OrderBy(InterviewDateTime, Asc)]
  {
    Query(Interviews.InterviewsCollection, [Equals(JobId, jobId), Equals(UserId, uid)], [OrderBy(InterviewDateTime, Asc)])
  }

  /** The query the effect opens for a job id and a signed-in user: none without both. */
  function SubscriptionFor(jobId: string, user: Option<string>): (q: Option<Query>)
    ensures q.Some? <==> jobId != "" && user.Some?
    ensures q.Some? ==> q.value == InterviewsQuery(jobId, user.value)
  {
    if jobId == "" || user.None? then None else Some(InterviewsQuery(jobId, user.value))
  }

  /** One line of an interview item: its label and the value shown after it. */
  datatype Line = Line(caption: string, value: Value)

  /** The optional lines of an item, in order. */
  const OptionalLines: seq<(string, Field)> :=
    [("Interviewers:", Interviewers), ("Contact Info:", ContactInfo), ("Notes:", Notes)]

  /**
   * The lines of one interview item: the date and time always (empty when absent),
   * then interviewers, contact info and notes, each only when its value is truthy.
   */
  function ItemLines(interview: Doc): (lines: seq<Line>)
    ensures |lines| >= 1 && lines[0].caption == "Date/Time:"
    ensures lines[0].value == (if Truthy(Lookup(interview, InterviewDateTime)) then Lookup(interview, InterviewDateTime) else Str(""))
    ensures forall k | 0 <= k < |OptionalLines| ::
      Line(OptionalLines[k].0, Lookup(interview, OptionalLines[k].1)) in lines[1..] <==> Truthy(Lookup(interview, OptionalLines[k].1))
  {
    var date := Lookup(interview, InterviewDateTime);
    [Line("Date/Time:", if Truthy(date) then date else Str(""))] + OptionalLinesOf(interview, OptionalLines)
  }

  /** The truthy optional lines among `labels`. */
  function OptionalLinesOf(interview: Doc, labels: seq<(string, Field)>): (lines: seq<Line>)
    ensures |lines| <= |labels|
    ensures forall line | line in lines :: Truthy(line.value)
    ensures forall k | 0 <= k < |labels| && Truthy(Lookup(interview, labels[k].1)) ::
      Line(labels[k].0, Lookup(interview, labels[k].1)) in lines
    ensures forall line | line in lines :: exists k | 0 <= k < |labels| :: line == Line(labels[k].0, Lookup(interview, labels[k].1))
    decreases |labels|
  {
    if labels == [] then []
    else
      var rest := OptionalLinesOf(interview, labels[1..]);
      var v := Lookup(interview, labels[0].1);
      var lines := if Truthy(v) then [Line(labels[0].0, v)] + rest else rest;
      assert forall line | line in rest :: exists k | 0 <= k < |labels| :: line == Line(labels[k].0, Lookup(interview, labels[k].1)) by {
        forall line | line in rest ensures exists k | 0 <= k < |labels| :: line == Line(labels[k].0, Lookup(interview, labels[k].1)) {
          var j :| 0 <= j < |labels[1..]| && line == Line(labels[1..][j].0, Lookup(interview, labels[1..][j].1));
          assert line == Line(labels[j + 1].0, Lookup(interview, labels[j + 1].1));
        }
      }
      lines
  }

  /**
   * The lines keep the order of the labels: the lines of the first `n` labels come
   * before those of the rest.
   */
  lemma {:induction false} OptionalLinesInLabelOrder(interview: Doc, labels: seq<(string, Field)>, n: nat)
    requires n <= |labels|
    ensures OptionalLinesOf(interview, labels) == OptionalLinesOf(interview, labels[..n]) + OptionalLinesOf(interview, labels[n..])
    decreases n
  {
    if n > 0 {
      assert labels[..n][1..] == labels[1..][..n - 1];
      assert labels[n..] == labels[1..][n - 1..];
      OptionalLinesInLabelOrder(interview, labels[1..], n - 1);
    } else {
      assert labels[..n] == [] && labels[n..] == labels;
    }
  }

  datatype InterviewListView =
    | NoInterviews                              // "No interviews scheduled."
    | Items(items: seq<(Value, seq<Line>)>)     // key and lines of each item

  /** What the section lists: the empty message, or one item per interview in list order. */
  function ListView(interviews: seq<Doc>): (view: InterviewListView)
    ensures view == NoInterviews <==> |interviews| == 0
    ensures view.Items? ==> |view.items| == |interviews|
    ensures view.Items? ==> forall i | 0 <= i < |interviews| ::
      view.items[i] == (Lookup(interviews[i], Id), ItemLines(interviews[i]))
  {
    if |interviews| == 0 then NoInterviews
    else Items(seq(|interviews|, i requires 0 <= i < |interviews| => (Lookup(interviews[i], Id), ItemLines(interviews[i]))))
  }

  class InterviewList {
    /** The `jobId` prop and the signed-in user of the last render. */
    var jobId: string
    var user: Option<string>
    var interviews: seq<Doc>
    var showInterviewModal: bool
    /** The live query the effect opened, until its cleanup cancels it. */
    var subscription: Option<Query>

    /** The first render and its effect. */
    constructor (jobId: string, user: Option<string>)
      ensures this.jobId == jobId && this.user == user
      ensures interviews == [] && !showInterviewModal
      ensures subscription == SubscriptionFor(jobId, user)
    {
      this.jobId := jobId;
      this.user := user;
      interviews := [];
      showInterviewModal := false;
      subscription := SubscriptionFor(jobId, user);
    }

    /**
     * A render with another job id or user reruns the effect: the old query is
     * cancelled and a new one opens only for a non-empty job id and a user. The
     * interviews already listed stay until a snapshot replaces them.
     */
    method PropsChanged(newJobId: string, newUser: Option<string>)
      modifies this
      ensures jobId == newJobId && user == newUser
      ensures interviews == old(interviews) && showInterviewModal == old(showInterviewModal)
      ensures newJobId == old(jobId) && newUser == old(user) ==> subscription == old(subscription)
      ensures newJobId != old(jobId) || newUser != old(user) ==> subscription == SubscriptionFor(newJobId, newUser)
    {
      if newJobId == jobId && newUser == user {
        return;
      }
      jobId, user := newJobId, newUser;
      subscription := None;
      subscription := SubscriptionFor(newJobId, newUser);
    }

    /** The snapshot callback: the interviews are replaced wholesale, in delivered order. */
    method OnSnapshot(snapshot: seq<SnapshotDoc>)
      requires subscription.Some?
      modifies this
      ensures interviews == Materialize(snapshot)
      ensures jobId == old(jobId) && user == old(user) && subscription == old(subscription)
      ensures showInterviewModal == old(showInterviewModal)
    {
      interviews := Materialize(snapshot);
    }

    /** "+ Add Interview" opens the creator modal. */
    method OpenInterviewModal()
      modifies this
      ensures showInterviewModal
      ensures jobId == old(jobId) && user == old(user) && interviews == old(interviews) && subscription == old(subscription)
    {
      showInterviewModal := true;
    }

    /** The modal's close (after a successful creation, or dismissed) hides it. */
    method CloseInterviewModal()
      modifies this
      ensures !showInterviewModal
      ensures jobId == old(jobId) && user == old(user) && interviews == old(interviews) && subscription == old(subscription)
    {
      showInterviewModal := false;
    }

    function Display(): InterviewListView
      reads this
    {
      ListView(interviews)
    }
  }
}
