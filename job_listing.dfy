/**
 * What the two job lists (components/ui/tables/JobList.tsx and
 * components/ui/tabls/JobList.tsx) have in common: the live query for the signed-in
 * user's jobs, the precedence of what the list shows, and the text cells of a row.
 */
module JobListing {
  import opened Values
  import opened LiveQuery
  import Jobs

  /** `query(collection(db, 'jobs'), where('userId', '==', uid), orderBy('createdAt', 'desc'))` */
  function JobsQuery(uid: string): (q: Query)
    ensures q.collection == Jobs.JobsCollection
    ensures q.filters == [Equals(UserId, uid)]
    ensures q.orders == [OrderBy(CreatedAt, Desc)]
  {
    Query(Jobs.JobsCollection, [Equals(UserId, uid)], [OrderBy(CreatedAt, Desc)])
  }

  /** The queries of two different users never coincide. */
  lemma JobsQueryInjective(uid1: string, uid2: string)
    requires uid1 != uid2
    ensures JobsQuery(uid1) != JobsQuery(uid2)
  {
    assert JobsQuery(uid1).filters[0].value != JobsQuery(uid2).filters[0].value;
  }

  datatype JobListView =
    | LoginPrompt        // "Please log in to see your jobs."
    | LoadingMessage     // "Loading jobs..."
    | NoJobsMessage      // "No jobs found."
    | Table(jobs: seq<Doc>)

  /** What the list renders: the sign-in prompt first, then loading, then the empty message, then the table. */
  function View(signedIn: bool, loading: bool, jobs: seq<Doc>): (v: JobListView)
    ensures v == LoginPrompt <==> !signedIn
    ensures v == LoadingMessage <==> signedIn && loading
    ensures v == NoJobsMessage <==> signedIn && !loading && |jobs| == 0
    ensures v.Table? <==> signedIn && !loading && |jobs| > 0
    ensures v.Table? ==> v.jobs == jobs
  {
    if !signedIn then LoginPrompt
    else if loading then LoadingMessage
    else if |jobs| == 0 then NoJobsMessage
    else Table(jobs)
  }

  /** `{value || ''}` in a cell: a text shows as itself, anything else as nothing. */
  function CellText(v: Value): (text: string)
    ensures text != "" ==> v == Str(text)
    ensures Truthy(v) && v.Str? ==> text == v.s
  {
    match v
    case Str(s) => s
    case _ => ""
  }

  /** A column of a job table; the applied-date column is not modelled. */
  datatype Column = Text(field: Field) | PostingLink | FollowUp

  /** The text of one cell: "Link" when there is a posting URL, Yes or No for the follow-up flag. */
  function Cell(job: Doc, column: Column): (text: string)
    ensures column.Text? ==> text == CellText(Lookup(job, column.field))
    ensures column.PostingLink? ==> (text == "Link" <==> Truthy(Lookup(job, JobPostingUrl))) && (text != "Link" ==> text == "")
    ensures column.FollowUp? ==> (text == "Yes" <==> Truthy(Lookup(job, AutoFollowUp))) && (text != "Yes" ==> text == "No")
  {
    match column
    case Text(f) => CellText(Lookup(job, f))
    case PostingLink => if Truthy(Lookup(job, JobPostingUrl)) then "Link" else ""
    case FollowUp => if Truthy(Lookup(job, AutoFollowUp)) then "Yes" else "No"
  }

  /** One table row: its React key and the texts of its cells, in column order. */
  datatype Row = Row(key: Value, cells: seq<string>)

  function JobRow(job: Doc, columns: seq<Column>): (row: Row)
    ensures row.key == Lookup(job, Id)
    ensures |row.cells| == |columns|
    ensures forall k | 0 <= k < |columns| :: row.cells[k] == Cell(job, columns[k])
  {
    Row(Lookup(job, Id), seq(|columns|, k requires 0 <= k < |columns| => Cell(job, columns[k])))
  }

  /** `jobs.map(job => <tr key={job.id}>…</tr>)`: one row per job, in list order. */
  function Rows(jobs: seq<Doc>, columns: seq<Column>): (rows: seq<Row>)
    ensures |rows| == |jobs|
    ensures forall i | 0 <= i < |jobs| :: rows[i] == JobRow(jobs[i], columns)
    decreases |jobs|
  {
    if jobs == [] then [] else [JobRow(jobs[0], columns)] + Rows(jobs[1..], columns)
  }

  /** The rows of a list filled from a snapshot carry the snapshot's document ids, in snapshot order. */
  lemma RowsFollowSnapshot(snapshot: seq<SnapshotDoc>, columns: seq<Column>)
    requires forall i | 0 <= i < |snapshot| :: Id !in snapshot[i].data
    ensures |Rows(Materialize(snapshot), columns)| == |snapshot|
    ensures forall i | 0 <= i < |snapshot| :: Rows(Materialize(snapshot), columns)[i].key == Str(snapshot[i].id)
  {
  }
}
