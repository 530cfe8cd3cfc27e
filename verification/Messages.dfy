/** Rows of the ai_message table, and the predicate behind its partial unique index. */
module Messages {
  import opened Wrappers

  type Id = nat

  const ACTIVE_JOB_TTL: int := 7200
  const AGENT_FAILURE_CONTENT := "This response could not be completed. Please try again."

  datatype Role = User | Assistant

  datatype Status = Queued | Analyzing | Searching | Thinking | Generating | Completed | Failed | Cancelled

  // The outbox record kept under the "_agent_job" metadata key.
  datatype Job = Job(thread: Id, user: Id, userMessage: Id)
  datatype Outbox = NoJob | BrokenJob | Posted(job: Job)

  datatype Row = Row(
    thread: Id,
    role: Role,
    status: Status,
    content: string,
    partial: Option<string>,
    createdAt: int,
    outbox: Outbox)

  // ACTIVE_ASSISTANT_STATUSES.
  predicate ActiveStatus(s: Status) {
    s in {Queued, Analyzing, Searching, Thinking, Generating}
  }

  // The predicate of the partial unique index.
  predicate Active(r: Row) {
    r.role.Assistant? && ActiveStatus(r.status)
  }

  function FailRow(r: Row): Row {
    r.(status := Failed, content := AGENT_FAILURE_CONTENT, partial := None)
  }

  // What uq_ai_message_active_assistant_per_thread enforces.
  predicate OneActive(rows: map<Id, Row>) {
    forall i, j | i in rows && j in rows ::
      Active(rows[i]) && Active(rows[j]) && rows[i].thread == rows[j].thread ==> i == j
  }
}
