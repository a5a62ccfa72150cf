/**
  Deliveries are at-least-once, yet no outbox item ever has two notes: the publisher
  looks for the item's marker before it posts, and it looks where it would post.
  The same single publisher keeps the progress label from following the final one.
*/
module NotesOnce {
  import opened Basics
  import opened Tables
  import opened LeaseInvariants
  import opened Delivery
  import opened StoreRuns
  import opened Hosted

  predicate OnBoard(notes: seq<Note>, id: nat) {
    exists k :: 0 <= k < |notes| && notes[k].marker == Some(id)
  }

  predicate OneNoteEach(notes: seq<Note>) {
    forall a, b :: 0 <= a < b < |notes| && notes[a].marker.Some? ==> notes[a].marker != notes[b].marker
  }

  /** What delivering this row means; JobStarted rows never lead to a note. */
  predicate Purposes(d: Db, row: OutboxRow, p: Purpose) {
    match p
    case Outcome(j, report) =>
      TerminalKeyOf(row.key, j) && j in d.jobs && Terminal(d.jobs[j].state) && Truthful(d.jobs[j], report)
    case Refusal(conv, failed) =>
      row.key.DispatchRejected? && row.rejection.Some? && row.rejection.value.conv == conv
      && row.rejection.value.setFailedLabel == failed
  }

  /** Only a job that succeeded is reported as parked or concluded, and only an implementation
      run that did claims merge requests. */
  predicate Truthful(job: Job, report: Report) {
    && (report.status == ConcludedFailed
        || ((report.status == Parked || report.status == Concluded) && job.state == Succeeded))
    && (report.iids != {} ==> report.status != ConcludedFailed && job.envelope.trigger == Ready)
  }

  predicate Placed(d: Db, note: Note, id: nat) {
    && id < |d.outbox|
    && if IsTerminalKey(d.outbox[id].key) then
         var j := d.outbox[id].key.job;
         j in d.jobs && Terminal(d.jobs[j].state)
         && note.project == d.jobs[j].conv.project && note.target == d.jobs[j].envelope.target
       else
         d.outbox[id].key.DispatchRejected? && d.outbox[id].rejection.Some? &&
         var r := d.outbox[id].rejection.value;
         note.project == r.conv.project && note.target == IssueTarget(r.conv.issue)
  }

  /** Every marked note stands where its item's notes belong. */
  predicate NotesPlaced(d: Db, notes: seq<Note>) {
    forall k :: 0 <= k < |notes| && notes[k].marker.Some? ==> Placed(d, notes[k], notes[k].marker.value)
  }

  predicate ItemOk(d: Db, item: Item) {
    item.id < |d.outbox| && d.outbox[item.id].key == item.key
  }

  predicate StageOk(d: Db, notes: seq<Note>, labels: seq<Label>, item: Item, stage: Stage) {
    match stage
    case Looking(p) => item.id < |d.outbox| && Purposes(d, d.outbox[item.id], p)
    case Absent(p) => item.id < |d.outbox| && Purposes(d, d.outbox[item.id], p) && !OnBoard(notes, item.id)
    case Noted(p) => item.id < |d.outbox| && Purposes(d, d.outbox[item.id], p) && OnBoard(notes, item.id)
    case Labelled(j, report) =>
      item.id < |d.outbox| && Purposes(d, d.outbox[item.id], Outcome(j, report)) && OnBoard(notes, item.id)
    case Progressing(j) => forall a :: 0 <= a < |labels| && labels[a].Final? ==> labels[a].job != j
    case _ => true
  }

  predicate PublisherOk(d: Db, notes: seq<Note>, labels: seq<Label>, publisher: Publisher) {
    publisher.Publishing? ==>
      && |publisher.items| > 0
      && (forall i :: 0 <= i < |publisher.items| ==> ItemOk(d, publisher.items[i]))
      && StageOk(d, notes, labels, publisher.items[0], publisher.stage)
  }

  predicate LabelsOrdered(labels: seq<Label>) {
    forall a, b :: 0 <= a < b < |labels| && labels[a].Final? ==> labels[b] != Progress(labels[a].job)
  }

  predicate LabelsOk(d: Db, labels: seq<Label>) {
    && LabelsOrdered(labels)
    && (forall a :: 0 <= a < |labels| && labels[a].Final? ==>
          labels[a].job in d.jobs && Terminal(d.jobs[labels[a].job].state))
  }

  predicate OutcomePosted(d: Db, notes: seq<Note>, job: JobId) {
    exists i :: 0 <= i < |d.outbox| && TerminalKeyOf(d.outbox[i].key, job) && OnBoard(notes, i)
  }

  predicate RecordedPosted(d: Db, notes: seq<Note>, recorded: set<JobId>) {
    forall j :: j in recorded ==> OutcomePosted(d, notes, j)
  }

  ghost predicate Tidy(s: Sys) {
    && OneNoteEach(s.notes) && NotesPlaced(s.db, s.notes)
    && PublisherOk(s.db, s.notes, s.labels, s.publisher)
    && LabelsOk(s.db, s.labels) && RecordedPosted(s.db, s.notes, s.recorded)
  }

  // ---- transactions of the other components

  lemma MoveKeepsPlaces(d: Db, e: Db, notes: seq<Note>)
    requires NotesPlaced(d, notes) && JobsAdvance(d.jobs, e.jobs) && OutboxAdvances(d.outbox, e.outbox)
    ensures NotesPlaced(e, notes)
  {
    forall k | 0 <= k < |notes| && notes[k].marker.Some? ensures Placed(e, notes[k], notes[k].marker.value) {
      var id := notes[k].marker.value;
      assert Placed(d, notes[k], id);
      assert Advances(d.outbox[id], e.outbox[id]);
      if IsTerminalKey(d.outbox[id].key) {
        assert JobAdvances(d.jobs[d.outbox[id].key.job], e.jobs[d.outbox[id].key.job]);
      }
    }
  }

  lemma MoveKeepsPurpose(d: Db, e: Db, id: nat, p: Purpose)
    requires id < |d.outbox| && Purposes(d, d.outbox[id], p)
    requires JobsAdvance(d.jobs, e.jobs) && OutboxAdvances(d.outbox, e.outbox)
    ensures id < |e.outbox| && Purposes(e, e.outbox[id], p)
  {
    assert Advances(d.outbox[id], e.outbox[id]);
    if p.Outcome? { assert JobAdvances(d.jobs[p.job], e.jobs[p.job]); }
  }

  lemma MoveKeepsPublisher(d: Db, e: Db, notes: seq<Note>, labels: seq<Label>, publisher: Publisher)
    requires PublisherOk(d, notes, labels, publisher)
    requires JobsAdvance(d.jobs, e.jobs) && OutboxAdvances(d.outbox, e.outbox)
    ensures PublisherOk(e, notes, labels, publisher)
  {
    if publisher.Publishing? {
      forall i | 0 <= i < |publisher.items| ensures ItemOk(e, publisher.items[i]) {
        assert ItemOk(d, publisher.items[i]);
        assert Advances(d.outbox[publisher.items[i].id], e.outbox[publisher.items[i].id]);
      }
      match publisher.stage
      case Looking(p) => MoveKeepsPurpose(d, e, publisher.items[0].id, p);
      case Absent(p) => MoveKeepsPurpose(d, e, publisher.items[0].id, p);
      case Noted(p) => MoveKeepsPurpose(d, e, publisher.items[0].id, p);
      case Labelled(j, report) => MoveKeepsPurpose(d, e, publisher.items[0].id, Outcome(j, report));
      case _ =>
    }
  }

  lemma MoveKeepsLabels(d: Db, e: Db, labels: seq<Label>)
    requires LabelsOk(d, labels) && JobsAdvance(d.jobs, e.jobs)
    ensures LabelsOk(e, labels)
  {
    forall a | 0 <= a < |labels| && labels[a].Final?
      ensures labels[a].job in e.jobs && Terminal(e.jobs[labels[a].job].state)
    {
      assert JobAdvances(d.jobs[labels[a].job], e.jobs[labels[a].job]);
    }
  }

  lemma MoveKeepsPosted(d: Db, e: Db, notes: seq<Note>, recorded: set<JobId>)
    requires RecordedPosted(d, notes, recorded) && OutboxAdvances(d.outbox, e.outbox)
    ensures RecordedPosted(e, notes, recorded)
  {
    forall j | j in recorded ensures OutcomePosted(e, notes, j) {
      var i :| 0 <= i < |d.outbox| && TerminalKeyOf(d.outbox[i].key, j) && OnBoard(notes, i);
      assert Advances(d.outbox[i], e.outbox[i]);
    }
  }

  lemma MoveKeepsTidy(s: Sys, e: Db)
    requires Tidy(s) && JobsAdvance(s.db.jobs, e.jobs) && OutboxAdvances(s.db.outbox, e.outbox)
    ensures Tidy(s.(db := e))
  {
    MoveKeepsPlaces(s.db, e, s.notes);
    MoveKeepsPublisher(s.db, e, s.notes, s.labels, s.publisher);
    MoveKeepsLabels(s.db, e, s.labels);
    MoveKeepsPosted(s.db, e, s.notes, s.recorded);
  }

  // ---- adding to the board

  lemma AppendedPosted(d: Db, notes: seq<Note>, note: Note, recorded: set<JobId>)
    requires RecordedPosted(d, notes, recorded)
    ensures RecordedPosted(d, notes + [note], recorded)
  {
    forall j | j in recorded ensures OutcomePosted(d, notes + [note], j) {
      var i :| 0 <= i < |d.outbox| && TerminalKeyOf(d.outbox[i].key, j) && OnBoard(notes, i);
      AppendedOnBoard(notes, note, i);
    }
  }

  lemma AppendedOnBoard(notes: seq<Note>, note: Note, id: nat)
    ensures OnBoard(notes + [note], id) <==> OnBoard(notes, id) || note.marker == Some(id)
  {
    var after := notes + [note];
    assert after[|notes|] == note;
    if k :| 0 <= k < |notes| && notes[k].marker == Some(id) { assert after[k].marker == Some(id); }
  }

  lemma HumanNoteKeepsTidy(s: Sys, project: ProjectKey, target: Target)
    requires Tidy(s)
    ensures Tidy(s.(notes := s.notes + [Note(project, target, None)]))
  {
    var note := Note(project, target, None);
    AppendedPosted(s.db, s.notes, note, s.recorded);
    if s.publisher.Publishing? { AppendedOnBoard(s.notes, note, s.publisher.items[0].id); }
  }

  /** The note just posted: its marker is new, and it stands in the right place. */
  lemma PostKeepsTidy(s: Sys, p: Purpose, stage: Stage)
    requires Tidy(s) && s.publisher.Publishing? && s.publisher.stage == Absent(p)
    requires stage == Noted(p) || stage == Broken
    ensures Tidy(Moved(s, stage).(notes := s.notes + [NoteFor(s, p)]))
  {
    var note := NoteFor(s, p);
    var item := Head(s);
    assert Purposes(s.db, s.db.outbox[item.id], p) && !OnBoard(s.notes, item.id);
    AppendedPosted(s.db, s.notes, note, s.recorded);
    AppendedOnBoard(s.notes, note, item.id);
    assert Placed(s.db, note, item.id);
    assert NotesPlaced(s.db, s.notes + [note]);
    assert OneNoteEach(s.notes + [note]);
  }

  /** Searching only the place where the note would go finds the marker if it is anywhere. */
  lemma LookUpIsComplete(s: Sys, p: Purpose)
    requires Tidy(s) && s.publisher.Publishing? && s.publisher.stage == Looking(p)
    ensures MarkerAt(s.notes, ProjectOf(s.db, p), TargetOf(s.db, p), Head(s).id) <==> OnBoard(s.notes, Head(s).id)
  {
    var id := Head(s).id;
    if k :| 0 <= k < |s.notes| && s.notes[k].marker == Some(id) {
      assert Placed(s.db, s.notes[k], id) && Purposes(s.db, s.db.outbox[id], p);
      assert s.notes[k] == Note(ProjectOf(s.db, p), TargetOf(s.db, p), Some(id));
    }
  }

  lemma LookUpKeepsTidy(s: Sys, p: Purpose)
    requires Tidy(s) && s.publisher.Publishing? && s.publisher.stage == Looking(p)
    ensures Tidy(Moved(
              s, if MarkerAt(s.notes, ProjectOf(s.db, p), TargetOf(s.db, p), Head(s).id) then Noted(p) else Absent(p)))
  {
    LookUpIsComplete(s, p);
    assert StageOk(s.db, s.notes, s.labels, Head(s), Looking(p));
  }

  lemma ReadRowKeepsTidy(s: Sys, x: Reading)
    requires Tidy(s) && TerminalRows(s.db.jobs, s.db.outbox) && At(s, Fresh)
    ensures Tidy(Moved(s, RowRead(s.db, Head(s), x)))
  {
    var item := Head(s);
    assert ItemOk(s.db, item);
    assert StageOk(s.db, s.notes, s.labels, item, RowRead(s.db, item, x));
  }

  lemma LabelKeepsTidy(s: Sys, stage: Stage, added: Label)
    requires Tidy(s) && s.publisher.Publishing?
    requires match s.publisher.stage
             case Noted(p) => LabelsFor(p) == [added] && (stage == AfterLabel(p) || stage == Broken)
             case Progressing(j) => added == Progress(j) && (stage == Handled || stage == Broken)
             case _ => false
    ensures Tidy(Moved(s, stage).(labels := s.labels + [added]))
  {
    assert StageOk(s.db, s.notes, s.labels, Head(s), s.publisher.stage);
    var labels := s.labels + [added];
    forall a, b | 0 <= a < b < |labels| && labels[a].Final? ensures labels[b] != Progress(labels[a].job) {
      if b == |s.labels| && added.Progress? { assert labels[a] in s.labels; }
    }
    assert LabelsOk(s.db, labels);
  }

  lemma RecordKeepsTidy(s: Sys, job: JobId, report: Report, e: Db)
    requires Tidy(s) && s.publisher.Publishing? && s.publisher.stage == Labelled(job, report)
    requires e.jobs == s.db.jobs && e.outbox == s.db.outbox
    ensures Tidy(Moved(s, Handled).(db := e, recorded := s.recorded + {job}))
  {
    var id := Head(s).id;
    assert StageOk(s.db, s.notes, s.labels, Head(s), Labelled(job, report));
    forall j | j in s.recorded + {job} ensures OutcomePosted(e, s.notes, j) {
      if j in s.recorded {
        assert OutcomePosted(s.db, s.notes, j);
      } else {
        assert TerminalKeyOf(e.outbox[id].key, j) && OnBoard(s.notes, id);
      }
    }
    MoveKeepsPlaces(s.db, e, s.notes) by { Reflexive(s.db); }
    MoveKeepsLabels(s.db, e, s.labels) by { Reflexive(s.db); }
  }

  lemma Reflexive(d: Db)
    ensures JobsAdvance(d.jobs, d.jobs) && OutboxAdvances(d.outbox, d.outbox)
  {
  }

  lemma NextItemTidy(s: Sys)
    requires Tidy(s) && s.publisher.Publishing?
    ensures Tidy(s.(publisher := NextItem(s))) && Tidy(s.(publisher := Resting))
  {
    if |s.publisher.items| > 1 {
      var items := s.publisher.items[1..];
      forall i | 0 <= i < |items| ensures ItemOk(s.db, items[i]) {
        assert items[i] == s.publisher.items[i + 1];
      }
    }
  }
}
