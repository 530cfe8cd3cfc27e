/**
  The metadata column of one message row as the mapper sees it: the attribute is a reference to a
  dictionary, an assignment remembers the previous reference, and a flush writes the column if the
  attribute differs from what was remembered or the column type reported a change.
*/
module MessageMetadata {

  type Entries = map<string, string>

  const JOB_KEY := "_agent_job"

  // The column after the record was merged in: only a fresh dictionary, or a reporting column
  // type, lets the flush see a difference.
  function ColumnAfter(reports: bool, entries: Entries, updates: Entries): Entries {
    if reports || entries == map[] then entries + updates else entries
  }

  predicate KeepsJob(reports: bool, entries: Entries) {
    JOB_KEY in ColumnAfter(reports, entries, map[JOB_KEY := ""])
  }

  // The record reaches the column exactly if there was no other metadata or changes are reported.
  lemma JobKeptIff(reports: bool, entries: Entries)
    requires JOB_KEY !in entries
    ensures KeepsJob(reports, entries) <==> reports || entries == map[]
  {
  }

  class Dictionary {
    var entries: Entries

    constructor (entries: Entries)
      ensures this.entries == entries
    {
      this.entries := entries;
    }

    method Update(updates: Entries)
      modifies this
      ensures entries == old(entries) + updates
    {
      entries := entries + updates;
    }
  }

  class MappedMessage {
    const reports: bool
    var metadata: Dictionary
    var remembered: Dictionary?
    var changed: bool
    var column: Entries

    // Nothing pending: the row was just inserted, loaded or flushed.
    ghost predicate Clean()
      reads this, metadata
    {
      remembered == null && !changed && column == metadata.entries
    }

    constructor (entries: Entries, reports: bool)
      ensures Clean() && fresh(metadata) && column == entries && this.reports == reports
    {
      this.reports := reports;
      metadata := new Dictionary(entries);
      remembered, changed, column := null, false, entries;
    }

    method Assign(value: Dictionary)
      modifies this`metadata, this`remembered
      ensures metadata == value
      ensures remembered == if old(remembered) == null then old(metadata) else old(remembered)
    {
      if remembered == null {
        remembered := metadata;
      }
      metadata := value;
    }

    method Flush()
      modifies this`remembered, this`changed, this`column
      ensures remembered == null && !changed
      ensures column == if old(changed) || (old(remembered) != null && old(remembered.entries) != metadata.entries)
                        then metadata.entries else old(column)
    {
      if changed || (remembered != null && remembered.entries != metadata.entries) {
        column := metadata.entries;
      }
      remembered, changed := null, false;
    }

    // `metadata or {}` is the loaded dictionary itself unless that is empty; the attribute shows
    // the update in any case, the column only as ColumnAfter says.
    method UpdateMessageMetadata(updates: Entries)
      requires Clean()
      modifies this, metadata
      ensures metadata.entries == old(metadata.entries) + updates
      ensures column == ColumnAfter(reports, old(column), updates)
      ensures Clean() <==> column == old(column) + updates
    {
      var current := metadata;
      if current.entries == map[] {
        current := new Dictionary(map[]);
      }
      current.Update(updates);
      if reports && current == metadata {
        changed := true;
      }
      Assign(current);
      Flush();
    }
  }
}
