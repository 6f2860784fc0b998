/** The transcription history (src-tauri/src/history.rs): a newest-first
    list of entries capped at fifty, from which entries are deleted by id.
    The JSON file the list is loaded from and saved to is not modelled;
    the list is the in-memory `entries` vector. */
module History {
  import opened Seqs

  const MaxHistoryEntries: nat := 50

  datatype HistoryEntry = HistoryEntry(id: nat, text: string, timestampMs: nat, durationMs: nat)

  /** The list after `add_entry`: the new entry in front, cut to the cap. */
  function Added(entries: seq<HistoryEntry>, entry: HistoryEntry): seq<HistoryEntry>
  {
    var longer := [entry] + entries;
    if |longer| > MaxHistoryEntries then longer[..MaxHistoryEntries] else longer
  }

  /** The list after `delete_entry(id)`. */
  function Deleted(entries: seq<HistoryEntry>, id: nat): seq<HistoryEntry>
  {
    Retain(entries, (e: HistoryEntry) => e.id != id)
  }

  /** The new entry comes first, the list holds at most fifty entries, and
      the rest is the start of the old list: only its oldest entry can be
      dropped, and only when the list was full. */
  lemma AddedNewestFirst(entries: seq<HistoryEntry>, entry: HistoryEntry)
    ensures Added(entries, entry)[0] == entry
    ensures |Added(entries, entry)| == if |entries| < MaxHistoryEntries then |entries| + 1 else MaxHistoryEntries
    ensures Added(entries, entry)[1..] == entries[..|Added(entries, entry)| - 1]
  {
    var r := Added(entries, entry);
    assert r[1..] == ([entry] + entries)[1..|r|];
    assert ([entry] + entries)[1..|r|] == entries[..|r| - 1];
  }

  /** The cap holds after every addition. */
  lemma AddedCapped(entries: seq<HistoryEntry>, entry: HistoryEntry)
    ensures |Added(entries, entry)| <= MaxHistoryEntries
    ensures |entries| < MaxHistoryEntries ==> Added(entries, entry) == [entry] + entries
  {
  }

  /** An entry remains exactly when it was there and has another id. */
  lemma DeletedExactly(entries: seq<HistoryEntry>, id: nat, x: HistoryEntry)
    ensures x in Deleted(entries, id) <==> x in entries && x.id != id
  {
    if x in entries && x.id != id {
      var k :| 0 <= k < |entries| && entries[k] == x;
    }
  }

  /** Deleting keeps the order of what remains: it works piece by piece. */
  lemma DeletedKeepsOrder(a: seq<HistoryEntry>, b: seq<HistoryEntry>, id: nat)
    ensures Deleted(a + b, id) == Deleted(a, id) + Deleted(b, id)
  {
    RetainAppend(a, b, (e: HistoryEntry) => e.id != id);
  }

  /** Deleting an id no entry has changes nothing, and deleting twice is
      deleting once. */
  lemma DeletedIdempotent(entries: seq<HistoryEntry>, id: nat)
    ensures (forall k :: 0 <= k < |entries| ==> entries[k].id != id) ==> Deleted(entries, id) == entries
    ensures Deleted(Deleted(entries, id), id) == Deleted(entries, id)
  {
    var keep := (e: HistoryEntry) => e.id != id;
    if forall k :: 0 <= k < |entries| ==> entries[k].id != id {
      RetainAll(entries, keep);
    }
    var d := Deleted(entries, id);
    forall k | 0 <= k < |d| ensures keep(d[k]) {
    }
    RetainAll(d, keep);
  }

  /** An entry just added is removed again by deleting its id, when no
      older entry shares it and the list was not full. */
  lemma AddThenDelete(entries: seq<HistoryEntry>, entry: HistoryEntry)
    requires |entries| < MaxHistoryEntries
    requires forall k :: 0 <= k < |entries| ==> entries[k].id != entry.id
    ensures Deleted(Added(entries, entry), entry.id) == entries
  {
    DeletedKeepsOrder([entry], entries, entry.id);
    DeletedIdempotent(entries, entry.id);
    assert Deleted([entry], entry.id) == [];
  }

  class TranscriptionHistory {
    var entries: seq<HistoryEntry>

    /** `TranscriptionHistory::default()`. */
    constructor()
      ensures entries == []
    {
      entries := [];
    }

    /** `add_entry`: insert in front, then truncate to the cap. */
    method AddEntry(entry: HistoryEntry)
      modifies this
      ensures entries == Added(old(entries), entry)
    {
      entries := [entry] + entries;
      if |entries| > MaxHistoryEntries {
        entries := entries[..MaxHistoryEntries];
      }
    }

    /** `delete_entry`: retain the entries with another id. */
    method DeleteEntry(id: nat)
      modifies this
      ensures entries == Deleted(old(entries), id)
    {
      entries := Retain(entries, (e: HistoryEntry) => e.id != id);
    }

    /** `clear_history`: the default, empty list. */
    method ClearHistory()
      modifies this
      ensures entries == []
    {
      entries := [];
    }
  }
}
