/**
 The change log: a linked list of tip changes in one bucket, keyed by the hash of each entry,
 with a separate key for the tail.
 */
module ChangeLogs {
  import opened Types

  // One tip change: the blocks reverted, newest first, and the blocks applied, oldest first. Its
  // id is its hash, which is modelled by the entry itself.
  datatype ChangeEntry = ChangeEntry(reverted: seq<Hash>, applied: seq<Hash>)

  // Each entry with its next pointer, and the tail.
  datatype ChangeLog = ChangeLog(nodes: map<ChangeEntry, Option<ChangeEntry>>, tail: Option<ChangeEntry>)

  // appendChangeLog: insert the entry, point the old tail at it, and move the tail.
  function Append(log: ChangeLog, e: ChangeEntry): ChangeLog
  {
    var inserted := log.nodes[e := None];
    var linked := if log.tail.Some? then inserted[log.tail.value := Some(e)] else inserted;
    ChangeLog(linked, Some(e))
  }

  function Created(genesis: ChangeEntry): ChangeLog
  {
    ChangeLog(map[genesis := None], Some(genesis))
  }

  predicate Known(log: ChangeLog, e: ChangeEntry) { e in log.nodes }

  function NextEntry(log: ChangeLog, e: ChangeEntry): Option<ChangeEntry>
    requires Known(log, e)
  {
    match log.nodes[e]
    case None => None
    case Some(next) => if next in log.nodes then Some(next) else None
  }

  ghost predicate NoRepeats(entries: seq<ChangeEntry>)
  {
    forall i, j :: 0 <= i < j < |entries| ==> entries[i] != entries[j]
  }

  // The bucket is a simple path through these entries, from the first to the tail.
  ghost predicate Linked(log: ChangeLog, entries: seq<ChangeEntry>)
  {
    && entries != [] && NoRepeats(entries)
    && (forall e :: e in log.nodes <==> e in entries)
    && (forall i :: 0 <= i < |entries| - 1 ==> log.nodes[entries[i]] == Some(entries[i + 1]))
    && log.nodes[entries[|entries| - 1]] == None
    && log.tail == Some(entries[|entries| - 1])
  }

  lemma CreatedLinked(genesis: ChangeEntry)
    ensures Linked(Created(genesis), [genesis])
  {
  }

  // Appending an entry that is not there yet keeps the path simple.
  lemma AppendLinked(log: ChangeLog, entries: seq<ChangeEntry>, e: ChangeEntry)
    requires Linked(log, entries) && e !in entries
    ensures Linked(Append(log, e), entries + [e])
  {
    var n := |entries| - 1;
    var more := entries + [e];
    var nodes := Append(log, e).nodes;
    assert nodes == log.nodes[e := None][entries[n] := Some(e)];
    forall i | 0 <= i < |more| - 1 ensures nodes[more[i]] == Some(more[i + 1]) {
      if i < n {
        assert more[i] == entries[i] && more[i + 1] == entries[i + 1] && entries[i] != entries[n];
      }
    }
    forall x ensures x in nodes <==> x in more {
    }
  }

  // Following next pointers walks the entries in order, and stops at the end.
  lemma NextWalks(log: ChangeLog, entries: seq<ChangeEntry>, i: nat)
    requires Linked(log, entries) && i < |entries|
    ensures Known(log, entries[i])
    ensures NextEntry(log, entries[i]) == if i + 1 < |entries| then Some(entries[i + 1]) else None
  {
    assert i + 1 < |entries| ==> entries[i + 1] in entries;
  }
}
