/**
 Subscribing to the consensus set. Catch-up sends the change log in batches of a hundred under a
 read lock, and blocks may be accepted between any two steps. Each step below runs under a lock,
 so a run is any interleaving of them.
 */
module Subscriptions {
  import opened Types
  import opened Ledgers
  import opened Steps
  import opened ChangeLogs
  import opened BlockTrees
  import opened Replays

  const BATCH: nat := 100

  // Where a subscriber asks to start.
  datatype Start = Beginning | Recent | After(id: ChangeEntry)

  // Where the call is: about to look up the start, part way through sending, back from
  // managedInitializeSubscribe, in the list of subscribers, or returned with an error.
  datatype Phase =
    | Looking(start: Start)
    | Sending(entry: ChangeEntry)
    | Sent(latest: ChangeEntry)
    | Subscribed
    | Stopped

  datatype State = State(log: ChangeLog, phase: Phase, received: seq<ChangeEntry>)

  // ---------------------------------------------------------------- one batch

  function Min(a: nat, b: nat): nat { if a < b then a else b }

  // Send up to a hundred entries and find the first one not sent.
  method SendBatch(log: ChangeLog, first: ChangeEntry, ghost entries: seq<ChangeEntry>, ghost at: nat)
    returns (sent: seq<ChangeEntry>, latest: ChangeEntry, next: Option<ChangeEntry>)
    requires Linked(log, entries) && at < |entries| && entries[at] == first
    ensures var end := Min(at + BATCH, |entries|);
      && sent == entries[at..end] && latest == entries[end - 1]
      && next == if end < |entries| then Some(entries[end]) else None
  {
    sent, latest, next := [], first, Some(first);
    var i := 0;
    while i < BATCH && next.Some?
      invariant 0 <= i <= BATCH && at + i <= |entries| && sent == entries[at..at + i]
      invariant next == if at + i < |entries| then Some(entries[at + i]) else None
      invariant i > 0 ==> latest == entries[at + i - 1]
    {
      latest := next.value;
      sent := sent + [latest];
      NextWalks(log, entries, at + i);
      next := NextEntry(log, latest);
      i := i + 1;
    }
  }

  // ---------------------------------------------------------------- steps

  // Blocks are accepted: the log grows, and a subscriber in the list is told at once.
  ghost predicate Accept(s: State, t: State, entries: seq<ChangeEntry>, more: seq<ChangeEntry>)
  {
    && Linked(t.log, entries + more) && t.phase == s.phase
    && t.received == if s.phase.Subscribed? then s.received + more else s.received
  }

  // The lookup at the start of managedInitializeSubscribe.
  ghost predicate Look(s: State, t: State, genesis: ChangeEntry)
  {
    && s.phase.Looking? && t.log == s.log && t.received == s.received
    && match s.phase.start
       case Recent => s.log.tail.Some? && t.phase == Sent(s.log.tail.value)
       case Beginning => t.phase == Sending(genesis)
       case After(id) =>
         if !Known(s.log, id) then t.phase == Stopped
         else match NextEntry(s.log, id)
              case None => t.phase == Sent(id)
              case Some(next) => t.phase == Sending(next)
  }

  // One batch.
  ghost predicate Batch(s: State, t: State, entries: seq<ChangeEntry>, at: nat)
  {
    && s.phase.Sending? && t.log == s.log && at < |entries| && entries[at] == s.phase.entry
    && var end := Min(at + BATCH, |entries|);
       && t.received == s.received + entries[at..end]
       && t.phase == if end < |entries| then Sending(entries[end]) else Sent(entries[end - 1])
  }

  // The check of ConsensusSetSubscribe, under the write lock.
  ghost predicate CheckTail(s: State, t: State)
  {
    && s.phase.Sent? && t.log == s.log && t.received == s.received
    && t.phase == if s.log.tail == Some(s.phase.latest) then Subscribed else Looking(After(s.phase.latest))
  }

  ghost predicate Cancel(s: State, t: State)
  {
    t == s.(phase := Stopped)
  }

  // ---------------------------------------------------------------- what every run keeps

  // The first entry the subscriber has not seen, counted from where it asked to start.
  ghost predicate StartsAt(start: Start, entries: seq<ChangeEntry>, a: nat)
  {
    match start
    case Beginning => a == 0
    case Recent => true
    case After(id) => 0 < a <= |entries| && entries[a - 1] == id
  }

  // Where the call stands when everything before entry b has been received.
  ghost predicate StandsAt(phase: Phase, entries: seq<ChangeEntry>, b: nat)
  {
    match phase
    case Looking(start) => start.After? && 0 < b <= |entries| && entries[b - 1] == start.id
    case Sending(e) => b < |entries| && entries[b] == e
    case Sent(e) => 0 < b <= |entries| && entries[b - 1] == e
    case Subscribed => b == |entries|
    case Stopped => true
  }

  // What has been received is the stretch of the log from entry a up to entry b.
  ghost predicate Stretch(s: State, start: Start, entries: seq<ChangeEntry>, a: nat, b: nat)
  {
    && a <= b <= |entries| && s.received == entries[a..b]
    && StartsAt(start, entries, a) && StandsAt(s.phase, entries, b)
  }

  // Nothing has been looked up yet, or a stretch has been received.
  ghost predicate InOrder(s: State, start: Start, entries: seq<ChangeEntry>)
  {
    && Linked(s.log, entries)
    && ((s.received == [] && (s.phase == Looking(start) || s.phase.Stopped?)) ||
        (exists a: nat, b: nat :: Stretch(s, start, entries, a, b)))
  }

  lemma StretchGrows(s: State, t: State, start: Start, entries: seq<ChangeEntry>, more: seq<ChangeEntry>, a: nat, b: nat)
    requires Stretch(s, start, entries, a, b) && t.phase == s.phase
    requires t.received == if s.phase.Subscribed? then s.received + more else s.received
    ensures Stretch(t, start, entries + more, a, if s.phase.Subscribed? then |entries + more| else b)
  {
    var all := entries + more;
    assert StartsAt(start, all, a);
    if s.phase.Subscribed? {
      assert all[a..|all|] == entries[a..b] + more;
    } else {
      assert all[a..b] == entries[a..b];
      assert StandsAt(s.phase, all, b);
    }
  }

  lemma AcceptKeeps(s: State, t: State, start: Start, entries: seq<ChangeEntry>, more: seq<ChangeEntry>)
    requires InOrder(s, start, entries) && Accept(s, t, entries, more)
    ensures InOrder(t, start, entries + more)
  {
    if a: nat, b: nat :| Stretch(s, start, entries, a, b) {
      StretchGrows(s, t, start, entries, more, a, b);
    }
  }

  lemma LookKeeps(s: State, t: State, start: Start, entries: seq<ChangeEntry>)
    requires InOrder(s, start, entries) && Look(s, t, entries[0])
    ensures InOrder(t, start, entries)
  {
    if s.received == [] && s.phase == Looking(start) {
      match start {
        case Recent =>
          assert Stretch(t, start, entries, |entries|, |entries|);
        case Beginning =>
          assert Stretch(t, start, entries, 0, 0);
        case After(id) =>
          if Known(s.log, id) {
            assert id in entries;
            var i :| 0 <= i < |entries| && entries[i] == id;
            NextWalks(s.log, entries, i);
            assert Stretch(t, start, entries, i + 1, i + 1);
          }
      }
    } else {
      var a: nat, b: nat :| Stretch(s, start, entries, a, b);
      NextWalks(s.log, entries, b - 1);
      assert Stretch(t, start, entries, a, b);
    }
  }

  // A batch makes progress: it sends at least one entry.
  lemma BatchStretch(s: State, t: State, start: Start, entries: seq<ChangeEntry>, a: nat, b: nat)
    requires Stretch(s, start, entries, a, b) && Batch(s, t, entries, b)
    ensures Stretch(t, start, entries, a, Min(b + BATCH, |entries|)) && |s.received| < |t.received|
  {
    var end := Min(b + BATCH, |entries|);
    assert entries[a..b] + entries[b..end] == entries[a..end];
  }

  lemma BatchKeeps(s: State, t: State, start: Start, entries: seq<ChangeEntry>, at: nat)
    requires InOrder(s, start, entries) && Batch(s, t, entries, at)
    ensures InOrder(t, start, entries)
  {
    var a: nat, b: nat :| Stretch(s, start, entries, a, b);
    assert entries[at] == entries[b];
    assert at == b;
    BatchStretch(s, t, start, entries, a, b);
  }

  lemma CheckKeeps(s: State, t: State, start: Start, entries: seq<ChangeEntry>)
    requires InOrder(s, start, entries) && CheckTail(s, t)
    ensures InOrder(t, start, entries)
  {
    var a: nat, b: nat :| Stretch(s, start, entries, a, b);
    if t.phase.Subscribed? {
      assert entries[b - 1] == entries[|entries| - 1];
      assert b == |entries|;
    }
    assert Stretch(t, start, entries, a, b);
  }

  lemma CancelKeeps(s: State, t: State, start: Start, entries: seq<ChangeEntry>)
    requires InOrder(s, start, entries) && Cancel(s, t)
    ensures InOrder(t, start, entries)
  {
    if a: nat, b: nat :| Stretch(s, start, entries, a, b) {
      assert Stretch(t, start, entries, a, b);
    }
  }

  // ---------------------------------------------------------------- whole runs

  ghost predicate Next(s: State, t: State, before: seq<ChangeEntry>, after: seq<ChangeEntry>)
    requires before != []
  {
    || (before <= after && Accept(s, t, before, after[|before|..]))
    || (after == before && (Look(s, t, before[0]) || CheckTail(s, t) || Cancel(s, t)))
    || (after == before && exists at: nat :: Batch(s, t, before, at))
  }

  // A run with the entries in the log at each point.
  ghost predicate IsRun(states: seq<State>, logs: seq<seq<ChangeEntry>>, start: Start)
  {
    && |states| == |logs| > 0 && (forall i :: 0 <= i < |logs| ==> logs[i] != [])
    && Linked(states[0].log, logs[0]) && states[0].phase == Looking(start) && states[0].received == []
    && (forall i :: 0 <= i < |states| - 1 ==> Next(states[i], states[i + 1], logs[i], logs[i + 1]))
  }

  // Under every interleaving of catch-up and accepted blocks, what a subscriber has received is one
  // unbroken stretch of the log, in order, from where it asked to start.
  lemma {:induction false} EveryRunInOrder(states: seq<State>, logs: seq<seq<ChangeEntry>>, start: Start, n: nat)
    requires IsRun(states, logs, start) && n < |states|
    ensures InOrder(states[n], start, logs[n])
  {
    if n > 0 {
      EveryRunInOrder(states, logs, start, n - 1);
      var s, t, before, after := states[n - 1], states[n], logs[n - 1], logs[n];
      assert Next(s, t, before, after);
      if before <= after && Accept(s, t, before, after[|before|..]) {
        AcceptKeeps(s, t, start, before, after[|before|..]);
        assert before + after[|before|..] == after;
      } else if Look(s, t, before[0]) {
        LookKeeps(s, t, start, before);
      } else if CheckTail(s, t) {
        CheckKeeps(s, t, start, before);
      } else if Cancel(s, t) {
        CancelKeeps(s, t, start, before);
      } else {
        var at: nat :| Batch(s, t, before, at);
        BatchKeeps(s, t, start, before, at);
      }
    }
  }

  lemma ReceivedAll(states: seq<State>, logs: seq<seq<ChangeEntry>>, n: nat)
    requires IsRun(states, logs, Beginning) && n < |states| && states[n].phase.Subscribed?
    ensures states[n].received == logs[n]
  {
    EveryRunInOrder(states, logs, Beginning, n);
    var a: nat, b: nat :| Stretch(states[n], Beginning, logs[n], a, b);
    assert logs[n][0..|logs[n]|] == logs[n];
  }

  // A subscriber that asked for everything and is in the list has received the whole log, so its
  // view is that of the current tip.
  lemma SubscriberSeesAll(states: seq<State>, logs: seq<seq<ChangeEntry>>, n: nat, env: Env, m: map<Hash, StoredBlock>, tip: Hash)
    requires IsRun(states, logs, Beginning) && n < |states| && states[n].phase.Subscribed?
    requires EnvOK(env) && TreeOK(env, m) && RunOK(env, m, logs[n], tip)
    ensures Reached(env, Replay(m, states[n].received), tip, GenesisPayoutKey(env))
  {
    ReceivedAll(states, logs, n);
    WholeReplay(env, m, logs[n], tip);
  }

  lemma WholeReplay(env: Env, m: map<Hash, StoredBlock>, entries: seq<ChangeEntry>, tip: Hash)
    requires EnvOK(env) && TreeOK(env, m) && RunOK(env, m, entries, tip)
    ensures Reached(env, Replay(m, entries), tip, GenesisPayoutKey(env))
  {
    ReplayRebuilds(env, m, entries, tip, |entries|);
    assert entries[..|entries|] == entries;
  }
}
