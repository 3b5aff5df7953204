/**
 Saving a JSON object in two files, so that a crash at any moment leaves a readable one. A file on
 disk is missing, whole, or torn by a crash in a way its checksum detects.
 */
module Persistence {

  datatype Metadata = Metadata(header: string, version: string)

  datatype Content<T> = Missing | Torn | Whole(meta: Metadata, value: T)

  datatype Disk<T> = Disk(primary: Content<T>, temp: Content<T>)

  datatype Loaded<T> = Ok(value: T) | NotExist | BadHeader | BadVersion | Corrupt

  // verifyChecksum disregards the metadata, and finds nothing wrong with a file that is not there.
  predicate VerifyChecksum<T>(c: Content<T>) { !c.Torn? }

  function ReadJSON<T>(meta: Metadata, c: Content<T>): Loaded<T>
  {
    match c
    case Missing => NotExist
    case Torn => Corrupt
    case Whole(m, o) => if m.header != meta.header then BadHeader else if m.version != meta.version then BadVersion else Ok(o)
  }

  // LoadJSON reads the temporary file only when the primary is there but corrupt.
  method LoadJSON<T>(meta: Metadata, d: Disk<T>) returns (r: Loaded<T>)
    ensures r == Readable(meta, d)
  {
    r := ReadJSON(meta, d.primary);
    if r.BadHeader? || r.BadVersion? || r.NotExist? {
      return;
    }
    if !r.Ok? {
      r := ReadJSON(meta, d.temp);
      if !r.Ok? {
        r := Corrupt;
      }
    }
  }

  function Readable<T>(meta: Metadata, d: Disk<T>): Loaded<T>
  {
    var r := ReadJSON(meta, d.primary);
    if !r.Corrupt? then r else
      var s := ReadJSON(meta, d.temp);
      if s.Ok? then s else Corrupt
  }

  // ---------------------------------------------------------------- saving, step by step

  // A save with the result a load with the same metadata would have given before it.
  datatype Job<T> = Job(meta: Metadata, value: T, before: Loaded<T>)

  datatype Phase<T> =
    | Resting
    | WritingTemp(job: Job<T>)
    | WritingPrimary(job: Job<T>)

  datatype State<T> = State(disk: Disk<T>, phase: Phase<T>)

  // While a file is being truncated and written, the disk may show it unchanged, torn, or whole.
  predicate Written<T(==)>(before: Content<T>, after: Content<T>, job: Job<T>)
  {
    after == before || after.Torn? || after == Whole(job.meta, job.value)
  }

  // SaveJSON starts. When the primary is corrupt the temporary file, perhaps the only good one, is
  // left alone.
  ghost predicate Begin<T(!new)>(s: State<T>, t: State<T>)
  {
    && s.phase.Resting? && t.disk == s.disk
    && exists meta, value ::
         var job := Job(meta, value, Readable(meta, s.disk));
         t.phase == if VerifyChecksum(s.disk.primary) then WritingTemp(job) else WritingPrimary(job)
  }

  ghost predicate WriteTemp<T>(s: State<T>, t: State<T>)
  {
    && s.phase.WritingTemp? && t.phase == s.phase
    && t.disk == s.disk.(temp := t.disk.temp) && Written(s.disk.temp, t.disk.temp, s.phase.job)
  }

  ghost predicate SyncTemp<T>(s: State<T>, t: State<T>)
  {
    && s.phase.WritingTemp? && t.phase == WritingPrimary(s.phase.job)
    && t.disk == s.disk.(temp := Whole(s.phase.job.meta, s.phase.job.value))
  }

  ghost predicate WritePrimary<T>(s: State<T>, t: State<T>)
  {
    && s.phase.WritingPrimary? && t.phase == s.phase
    && t.disk == s.disk.(primary := t.disk.primary) && Written(s.disk.primary, t.disk.primary, s.phase.job)
  }

  // The save completes.
  ghost predicate SyncPrimary<T>(s: State<T>, t: State<T>)
  {
    && s.phase.WritingPrimary? && t.phase == Resting
    && t.disk == s.disk.(primary := Whole(s.phase.job.meta, s.phase.job.value))
  }

  ghost predicate Crash<T>(s: State<T>, t: State<T>)
  {
    t == State(s.disk, Resting)
  }

  ghost predicate Step<T(!new)>(s: State<T>, t: State<T>)
  {
    Begin(s, t) || WriteTemp(s, t) || SyncTemp(s, t) || WritePrimary(s, t) || SyncPrimary(s, t) || Crash(s, t)
  }

  // ---------------------------------------------------------------- what every run keeps

  // A corrupt primary always has a whole temporary file beside it. While a save runs, a load gives
  // what it gave before, or the new version.
  ghost predicate Inv<T>(s: State<T>)
  {
    && (s.disk.primary.Torn? ==> s.disk.temp.Whole?)
    && match s.phase
       case Resting => true
       case WritingTemp(job) => !s.disk.primary.Torn? && Readable(job.meta, s.disk) == job.before
       case WritingPrimary(job) =>
         && (Readable(job.meta, s.disk) == job.before || Readable(job.meta, s.disk) == Ok(job.value))
         && s.disk.temp.Whole?
         && (s.disk.temp == Whole(job.meta, job.value) || Readable(job.meta, s.disk.(primary := Torn)) == job.before)
  }

  lemma StepKeeps<T(!new)>(s: State<T>, t: State<T>)
    requires Inv(s) && Step(s, t)
    ensures Inv(t)
  {
    if Begin(s, t) {
      var meta, value :|
        var job := Job(meta, value, Readable(meta, s.disk));
        t.phase == if VerifyChecksum(s.disk.primary) then WritingTemp(job) else WritingPrimary(job);
    }
  }

  ghost predicate IsRun<T(!new)>(states: seq<State<T>>)
  {
    && states != [] && states[0] == State(Disk(Missing, Missing), Resting)
    && forall n :: 0 <= n < |states| - 1 ==> Step(states[n], states[n + 1])
  }

  lemma {:induction false} EveryState<T(!new)>(states: seq<State<T>>, n: nat)
    requires IsRun(states) && n < |states|
    ensures Inv(states[n])
  {
    if n > 0 {
      EveryState(states, n - 1);
      StepKeeps(states[n - 1], states[n]);
    }
  }

  // After any saves and crashes: an interrupted save leaves what was readable before or the version
  // being saved, and a completed save makes the new version readable.
  lemma SavesAreAtomic<T(!new)>(states: seq<State<T>>, n: nat)
    requires IsRun(states) && n + 1 < |states| && !states[n].phase.Resting?
    ensures var job := states[n].phase.job;
      && (Crash(states[n], states[n + 1]) ==>
           Readable(job.meta, states[n + 1].disk) == job.before || Readable(job.meta, states[n + 1].disk) == Ok(job.value))
      && (SyncPrimary(states[n], states[n + 1]) ==> Readable(job.meta, states[n + 1].disk) == Ok(job.value))
  {
    EveryState(states, n);
  }

  // The result remembered for a save is what a load gave when it began, at whatever point of the
  // run that was.
  lemma {:induction false} BeforeIsBefore<T(!new)>(states: seq<State<T>>, n: nat) returns (k: nat)
    requires IsRun(states) && n < |states| && !states[n].phase.Resting?
    ensures k < n && Begin(states[k], states[k + 1]) && states[k + 1].phase.job == states[n].phase.job
    ensures states[n].phase.job.before == Readable(states[n].phase.job.meta, states[k].disk)
  {
    assert n > 0;
    if Begin(states[n - 1], states[n]) {
      k := n - 1;
    } else {
      assert Step(states[n - 1], states[n]);
      k := BeforeIsBefore(states, n - 1);
    }
  }
}
