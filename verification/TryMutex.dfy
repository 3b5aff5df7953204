/**
 TryRWMutex as a step machine. One counter packs three counts: readers, writers and try calls in
 progress. Every atomic operation, and every entry into or exit from the inner mutex, is a step of
 one thread.
 */
module TryMutex {
  import opened Sums

  const READ: nat := 1
  const WRITE: nat := 0x10_0000
  const TRY: nat := 0x100_0000_0000

  // Where a thread is.
  datatype Pc =
    | Idle
    | LockSpin | LockReady | LockWait
    | ReadSpin | ReadReady | ReadWait
    | TryLockGot | TryLockHeld
    | TryReadGot | TryReadHeld | TryReadBack
    | WriteHeld | WriteReleased
    | ReadHeld | ReadReleased

  datatype State = State(counter: nat, threads: seq<Pc>)

  // What a thread contributes to each count.
  function Reads(p: Pc): nat
  {
    if p.ReadSpin? || p.ReadReady? || p.ReadWait? || p.TryReadGot? || p.TryReadHeld? || p.TryReadBack? || p.ReadHeld? || p.ReadReleased?
    then 1 else 0
  }

  function Writes(p: Pc): nat
  {
    if p.LockSpin? || p.LockReady? || p.LockWait? || p.TryLockGot? || p.TryLockHeld? || p.WriteHeld? || p.WriteReleased? then 1 else 0
  }

  function Tries(p: Pc): nat
  {
    if p.TryLockGot? || p.TryLockHeld? || p.TryReadGot? || p.TryReadHeld? || p.TryReadBack? then 1 else 0
  }

  function Active(p: Pc): nat { if p.Idle? then 0 else 1 }

  function Packed(ts: seq<Pc>): nat
  {
    SumSeq(ts, Reads) + 0x10_0000 * SumSeq(ts, Writes) + 0x100_0000_0000 * SumSeq(ts, Tries)
  }

  // Fewer than 2^20 operations are active at once.
  predicate Sane(ts: seq<Pc>) { SumSeq(ts, Active) < 0x10_0000 }

  // The inner mutex, read off the threads: who holds it, and who waits to write.
  predicate HoldsWrite(p: Pc) { p.WriteHeld? || p.TryLockHeld? }

  predicate HoldsRead(p: Pc) { p.ReadHeld? || p.TryReadHeld? }

  ghost predicate CanLock(ts: seq<Pc>, i: nat)
  {
    forall j :: 0 <= j < |ts| && j != i ==> !HoldsWrite(ts[j]) && !HoldsRead(ts[j])
  }

  // A waiting writer also holds back new readers.
  ghost predicate CanRead(ts: seq<Pc>, i: nat)
  {
    forall j :: 0 <= j < |ts| && j != i ==> !HoldsWrite(ts[j]) && !ts[j].LockWait?
  }

  function Add(counter: nat, amount: int): nat { (counter + amount) % 0x1_0000_0000_0000_0000 }

  // ---------------------------------------------------------------- steps

  ghost predicate Moves(s: State, t: State, i: nat, counter: nat, p: Pc)
  {
    i < |s.threads| && t == State(counter, s.threads[i := p])
  }

  ghost predicate CallStep(s: State, t: State, i: nat)
  {
    || (var v := Add(s.counter, WRITE); Moves(s, t, i, v, if v > TRY then LockSpin else LockReady))
    || (var v := Add(s.counter, READ); Moves(s, t, i, v, if v > TRY then ReadSpin else ReadReady))
    || (s.counter == 0 && Moves(s, t, i, WRITE + TRY, TryLockGot))
    || (s.counter != 0 && t == s)
    || (var v := Add(s.counter, READ + TRY);
        Moves(s, t, i, v, if v % 0x100_0000_0000 > WRITE then TryReadBack else TryReadGot))
  }

  ghost predicate Step(s: State, t: State, i: nat)
  {
    && i < |s.threads|
    && match s.threads[i]
       case Idle => CallStep(s, t, i)
       case LockSpin => Moves(s, t, i, s.counter, if s.counter > TRY then LockSpin else LockReady)
       case LockReady => Moves(s, t, i, s.counter, LockWait)
       case LockWait => CanLock(s.threads, i) && Moves(s, t, i, s.counter, WriteHeld)
       case ReadSpin => Moves(s, t, i, s.counter, if s.counter > TRY then ReadSpin else ReadReady)
       case ReadReady => Moves(s, t, i, s.counter, ReadWait)
       case ReadWait => CanRead(s.threads, i) && Moves(s, t, i, s.counter, ReadHeld)
       case TryLockGot => CanLock(s.threads, i) && Moves(s, t, i, s.counter, TryLockHeld)
       case TryLockHeld => Moves(s, t, i, Add(s.counter, -(TRY as int)), WriteHeld)
       case TryReadGot => CanRead(s.threads, i) && Moves(s, t, i, s.counter, TryReadHeld)
       case TryReadHeld => Moves(s, t, i, Add(s.counter, -(TRY as int)), ReadHeld)
       case TryReadBack => Moves(s, t, i, Add(s.counter, -((READ + TRY) as int)), Idle)
       case WriteHeld => Moves(s, t, i, s.counter, WriteReleased)
       case WriteReleased => Moves(s, t, i, Add(s.counter, -(WRITE as int)), Idle)
       case ReadHeld => Moves(s, t, i, s.counter, ReadReleased)
       case ReadReleased => Moves(s, t, i, Add(s.counter, -(READ as int)), Idle)
  }

  // ---------------------------------------------------------------- the packed counts

  lemma {:induction false} SumUpdate<T>(s: seq<T>, i: nat, x: T, f: T -> nat)
    requires i < |s|
    ensures SumSeq(s[i := x], f) + f(s[i]) == SumSeq(s, f) + f(x)
  {
    var n := |s| - 1;
    if i == n {
      assert s[i := x][..n] == s[..n];
    } else {
      assert s[i := x][..n] == s[..n][i := x];
      SumUpdate(s[..n], i, x, f);
    }
  }

  lemma {:induction false} CountsBounded(ts: seq<Pc>)
    ensures SumSeq(ts, Reads) + SumSeq(ts, Writes) == SumSeq(ts, Active) && SumSeq(ts, Tries) <= SumSeq(ts, Active)
  {
    if ts != [] {
      CountsBounded(ts[..|ts| - 1]);
    }
  }

  lemma {:induction false} CountedIsThere(ts: seq<Pc>, f: Pc -> nat, i: nat)
    requires i < |ts|
    ensures f(ts[i]) <= SumSeq(ts, f)
  {
    SumSeqMember(ts, f, i);
  }

  // Reading the packed counter: any try call shows above TRY, and any writer above WRITE.
  lemma Unpack(ts: seq<Pc>)
    requires Sane(ts)
    ensures Packed(ts) < 0x1_0000_0000_0000_0000
    ensures SumSeq(ts, Tries) == 0 ==> Packed(ts) < TRY
    ensures SumSeq(ts, Tries) > 0 && SumSeq(ts, Active) > 0 ==> Packed(ts) > TRY
    ensures SumSeq(ts, Reads) > 0 ==> (Packed(ts) % 0x100_0000_0000 > WRITE <==> SumSeq(ts, Writes) > 0)
    ensures Packed(ts) == 0 ==> SumSeq(ts, Active) == 0
  {
    CountsBounded(ts);
    var r, w, t := SumSeq(ts, Reads), SumSeq(ts, Writes), SumSeq(ts, Tries);
    assert r + 0x10_0000 * w < 0x100_0000_0000;
    LowBits(r + 0x10_0000 * w, t);
  }

  lemma LowBits(low: nat, t: nat)
    requires low < 0x100_0000_0000
    ensures (low + 0x100_0000_0000 * t) % 0x100_0000_0000 == low
  {
  }

  function Weight(p: Pc): nat { Reads(p) + 0x10_0000 * Writes(p) + 0x100_0000_0000 * Tries(p) }

  lemma PackedUpdate(ts: seq<Pc>, i: nat, p: Pc)
    requires i < |ts|
    ensures Packed(ts[i := p]) + Weight(ts[i]) == Packed(ts) + Weight(p)
  {
    SumUpdate(ts, i, p, Reads);
    SumUpdate(ts, i, p, Writes);
    SumUpdate(ts, i, p, Tries);
  }

  lemma Wrapless(x: int)
    requires 0 <= x < 0x1_0000_0000_0000_0000
    ensures x % 0x1_0000_0000_0000_0000 == x
  {
  }

  // A step that adds exactly the change in the thread's weight leaves the counter packed.
  lemma AddPacks(s: State, t: State, i: nat, amount: int, p: Pc)
    requires s.counter == Packed(s.threads) && Moves(s, t, i, Add(s.counter, amount), p)
    requires amount == Weight(p) - Weight(s.threads[i]) && Sane(t.threads)
    ensures t.counter == Packed(t.threads) == s.counter + amount
  {
    PackedUpdate(s.threads, i, p);
    Unpack(t.threads);
    Wrapless(s.counter + amount);
  }

  // ---------------------------------------------------------------- the invariant

  // While a TryLock that has succeeded is under way, every other thread is kept out.
  predicate Parked(p: Pc) { p.Idle? || p.LockSpin? || p.ReadSpin? || p.TryReadBack? }

  predicate WriterPast(p: Pc)
  {
    p.LockReady? || p.LockWait? || p.WriteHeld? || p.WriteReleased? || p.TryLockGot? || p.TryLockHeld?
  }

  // What two threads may not be at once.
  predicate Compatible(p: Pc, q: Pc)
  {
    && (HoldsWrite(p) ==> !HoldsWrite(q) && !HoldsRead(q))
    && (p.TryLockGot? || p.TryLockHeld? ==> Parked(q))
    && (p.TryReadGot? || p.TryReadHeld? ==> !WriterPast(q))
  }

  ghost predicate AllCompatible(ts: seq<Pc>)
  {
    forall i, j :: 0 <= i < |ts| && 0 <= j < |ts| && i != j ==> Compatible(ts[i], ts[j])
  }

  ghost predicate Inv(s: State)
  {
    s.counter == Packed(s.threads) && AllCompatible(s.threads)
  }

  // The new position of thread i fits all others, in both directions.
  lemma CompatibleStep(ts: seq<Pc>, i: nat, p: Pc)
    requires i < |ts| && AllCompatible(ts)
    requires forall j :: 0 <= j < |ts| && j != i ==> Compatible(p, ts[j]) && Compatible(ts[j], p)
    ensures AllCompatible(ts[i := p])
  {
  }

  // What the counts say about every thread.
  lemma NoneCounted(ts: seq<Pc>, f: Pc -> nat)
    requires SumSeq(ts, f) == 0
    ensures forall j :: 0 <= j < |ts| ==> f(ts[j]) == 0
  {
    forall j | 0 <= j < |ts| ensures f(ts[j]) == 0 {
      CountedIsThere(ts, f, j);
    }
  }

  // A thread that signals and does not have to spin sees no try call under way.
  lemma NoTries(ts: seq<Pc>)
    requires Sane(ts) && Packed(ts) <= TRY && SumSeq(ts, Active) > 0
    ensures forall j :: 0 <= j < |ts| ==> Tries(ts[j]) == 0
  {
    Unpack(ts);
    NoneCounted(ts, Tries);
  }

  lemma NoWriters(ts: seq<Pc>)
    requires Sane(ts) && Packed(ts) % 0x100_0000_0000 <= WRITE && SumSeq(ts, Reads) > 0
    ensures forall j :: 0 <= j < |ts| ==> Writes(ts[j]) == 0
  {
    Unpack(ts);
    NoneCounted(ts, Writes);
  }

  lemma CallKeeps(s: State, t: State, i: nat)
    requires Inv(s) && i < |s.threads| && s.threads[i].Idle? && CallStep(s, t, i) && Sane(s.threads) && Sane(t.threads)
    ensures Inv(t)
  {
    var ts := t.threads;
    if t != s {
      var p := ts[i];
      CountedIsThere(ts, Active, i);
      if p.LockSpin? || p.LockReady? {
        AddPacks(s, t, i, WRITE, p);
        if p.LockReady? {
          NoTries(ts);
          assert forall j :: 0 <= j < |ts| && j != i ==> ts[j] == s.threads[j];
        }
        CompatibleStep(s.threads, i, p);
      } else if p.ReadSpin? || p.ReadReady? {
        AddPacks(s, t, i, READ, p);
        if p.ReadReady? {
          NoTries(ts);
          assert forall j :: 0 <= j < |ts| && j != i ==> ts[j] == s.threads[j];
        }
        CompatibleStep(s.threads, i, p);
      } else if p.TryLockGot? {
        Unpack(s.threads);
        NoneCounted(s.threads, Active);
        PackedUpdate(s.threads, i, p);
        CompatibleStep(s.threads, i, p);
      } else {
        AddPacks(s, t, i, READ + TRY, p);
        CountedIsThere(ts, Reads, i);
        if p.TryReadGot? {
          NoWriters(ts);
          assert forall j :: 0 <= j < |ts| && j != i ==> ts[j] == s.threads[j];
        }
        CompatibleStep(s.threads, i, p);
      }
    }
  }

  // Spinning ends only when no try call is under way.
  lemma SpinKeeps(s: State, t: State, i: nat)
    requires Inv(s) && i < |s.threads| && (s.threads[i].LockSpin? || s.threads[i].ReadSpin?) && Step(s, t, i) && Sane(s.threads)
    ensures Inv(t)
  {
    var p := t.threads[i];
    PackedUpdate(s.threads, i, p);
    CountedIsThere(s.threads, Active, i);
    if p.LockReady? || p.ReadReady? {
      NoTries(s.threads);
    }
    CompatibleStep(s.threads, i, p);
  }

  lemma OtherCompatible(s: State, t: State, i: nat)
    requires Inv(s) && Step(s, t, i) && !s.threads[i].Idle? && !s.threads[i].LockSpin? && !s.threads[i].ReadSpin?
    ensures AllCompatible(t.threads)
  {
    hide Packed, SumSeq;
    CompatibleStep(s.threads, i, t.threads[i]);
  }

  lemma OtherKeeps(s: State, t: State, i: nat)
    requires Inv(s) && Step(s, t, i) && Sane(s.threads) && Sane(t.threads)
    requires !s.threads[i].Idle? && !s.threads[i].LockSpin? && !s.threads[i].ReadSpin?
    ensures Inv(t)
  {
    hide Compatible, SumSeq, CanLock, CanRead;
    var was, p := s.threads[i], t.threads[i];
    if t.counter == s.counter {
      PackedUpdate(s.threads, i, p);
    } else {
      var amount := Weight(p) as int - Weight(was);
      AddPacks(s, t, i, amount, p);
    }
    OtherCompatible(s, t, i);
  }

  // Every step keeps the counter packed and every two threads compatible.
  lemma StepKeeps(s: State, t: State, i: nat)
    requires Inv(s) && Step(s, t, i) && Sane(s.threads) && Sane(t.threads)
    ensures Inv(t)
  {
    match s.threads[i]
    case Idle => CallKeeps(s, t, i);
    case LockSpin => SpinKeeps(s, t, i);
    case ReadSpin => SpinKeeps(s, t, i);
    case _ => OtherKeeps(s, t, i);
  }

  // ---------------------------------------------------------------- runs

  ghost predicate IsRun(states: seq<State>, who: seq<nat>)
  {
    && |states| == |who| + 1 && states[0].counter == 0
    && (forall i :: 0 <= i < |states[0].threads| ==> states[0].threads[i].Idle?)
    && (forall n :: 0 <= n < |states| ==> Sane(states[n].threads))
    && (forall n :: 0 <= n < |who| ==> Step(states[n], states[n + 1], who[n]))
  }

  lemma {:induction false} AllIdle(ts: seq<Pc>)
    requires forall i :: 0 <= i < |ts| ==> ts[i].Idle?
    ensures Packed(ts) == 0
  {
    if ts != [] {
      AllIdle(ts[..|ts| - 1]);
    }
  }

  lemma {:induction false} EveryState(states: seq<State>, who: seq<nat>, n: nat)
    requires IsRun(states, who) && n < |states|
    ensures Inv(states[n])
  {
    if n == 0 {
      AllIdle(states[0].threads);
    } else {
      EveryState(states, who, n - 1);
      StepKeeps(states[n - 1], states[n], who[n - 1]);
    }
  }

  // In every state of every run: the counter is the packed counts; a writer excludes everyone; and
  // a thread whose TryLock or TryRLock has succeeded does not wait for the inner mutex.
  lemma TryNeverBlocks(states: seq<State>, who: seq<nat>, n: nat, i: nat)
    requires IsRun(states, who) && n < |states| && i < |states[n].threads|
    ensures states[n].counter == Packed(states[n].threads)
    ensures HoldsWrite(states[n].threads[i]) ==>
      forall j :: 0 <= j < |states[n].threads| && j != i ==> !HoldsWrite(states[n].threads[j]) && !HoldsRead(states[n].threads[j])
    ensures states[n].threads[i].TryLockGot? ==> CanLock(states[n].threads, i)
    ensures states[n].threads[i].TryReadGot? ==> CanRead(states[n].threads, i)
  {
    EveryState(states, who, n);
    var ts := states[n].threads;
    assert forall j :: 0 <= j < |ts| && j != i ==> Compatible(ts[i], ts[j]);
  }
}
