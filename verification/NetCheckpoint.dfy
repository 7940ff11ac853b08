/**
 Writing the net-position state file. A checkpoint takes its snapshot under the state lock and writes it
 later on another thread, under the write lock; the shutdown save does the same but first marks the state
 final. Any number of writers interleave, and any write or rename may fail.
 */
module NetCheckpoint {

  /** What a path holds: a failed write leaves the temporary file torn. */
  datatype Content<S> = Absent | Torn | Holds(snapshot: S)

  datatype Stage = Queued | Locked | Cleared | Written | Landed | Dropped

  datatype Writer<S> = Writer(snap: S, final: bool, at: Stage)

  datatype Lock = Free | HeldBy(writer: nat)

  datatype Disk<S> = Disk(
    live: S, dirty: bool, savedFinal: bool, lock: Lock, writers: seq<Writer<S>>, tmp: Content<S>, file: Content<S>)

  datatype Step<S> =
    | Update(live: S)
    | Checkpoint(due: bool)
    | Save
    | Acquire(i: nat)
    | CheckFinal(i: nat)
    | WriteTmp(i: nat, ok: bool)
    | Rename(i: nat, ok: bool)

  predicate Stands<S(==)>(d: Disk<S>, i: nat, at: Stage) {
    i < |d.writers| && d.writers[i].at == at
  }

  /** Steps of writer `i` after it took the lock need it at the stage before. */
  predicate Enabled<S(==)>(d: Disk<S>, s: Step<S>) {
    match s
    case Acquire(i) => Stands(d, i, Queued) && d.lock.Free?
    case CheckFinal(i) => Stands(d, i, Locked)
    case WriteTmp(i, _) => Stands(d, i, Cleared)
    case Rename(i, _) => Stands(d, i, Written)
    case _ => true
  }

  function Moved<S>(d: Disk<S>, i: nat, at: Stage): Disk<S>
    requires i < |d.writers|
  {
    d.(writers := d.writers[i := d.writers[i].(at := at)])
  }

  /** A failed checkpoint marks the state dirty again; a failed save does not. */
  function Failed<S>(d: Disk<S>, i: nat): Disk<S>
    requires i < |d.writers|
  {
    Moved(d, i, Dropped).(lock := Free, dirty := d.dirty || !d.writers[i].final)
  }

  function Do<S>(d: Disk<S>, s: Step<S>): Disk<S>
    requires Enabled(d, s)
  {
    match s
    case Update(live) => d.(live := live, dirty := true)
    case Checkpoint(due) =>
      if d.dirty && due then d.(dirty := false, writers := d.writers + [Writer(d.live, false, Queued)]) else d
    case Save => d.(dirty := false, writers := d.writers + [Writer(d.live, true, Queued)])
    case Acquire(i) => Moved(d, i, Locked).(lock := HeldBy(i))
    case CheckFinal(i) =>
      if d.writers[i].final then Moved(d, i, Cleared).(savedFinal := true)
      else if d.savedFinal then Moved(d, i, Dropped).(lock := Free)
      else Moved(d, i, Cleared)
    case WriteTmp(i, ok) =>
      if ok then Moved(d, i, Written).(tmp := Holds(d.writers[i].snap)) else Failed(d.(tmp := Torn), i)
    case Rename(i, ok) =>
      if ok then Moved(d, i, Landed).(lock := Free, file := d.tmp, tmp := Absent) else Failed(d, i)
  }

  /** Where a history of steps leads; a step that cannot be taken yet changes nothing. */
  function Run<S(==)>(start: Disk<S>, history: seq<Step<S>>): Disk<S> {
    if history == [] then start
    else
      var before := Run(start, history[..|history| - 1]);
      var step := history[|history| - 1];
      if Enabled(before, step) then Do(before, step) else before
  }

  /** A tracker just loaded: no writer yet, the file absent or whole, whatever a crash left in the temporary file. */
  predicate JustLoaded<S>(d: Disk<S>) {
    !d.dirty && !d.savedFinal && d.lock.Free? && d.writers == [] && !d.file.Torn?
  }

  // What every step keeps

  predicate UsesLock(at: Stage) {
    at.Locked? || at.Cleared? || at.Written?
  }

  ghost predicate FileIsFinal<S>(d: Disk<S>) {
    exists i :: 0 <= i < |d.writers| && d.writers[i].final && d.writers[i].at.Landed? && d.file == Holds(d.writers[i].snap)
  }

  ghost predicate Orderly<S(!new)>(d: Disk<S>) {
    && (forall i :: 0 <= i < |d.writers| && UsesLock(d.writers[i].at) ==> d.lock == HeldBy(i))
    && (d.lock.HeldBy? ==> d.lock.writer < |d.writers| && UsesLock(d.writers[d.lock.writer].at))
    && (forall i :: 0 <= i < |d.writers| && d.writers[i].at.Written? ==> d.tmp == Holds(d.writers[i].snap))
  }

  ghost predicate FinalRespected<S(!new)>(d: Disk<S>) {
    forall i :: 0 <= i < |d.writers| ==>
      && (d.writers[i].at.Cleared? || d.writers[i].at.Written? ==> d.savedFinal == d.writers[i].final)
      && (d.writers[i].final && d.writers[i].at.Landed? ==> d.savedFinal && FileIsFinal(d))
  }

  ghost predicate Sound<S(!new)>(d: Disk<S>) {
    Orderly(d) && FinalRespected(d)
  }

  predicate ByWriter<S>(s: Step<S>) {
    s.Acquire? || s.CheckFinal? || s.WriteTmp? || s.Rename?
  }

  /** Writer `i` moves on while the lock is free or its own, and leaves the lock as its new stage uses it. */
  lemma MoveKeepsOrderly<S(!new)>(d: Disk<S>, e: Disk<S>, i: nat)
    requires Orderly(d) && i < |d.writers| && |e.writers| == |d.writers|
    requires d.lock == HeldBy(i) || d.lock.Free?
    requires forall j :: 0 <= j < |d.writers| && j != i ==> e.writers[j] == d.writers[j]
    requires e.lock == if UsesLock(e.writers[i].at) then HeldBy(i) else Free
    requires e.writers[i].at.Written? ==> e.tmp == Holds(e.writers[i].snap)
    ensures Orderly(e)
  {
  }

  lemma StepKeepsOrderly<S(!new)>(d: Disk<S>, s: Step<S>)
    requires Orderly(d) && Enabled(d, s)
    ensures Orderly(Do(d, s))
  {
    if ByWriter(s) {
      MoveKeepsOrderly(d, Do(d, s), s.i);
    }
  }

  lemma FinalFileStays<S(!new)>(d: Disk<S>, e: Disk<S>)
    requires FileIsFinal(d) && d.file == e.file && |d.writers| <= |e.writers|
    requires forall i :: 0 <= i < |d.writers| && d.writers[i].at.Landed? ==> e.writers[i] == d.writers[i]
    ensures FileIsFinal(e)
  {
    var i :| 0 <= i < |d.writers| && d.writers[i].final && d.writers[i].at.Landed? && d.file == Holds(d.writers[i].snap);
    assert e.writers[i] == d.writers[i];
  }

  /** A rename lands only what its own writer wrote, and a checkpoint lands only while no save has. */
  lemma LandingKeepsFinal<S(!new)>(d: Disk<S>, i: nat)
    requires Sound(d) && Enabled(d, Rename(i, true))
    ensures FinalRespected(Do(d, Rename(i, true)))
  {
    var e := Do(d, Rename(i, true));
    if d.writers[i].final {
      assert e.writers[i].final && e.writers[i].at.Landed? && e.file == Holds(e.writers[i].snap);
    }
  }

  lemma StepKeepsFinal<S(!new)>(d: Disk<S>, s: Step<S>)
    requires Sound(d) && Enabled(d, s) && !(s.Rename? && s.ok)
    ensures FinalRespected(Do(d, s))
  {
    var e := Do(d, s);
    if FileIsFinal(d) {
      FinalFileStays(d, e);
    }
    forall i | 0 <= i < |e.writers|
      ensures e.writers[i].at.Cleared? || e.writers[i].at.Written? ==> e.savedFinal == e.writers[i].final
      ensures e.writers[i].final && e.writers[i].at.Landed? ==> e.savedFinal && FileIsFinal(e)
    {
      hide FileIsFinal;
      assert i < |d.writers| ==> e.writers[i].at.Landed? == d.writers[i].at.Landed?;
      if !s.CheckFinal? {
        hide Orderly;
      }
    }
  }

  lemma StepKeepsSound<S(!new)>(d: Disk<S>, s: Step<S>)
    requires Sound(d) && Enabled(d, s)
    ensures Sound(Do(d, s))
  {
    hide Orderly, FinalRespected, Do, Enabled;
    StepKeepsOrderly(d, s);
    if s.Rename? && s.ok {
      LandingKeepsFinal(d, s.i);
    } else {
      StepKeepsFinal(d, s);
    }
  }

  lemma {:induction false} RunSound<S(!new)>(start: Disk<S>, history: seq<Step<S>>)
    requires JustLoaded(start)
    ensures Sound(Run(start, history))
  {
    if history != [] {
      var shorter := history[..|history| - 1];
      RunSound(start, shorter);
      if Enabled(Run(start, shorter), history[|history| - 1]) {
        StepKeepsSound(Run(start, shorter), history[|history| - 1]);
      }
    }
  }

  // Writers and marks persist

  ghost predicate Extends<S(!new)>(d: Disk<S>, e: Disk<S>) {
    && |d.writers| <= |e.writers| && (d.savedFinal ==> e.savedFinal)
    && forall i :: 0 <= i < |d.writers| ==>
         && e.writers[i].snap == d.writers[i].snap && e.writers[i].final == d.writers[i].final
         && (d.writers[i].at.Landed? ==> e.writers[i].at.Landed?)
  }

  lemma StepExtends<S(!new)>(d: Disk<S>, s: Step<S>)
    requires Enabled(d, s)
    ensures Extends(d, Do(d, s))
  {
  }

  lemma ExtendsOn<S(!new)>(a: Disk<S>, b: Disk<S>, c: Disk<S>)
    requires Extends(a, b) && Extends(b, c)
    ensures Extends(a, c)
  {
  }

  lemma {:induction false} RunExtends<S(!new)>(start: Disk<S>, history: seq<Step<S>>, m: nat)
    requires m <= |history|
    ensures Extends(Run(start, history[..m]), Run(start, history))
    decreases |history|
  {
    if m == |history| {
      assert history[..m] == history;
    } else {
      hide Extends, Do, Enabled;
      var shorter := history[..|history| - 1];
      assert shorter[..m] == history[..m];
      RunExtends(start, shorter, m);
      var before, step := Run(start, shorter), history[|history| - 1];
      if Enabled(before, step) {
        StepExtends(before, step);
        ExtendsOn(Run(start, history[..m]), before, Run(start, history));
      }
    }
  }

  // The theorems

  ghost predicate OnlySave<S>(d: Disk<S>, i: nat) {
    forall j :: 0 <= j < |d.writers| && d.writers[j].final ==> j == i
  }

  /**
   Once the save's write has succeeded the file equals its snapshot for good, whatever checkpoints were
   snapshotted before or after it and however they interleave.
   */
  lemma FinalSaveWins<S(!new)>(start: Disk<S>, history: seq<Step<S>>, m: nat, i: nat)
    requires JustLoaded(start) && m <= |history|
    requires Stands(Run(start, history[..m]), i, Landed) && Run(start, history[..m]).writers[i].final
    requires OnlySave(Run(start, history), i)
    ensures Run(start, history).file == Holds(Run(start, history[..m]).writers[i].snap)
  {
    RunSound(start, history);
    RunExtends(start, history, m);
  }

  /** From the moment the state is marked final, the file changes only when a save lands. */
  lemma {:induction false} MarkedFileChangesOnlyBySave<S(!new)>(start: Disk<S>, history: seq<Step<S>>, m: nat)
    requires JustLoaded(start) && m <= |history|
    requires Run(start, history[..m]).savedFinal
    ensures var d := Run(start, history);
            d.file == Run(start, history[..m]).file || FileIsFinal(d)
    decreases |history|
  {
    if m == |history| {
      assert history[..m] == history;
    } else {
      hide Sound, Do, Enabled, FileIsFinal, Extends;
      var n := |history| - 1;
      assert history[..n][..m] == history[..m];
      MarkedFileChangesOnlyBySave(start, history[..n], m);
      RunSound(start, history[..n]);
      MarkStays(start, history[..n], m);
      if Enabled(Run(start, history[..n]), history[n]) {
        MarkedStep(Run(start, history[..n]), history[n]);
      }
    }
  }

  lemma MarkStays<S(!new)>(start: Disk<S>, history: seq<Step<S>>, m: nat)
    requires m <= |history| && Run(start, history[..m]).savedFinal
    ensures Run(start, history).savedFinal
  {
    RunExtends(start, history, m);
  }

  lemma MarkedStep<S(!new)>(d: Disk<S>, s: Step<S>)
    requires Sound(d) && Enabled(d, s) && d.savedFinal
    ensures Do(d, s).file == d.file || FileIsFinal(Do(d, s))
    ensures FileIsFinal(d) ==> FileIsFinal(Do(d, s))
  {
    hide Orderly;
    StepKeepsSound(d, s);
    StepExtends(d, s);
    if s.Rename? && s.ok {
      assert Do(d, s).writers[s.i].final && Do(d, s).writers[s.i].at.Landed?;
    } else if FileIsFinal(d) {
      FinalFileStays(d, Do(d, s));
    }
  }

  /** `s` was the live state at some point of the history. */
  ghost predicate Occurred<S(!new)>(start: Disk<S>, history: seq<Step<S>>, s: S) {
    exists k :: 0 <= k <= |history| && Run(start, history[..k]).live == s
  }

  lemma OccurredStays<S(!new)>(start: Disk<S>, history: seq<Step<S>>, n: nat, s: S)
    requires n <= |history| && Occurred(start, history[..n], s)
    ensures Occurred(start, history, s)
  {
    var k :| 0 <= k <= n && Run(start, history[..n][..k]).live == s;
    assert history[..n][..k] == history[..k];
  }

  lemma {:induction false} SnapshotsOccurred<S(!new)>(start: Disk<S>, history: seq<Step<S>>)
    requires JustLoaded(start)
    ensures forall i :: 0 <= i < |Run(start, history).writers| ==> Occurred(start, history, Run(start, history).writers[i].snap)
  {
    if history != [] {
      var n := |history| - 1;
      SnapshotsOccurred(start, history[..n]);
      var before, after := Run(start, history[..n]), Run(start, history);
      if Enabled(before, history[n]) {
        SnapshotsAfter(before, history[n]);
      }
      hide Do, Enabled, Occurred;
      LiveOccurred(start, history, n);
      forall i | 0 <= i < |after.writers| ensures Occurred(start, history, after.writers[i].snap) {
        if i < |before.writers| {
          OccurredStays(start, history, n, before.writers[i].snap);
        }
      }
    }
  }

  lemma SnapshotsAfter<S(!new)>(d: Disk<S>, s: Step<S>)
    requires Enabled(d, s)
    ensures forall i :: 0 <= i < |Do(d, s).writers| ==>
                          Do(d, s).writers[i].snap == if i < |d.writers| then d.writers[i].snap else d.live
  {
  }

  lemma LiveOccurred<S(!new)>(start: Disk<S>, history: seq<Step<S>>, n: nat)
    requires n <= |history|
    ensures Occurred(start, history, Run(start, history[..n]).live)
  {
  }

  /** At all times the file is the one found at start or a whole snapshot of a state that really occurred. */
  lemma {:induction false} FileAlwaysOccurred<S(!new)>(start: Disk<S>, history: seq<Step<S>>)
    requires JustLoaded(start)
    ensures var file := Run(start, history).file;
            file == start.file || (file.Holds? && Occurred(start, history, file.snapshot))
  {
    if history != [] {
      var n := |history| - 1;
      FileAlwaysOccurred(start, history[..n]);
      var before, after := Run(start, history[..n]), Run(start, history);
      if after.file != before.file {
        RunSound(start, history[..n]);
        SnapshotsOccurred(start, history);
        assert after.file == Holds(after.writers[history[n].i].snap);
      } else if after.file != start.file {
        OccurredStays(start, history, n, after.file.snapshot);
      }
    }
  }

  function Taken<S(==)>(d: Disk<S>, s: Step<S>): Disk<S> {
    if Enabled(d, s) then Do(d, s) else d
  }

  lemma RunOneMore<S(!new)>(start: Disk<S>, history: seq<Step<S>>, s: Step<S>)
    ensures Run(start, history + [s]) == Taken(Run(start, history), s)
  {
    assert (history + [s])[..|history|] == history;
  }

  /** What a write begun now leads to, when its writer takes its steps in a row and both calls have the given outcomes. */
  function Writing<S>(begin: Step<S>, i: nat, written: bool, renamed: bool): seq<Step<S>> {
    [begin, Acquire(i), CheckFinal(i), WriteTmp(i, written), Rename(i, renamed)]
  }

  lemma RunWriting<S(!new)>(start: Disk<S>, history: seq<Step<S>>, begin: Step<S>, i: nat, written: bool, renamed: bool)
    ensures Run(start, history + Writing(begin, i, written, renamed)) ==
              Taken(Taken(Taken(Taken(Taken(Run(start, history), begin), Acquire(i)), CheckFinal(i)), WriteTmp(i, written)), Rename(i, renamed))
  {
    var acquire: Step<S>, check: Step<S>, write: Step<S>, rename: Step<S> :=
      Acquire(i), CheckFinal(i), WriteTmp(i, written), Rename(i, renamed);
    assert history + Writing(begin, i, written, renamed) == history + [begin] + [acquire] + [check] + [write] + [rename];
    hide *;
    RunOneMore(start, history, begin);
    RunOneMore(start, history + [begin], acquire);
    RunOneMore(start, history + [begin] + [acquire], check);
    RunOneMore(start, history + [begin] + [acquire] + [check], write);
    RunOneMore(start, history + [begin] + [acquire] + [check] + [write], rename);
  }

  /** The last writer, alone at the lock's door, taking its steps in a row. */
  lemma LastWriterWrites<S(!new)>(d: Disk<S>, i: nat, written: bool, renamed: bool) returns (e: Disk<S>)
    requires |d.writers| == i + 1 && Stands(d, i, Queued) && d.lock.Free?
    ensures e == Taken(Taken(Taken(Taken(d, Acquire(i)), CheckFinal(i)), WriteTmp(i, written)), Rename(i, renamed))
    ensures var w := d.writers[i];
            && e.live == d.live && e.lock.Free? && e.savedFinal == (d.savedFinal || w.final)
            && if d.savedFinal && !w.final then e.file == d.file
               else if written && renamed then e.file == Holds(w.snap) && e.dirty == d.dirty
               else e.file == d.file && e.dirty == (d.dirty || !w.final)
  {
    var w := d.writers[i];
    var a := Taken(d, Acquire(i));
    assert a == d.(writers := d.writers[..i] + [w.(at := Locked)], lock := HeldBy(i));
    var c := Taken(a, CheckFinal(i));
    if d.savedFinal && !w.final {
      assert c == d.(writers := d.writers[..i] + [w.(at := Dropped)], lock := Free);
    } else {
      assert c == d.(writers := d.writers[..i] + [w.(at := Cleared)], lock := HeldBy(i), savedFinal := w.final);
    }
    hide Moved;
    var x := Taken(c, WriteTmp(i, written));
    e := Taken(x, Rename(i, renamed));
  }

  /**
   Begun while the lock is free, the save, or a due checkpoint of changes not yet final, puts the live state into the
   file; if its write or rename fails the file stays, and only the checkpoint's state is to be written again. A
   checkpoint after the final mark changes no file.
   */
  lemma WritesTheLiveState<S(!new)>(start: Disk<S>, history: seq<Step<S>>, save: bool, written: bool, renamed: bool)
    requires Run(start, history).lock.Free? && (save || Run(start, history).dirty)
    ensures var d := Run(start, history);
            var e := Run(start, history + Writing(if save then Save else Checkpoint(true), |d.writers|, written, renamed));
            && e.live == d.live && e.lock.Free? && e.savedFinal == (d.savedFinal || save)
            && if d.savedFinal && !save then e.file == d.file
               else if written && renamed then e.file == Holds(d.live) && !e.dirty
               else e.file == d.file && e.dirty == !save
  {
    var d := Run(start, history);
    var begin: Step<S>, i := if save then Save else Checkpoint(true), |d.writers|;
    RunWriting(start, history, begin, i, written, renamed);
    hide Run, Writing;
    var begun := Taken(d, begin);
    assert begun == d.(dirty := false, writers := d.writers + [Writer(d.live, save, Queued)]);
    hide Taken;
    var e := LastWriterWrites(begun, i, written, renamed);
  }

  /** A writer that has not given up holds the live state. */
  ghost predicate Covered<S>(start: Disk<S>, d: Disk<S>) {
    d.live == start.live || exists i :: 0 <= i < |d.writers| && d.writers[i].snap == d.live && !d.writers[i].at.Dropped?
  }

  /**
   Until the state is marked final no update is forgotten: whenever the dirty flag is down, the live state
   is the one loaded, or its snapshot is on its way to the file or has landed there.
   */
  lemma {:induction false} NoUpdateForgotten<S(!new)>(start: Disk<S>, history: seq<Step<S>>)
    requires JustLoaded(start)
    ensures var d := Run(start, history); d.dirty || d.savedFinal || Covered(start, d)
  {
    if history != [] {
      var n := |history| - 1;
      NoUpdateForgotten(start, history[..n]);
      RunSound(start, history[..n]);
      var before, after := Run(start, history[..n]), Run(start, history);
      if |after.writers| > |before.writers| {
        assert after.writers[|before.writers|].snap == after.live;
      } else if !after.dirty && !after.savedFinal && after.live != start.live {
        var i :| 0 <= i < |before.writers| && before.writers[i].snap == before.live && !before.writers[i].at.Dropped?;
        assert after.writers[i].snap == after.live && !after.writers[i].at.Dropped?;
      }
    }
  }
}
