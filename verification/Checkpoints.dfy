/** Checkpoints: which directories are kept, and what a completion marker promises. */
module Checkpoints {
  import opened Types

  // ---- retention -----------------------------------------------------------

  /** A directory is named by its step.  `disk` are the directories that exist. */
  datatype Shelf = Shelf(saved: seq<nat>, best: Option<nat>, bestScore: Option<real>, disk: set<nat>)

  function Dropped(saved: seq<nat>, step: nat): seq<nat> {
    if saved == [] then []
    else Dropped(saved[..|saved| - 1], step) + (if saved[|saved| - 1] != step then [saved[|saved| - 1]] else [])
  }

  /** The oldest directory that is neither just saved nor the best. */
  function Deletable(saved: seq<nat>, step: nat, best: Option<nat>): Option<nat> {
    if saved == [] then None
    else if saved[0] != step && best != Some(saved[0]) then Some(saved[0])
    else Deletable(saved[1..], step, best)
  }

  predicate Better(score: real, best: Option<real>, lowerIsBetter: bool) {
    best.None? || (if lowerIsBetter then score < best.value else score > best.value)
  }

  /** save_check for a step whose files have been written */
  function Saved(s: Shelf, step: nat, score: Option<real>, maxKeep: int, lowerIsBetter: bool): Shelf {
    var listed := Dropped(s.saved, step) + [step];
    var gone := if |listed| > maxKeep && maxKeep != -1 then Deletable(listed, step, s.best) else None;
    var kept := if gone.Some? then Dropped(listed, gone.value) else listed;
    var disk := if gone.Some? then s.disk + {step} - {gone.value} else s.disk + {step};
    if score.Some? && Better(score.value, s.bestScore, lowerIsBetter)
    then Shelf(kept, Some(step), score, disk)
    else Shelf(kept, s.best, s.bestScore, disk)
  }

  ghost predicate Distinct(saved: seq<nat>) { forall i, j :: 0 <= i < j < |saved| ==> saved[i] != saved[j] }

  lemma {:induction false} DroppedMembers(saved: seq<nat>, step: nat)
    ensures forall x :: x in Dropped(saved, step) <==> x in saved && x != step
    ensures |Dropped(saved, step)| <= |saved|
    ensures step in saved ==> |Dropped(saved, step)| < |saved|
  {
    if saved != [] {
      var m := |saved| - 1;
      DroppedMembers(saved[..m], step);
      assert forall x :: x in saved <==> x in saved[..m] || x == saved[m];
    }
  }

  lemma {:induction false} DroppedDistinct(saved: seq<nat>, step: nat)
    requires Distinct(saved)
    ensures Distinct(Dropped(saved, step))
  {
    if saved != [] {
      var m := |saved| - 1;
      DroppedDistinct(saved[..m], step);
      DroppedMembers(saved[..m], step);
      var d := Dropped(saved[..m], step);
      forall i | 0 <= i < |d| ensures d[i] != saved[m] { assert d[i] in saved[..m]; }
    }
  }

  lemma {:induction false} DeletableIs(saved: seq<nat>, step: nat, best: Option<nat>)
    ensures var d := Deletable(saved, step, best);
            && (d.Some? ==> d.value in saved && d.value != step && best != Some(d.value))
            && (d.None? ==> forall x :: x in saved ==> x == step || best == Some(x))
  {
    if saved != [] {
      DeletableIs(saved[1..], step, best);
      assert forall x :: x in saved <==> x == saved[0] || x in saved[1..];
    }
  }

  /** Three different directories cannot all be the current or the best one. */
  lemma {:induction false} ThirdIsDeletable(saved: seq<nat>, step: nat, best: Option<nat>)
    requires Distinct(saved) && |saved| >= 3
    ensures Deletable(saved, step, best).Some?
  {
    assert saved[0] in saved && saved[1] in saved && saved[2] in saved;
    DeletableIs(saved, step, best);
  }

  /** The list has no duplicate and everything on it exists, the best included. */
  ghost predicate Tidy(s: Shelf) {
    && Distinct(s.saved)
    && (forall x :: x in s.saved ==> x in s.disk)
    && (s.best.Some? ==> s.best.value in s.saved)
  }

  function Most(maxKeep: int): int { if maxKeep >= 2 then maxKeep else 2 }

  /** One save keeps the shelf tidy and its size bounded, and deletes neither the directory just
      saved nor the best one. */
  lemma SavedTidy(s: Shelf, step: nat, score: Option<real>, maxKeep: int, lowerIsBetter: bool)
    requires Tidy(s)
    ensures var t := Saved(s, step, score, maxKeep, lowerIsBetter);
            && Tidy(t) && step in t.saved
            && (s.best.Some? ==> s.best.value in t.saved)
            && (maxKeep >= 1 && |s.saved| <= Most(maxKeep) ==> |t.saved| <= Most(maxKeep))
  {
    hide Dropped, Deletable, Better;
    var listed := Dropped(s.saved, step) + [step];
    DroppedMembers(s.saved, step);
    DroppedDistinct(s.saved, step);
    var rest := Dropped(s.saved, step);
    forall i | 0 <= i < |rest| ensures rest[i] != step { assert rest[i] in rest; }
    assert Distinct(listed);
    DeletableIs(listed, step, s.best);
    var gone := Deletable(listed, step, s.best);
    if gone.Some? {
      DroppedMembers(listed, gone.value);
      DroppedDistinct(listed, gone.value);
    }
    if |listed| >= 3 { ThirdIsDeletable(listed, step, s.best); }
  }

  datatype Save = Save(step: nat, score: Option<real>)

  function Saves(s: Shelf, saves: seq<Save>, maxKeep: int, lowerIsBetter: bool): Shelf
    decreases saves
  {
    if saves == [] then s
    else Saves(Saved(s, saves[0].step, saves[0].score, maxKeep, lowerIsBetter), saves[1..], maxKeep, lowerIsBetter)
  }

  lemma {:induction false} SavesTidy(s: Shelf, saves: seq<Save>, maxKeep: int, lowerIsBetter: bool)
    requires Tidy(s) && maxKeep >= 1 && |s.saved| <= Most(maxKeep)
    ensures var t := Saves(s, saves, maxKeep, lowerIsBetter); Tidy(t) && |t.saved| <= Most(maxKeep)
    decreases saves
  {
    hide Saved, Tidy;
    if saves != [] {
      SavedTidy(s, saves[0].step, saves[0].score, maxKeep, lowerIsBetter);
      SavesTidy(Saved(s, saves[0].step, saves[0].score, maxKeep, lowerIsBetter), saves[1..], maxKeep, lowerIsBetter);
    }
  }

  /** After any sequence of saves from nothing: no duplicates, at most max(max_keep, 2)
      directories, all of them on disk, the best among them. */
  lemma {:induction false} RetentionOnEveryRun(saves: seq<Save>, maxKeep: int, lowerIsBetter: bool)
    requires maxKeep >= 1
    ensures var t := Saves(Shelf([], None, None, {}), saves, maxKeep, lowerIsBetter);
            && Distinct(t.saved) && |t.saved| <= (if maxKeep >= 2 then maxKeep else 2)
            && (forall x :: x in t.saved ==> x in t.disk)
            && (t.best.Some? ==> t.best.value in t.saved && t.best.value in t.disk)
  {
    SavesTidy(Shelf([], None, None, {}), saves, maxKeep, lowerIsBetter);
  }

  // ---- which directory is deleted ------------------------------------------

  /** Without the entry at position k. */
  function Cut(saved: seq<nat>, k: nat): seq<nat>
    requires k < |saved|
  {
    saved[..k] + saved[k + 1..]
  }

  lemma {:induction false} DroppedAbsent(saved: seq<nat>, x: nat)
    requires x !in saved
    ensures Dropped(saved, x) == saved
  {
    if saved != [] { DroppedAbsent(saved[..|saved| - 1], x); }
  }

  lemma {:induction false} DroppedAt(saved: seq<nat>, k: nat)
    requires Distinct(saved) && k < |saved|
    ensures Dropped(saved, saved[k]) == Cut(saved, k)
  {
    var m := |saved| - 1;
    if k == m {
      forall i | 0 <= i < m ensures saved[..m][i] != saved[m] { }
      DroppedAbsent(saved[..m], saved[m]);
    } else {
      DroppedAt(saved[..m], k);
      assert saved[..m][..k] == saved[..k];
      assert saved[..m][k + 1..] + [saved[m]] == saved[k + 1..];
    }
  }

  /** The list once `step` is saved: at the end, and nowhere else. */
  ghost predicate Listed(saved: seq<nat>, step: nat, listed: seq<nat>) {
    if step in saved then exists k :: 0 <= k < |saved| && saved[k] == step && listed == Cut(saved, k) + [step]
    else listed == saved + [step]
  }

  lemma {:induction false} ListedIs(saved: seq<nat>, step: nat)
    requires Distinct(saved)
    ensures var listed := Dropped(saved, step) + [step];
            Listed(saved, step, listed) && Distinct(listed) && forall i :: 0 <= i < |listed| - 1 ==> listed[i] != step
  {
    hide Dropped;
    DroppedDistinct(saved, step);
    DroppedMembers(saved, step);
    if step in saved {
      var i :| 0 <= i < |saved| && saved[i] == step;
      DroppedAt(saved, i);
    } else { DroppedAbsent(saved, step); }
    var rest := Dropped(saved, step);
    forall i | 0 <= i < |rest| ensures rest[i] != step { assert rest[i] in rest; }
  }

  lemma {:induction false} DeletableAt(saved: seq<nat>, step: nat, best: Option<nat>) returns (k: nat)
    requires Deletable(saved, step, best).Some?
    ensures k < |saved| && saved[k] == Deletable(saved, step, best).value
    ensures forall i :: 0 <= i < k ==> saved[i] == step || best == Some(saved[i])
  {
    if saved[0] != step && best != Some(saved[0]) { k := 0; }
    else {
      k := DeletableAt(saved[1..], step, best);
      k := k + 1;
    }
  }

  /** A save deletes a directory exactly when the list has become longer than max_keep (-1 for no
      limit) and holds one that is neither the one just saved nor the best: then the oldest such
      one, so that every older one on the list is the best.  Nothing else leaves list or disk. */
  lemma {:induction false} SavedDeletes(s: Shelf, step: nat, score: Option<real>, maxKeep: int, lowerIsBetter: bool)
    returns (listed: seq<nat>, k: nat)
    requires Tidy(s)
    ensures Listed(s.saved, step, listed)
    ensures var t := Saved(s, step, score, maxKeep, lowerIsBetter);
            if maxKeep != -1 && |listed| > maxKeep && (exists i :: 0 <= i < |listed| && listed[i] != step && s.best != Some(listed[i])) then
              && k < |listed| && listed[k] != step && s.best != Some(listed[k])
              && (forall i :: 0 <= i < k ==> s.best == Some(listed[i]))
              && t.saved == Cut(listed, k) && t.disk == s.disk + {step} - {listed[k]}
            else t.saved == listed && t.disk == s.disk + {step}
  {
    hide Dropped, Deletable, Better, Listed, Cut, Distinct;
    listed, k := Dropped(s.saved, step) + [step], 0;
    ListedIs(s.saved, step);
    assert Distinct(listed) && forall i :: 0 <= i < |listed| - 1 ==> listed[i] != step;
    DeletableIs(listed, step, s.best);
    if Deletable(listed, step, s.best).Some? {
      k := DeletableAt(listed, step, s.best);
      DroppedAt(listed, k);
      assert listed[k] in listed;
    } else {
      forall i | 0 <= i < |listed| ensures listed[i] == step || s.best == Some(listed[i]) { assert listed[i] in listed; }
    }
  }

  // ---- which one is the best -----------------------------------------------

  /** The best directory is that of the first save with the best score there has been: the least
      for a loss, the greatest otherwise. */
  ghost predicate BestOf(saves: seq<Save>, lowerIsBetter: bool, s: Shelf) {
    if s.bestScore.None? then s.best.None? && forall i :: 0 <= i < |saves| ==> saves[i].score.None?
    else exists i :: 0 <= i < |saves| && BestAt(saves, lowerIsBetter, i) && s.bestScore == saves[i].score && s.best == Some(saves[i].step)
  }

  ghost predicate BestAt(saves: seq<Save>, lowerIsBetter: bool, i: nat)
    requires i < |saves|
  {
    && saves[i].score.Some?
    && (forall j :: 0 <= j < |saves| && saves[j].score.Some? ==>
          if lowerIsBetter then saves[i].score.value <= saves[j].score.value else saves[i].score.value >= saves[j].score.value)
    && (forall j :: 0 <= j < i ==> saves[j].score != saves[i].score)
  }

  lemma {:induction false} BestNext(done: seq<Save>, x: Save, lowerIsBetter: bool, s: Shelf, maxKeep: int)
    requires BestOf(done, lowerIsBetter, s)
    ensures BestOf(done + [x], lowerIsBetter, Saved(s, x.step, x.score, maxKeep, lowerIsBetter))
  {
    hide Dropped, Deletable;
    var all := done + [x];
    var t := Saved(s, x.step, x.score, maxKeep, lowerIsBetter);
    if x.score.Some? && Better(x.score.value, s.bestScore, lowerIsBetter) {
      assert all[|done|] == x;
      assert BestAt(all, lowerIsBetter, |done|);
    } else if s.bestScore.Some? {
      var i :| 0 <= i < |done| && BestAt(done, lowerIsBetter, i) && s.bestScore == done[i].score && s.best == Some(done[i].step);
      assert all[i] == done[i];
      assert BestAt(all, lowerIsBetter, i);
    }
  }

  lemma {:induction false} SavesBest(done: seq<Save>, rest: seq<Save>, lowerIsBetter: bool, s: Shelf, maxKeep: int)
    requires BestOf(done, lowerIsBetter, s)
    ensures BestOf(done + rest, lowerIsBetter, Saves(s, rest, maxKeep, lowerIsBetter))
    decreases rest
  {
    hide BestOf, Saved;
    if rest == [] { assert done + rest == done; }
    else {
      BestNext(done, rest[0], lowerIsBetter, s, maxKeep);
      SavesBest(done + [rest[0]], rest[1..], lowerIsBetter, Saved(s, rest[0].step, rest[0].score, maxKeep, lowerIsBetter), maxKeep);
      assert done + [rest[0]] + rest[1..] == done + rest;
    }
  }

  /** After any sequence of saves from nothing the best is the first with the best score. */
  lemma {:induction false} BestIsBest(saves: seq<Save>, maxKeep: int, lowerIsBetter: bool)
    ensures BestOf(saves, lowerIsBetter, Saves(Shelf([], None, None, {}), saves, maxKeep, lowerIsBetter))
  {
    SavesBest([], saves, lowerIsBetter, Shelf([], None, None, {}), maxKeep);
    assert [] + saves == saves;
  }

  /** The manager's part of save_check, in place. */
  class Retention {
    const maxKeep: int
    const lowerIsBetter: bool
    var saved: seq<nat>
    var best: Option<nat>
    var bestScore: Option<real>
    var disk: set<nat>

    function View(): Shelf
      reads this
    {
      Shelf(saved, best, bestScore, disk)
    }

    constructor (maxKeep: int, lowerIsBetter: bool)
      ensures View() == Shelf([], None, None, {}) && this.maxKeep == maxKeep && this.lowerIsBetter == lowerIsBetter
    {
      this.maxKeep := maxKeep;
      this.lowerIsBetter := lowerIsBetter;
      saved := [];
      best := None;
      bestScore := None;
      disk := {};
    }

    /** The entries of the list other than `step`. */
    method Others(step: nat) returns (rest: seq<nat>)
      ensures rest == Dropped(saved, step)
    {
      rest := [];
      for i := 0 to |saved|
        invariant rest == Dropped(saved[..i], step)
      {
        assert saved[..i + 1][..i] == saved[..i];
        if saved[i] != step { rest := rest + [saved[i]]; }
      }
      assert saved[..|saved|] == saved;
    }

    method FindDeletable(step: nat) returns (d: Option<nat>)
      ensures d == Deletable(saved, step, best)
    {
      var i := 0;
      assert saved[0..] == saved;
      while i < |saved|
        invariant i <= |saved| && Deletable(saved[i..], step, best) == Deletable(saved, step, best)
      {
        assert saved[i..][1..] == saved[i + 1..];
        if saved[i] != step && best != Some(saved[i]) { return Some(saved[i]); }
        i := i + 1;
      }
      return None;
    }

    method SaveCheck(step: nat, score: Option<real>)
      modifies this
      ensures View() == Saved(old(View()), step, score, maxKeep, lowerIsBetter)
    {
      hide Dropped, Deletable, Better;
      disk := disk + {step};
      var rest := Others(step);
      saved := rest + [step];
      if |saved| > maxKeep && maxKeep != -1 {
        var gone := FindDeletable(step);
        if gone.Some? {
          saved := Others(gone.value);
          disk := disk - {gone.value};
        }
      }
      if score.Some? && Better(score.value, bestScore, lowerIsBetter) {
        bestScore := score;
        best := Some(step);
      }
    }
  }

  // ---- completion markers --------------------------------------------------

  datatype File = Model | Optimizer | Scheduler | Extra

  const ALL := {Model, Optimizer, Scheduler, Extra}

  /** What one rank has on disk for one step. */
  datatype Dir = Dir(complete: set<File>, marker: bool)

  /** A save in progress: files being written, files written. */
  datatype Job = Job(step: nat, open: set<File>, done: set<File>)

  datatype Rank = Rank(dirs: map<nat, Dir>, job: Option<Job>)

  /** What can happen next.  A new save waits for the pending one; files are written in any
      order, also side by side; a write may fail; the process may stop at any point. */
  datatype Move =
    | Begin(step: nat)  // invalidate the marker, start writing
    | Open(file: File)
    | Close(file: File)
    | Break(file: File) // the write fails
    | Mark              // every write is over
    | GiveUp            // some write failed and none is pending
    | Crash

  function DirOf(r: Rank, step: nat): Dir { if step in r.dirs then r.dirs[step] else Dir({}, false) }

  function SetDir(r: Rank, step: nat, d: Dir): Rank { r.(dirs := r.dirs[step := d]) }

  function Moved(r: Rank, m: Move): Rank {
    if r.job.None? then
      match m
      case Begin(step) => SetDir(r, step, DirOf(r, step).(marker := false)).(job := Some(Job(step, {}, {})))
      case _ => r
    else
      var j := r.job.value;
      var d := DirOf(r, j.step);
      match m
      case Open(f) =>
        if f in j.open || f in j.done then r
        else SetDir(r, j.step, d.(complete := d.complete - {f})).(job := Some(j.(open := j.open + {f})))
      case Close(f) =>
        if f !in j.open then r
        else SetDir(r, j.step, d.(complete := d.complete + {f})).(job := Some(j.(open := j.open - {f}, done := j.done + {f})))
      case Break(f) => r.(job := Some(j.(open := j.open - {f})))
      case Mark => if j.done == ALL then SetDir(r, j.step, d.(marker := true)).(job := None) else r
      case GiveUp => if j.open == {} then r.(job := None) else r
      case Crash => r.(job := None)
      case Begin(_) => r
  }

  /** A marker means that all files are complete; a save in progress has no marker. */
  predicate Trustworthy(r: Rank) {
    && (forall s :: s in r.dirs && r.dirs[s].marker ==> r.dirs[s].complete == ALL)
    && (r.job.Some? ==> var j := r.job.value; var d := DirOf(r, j.step);
                        !d.marker && j.done <= d.complete && j.done !! j.open && d.complete <= ALL)
    && (forall s :: s in r.dirs ==> r.dirs[s].complete <= ALL)
  }

  lemma MoveTrustworthy(r: Rank, m: Move)
    requires Trustworthy(r)
    ensures Trustworthy(Moved(r, m))
  {
    forall f: File ensures f in ALL { match f case Model => case Optimizer => case Scheduler => case Extra => }
  }

  function Moves(r: Rank, ms: seq<Move>): Rank
    decreases ms
  {
    if ms == [] then r else Moves(Moved(r, ms[0]), ms[1..])
  }

  lemma {:induction false} MovesTrustworthy(r: Rank, ms: seq<Move>)
    requires Trustworthy(r)
    ensures Trustworthy(Moves(r, ms))
    decreases ms
  {
    hide Moved, Trustworthy;
    if ms != [] {
      MoveTrustworthy(r, ms[0]);
      MovesTrustworthy(Moved(r, ms[0]), ms[1..]);
    }
  }

  /** At every point of every sequence of saves and rewrites, however the writes are interleaved
      and wherever they fail or the process stops, a marker means four complete files. */
  lemma {:induction false} MarkerImpliesComplete(ms: seq<Move>, step: nat)
    ensures var r := Moves(Rank(map[], None), ms);
            DirOf(r, step).marker ==> DirOf(r, step).complete == ALL
  {
    MovesTrustworthy(Rank(map[], None), ms);
  }

  /** The moves of a save of which no write fails. */
  function WholeSave(step: nat): seq<Move> {
    [Begin(step), Open(Model), Close(Model), Open(Optimizer), Close(Optimizer), Open(Scheduler), Close(Scheduler),
     Open(Extra), Close(Extra), Mark]
  }

  lemma {:induction false} MovesNext(r: Rank, ms: seq<Move>)
    requires ms != []
    ensures Moves(r, ms) == Moves(Moved(r, ms[0]), ms[1..])
  {
  }

  /** A file is written. */
  lemma {:induction false} Writes(r: Rank, f: File, ms: seq<Move>)
    requires r.job.Some? && r.job.value.open == {} && f !in r.job.value.done
    ensures var j, d := r.job.value, DirOf(r, r.job.value.step);
            Moves(r, [Open(f), Close(f)] + ms) ==
            Moves(SetDir(r, j.step, d.(complete := d.complete + {f})).(job := Some(j.(done := j.done + {f}))), ms)
  {
    var all := [Open(f), Close(f)] + ms;
    MovesNext(r, all);
    assert all[1..] == [Close(f)] + ms;
    var s := Moved(r, all[0]);
    MovesNext(s, all[1..]);
    assert all[1..][1..] == ms;
    var j, d := r.job.value, DirOf(r, r.job.value.step);
    var t := SetDir(r, j.step, d.(complete := d.complete + {f})).(job := Some(j.(done := j.done + {f})));
    assert Moved(s, Close(f)).dirs == t.dirs by { assert d.complete - {f} + {f} == d.complete + {f}; }
    assert Moved(s, Close(f)).job == t.job by { assert j.open + {f} - {f} == j.open; }
  }

  /** A save without failure ends with the marker, over four complete files; other steps keep theirs. */
  lemma {:induction false} WholeSaveMarks(r: Rank, step: nat, other: nat)
    requires Trustworthy(r) && r.job.None?
    ensures var t := Moves(r, WholeSave(step));
            && DirOf(t, step).marker && DirOf(t, step).complete == ALL && t.job.None?
            && (other != step ==> DirOf(t, other) == DirOf(r, other))
  {
    hide Moves;
    MovesTrustworthy(r, WholeSave(step));
    var ms := WholeSave(step);
    MovesNext(r, ms);
    var a := Moved(r, Begin(step));
    assert ms[1..] == [Open(Model), Close(Model)] + ms[3..];
    Writes(a, Model, ms[3..]);
    var b := Wrote(a, Model);
    assert ms[3..] == [Open(Optimizer), Close(Optimizer)] + ms[5..];
    Writes(b, Optimizer, ms[5..]);
    var c := Wrote(b, Optimizer);
    assert ms[5..] == [Open(Scheduler), Close(Scheduler)] + ms[7..];
    Writes(c, Scheduler, ms[7..]);
    var d := Wrote(c, Scheduler);
    assert ms[7..] == [Open(Extra), Close(Extra)] + ms[9..];
    Writes(d, Extra, ms[9..]);
    var e := Wrote(d, Extra);
    assert e.job.value.done == ALL;
    MovesNext(e, ms[9..]);
    assert ms[9..] == [Mark] && ms[9..][1..] == [];
    MovesNone(Moved(e, Mark));
  }

  lemma MovesNone(r: Rank)
    ensures Moves(r, []) == r
  {
  }

  function Wrote(r: Rank, f: File): Rank
    requires r.job.Some?
  {
    var j, d := r.job.value, DirOf(r, r.job.value.step);
    SetDir(r, j.step, d.(complete := d.complete + {f})).(job := Some(j.(done := j.done + {f})))
  }

  /** ckpt_path_check accepts a step only if every saving rank's files are complete. */
  method CheckPath(ranks: seq<Rank>, step: nat, configThere: bool) returns (ok: bool)
    requires forall k :: 0 <= k < |ranks| ==> Trustworthy(ranks[k])
    ensures ok <==> configThere && forall k :: 0 <= k < |ranks| ==> DirOf(ranks[k], step).marker
    ensures ok ==> forall k :: 0 <= k < |ranks| ==> DirOf(ranks[k], step).complete == ALL
  {
    if !configThere { return false; }
    for k := 0 to |ranks|
      invariant forall i :: 0 <= i < k ==> DirOf(ranks[i], step).marker
    {
      if !DirOf(ranks[k], step).marker { return false; }
    }
    return true;
  }
}
