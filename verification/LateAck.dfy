/** A run on which a published completion is not what ends the job: two policy replicas
    share the final step, one acknowledges it and the other leaves, so its record is never
    settled; a repeated acknowledgement of that step then ends the job although nobody
    has acknowledged the completion. */
module LateAck {
  import opened Types
  import opened Fleet
  import opened Protocol
  import opened Logs
  import opened Runs
  import opened Completion
  import opened Conservation

  const A := Name("a")
  const B := Name("b")
  const R := Name("r")

  const CFG := Config(1, 1, 0, None, 1, false, false, false, 0, false, 0, None)

  const OPEN := Closing(false, None, None, None, None, {}, {}, false)

  const X := Rollout(0, 0, 0)

  const STORY := [PolicyUp(A, 0), PolicyUp(B, 1), RolloutUp(R, 2, {}), Fetching(2, 2, false),
                  Posting(Post(R, [X, X], "", 0, 0)), Acking(A, 1, 1), PolicyDown(B), Ending(R, None, false), Acking(A, 1, 1)]

  /** The policy replicas by name, their statuses, and how far the job is. */
  predicate Stage(s: State, names: seq<Name>, status: map<Name, PolicyStatus>, at: Progress,
                  onTheFly: int, dispatched: map<int, int>, closing: Closing) {
    && s.cfg == CFG
    && Names(s.crew.replicas) == names
    && s.crew.status == status
    && s.at == at
    && s.ledger.onTheFly == onTheFly && s.ledger.dispatched == dispatched
    && s.queues == Queues([], [])
    && s.closing == closing
  }

  predicate First(s: State) {
    && Stage(s, [A], map[A := Uninitialized], Progress(0, 0, 2), 0, map[], OPEN)
    && s.crew.firstArrived && !s.crew.initDone && s.crew.nInit == 2 && s.crew.replicas[0].loaded
    && s.gens.replicas == []
  }

  lemma ToFirst(s: State)
    requires s == Init(CFG, 2, 1, 0, 2)
    ensures First(Apply(s, PolicyUp(A, 0)))
  {
    hide ByStart;
    var a := AddPolicy(s, A, 0);
    assert |a.crew.replicas| == 1;
    assert ByStart(s.gens.replicas) == [];
    var b := FirstPolicy(a, A);
    assert b.crew.replicas == [Replica(A, 0, true, -1, false, {})];
  }

  predicate Second(s: State) {
    && Stage(s, [A, B], map[A := Ready, B := Ready], Progress(0, 1, 2), 0, map[], OPEN)
    && s.gens.replicas == []
  }

  /** Both replicas are there, the mesh is not built yet. */
  predicate Joined(s: State) {
    && Stage(s, [A, B], map[A := Uninitialized, B := Uninitialized], Progress(0, 0, 2), 0, map[], OPEN)
    && s.crew.replicas[0].loaded && s.gens.replicas == []
  }

  lemma MeshOfTwo(s: State)
    requires Joined(s)
    ensures var m := RebuildPolicyMesh(s);
            && Stage(m, [A, B], map[A := Uninitialized, B := Uninitialized], Progress(0, 1, 2), 0, map[], OPEN)
            && m.crew.replicas[0].loaded && m.gens.replicas == []
  {
    hide ByStart, Rank, Broadcast;
    NamesRanked(s.crew.replicas, ByStart(s.crew.replicas));
    assert |s.crew.replicas| == 2;
  }

  lemma InitOfTwo(s: State)
    requires Joined(s)
    ensures Second(InitPolicyMesh(s).state) && !InitPolicyMesh(s).raised
  {
    hide RebuildPolicyMesh, ByStart, FirstLoaded, Load, Broadcast, Names, Get, Has, SetAll, Joined;
    var i := s.(crew := s.crew.(initDone := true));
    var m := RebuildPolicyMesh(i);
    assert Joined(i) by { InitialisedJoined(s); }
    MeshOfTwo(i);
    TwoNamed(m.crew.replicas);
    assert |s.crew.replicas| == 2 by { JoinedAreTwo(s); }
    SourceIsThere(m.crew.replicas);
    NamesLoaded(m.crew.replicas, [A, B]);
    BothSet(m.crew.status, Ready);
  }

  lemma InitialisedJoined(s: State)
    requires Joined(s)
    ensures Joined(s.(crew := s.crew.(initDone := true)))
  {
  }

  lemma JoinedAreTwo(s: State)
    requires Joined(s)
    ensures |s.crew.replicas| == 2
  {
  }

  lemma BothSet(status: map<Name, PolicyStatus>, v: PolicyStatus)
    requires status.Keys == {A, B}
    ensures SetAll(status, [A, B], v) == map[A := v, B := v]
  {
  }

  lemma ToSecond(s: State)
    requires First(s)
    ensures Second(Apply(s, PolicyUp(B, 1)))
  {
    hide InitPolicyMesh, JoinPolicyMesh, FirstPolicy;
    var a := AddPolicy(s, B, 1);
    assert !Has(s.crew.replicas, B) by { HasIffNamed(s.crew.replicas, B); }
    assert Names(a.crew.replicas) == [A, B];
    assert |a.crew.replicas| == 2;
    InitOfTwo(a);
  }

  lemma {:induction false} SourceIsThere(rs: seq<Replica>)
    requires Names(rs) == [A, B] && rs[0].loaded
    ensures FirstLoaded(rs, ByStart(rs)).Some?
  {
    hide ByStart;
    GetAt(rs, 0);
    assert rs[0].name in ByStart(rs);
  }

  /** From here on one rollout replica is there. */
  predicate Third(s: State) {
    && Stage(s, [A, B], map[A := Ready, B := Ready], Progress(0, 1, 2), 0, map[], OPEN)
    && |s.gens.replicas| == 1 && s.gens.replicas[0].name == R && !s.gens.replicas[0].ended
  }

  lemma ToThird(s: State)
    requires Second(s)
    ensures Third(Apply(s, RolloutUp(R, 2, {})))
  {
    hide ByStart, ByNameThenStart, FirstLoaded, Broadcast, Unicast, Relay, Rank;
    RegisterRolloutFrame(s, R, 2, {});
    OneRollout(s);
  }

  lemma OneRollout(s: State)
    requires s.gens.replicas == []
    ensures var rs := RegisterRollout(s, R, 2, {}).state.gens.replicas; |rs| == 1 && rs[0].name == R && !rs[0].ended
  {
    hide ByStart, ByNameThenStart, FirstLoaded, Broadcast, Reachable;
  }

  /** Two prompts are out with the rollout replica. */
  predicate Prompted(s: State) {
    && Stage(s, [A, B], map[A := Ready, B := Ready], Progress(0, 1, 2), 2, map[], OPEN)
    && |s.gens.replicas| == 1 && s.gens.replicas[0].name == R && !s.gens.replicas[0].ended
  }

  lemma ToPrompted(s: State)
    requires Third(s)
    ensures Prompted(Apply(s, Fetching(2, 2, false)))
    ensures |Fetch(s, 2, false).versions| == 2 && FetchLimit(s, 2) == 2
  {
    hide FetchTags, Names;
    TwoNamed(s.crew.replicas);
  }

  predicate Fourth(s: State) {
    && Stage(s, [A, B], map[A := Running, B := Running], Progress(1, 1, 0), 2, map[1 := 2], OPEN)
    && |s.gens.replicas| == 1 && s.gens.replicas[0].name == R && !s.gens.replicas[0].ended
  }

  lemma ToFourth(s: State)
    requires Prompted(s)
    ensures Fourth(Apply(s, Posting(Post(R, [X, X], "", 0, 0))))
  {
    var p := Post(R, [X, X], "", 0, 0);
    hide Feed, Broadcast;
    var d := Intake(s, p);
    assert d == s;
    assert ReadCount([X, X], 0) == 2 by { assert [X, X][1..] == [X]; }
    var a := Adopt(s, [X, X]);
    assert Accepted(a, [X, X], 0) == [X, X] by { BothAccepted(a); }
    var f := Drop(a, 0);
    assert f == a;
    TwoPuts(a);
  }

  lemma {:induction false} BothAccepted(s: State)
    requires s.cfg == CFG && s.at.step == 0 && s.queues == Queues([], []) && |s.crew.replicas| == 2
    ensures Accepted(s, [X, X], 0) == [X, X]
  {
    assert [X, X][1..] == [X] && [X][1..] == [];
    assert Acceptable(s, X, 0) && Acceptable(s, X, 1);
  }

  /** One of two rollouts: not enough for a step. */
  lemma FirstPut(s: State)
    requires Prompted(s)
    ensures Put(s, X) == s.(queues := Queues([X], []))
  {
    hide Idle, Finished;
    assert |s.crew.replicas| == 2;
  }

  lemma SecondPut(s: State)
    requires Prompted(s)
    ensures Fourth(Put(s.(queues := Queues([X], [])), X))
  {
    hide Feed, Broadcast, Names;
    var e := s.(queues := Queues([X, X], []));
    assert Enqueued(CFG, Queues([X], []), X) == Queues([X, X], []);
    assert |s.crew.replicas| == 2 by { TwoNamed(s.crew.replicas); }
    assert CanDispatch(e);
    assert Taken(CFG, e.queues, 2) == Queues([], []);
    assert SetAll(s.crew.status, [A, B], Running) == map[A := Running, B := Running];
  }

  lemma TwoNamed(rs: seq<Replica>)
    requires Names(rs) == [A, B]
    ensures |rs| == 2
  {
  }

  lemma {:induction false} TwoPuts(s: State)
    requires Prompted(s)
    ensures Fourth(PutAll(s, [X, X]))
  {
    hide Put;
    FirstPut(s);
    SecondPut(s);
    assert [X, X][1..] == [X] && [X][1..] == [];
    assert PutAll(s, [X, X]) == PutAll(Put(s, X), [X]) == PutAll(Put(Put(s, X), X), []);
  }

  predicate Fifth(s: State) {
    && Stage(s, [A, B], map[A := Reduced, B := Running], Progress(1, 1, 0), 2, map[1 := 2], OPEN)
    && |s.gens.replicas| == 1 && s.gens.replicas[0].name == R && !s.gens.replicas[0].ended
  }

  lemma ToFifth(s: State)
    requires Fourth(s)
    ensures Fifth(Apply(s, Acking(A, 1, 1)))
  {
    hide StepDone;
    assert Has(s.crew.replicas, A) by { HasIffNamed(s.crew.replicas, A); }
    assert s.crew.status[A := Reduced][B] == Running;
  }

  predicate Sixth(s: State) {
    && Stage(s, [A], map[A := Reduced], Progress(1, 1, 0), 2, map[1 := 2], OPEN)
    && |s.gens.replicas| == 1 && s.gens.replicas[0].name == R && !s.gens.replicas[0].ended
  }

  lemma ToSixth(s: State)
    requires Fifth(s)
    ensures Sixth(Apply(s, PolicyDown(B)))
  {
    hide RebuildPolicyMesh;
    assert Has(s.crew.replicas, B) by { HasIffNamed(s.crew.replicas, B); }
    var w := Without(s.crew.replicas, B);
    assert s.crew.replicas[1..][1..] == [];
    assert Without(s.crew.replicas[1..], B) == [];
    assert Names(w) == [A];
    assert s.crew.status - {B} == map[A := Reduced];
  }

  const DONE := Closing(true, Some(1), None, None, Some(2), {A}, {}, false)

  predicate Seventh(s: State) {
    Stage(s, [A], map[A := Running], Progress(1, 1, 0), 2, map[1 := 2], DONE)
  }

  lemma EndOfGeneration(g: Gens)
    requires |g.replicas| == 1 && g.replicas[0].name == R && !g.replicas[0].ended
    ensures EndsReplica(g, R, None) && AllEnded(EndReport(g, R, None, false))
  {
    assert Has(g.replicas, R) && Get(g.replicas, R) == g.replicas[0];
  }

  lemma NothingLeft(s: State)
    requires Stage(s, [A], map[A := Reduced], Progress(1, 1, 0), 2, map[1 := 2], OPEN) && AllEnded(s.gens)
    ensures Seventh(FinishDraining(s))
  {
    hide Broadcast, CanDispatch, AllEnded, SetAll, Names;
    var e := EnterDraining(s);
    var c := Cleanup(e);
    assert c.queues == Queues([], []) && c.ledger.dispatched == s.ledger.dispatched;
    assert c.crew.replicas != [] by { OneNamed(c.crew.replicas); }
    assert (set n | n in [A]) == {A};
    assert SetAll(c.crew.status, [A], Running) == map[A := Running] by { OneSet(c.crew.status, Running); }
  }

  lemma OneNamed(rs: seq<Replica>)
    requires Names(rs) == [A]
    ensures |rs| == 1
  {
  }

  lemma OneSet(status: map<Name, PolicyStatus>, v: PolicyStatus)
    requires status.Keys == {A}
    ensures SetAll(status, [A], v) == map[A := v]
  {
  }

  lemma ToSeventh(s: State)
    requires Sixth(s)
    ensures Seventh(Apply(s, Ending(R, None, false)))
  {
    hide FinishDraining, EndReport, EndsReplica, AllEnded, Names;
    EndOfGeneration(s.gens);
    NothingLeft(s.(gens := EndReport(s.gens, R, None, false)));
  }

  /** The repeated acknowledgement of the final step settles its record and ends the job. */
  lemma ToEnd(s: State)
    requires Seventh(s)
    ensures var t := Apply(s, Acking(A, 1, 1)); t.closing.synthetic.Some? && t.closing.terminal && t.closing.acks == {} && t.closing.recipients == {A}
  {
    hide FinishDraining, SetAll, MaybeSync, SettleStep;
    assert !Overdrawn(s.ledger, 1);
    assert Has(s.crew.replicas, A) by { HasIffNamed(s.crew.replicas, A); }
    var t := s.(crew := SetStatus(s.crew, A, Reduced), log := s.log + [Acked(A, 1, 1)]);
    assert t.crew.status == map[A := Reduced];
    assert AllIn(t.crew.status, {Reduced}) && !IsCompletionAck(s.closing, A, 1);
    SettleStepFrame(t, 1, 1);
    assert SettleStep(t, 1, 1).closing.terminal && SettleStep(t, 1, 1).closing.acks == {};
    DrainClosed(Resume(SettleStep(t, 1, 1), 1));
  }

  // ---- the workers ---------------------------------------------------------

  predicate Unreported(e: Event) { !e.Fetching? && !e.Posting? }

  /** Events in which no sample changes hands are honest. */
  lemma {:induction false} UnreportedIsHonest(w: Workers, s: State, es: seq<Event>)
    requires forall k :: 0 <= k < |es| ==> Unreported(es[k])
    ensures HonestRun(w, s, es)
    decreases es
  {
    hide Apply, WorkersAfter;
    if es != [] {
      assert Unreported(es[0]);
      UnreportedIsHonest(WorkersAfter(w, s, es[0]), Apply(s, es[0]), es[1..]);
    }
  }

  /** The workers fetch two prompts and report the two rollouts they made of them. */
  lemma FetchAndPostHonest(w: Workers, s: State, es: seq<Event>)
    requires w == NOBODY && Third(s)
    requires |es| >= 2 && es[0] == Fetching(2, 2, false) && es[1] == Posting(Post(R, [X, X], "", 0, 0))
    requires forall k :: 2 <= k < |es| ==> Unreported(es[k])
    ensures HonestRun(w, s, es)
  {
    hide Apply, PostRollouts, Fetch, HonestRun;
    ToPrompted(s);
    var t := Apply(s, es[0]);
    var v := WorkersAfter(w, s, es[0]);
    assert v == NOBODY.(held := 2);
    var rest := es[1..];
    assert Honest(v, t, rest[0]);
    UnreportedIsHonest(WorkersAfter(v, t, rest[0]), Apply(t, rest[0]), rest[1..]);
    HonestNext(v, t, rest);
    HonestNext(w, s, es);
  }

  lemma StoryIsHonest(s0: State, s1: State, s2: State, s3: State)
    requires s1 == Apply(s0, STORY[0]) && s2 == Apply(s1, STORY[1]) && s3 == Apply(s2, STORY[2]) && Third(s3)
    ensures HonestRun(NOBODY, s0, STORY)
  {
    hide Apply, HonestRun, Third;
    var es := STORY;
    assert es[1..][1..] == es[2..] && es[2..][1..] == es[3..];
    FetchAndPostHonest(NOBODY, s3, es[3..]);
    HonestNext(NOBODY, s2, es[2..]);
    HonestNext(NOBODY, s1, es[1..]);
    HonestNext(NOBODY, s0, es);
  }

  /** An honest run on which the published completion has no acknowledgement, yet the job has ended. */
  lemma RepeatedAckEndsTheJob()
    ensures HonestRun(NOBODY, Init(CFG, 2, 1, 0, 2), STORY)
    ensures var s := Run(Init(CFG, 2, 1, 0, 2), STORY);
            s.closing.synthetic.Some? && s.closing.terminal && s.closing.acks != s.closing.recipients
  {
    hide Apply, HonestRun, First, Second, Third, Prompted, Fourth, Fifth, Sixth, Seventh;
    var s0 := Init(CFG, 2, 1, 0, 2);
    var es := STORY;
    var s1 := Apply(s0, es[0]);
    ToFirst(s0);
    var s2 := Apply(s1, es[1]);
    ToSecond(s1);
    var s3 := Apply(s2, es[2]);
    ToThird(s2);
    var s4 := Apply(s3, es[3]);
    ToPrompted(s3);
    var s5 := Apply(s4, es[4]);
    ToFourth(s4);
    var s6 := Apply(s5, es[5]);
    ToFifth(s5);
    var s7 := Apply(s6, es[6]);
    ToSixth(s6);
    var s8 := Apply(s7, es[7]);
    ToSeventh(s7);
    ToEnd(s8);
    StoryIsHonest(s0, s1, s2, s3);
    RunNine(s0, es);
  }

  lemma {:induction false} RunNine(s: State, es: seq<Event>)
    requires |es| == 9
    ensures Run(s, es) ==
            Apply(Apply(Apply(Apply(Apply(Apply(Apply(Apply(Apply(s, es[0]), es[1]), es[2]), es[3]), es[4]), es[5]), es[6]), es[7]), es[8])
  {
    hide Apply;
    RunTwo(s, es);
    var t := Apply(Apply(s, es[0]), es[1]);
    RunTwo(t, es[2..]);
    assert es[2..][2..] == es[4..];
    var u := Apply(Apply(t, es[2]), es[3]);
    RunTwo(u, es[4..]);
    assert es[4..][2..] == es[6..];
    var v := Apply(Apply(u, es[4]), es[5]);
    RunTwo(v, es[6..]);
    assert es[6..][2..] == es[8..] && es[8..][1..] == [];
  }

  lemma {:induction false} RunTwo(s: State, es: seq<Event>)
    requires |es| >= 2
    ensures Run(s, es) == Run(Apply(Apply(s, es[0]), es[1]), es[2..])
  {
    hide Apply;
    assert es[1..][1..] == es[2..] && es[1..][0] == es[1];
    assert Run(s, es) == Run(Apply(s, es[0]), es[1..]);
  }
}
