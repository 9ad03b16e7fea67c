/** An honest run on which samples are lost to the in-flight count: rollouts are dispatched by
    rank, and results arrive before the policy mesh is built. */
module FailedPost {
  import opened Types
  import opened Fleet
  import opened Protocol
  import opened Logs
  import opened Runs
  import opened Conservation

  const A := Name("a")
  const R := Name("r")

  const BYRANK := Config(1, 1, 0, None, 1, false, false, false, 0, true, 0, None)

  const X := Rollout(0, 0, 0)

  const EARLY := Posting(Post(R, [X], "", 0, 0))

  const STORY := [PolicyUp(A, 0), RolloutUp(R, 1, {}), Fetching(1, 1, false), EARLY]

  /** One policy replica of the two that the mesh waits for, and `onTheFly` samples out. */
  predicate Waiting(s: State, onTheFly: int) {
    && s.cfg == BYRANK && |s.crew.replicas| == 1 && s.at == Progress(0, 0, 2)
    && s.ledger == Ledger(onTheFly, map[], map[]) && s.queues == Queues([], [])
    && s.closing == Closing(false, None, None, None, None, {}, {}, false)
  }

  lemma PolicyWaits()
    ensures Waiting(Apply(Init(BYRANK, 2, 1, 0, 2), PolicyUp(A, 0)), 0)
  {
    hide FirstWeights;
    var a := AddPolicy(Init(BYRANK, 2, 1, 0, 2), A, 0);
    assert |a.crew.replicas| == 1 && a.crew.nInit == 2;
  }

  lemma RolloutWaits(s: State)
    requires Waiting(s, 0)
    ensures Waiting(Apply(s, RolloutUp(R, 1, {})), 0)
  {
    hide RegisterRollout, Serviced;
    if Has(s.gens.replicas, R) { RolloutKnown(s, R, 1, {}); } else { RegisterRolloutFrame(s, R, 1, {}); }
  }

  lemma PromptOut(s: State)
    requires Waiting(s, 0)
    ensures Waiting(Apply(s, Fetching(1, 1, false)), 1)
    ensures |Fetch(s, 1, false).versions| == 1 && FetchLimit(s, 1) == 1
  {
    hide FetchTags;
  }

  /** The rollout is accepted, but there is no queue to divide the prompt index by. */
  lemma {:induction false} PostFails(s: State)
    requires Waiting(s, 1)
    ensures PostRollouts(s, EARLY.post).raised && Waiting(Apply(s, EARLY), 1)
    ensures LostBy(s, EARLY.post) == 1
  {
    hide MaxVersion, Reports;
    var d := Intake(s, EARLY.post);
    assert d == s;
    assert [X][1..] == [];
    assert ReadCount([X], 0) == 1;
    var a := Adopt(s, [X]);
    assert Acceptable(a, X, 0);
    assert Accepted(a, [X], 0) == [X];
    assert Drop(a, 0) == a;
  }

  /** No worker holds a sample, none is buffered and none is dispatched, but one is counted. */
  lemma EarlyPostLoses()
    ensures HonestRun(NOBODY, Init(BYRANK, 2, 1, 0, 2), STORY)
    ensures var s := Run(Init(BYRANK, 2, 1, 0, 2), STORY);
            var w := WorkersRun(NOBODY, Init(BYRANK, 2, 1, 0, 2), STORY);
            && w.held == 0 && Pending(s.cfg, s.queues) == 0 && s.ledger.dispatched == map[]
            && s.ledger.onTheFly == 1 && w.lost == 1
  {
    hide Apply, PostRollouts, Fetch, HonestRun, WorkersRun, Run, LostBy;
    var s0 := Init(BYRANK, 2, 1, 0, 2);
    var es := STORY;
    assert es[1..][1..] == es[2..] && es[2..][1..] == es[3..] && es[3..][1..] == [];
    PolicyWaits();
    HonestNext(NOBODY, s0, es);
    var s1 := Apply(s0, es[0]);
    RolloutWaits(s1);
    HonestNext(NOBODY, s1, es[1..]);
    var s2 := Apply(s1, es[1]);
    PromptOut(s2);
    HonestNext(NOBODY, s2, es[2..]);
    var s3 := Apply(s2, es[2]);
    var w3 := NOBODY.(held := 1);
    assert WorkersAfter(NOBODY, s2, es[2]) == w3;
    PostFails(s3);
    HonestNext(w3, s3, es[3..]);
    var w4 := WorkersAfter(w3, s3, EARLY);
    assert w4.held == 0 && w4.lost == 1;
    RunOver(w4, Apply(s3, EARLY));
  }
}
