// From the end of a task to the message its project sends.
module TaskReports {
  import opened Text
  import opened Domain
  import opened Project
  import opened ProjectTrace
  import ProjectRules
  import PW = ProjectWorkflow
  import NextActionActivity
  import TaskMachine
  import TaskEnds

  // What a finished task hands to its project.
  function Handed(e: Event, result: TaskMachine.RunResult): TaskResult {
    TaskResult(e, result.report, result.message, result.attachments)
  }

  // Flushing sends the pending reports, in order.
  lemma {:induction false} FlushSends(p: Params, w: World, n: nat)
    requires w.phase == Flushing && n == |w.s.pending|
    ensures SentBy(p, w, PW.Delivers(n)) == PW.ReportsOf(w.s.pending)
    ensures exists v :: Run(p, w, PW.Delivers(n), v) && v.s == w.s.(pending := [])
    decreases n
  {
    hide ReportOf;
    if n == 0 {
      assert Run(p, w, PW.Delivers(0), w);
    } else {
      var v := Next(p, w, Deliver);
      assert PW.Delivers(n)[1..] == PW.Delivers(n - 1);
      FlushSends(p, v, n - 1);
      var u :| Run(p, v, PW.Delivers(n - 1), u) && u.s == v.s.(pending := []);
      assert Run(p, w, PW.Delivers(n), u);
    }
  }

  lemma {:induction false} ReportsConcat(a: seq<TaskResult>, b: seq<TaskResult>)
    ensures PW.ReportsOf(a + b) == PW.ReportsOf(a) + PW.ReportsOf(b)
  {
    hide ReportOf;
    if a == [] {
      assert a + b == b;
    } else {
      assert (a + b)[1..] == a[1..] + b;
      ReportsConcat(a[1..], b);
    }
  }

  // When a task ends on an answer, the next flush sends, after what was pending, one report
  // with the answer's text and attachments, exactly when the answer does not ignore the
  // task and says or brings something.
  lemma AnswerIsDelivered(p: Params, w: World, id: string, e: Event, result: TaskMachine.RunResult,
        r: NextActionActivity.ActionResult)
    requires w.phase == Blocked && id in w.s.active && TaskEnds.Conveys(result, r)
    ensures var finish := Finish(id, Handed(e, result));
            var n := |w.s.pending| + if result.report then 1 else 0;
            SentBy(p, w, [finish] + PW.Delivers(n))
            == PW.ReportsOf(w.s.pending)
               + if r.status != NextActionActivity.Ignored && (!AllSpace(r.message) || |r.attachments| > 0)
                 then [Report(TaskResult(e, true, TrimSpace(r.message), r.attachments))] else []
  {
    var finish := Finish(id, Handed(e, result));
    var n := |w.s.pending| + if result.report then 1 else 0;
    assert Enabled(p, w, finish);
    ProjectRules.FinishIs(p, w, id, Handed(e, result));
    BlankIsAllSpace(r.message);
    TrimSpaceOfTrimmed(TrimSpace(r.message));
    var handed := if result.report then [Handed(e, result)] else [];
    ReportsConcat(w.s.pending, handed);
    assert PW.ReportsOf([]) == [] && (result.report ==> handed[1..] == []);
    assert ([finish] + PW.Delivers(n))[1..] == PW.Delivers(n);
    var v := Next(p, w, finish);
    FlushSends(p, v, n);
    assert [] + PW.ReportsOf(v.s.pending) == PW.ReportsOf(v.s.pending);
  }
}
