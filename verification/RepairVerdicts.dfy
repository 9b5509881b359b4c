/** What a repair planner decides for each query, and the lists of rows and reports that result. */
module RepairVerdicts {

  /** Clean queries need no repair and are not reported. */
  datatype Verdict<R, E> = Planned(row: R) | Rejected(reason: E) | Clean

  datatype Unresolved<E> = Unresolved(queryId: nat, reason: E)

  datatype Judged<R, E> = Judged(queryId: nat, verdict: Verdict<R, E>)

  function PlannedBy<R, E>(v: Verdict<R, E>): seq<R> {
    match v case Planned(row) => [row] case _ => []
  }

  function ReportedBy<R, E>(j: Judged<R, E>): seq<Unresolved<E>> {
    match j.verdict case Rejected(reason) => [Unresolved(j.queryId, reason)] case _ => []
  }

  function RowsIn<R, E>(js: seq<Judged<R, E>>): seq<R> {
    if js == [] then [] else RowsIn(js[..|js| - 1]) + PlannedBy(js[|js| - 1].verdict)
  }

  function ReportsIn<R, E>(js: seq<Judged<R, E>>): seq<Unresolved<E>> {
    if js == [] then [] else ReportsIn(js[..|js| - 1]) + ReportedBy(js[|js| - 1])
  }

  lemma Next<R, E>(js: seq<Judged<R, E>>, i: nat)
    requires i < |js|
    ensures RowsIn(js[..i + 1]) == RowsIn(js[..i]) + PlannedBy(js[i].verdict)
    ensures ReportsIn(js[..i + 1]) == ReportsIn(js[..i]) + ReportedBy(js[i])
  {
    assert js[..i + 1][..i] == js[..i];
  }

  /** Two planned verdicts make two rows. */
  lemma TwoRows<R, E>(js: seq<Judged<R, E>>, row: R, row': R)
    requires |js| == 2 && js[0].verdict == Planned(row) && js[1].verdict == Planned(row')
    ensures RowsIn(js) == [row, row']
  {
    Next(js, 0);
    Next(js, 1);
    assert js[..0] == [] && js[..2] == js;
  }

  lemma Reassociate<T>(a: seq<T>, b: seq<T>, c: seq<T>)
    ensures a + (b + c) == (a + b) + c
  {
  }

  lemma {:induction false} RowsAppended<R, E>(js: seq<Judged<R, E>>, ks: seq<Judged<R, E>>)
    ensures RowsIn(js + ks) == RowsIn(js) + RowsIn(ks)
  {
    if ks == [] {
      assert js + ks == js;
    } else {
      var init, last := ks[..|ks| - 1], ks[|ks| - 1];
      assert (js + ks)[..|js + ks| - 1] == js + init && (js + ks)[|js + ks| - 1] == last;
      RowsAppended(js, init);
      Reassociate(RowsIn(js), RowsIn(init), PlannedBy(last.verdict));
    }
  }

  lemma {:induction false} ReportsAppended<R, E>(js: seq<Judged<R, E>>, ks: seq<Judged<R, E>>)
    ensures ReportsIn(js + ks) == ReportsIn(js) + ReportsIn(ks)
  {
    if ks == [] {
      assert js + ks == js;
    } else {
      var init, last := ks[..|ks| - 1], ks[|ks| - 1];
      assert (js + ks)[..|js + ks| - 1] == js + init && (js + ks)[|js + ks| - 1] == last;
      ReportsAppended(js, init);
      Reassociate(ReportsIn(js), ReportsIn(init), ReportedBy(last));
    }
  }

  lemma {:induction false} RowsAre<R, E>(js: seq<Judged<R, E>>, row: R)
    ensures row in RowsIn(js) <==> exists i :: 0 <= i < |js| && js[i].verdict == Planned(row)
  {
    if js != [] {
      RowsAre(js[..|js| - 1], row);
      assert forall i :: 0 <= i < |js| - 1 ==> js[..|js| - 1][i] == js[i];
      assert row in PlannedBy(js[|js| - 1].verdict) <==> js[|js| - 1].verdict == Planned(row);
    }
  }

  lemma {:induction false} ReportsAre<R, E>(js: seq<Judged<R, E>>, u: Unresolved<E>)
    ensures u in ReportsIn(js) <==> exists i :: 0 <= i < |js| && js[i] == Judged(u.queryId, Rejected(u.reason))
  {
    if js != [] {
      ReportsAre(js[..|js| - 1], u);
      assert forall i :: 0 <= i < |js| - 1 ==> js[..|js| - 1][i] == js[i];
      assert u in ReportedBy(js[|js| - 1]) <==> js[|js| - 1] == Judged(u.queryId, Rejected(u.reason));
    }
  }

  ghost predicate DistinctQueries<R, E>(js: seq<Judged<R, E>>) {
    forall i, j :: 0 <= i < j < |js| ==> js[i].queryId != js[j].queryId
  }

  /** Planned rows name the query they were planned for. */
  ghost predicate NamesQueries<R, E>(js: seq<Judged<R, E>>, id: R -> nat) {
    forall i :: 0 <= i < |js| && js[i].verdict.Planned? ==> id(js[i].verdict.row) == js[i].queryId
  }

  /** Rows planned for distinct queries are distinct. */
  lemma {:induction false} RowsDiffer<R, E>(js: seq<Judged<R, E>>, id: R -> nat, a: nat, b: nat)
    requires DistinctQueries(js) && NamesQueries(js, id) && a < b < |RowsIn(js)|
    ensures id(RowsIn(js)[a]) != id(RowsIn(js)[b])
  {
    var init, last := js[..|js| - 1], js[|js| - 1];
    var before := RowsIn(init);
    if b < |before| {
      RowsDiffer(init, id, a, b);
    } else {
      assert before[a] in before;
      RowsAre(init, before[a]);
      var i :| 0 <= i < |init| && init[i].verdict == Planned(before[a]);
      assert js[i] == init[i];
    }
  }
}
