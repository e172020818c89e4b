/** Which sessions of a peer may be opened, and in what order (transientStreamSessions in internal/tun/stream.go). */
module StreamCandidates {
  import opened StreamLog

  /** A session as the directory reports it. */
  datatype Resolved = Resolved(session: Session, transientCapable: bool)

  predicate Usable(r: Resolved) {
    r.transientCapable && r.session != NO_SESSION
  }

  /** Entry `k` is the first usable report of its session. */
  predicate FirstReport(resolved: seq<Resolved>, k: nat)
    requires k < |resolved|
  {
    Usable(resolved[k]) && forall m :: 0 <= m < k ==> Usable(resolved[m]) ==> resolved[m].session != resolved[k].session
  }

  /** `first[i]` is where candidate `i` is first reported; every first report has its candidate. */
  ghost predicate FirstReports(resolved: seq<Resolved>, candidates: seq<Session>, first: seq<nat>) {
    && |first| == |candidates|
    && (forall i :: 0 <= i < |first| ==> first[i] < |resolved| && FirstReport(resolved, first[i]))
    && (forall i :: 0 <= i < |first| ==> resolved[first[i]].session == candidates[i])
    && (forall i, j :: 0 <= i < j < |first| ==> first[i] < first[j])
    && (forall k :: 0 <= k < |resolved| && Usable(resolved[k]) ==> resolved[k].session in candidates)
  }

  /** No session is a candidate twice. */
  lemma NoneTwice(resolved: seq<Resolved>, candidates: seq<Session>, first: seq<nat>)
    requires FirstReports(resolved, candidates, first)
    ensures forall i, j :: 0 <= i < j < |candidates| ==> candidates[i] != candidates[j]
  {
    forall i, j | 0 <= i < j < |candidates| ensures candidates[i] != candidates[j] {
      assert first[i] < first[j] && FirstReport(resolved, first[i]) && FirstReport(resolved, first[j]);
    }
  }

  /** A session is a candidate exactly when some report of it is capable, and it is not the zero session. */
  lemma OnlyUsable(resolved: seq<Resolved>, candidates: seq<Session>, first: seq<nat>)
    requires FirstReports(resolved, candidates, first)
    ensures forall s :: s in candidates <==>
      s != NO_SESSION && exists k :: 0 <= k < |resolved| && resolved[k].session == s && resolved[k].transientCapable
  {
    forall s | s in candidates
      ensures s != NO_SESSION
      ensures exists k :: 0 <= k < |resolved| && resolved[k].session == s && resolved[k].transientCapable
    {
      var i :| 0 <= i < |candidates| && candidates[i] == s;
      assert FirstReport(resolved, first[i]);
    }
    forall s | s != NO_SESSION
      && exists k :: 0 <= k < |resolved| && resolved[k].session == s && resolved[k].transientCapable
      ensures s in candidates
    {
      var k :| 0 <= k < |resolved| && resolved[k].session == s && resolved[k].transientCapable;
      assert Usable(resolved[k]);
    }
  }

  lemma ReportsExtend(resolved: seq<Resolved>, candidates: seq<Session>, first: seq<nat>, r: Resolved)
    requires FirstReports(resolved, candidates, first)
    ensures if Usable(r) && r.session !in candidates
            then FirstReports(resolved + [r], candidates + [r.session], first + [|resolved|])
            else FirstReports(resolved + [r], candidates, first)
  {
    var longer := resolved + [r];
    forall i | 0 <= i < |first| ensures FirstReport(longer, first[i]) {
      assert FirstReport(resolved, first[i]);
    }
    if Usable(r) && r.session !in candidates {
      assert FirstReport(longer, |resolved|);
    }
  }

  /** Every usable session once, in the order of first report. */
  method TransientStreamSessions(resolved: seq<Resolved>) returns (candidates: seq<Session>)
    ensures exists first: seq<nat> :: FirstReports(resolved, candidates, first)
    ensures forall i, j :: 0 <= i < j < |candidates| ==> candidates[i] != candidates[j]
    ensures forall s :: s in candidates <==>
      s != NO_SESSION && exists k :: 0 <= k < |resolved| && resolved[k].session == s && resolved[k].transientCapable
  {
    candidates := [];
    var seen: set<Session> := {};
    ghost var first: seq<nat> := [];
    for k := 0 to |resolved|
      invariant FirstReports(resolved[..k], candidates, first)
      invariant forall s :: s in seen <==> s in candidates
    {
      hide FirstReports;
      var r := resolved[k];
      ReportsExtend(resolved[..k], candidates, first, r);
      assert resolved[..k + 1] == resolved[..k] + [r];
      if !r.transientCapable || r.session == NO_SESSION || r.session in seen {
        continue;
      }
      seen := seen + {r.session};
      candidates, first := candidates + [r.session], first + [k];
    }
    assert resolved[..|resolved|] == resolved;
    NoneTwice(resolved, candidates, first);
    OnlyUsable(resolved, candidates, first);
  }
}
