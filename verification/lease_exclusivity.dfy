/** Exactly when an address stays with one process: over every continuation of every reachable state. */
module LeaseExclusivity {
  import opened LeaseStore
  import opened LeaseProtocol

  /** A continuation: some states and the steps between them. */
  ghost predicate IsPath(p: History) {
    |p.states| == |p.actions| + 1 && forall i :: 0 <= i < |p.actions| ==> Linked(p, i)
  }

  /** No renewal or release of the continuation takes another's unexpired lease. */
  ghost predicate TakesNothing(p: History)
    requires |p.states| == |p.actions| + 1
  {
    forall i :: 0 <= i < |p.actions| ==> !StealsAt(p, i)
  }

  /** No two processes have unexpired leases of one address. */
  ghost predicate SoleEntitled(s: State) {
    forall n, m, ip :: Entitled(s, n, ip) && Entitled(s, m, ip) ==> n == m
  }

  /** Whatever happens without such a take-over, no address is ever leased to two processes at once. */
  ghost predicate NeverShared(s: State) {
    forall p: History :: IsPath(p) && p.states[0] == s && TakesNothing(p) ==> SoleEntitled(Last(p))
  }

  lemma BackedIsSole(s: State)
    requires Backed(s)
    ensures SoleEntitled(s)
  {
    forall n, m, ip | Entitled(s, n, ip) && Entitled(s, m, ip) ensures n == m {
      OneEntitled(s, n, m, ip);
    }
  }

  lemma {:induction false} PathBacked(p: History, i: nat)
    requires IsPath(p) && TakesNothing(p) && i < |p.states|
    requires Sound(p.states[0]) && Backed(p.states[0])
    ensures Sound(p.states[i]) && Backed(p.states[i])
  {
    hide Step, Steals, Sound, Backed;
    if i > 0 {
      PathBacked(p, i - 1);
      assert Linked(p, i - 1) && !StealsAt(p, i - 1);
      StepSound(p.states[i - 1], p.actions[i - 1]);
      StepBackedExactly(p.states[i - 1], p.actions[i - 1]);
    }
  }

  // ------------------------------------------ otherwise a newcomer shares it

  lemma {:induction false} AnotherNode(nodes: set<Node>) returns (k: Node)
    ensures forall n :: n in nodes ==> n < k
  {
    if nodes == {} {
      k := 0;
    } else {
      var n :| n in nodes;
      var above := AnotherNode(nodes - {n});
      k := if n < above then above else n + 1;
      assert nodes == (nodes - {n}) + {n};
    }
  }

  /** The steps by which process `k` is granted the free address `ip`. */
  function Grant(s: State, k: Node, ip: nat): seq<Action> {
    [Begin(k, ip, ip, SECOND), Probe(k), Execute(s.nextId), Answer(k)]
  }

  lemma GrantPath(s: State, k: Node, ip: nat) returns (p: History)
    requires Sound(s) && ProcessOf(s, k).Idle? && !Occupied(s.entries, ip, s.clock)
    ensures IsPath(p) && TakesNothing(p) && p.states[0] == s
    ensures Last(p).clock == s.clock && Last(p).recorded == s.recorded[(k, ip) := Expiry(s.clock, SECOND)]
  {
    hide Expiry, Step, Occupied;
    GrantSteps(s, k, ip, SECOND);
    hide Sound;
    var a := Grant(s, k, ip);
    var begun := Step(s, a[0]);
    var probed := Step(begun, a[1]);
    var executed := Step(probed, a[2]);
    p := History([s, begun, probed, executed, Step(executed, a[3])], a);
    ClaimTakesNothing(s, k, ip);
    forall i | 0 <= i < |p.actions| ensures !StealsAt(p, i) {
      assert p.actions[i].Execute? ==> i == 2;
    }
  }

  lemma ClaimTakesNothing(s: State, k: Node, ip: nat)
    requires ProcessOf(s, k).Idle? && !Occupied(s.entries, ip, s.clock)
    ensures !Steals(Step(Step(s, Begin(k, ip, ip, SECOND)), Probe(k)), Execute(s.nextId))
  {
    hide Expiry, Occupied, Step;
    var compare := if ip in s.entries then Revision(s.entries[ip].revision) else Absent;
    ClaimSent(s, k, ip, SECOND, ClaimRequest(k, ip, compare, s.clock, Expiry(s.clock, SECOND)));
  }

  /** An entitled process without its record either meets the owner of the record or gets a rival. */
  lemma UnbackedIsShared(s: State, n: Node, ip: nat)
    requires Sound(s) && Entitled(s, n, ip)
    requires !(ip in s.entries && s.entries[ip].value == Lease(n, s.recorded[(n, ip)]))
    ensures !NeverShared(s)
  {
    hide Expiry, Step;
    if Occupied(s.entries, ip, s.clock) {
      var m := s.entries[ip].value.node;
      assert Entitled(s, m, ip) && m != n;
      var p := History([s], []);
      assert IsPath(p) && TakesNothing(p) && !SoleEntitled(Last(p));
    } else {
      var k := AnotherNode(s.processes.Keys + {n});
      var p := GrantPath(s, k, ip);
      LongLease(s.clock);
      hide Sound;
      assert Entitled(Last(p), k, ip) && Entitled(Last(p), n, ip);
    }
  }

  lemma LongLease(now: nat)
    ensures Expiry(now, SECOND) > now
  {
  }

  /**
   * In every reachable state: no continuation that takes no other process's unexpired lease ever has two
   * processes entitled to one address, if and only if every entitled process finds its own record in
   * the store.
   */
  lemma NeverSharedExactly(h: History, i: nat)
    requires IsRun(h) && i < |h.states|
    ensures NeverShared(h.states[i]) <==> Backed(h.states[i])
  {
    AlwaysSound(h, i);
    hide IsRun, Sound, Step;
    var s := h.states[i];
    if Backed(s) {
      forall p: History | IsPath(p) && p.states[0] == s && TakesNothing(p) ensures SoleEntitled(Last(p)) {
        PathBacked(p, |p.actions|);
        BackedIsSole(Last(p));
      }
    } else {
      var n, ip :| Entitled(s, n, ip) && !(ip in s.entries && s.entries[ip].value == Lease(n, s.recorded[(n, ip)]));
      UnbackedIsShared(s, n, ip);
    }
  }
}
