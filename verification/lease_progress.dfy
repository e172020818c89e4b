/** What leases achieve: scans find the lowest free address, releases free it, and nothing else writes. */
module LeaseProgress {
  import opened LeaseStore
  import opened LeaseProtocol

  /** A readable record that has not expired keeps others away. */
  predicate Taken(entries: Entries, ip: nat, now: nat) {
    ip in entries && entries[ip].value.Lease? && entries[ip].value.expires > now
  }

  // --------------------------------------------------------------- the scan

  /** The scan of process `n` has come to this address. */
  predicate ScanAt(s: State, t: State, n: Node, ip: nat, scan: Scan) {
    t == s.(processes := s.processes[n := Probing(ip, scan)])
  }

  lemma ScanBegins(s: State, n: Node, first: nat, last: nat, duration: nat)
    requires ProcessOf(s, n).Idle? && first <= last
    ensures var scan := Scan(last, s.clock, Expiry(s.clock, duration));
            ScanAt(s, Step(s, Begin(n, first, last, duration)), n, first, scan)
  {
    hide Expiry;
  }

  lemma ScanPasses(s: State, t: State, n: Node, ip: nat, scan: Scan)
    requires ScanAt(s, t, n, ip, scan) && scan.now == s.clock && Taken(s.entries, ip, s.clock)
    ensures ip < scan.last ==> ScanAt(s, Step(t, Probe(n)), n, ip + 1, scan)
    ensures ip >= scan.last ==> Step(t, Probe(n)) == s.(processes := s.processes[n := Gone])
  {
    assert t.processes[n := Probing(ip + 1, scan)] == s.processes[n := Probing(ip + 1, scan)];
    assert t.processes[n := Gone] == s.processes[n := Gone];
  }

  /** A scan that nobody disturbs gets past every address that is taken. */
  lemma {:induction false} ScanReaches(h: History, n: Node, first: nat, last: nat, ip: nat, duration: nat)
    returns (longer: History)
    requires IsRun(h) && ProcessOf(Last(h), n).Idle? && first <= ip <= last
    requires forall j :: first <= j < ip ==> Taken(Last(h).entries, j, Last(h).clock)
    ensures IsRun(longer) && |longer.states| > 0
    ensures ScanAt(Last(h), Last(longer), n, ip, Scan(last, Last(h).clock, Expiry(Last(h).clock, duration)))
  {
    hide Step, Expiry, ScanAt, Taken;
    var s := Last(h);
    if ip == first {
      ScanBegins(s, n, first, last, duration);
      longer := Do(h, Begin(n, first, last, duration));
    } else {
      longer := ScanReaches(h, n, first, last, ip - 1, duration);
      ScanPasses(s, Last(longer), n, ip - 1, Scan(last, s.clock, Expiry(s.clock, duration)));
      longer := Do(longer, Probe(n));
    }
  }

  lemma ClaimSteps(s: State, t: State, n: Node, ip: nat, scan: Scan)
    requires ScanAt(s, t, n, ip, scan) && scan.now == s.clock && !Taken(s.entries, ip, s.clock) && s.nextId !in s.flight
    ensures var u := Step(Step(Step(t, Probe(n)), Execute(s.nextId)), Answer(n));
            && u.processes == s.processes[n := Holding(ip)] && u.clock == s.clock
            && u.entries == s.entries[ip := Entry(Lease(n, scan.expires), s.revision + 1)]
            && u.recorded == s.recorded[(n, ip) := scan.expires]
  {
    hide DoExecute, Expiry;
    var compare := if ip in s.entries then Revision(s.entries[ip].revision) else Absent;
    var r := ClaimRequest(n, ip, compare, scan.now, scan.expires);
    var sent := Send(Become(t, n, Claiming(ip, scan, s.nextId)), r);
    assert Step(t, Probe(n)) == sent;
    Executed(sent, s.nextId, r);
    var done := Step(sent, Execute(s.nextId));
    Granted(done, n);
    assert done.processes[n := Holding(ip)] == s.processes[n := Holding(ip)];
  }

  /**
   * The lowest free address of the pool is granted to a scan that nobody disturbs, and nobody else
   * loses a record.
   */
  lemma ScanFindsLowest(h: History, n: Node, first: nat, last: nat, ip: nat, duration: nat) returns (longer: History)
    requires IsRun(h) && ProcessOf(Last(h), n).Idle? && first <= ip <= last
    requires forall j :: first <= j < ip ==> Taken(Last(h).entries, j, Last(h).clock)
    requires !Taken(Last(h).entries, ip, Last(h).clock)
    ensures IsRun(longer)
    ensures var s, t := Last(h), Last(longer);
            var expires := Expiry(s.clock, duration);
            && t.processes == s.processes[n := Holding(ip)] && t.clock == s.clock
            && t.entries == s.entries[ip := Entry(Lease(n, expires), s.revision + 1)]
            && t.recorded == s.recorded[(n, ip) := expires]
  {
    hide Step, Expiry, ScanAt, Taken, Sound;
    LastSound(h);
    var s := Last(h);
    FreshId(s);
    longer := ScanReaches(h, n, first, last, ip, duration);
    ClaimSteps(s, Last(longer), n, ip, Scan(last, s.clock, Expiry(s.clock, duration)));
    longer := Do(longer, Probe(n));
    longer := Do(longer, Execute(s.nextId));
    longer := Do(longer, Answer(n));
  }

  /** In a pool without a free address, or an empty one, the scan fails, and nothing is written. */
  lemma ScanFindsNothing(h: History, n: Node, first: nat, last: nat, duration: nat) returns (longer: History)
    requires IsRun(h) && ProcessOf(Last(h), n).Idle?
    requires forall j :: first <= j <= last ==> Taken(Last(h).entries, j, Last(h).clock)
    ensures IsRun(longer) && |longer.states| > 0
    ensures Last(longer) == Last(h).(processes := Last(h).processes[n := Gone])
  {
    hide Expiry, ScanAt, Taken;
    var s := Last(h);
    if first > last {
      longer := Do(h, Begin(n, first, last, duration));
    } else {
      hide Step;
      longer := ScanReaches(h, n, first, last, last, duration);
      ScanPasses(s, Last(longer), n, last, Scan(last, s.clock, Expiry(s.clock, duration)));
      longer := Do(longer, Probe(n));
    }
  }

  /** The address after this one, while the pool has one. */
  predicate GoesOn(p: Process, ip: nat, scan: Scan) {
    if ip < scan.last then p == Probing(ip + 1, scan) else p == Gone
  }

  /** A claim that was answered decides: granted means in use; refused or unanswered, the scan goes on. */
  lemma ClaimDecides(h: History, i: nat)
    requires IsRun(h) && i < |h.actions|
    ensures var s, t := h.states[i], h.states[i + 1];
            match h.actions[i]
            case Answer(n) =>
              (ProcessOf(s, n).Claiming? && ProcessOf(s, n).id in s.answers ==>
                 var Claiming(ip, scan, id) := ProcessOf(s, n);
                 if s.answers[id] then ProcessOf(t, n) == Holding(ip) else GoesOn(ProcessOf(t, n), ip, scan))
            case GiveUp(n) =>
              (ProcessOf(s, n).Claiming? ==> GoesOn(ProcessOf(t, n), ProcessOf(s, n).ip, ProcessOf(s, n).scan))
            case Release(n) =>
              (ProcessOf(s, n).Holding? || ProcessOf(s, n).Renewing? ==> ProcessOf(t, n) == Gone)
            case Fail(n) => (ProcessOf(s, n).Probing? ==> ProcessOf(t, n) == Gone)
            case RenewFail(n) => (ProcessOf(s, n).Renewing? ==> ProcessOf(t, n) == Holding(ProcessOf(s, n).ip))
            case _ => true
  {
    hide DoProbe, DoExecute, DoRenewRead, DoRenewSend, Expiry;
    assert Linked(h, i);
  }

  // ------------------------------------------------------------ the release

  lemma ReleaseSteps(s: State, n: Node, ip: nat)
    requires ProcessOf(s, n) == Holding(ip) || (ProcessOf(s, n).Renewing? && ProcessOf(s, n).ip == ip)
    requires ip in s.entries
    ensures var t := Step(Step(s, Release(n)), Execute(s.nextId));
            && t.processes == s.processes[n := Gone] && t.entries == s.entries - {ip}
            && t.recorded == s.recorded - {(n, ip)} && t.clock == s.clock
  {
    var sent := Step(s, Release(n));
    assert sent.flight[s.nextId] == ReleaseRequest(n, ip, s.entries[ip]);
  }

  /** A release that nobody disturbs removes the record, so the address is free for the next scan. */
  lemma ReleaseFrees(h: History, n: Node, ip: nat) returns (longer: History)
    requires IsRun(h) && ip in Last(h).entries
    requires ProcessOf(Last(h), n) == Holding(ip) || (ProcessOf(Last(h), n).Renewing? && ProcessOf(Last(h), n).ip == ip)
    ensures IsRun(longer)
    ensures var s, t := Last(h), Last(longer);
            && t.processes == s.processes[n := Gone] && t.entries == s.entries - {ip}
            && t.recorded == s.recorded - {(n, ip)} && t.clock == s.clock
  {
    hide Step;
    var s := Last(h);
    ReleaseSteps(s, n, ip);
    longer := Do(h, Release(n));
    longer := Do(longer, Execute(s.nextId));
  }

  // -------------------------------------------------------------- the store

  /** The record that a request compares with is the one in the store. */
  predicate StillThere(entries: Entries, r: Request) {
    match r
    case ClaimRequest(_, ip, Absent, _, _) => ip !in entries
    case ClaimRequest(_, ip, Revision(revision), _, _) => ip in entries && entries[ip].revision == revision
    case RenewRequest(_, ip, read, _) => ip in entries && entries[ip].revision == read.revision
    case ReleaseRequest(_, ip, read) => ip in entries && entries[ip].revision == read.revision
  }

  /**
   * In every run the store changes only when it executes a request whose record is still there: a claim or
   * renewal puts its own lease under the next revision, a release removes the record. Each request is
   * executed at most once and told whether it was.
   */
  lemma StoreChangesByCommits(h: History, i: nat)
    requires IsRun(h) && i < |h.actions|
    ensures var s, t := h.states[i], h.states[i + 1];
            if h.actions[i].Execute? && h.actions[i].id in s.flight then
              var id := h.actions[i].id;
              var r := s.flight[id];
              && t.flight == s.flight - {id} && t.answers == s.answers[id := StillThere(s.entries, r)]
              && t.processes == s.processes && t.clock == s.clock
              && (!StillThere(s.entries, r) ==> t.entries == s.entries && t.recorded == s.recorded)
              && (StillThere(s.entries, r) && r.ReleaseRequest? ==>
                    t.entries == s.entries - {r.ip} && t.recorded == s.recorded - {(r.node, r.ip)})
              && (StillThere(s.entries, r) && !r.ReleaseRequest? ==>
                    && t.entries == s.entries[r.ip := Entry(Lease(r.node, r.expires), s.revision + 1)]
                    && t.revision == s.revision + 1 && t.recorded == s.recorded[(r.node, r.ip) := r.expires])
            else SameStore(s, t)
  {
    assert Linked(h, i);
    var s, a := h.states[i], h.actions[i];
    if a.Execute? {
      hide DoProbe, DoAnswer, DoGiveUp, DoRenewRead, DoRenewSend, DoRelease, Expiry;
    } else {
      hide DoExecute;
      OthersLeaveStore(s, a);
    }
  }

  predicate SameStore(s: State, t: State) {
    t.entries == s.entries && t.recorded == s.recorded && t.answers == s.answers && t.revision == s.revision
  }

  lemma ScanLeavesStore(s: State, n: Node)
    ensures SameStore(s, DoProbe(s, n)) && SameStore(s, DoAnswer(s, n)) && SameStore(s, DoGiveUp(s, n))
  {
    hide Occupied, Advance;
  }

  lemma HoldLeavesStore(s: State, n: Node, duration: nat)
    ensures SameStore(s, DoRenewRead(s, n)) && SameStore(s, DoRenewSend(s, n, duration))
    ensures SameStore(s, DoRelease(s, n))
  {
    hide Expiry;
  }

  lemma OthersLeaveStore(s: State, a: Action)
    requires !a.Execute?
    ensures SameStore(s, Step(s, a))
  {
    hide Expiry, DoProbe, DoAnswer, DoGiveUp, DoRenewRead, DoRenewSend, DoRelease;
    match a
    case Probe(n) => ScanLeavesStore(s, n);
    case Answer(n) => ScanLeavesStore(s, n);
    case GiveUp(n) => ScanLeavesStore(s, n);
    case RenewRead(n) => HoldLeavesStore(s, n, 0);
    case RenewSend(n, duration) => HoldLeavesStore(s, n, duration);
    case Release(n) => HoldLeavesStore(s, n, 0);
    case _ =>
  }
}
