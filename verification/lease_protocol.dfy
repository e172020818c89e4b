/**
 * The address lease protocol (acquire, renew and releaseLease in internal/tun): processes that read
 * the store and send compare-and-put transactions, which execute at any later time or never.
 */
module LeaseProtocol {
  import opened LeaseStore

  /** A transaction under way. */
  datatype Request =
    | ClaimRequest(node: Node, ip: nat, compare: Compare, now: nat, expires: nat)
    | RenewRequest(node: Node, ip: nat, read: Entry, expires: nat)
    | ReleaseRequest(node: Node, ip: nat, read: Entry)

  /** What acquire computed before its scan. */
  datatype Scan = Scan(last: nat, now: nat, expires: nat)

  /** Where a process is; `Renewing` has read its record and not yet sent the transaction. */
  datatype Process =
    | Idle
    | Probing(ip: nat, scan: Scan)
    | Claiming(ip: nat, scan: Scan, id: nat)
    | Holding(ip: nat)
    | Renewing(ip: nat, read: Entry)
    | Gone

  /** `recorded` is what each process last wrote for an address and has not deleted. */
  datatype State = State(
    clock: nat,
    entries: Entries,
    revision: nat,
    flight: map<nat, Request>,
    answers: map<nat, bool>,
    nextId: nat,
    processes: map<Node, Process>,
    recorded: map<(Node, nat), nat>)

  datatype Action =
    | Tick(time: nat)
    | Begin(node: Node, first: nat, last: nat, duration: nat)
    | Probe(node: Node)
    | Fail(node: Node)
    | Execute(id: nat)
    | Answer(node: Node)
    | GiveUp(node: Node)
    | RenewRead(node: Node)
    | RenewSend(node: Node, duration: nat)
    | RenewFail(node: Node)
    | Release(node: Node)

  function ProcessOf(s: State, n: Node): Process {
    if n in s.processes then s.processes[n] else Idle
  }

  function Become(s: State, n: Node, p: Process): State {
    s.(processes := s.processes[n := p])
  }

  function Send(s: State, r: Request): State {
    s.(flight := s.flight[s.nextId := r], nextId := s.nextId + 1)
  }

  /** The next address of the scan, or failure at the end of the pool. */
  function Advance(ip: nat, scan: Scan): Process {
    if ip < scan.last then Probing(ip + 1, scan) else Gone
  }

  function DoProbe(s: State, n: Node): State {
    match ProcessOf(s, n)
    case Probing(ip, scan) =>
      if Occupied(s.entries, ip, scan.now) then Become(s, n, Advance(ip, scan))
      else
        var compare := if ip in s.entries then Revision(s.entries[ip].revision) else Absent;
        Send(Become(s, n, Claiming(ip, scan, s.nextId)), ClaimRequest(n, ip, compare, scan.now, scan.expires))
    case _ => s
  }

  function CompareOf(r: Request): Compare {
    if r.ClaimRequest? then r.compare else Revision(r.read.revision)
  }

  /** The store executes one transaction: all of it when the comparison holds, else nothing. */
  function DoExecute(s: State, id: nat): State {
    if id !in s.flight then s
    else
      var r := s.flight[id];
      var ok := Holds(s.entries, r.ip, CompareOf(r));
      var done := s.(flight := s.flight - {id}, answers := s.answers[id := ok]);
      if !ok then done
      else if r.ReleaseRequest? then
        done.(entries := s.entries - {r.ip}, revision := s.revision + 1, recorded := s.recorded - {(r.node, r.ip)})
      else
        done.(entries := s.entries[r.ip := Entry(Lease(r.node, r.expires), s.revision + 1)],
              revision := s.revision + 1,
              recorded := s.recorded[(r.node, r.ip) := r.expires])
  }

  function DoAnswer(s: State, n: Node): State {
    match ProcessOf(s, n)
    case Claiming(ip, scan, id) =>
      if id !in s.answers then s
      else Become(s, n, if s.answers[id] then Holding(ip) else Advance(ip, scan))
    case _ => s
  }

  /** An error instead of an answer: the scan goes on, whatever became of the transaction. */
  function DoGiveUp(s: State, n: Node): State {
    match ProcessOf(s, n)
    case Claiming(ip, scan, id) => Become(s, n, Advance(ip, scan))
    case _ => s
  }

  function DoRenewRead(s: State, n: Node): State {
    match ProcessOf(s, n)
    case Holding(ip) => if ip in s.entries then Become(s, n, Renewing(ip, s.entries[ip])) else s
    case _ => s
  }

  function DoRenewSend(s: State, n: Node, duration: nat): State {
    match ProcessOf(s, n)
    case Renewing(ip, read) => Send(Become(s, n, Holding(ip)), RenewRequest(n, ip, read, Expiry(s.clock, duration)))
    case _ => s
  }

  /** The lease is given up; without a record to read there is nothing to send. */
  function DoRelease(s: State, n: Node): State {
    match ProcessOf(s, n)
    case Holding(ip) => ReleaseFrom(s, n, ip)
    case Renewing(ip, read) => ReleaseFrom(s, n, ip)
    case _ => s
  }

  function ReleaseFrom(s: State, n: Node, ip: nat): State {
    var gone := Become(s, n, Gone);
    if ip in s.entries then Send(gone, ReleaseRequest(n, ip, s.entries[ip])) else gone
  }

  function Step(s: State, a: Action): State {
    match a
    case Tick(time) => s.(clock := s.clock + time)
    case Begin(n, first, last, duration) =>
      if !ProcessOf(s, n).Idle? then s
      else
        var scan := Scan(last, s.clock, Expiry(s.clock, duration));
        Become(s, n, if first <= last then Probing(first, scan) else Gone)
    case Probe(n) => DoProbe(s, n)
    case Fail(n) => if ProcessOf(s, n).Probing? then Become(s, n, Gone) else s
    case Execute(id) => DoExecute(s, id)
    case Answer(n) => DoAnswer(s, n)
    case GiveUp(n) => DoGiveUp(s, n)
    case RenewRead(n) => DoRenewRead(s, n)
    case RenewSend(n, duration) => DoRenewSend(s, n, duration)
    case RenewFail(n) => if ProcessOf(s, n).Renewing? then Become(s, n, Holding(ProcessOf(s, n).ip)) else s
    case Release(n) => DoRelease(s, n)
  }

  /**
   * What earlier processes left: they hold, or have abandoned, exactly the leases in the store, and
   * nobody else has started.
   */
  ghost predicate Initial(s: State) {
    && s.flight == map[] && s.answers == map[]
    && (forall ip :: ip in s.entries ==> s.entries[ip].revision <= s.revision)
    && (forall k :: k in s.recorded ==> k.1 in s.entries && s.entries[k.1].value == Lease(k.0, s.recorded[k]))
    && (forall ip :: ip in s.entries && s.entries[ip].value.Lease? ==> (s.entries[ip].value.node, ip) in s.recorded)
    && (forall n :: n in s.processes ==> s.processes[n].Holding? && (n, s.processes[n].ip) in s.recorded)
  }

  /** A run: its steps, and the states before, between and after them. */
  datatype History = History(states: seq<State>, actions: seq<Action>)

  ghost predicate Linked(h: History, i: nat)
    requires i < |h.actions| && i + 1 < |h.states|
  {
    h.states[i + 1] == Step(h.states[i], h.actions[i])
  }

  ghost predicate IsRun(h: History) {
    && |h.states| == |h.actions| + 1
    && Initial(h.states[0])
    && forall i :: 0 <= i < |h.actions| ==> Linked(h, i)
  }

  /** The process is entitled to the address: what it recorded there has not expired. */
  predicate Entitled(s: State, n: Node, ip: nat) {
    (n, ip) in s.recorded && s.recorded[(n, ip)] > s.clock
  }

  /** The process uses the address its acquire returned. */
  predicate Uses(s: State, n: Node, ip: nat) {
    var p := ProcessOf(s, n);
    (p.Holding? || p.Renewing?) && p.ip == ip
  }

  /** The step commits a renewal or release: the store still holds the record it read. */
  predicate Commits(s: State, a: Action) {
    && a.Execute? && a.id in s.flight && !s.flight[a.id].ClaimRequest?
    && Holds(s.entries, s.flight[a.id].ip, CompareOf(s.flight[a.id]))
  }

  /**
   * The record that a renewal or release read, and whose revision it compares, names another owner
   * and has not expired when it commits. Neither renew nor releaseLease looks at either.
   */
  predicate Steals(s: State, a: Action) {
    Commits(s, a) && var r := s.flight[a.id];
      r.read.value.Lease? && r.read.value.node != r.node && r.read.value.expires > s.clock
  }

  /** The committing process is still within the expiry it last recorded. */
  predicate Timely(s: State, a: Action) {
    Commits(s, a) ==> Entitled(s, s.flight[a.id].node, s.flight[a.id].ip)
  }

  /** Up to state `n`, no renewal or release of the run took another's unexpired lease. */
  ghost predicate Unstolen(h: History, n: nat)
    requires n < |h.states| && |h.states| == |h.actions| + 1
  {
    forall i :: 0 <= i < n ==> !StealsAt(h, i)
  }

  ghost predicate StealsAt(h: History, i: nat)
    requires i < |h.actions| && i < |h.states|
  {
    Steals(h.states[i], h.actions[i])
  }

  ghost predicate TimelyAt(h: History, i: nat)
    requires i < |h.actions| && i < |h.states|
  {
    Timely(h.states[i], h.actions[i])
  }

  /** Every renewal and release of the run that commits does so before its holder's recorded expiry. */
  ghost predicate TimelyRun(h: History) {
    IsRun(h) && forall i :: 0 <= i < |h.actions| ==> TimelyAt(h, i)
  }

  // --------------------------------------------------------- the invariants

  /** Revisions are fresh, what a claim compares with was free, and a revision names one record. */
  predicate StoreOk(clock: nat, entries: Entries, revision: nat, flight: map<nat, Request>, nextId: nat) {
    && (forall ip :: ip in entries ==> entries[ip].revision <= revision)
    && (forall id :: id in flight ==> id < nextId)
    && (forall id :: id in flight ==> RequestOk(clock, entries, revision, flight[id]))
  }

  predicate RequestOk(clock: nat, entries: Entries, revision: nat, r: Request) {
    if r.ClaimRequest? then
      r.now <= clock && (r.compare.Revision? ==>
        r.compare.revision <= revision && (Holds(entries, r.ip, r.compare) ==> !LiveAt(entries[r.ip].value, r.now)))
    else ReadOk(entries, revision, r.ip, r.read)
  }

  /** While the store has the revision that was read, it has the record that was read. */
  predicate ReadOk(entries: Entries, revision: nat, ip: nat, read: Entry) {
    read.revision <= revision && (ip in entries && entries[ip].revision == read.revision ==> entries[ip] == read)
  }

  /** Every lease in the store is what its owner last recorded. */
  predicate RecordsOk(entries: Entries, recorded: map<(Node, nat), nat>) {
    forall ip :: ip in entries && entries[ip].value.Lease? ==>
      var lease := entries[ip].value; (lease.node, ip) in recorded && recorded[(lease.node, ip)] == lease.expires
  }

  predicate RenewalsOk(entries: Entries, revision: nat, processes: map<Node, Process>) {
    forall n :: n in processes && processes[n].Renewing? ==>
      ReadOk(entries, revision, processes[n].ip, processes[n].read)
  }

  predicate ProcessesOk(clock: nat, processes: map<Node, Process>, flight: map<nat, Request>, nextId: nat) {
    && (forall n :: n in processes ==> ProcessOk(clock, processes[n], n, flight, nextId))
    && (forall id :: id in flight && flight[id].ReleaseRequest? ==>
          flight[id].node in processes && processes[flight[id].node].Gone?)
  }

  predicate ProcessOk(clock: nat, p: Process, n: Node, flight: map<nat, Request>, nextId: nat) {
    match p
    case Probing(ip, scan) => scan.now <= clock
    case Claiming(ip, scan, id) =>
      && scan.now <= clock && id < nextId
      && (id in flight ==> flight[id].ClaimRequest? && flight[id].node == n && flight[id].ip == ip)
    case _ => true
  }

  /** What a process uses, or is about to be told it may use, it has recorded. */
  predicate GrantsOk(processes: map<Node, Process>, answers: map<nat, bool>, recorded: map<(Node, nat), nat>) {
    forall n :: n in processes ==> GrantOk(processes[n], n, answers, recorded)
  }

  predicate GrantOk(p: Process, n: Node, answers: map<nat, bool>, recorded: map<(Node, nat), nat>) {
    match p
    case Claiming(ip, scan, id) => id in answers && answers[id] ==> (n, ip) in recorded
    case Holding(ip) => (n, ip) in recorded
    case Renewing(ip, read) => (n, ip) in recorded
    case _ => true
  }

  predicate AnswersOk(answers: map<nat, bool>, flight: map<nat, Request>, nextId: nat) {
    forall id :: id in answers ==> id < nextId && id !in flight
  }

  /** The heart: an entitled process finds exactly its own record in the store. */
  ghost predicate Backed(s: State) {
    forall n, ip :: Entitled(s, n, ip) ==>
      ip in s.entries && s.entries[ip].value == Lease(n, s.recorded[(n, ip)])
  }

  predicate Sound(s: State) {
    && StoreOk(s.clock, s.entries, s.revision, s.flight, s.nextId)
    && ProcessesOk(s.clock, s.processes, s.flight, s.nextId)
    && GrantsOk(s.processes, s.answers, s.recorded)
    && AnswersOk(s.answers, s.flight, s.nextId)
    && RecordsOk(s.entries, s.recorded)
    && RenewalsOk(s.entries, s.revision, s.processes)
  }

  /** One record was deleted, or written under the next revision. */
  predicate Rewritten(before: Entries, revision: nat, after: Entries, ip: nat) {
    after == before - {ip} || (ip in after && after == before[ip := after[ip]] && after[ip].revision == revision + 1)
  }

  lemma RequestSurvives(clock: nat, before: Entries, revision: nat, after: Entries, ip: nat, r: Request)
    requires RequestOk(clock, before, revision, r) && Rewritten(before, revision, after, ip)
    ensures RequestOk(clock, after, revision + 1, r)
  {
  }

  lemma ReadSurvives(before: Entries, revision: nat, after: Entries, ip: nat, at: nat, read: Entry)
    requires ReadOk(before, revision, at, read) && Rewritten(before, revision, after, ip)
    ensures ReadOk(after, revision + 1, at, read)
  {
  }

  lemma ExecuteStore(s: State, id: nat)
    requires Sound(s)
    ensures var t := DoExecute(s, id);
            && StoreOk(t.clock, t.entries, t.revision, t.flight, t.nextId)
            && AnswersOk(t.answers, t.flight, t.nextId)
  {
    hide ProcessesOk, GrantsOk, RecordsOk, RenewalsOk, RequestOk, Holds;
    var t := DoExecute(s, id);
    if t.revision != s.revision {
      var ip := s.flight[id].ip;
      assert Rewritten(s.entries, s.revision, t.entries, ip);
      forall k | k in t.flight ensures RequestOk(t.clock, t.entries, t.revision, t.flight[k]) {
        RequestSurvives(s.clock, s.entries, s.revision, t.entries, ip, s.flight[k]);
      }
    }
  }

  lemma ExecuteRenewals(s: State, id: nat)
    requires Sound(s)
    ensures var t := DoExecute(s, id); RenewalsOk(t.entries, t.revision, t.processes)
  {
    hide StoreOk, AnswersOk, ProcessesOk, GrantsOk, RecordsOk, ReadOk, Holds;
    var t := DoExecute(s, id);
    if t.revision != s.revision {
      var ip := s.flight[id].ip;
      assert Rewritten(s.entries, s.revision, t.entries, ip);
      forall n | n in t.processes && t.processes[n].Renewing?
        ensures ReadOk(t.entries, t.revision, t.processes[n].ip, t.processes[n].read)
      {
        ReadSurvives(s.entries, s.revision, t.entries, ip, s.processes[n].ip, s.processes[n].read);
      }
    }
  }

  lemma ExecuteGrants(s: State, id: nat)
    requires Sound(s)
    ensures var t := DoExecute(s, id);
            ProcessesOk(t.clock, t.processes, t.flight, t.nextId) && GrantsOk(t.processes, t.answers, t.recorded)
  {
    hide RequestOk, RecordsOk, RenewalsOk, Holds;
  }

  lemma ExecuteRecords(s: State, id: nat)
    requires Sound(s)
    ensures RecordsOk(DoExecute(s, id).entries, DoExecute(s, id).recorded)
  {
    hide StoreOk, ProcessesOk, GrantsOk, AnswersOk, RenewalsOk, Holds;
  }

  lemma ExecuteSound(s: State, id: nat)
    requires Sound(s)
    ensures Sound(DoExecute(s, id))
  {
    hide DoExecute, StoreOk, ProcessesOk, GrantsOk, AnswersOk, RecordsOk, RenewalsOk;
    ExecuteStore(s, id);
    ExecuteRenewals(s, id);
    ExecuteGrants(s, id);
    ExecuteRecords(s, id);
  }

  /** What is known of one process. */
  lemma ProcessSound(s: State, n: Node)
    requires Sound(s)
    ensures var p := ProcessOf(s, n);
            && ProcessOk(s.clock, p, n, s.flight, s.nextId) && GrantOk(p, n, s.answers, s.recorded)
            && (p.Renewing? ==> ReadOk(s.entries, s.revision, p.ip, p.read))
  {
    hide StoreOk, AnswersOk, RecordsOk, ReadOk;
  }

  /** One process changes, to something that is as true of it. */
  lemma BecomeSound(s: State, n: Node, p: Process)
    requires Sound(s)
    requires ProcessOk(s.clock, p, n, s.flight, s.nextId) && GrantOk(p, n, s.answers, s.recorded)
    requires p.Renewing? ==> ReadOk(s.entries, s.revision, p.ip, p.read)
    requires ProcessOf(s, n).Gone? ==> p.Gone?
    ensures Sound(Become(s, n, p))
  {
    hide StoreOk, AnswersOk, RecordsOk, ProcessOk, GrantOk, ReadOk;
  }

  lemma SendSound(s: State, r: Request)
    requires Sound(s) && RequestOk(s.clock, s.entries, s.revision, r)
    requires r.ReleaseRequest? ==> r.node in s.processes && s.processes[r.node].Gone?
    ensures Sound(Send(s, r))
  {
    hide GrantsOk, RecordsOk, RenewalsOk, RequestOk;
  }

  lemma AdvanceSound(s: State, n: Node)
    requires Sound(s)
    ensures var p := ProcessOf(s, n);
            p.Probing? || p.Claiming? ==> Sound(Become(s, n, Advance(p.ip, p.scan)))
  {
    hide Sound, Become;
    ProcessSound(s, n);
    if ProcessOf(s, n).Probing? || ProcessOf(s, n).Claiming? {
      BecomeSound(s, n, Advance(ProcessOf(s, n).ip, ProcessOf(s, n).scan));
    }
  }

  /** The claim compares with what was read, which was free. */
  lemma ClaimOk(s: State, n: Node, ip: nat, scan: Scan)
    requires Sound(s) && scan.now <= s.clock && !Occupied(s.entries, ip, scan.now)
    ensures var compare := if ip in s.entries then Revision(s.entries[ip].revision) else Absent;
            RequestOk(s.clock, s.entries, s.revision, ClaimRequest(n, ip, compare, scan.now, scan.expires))
  {
    hide ProcessesOk, GrantsOk, AnswersOk, RecordsOk, RenewalsOk;
  }

  lemma FreshId(s: State)
    requires Sound(s)
    ensures s.nextId !in s.answers && s.nextId !in s.flight
  {
    hide ProcessesOk, GrantsOk, RecordsOk, RenewalsOk, RequestOk;
  }

  lemma ProbeSound(s: State, n: Node)
    requires Sound(s)
    ensures Sound(DoProbe(s, n))
  {
    hide Sound, Occupied, RequestOk, Advance;
    ProcessSound(s, n);
    AdvanceSound(s, n);
    if ProcessOf(s, n).Probing? && !Occupied(s.entries, ProcessOf(s, n).ip, ProcessOf(s, n).scan.now) {
      var Probing(ip, scan) := ProcessOf(s, n);
      var compare := if ip in s.entries then Revision(s.entries[ip].revision) else Absent;
      var r := ClaimRequest(n, ip, compare, scan.now, scan.expires);
      ClaimOk(s, n, ip, scan);
      FreshId(s);
      SendSound(s, r);
      BecomeSound(Send(s, r), n, Claiming(ip, scan, s.nextId));
    }
  }

  lemma AnswerSound(s: State, n: Node)
    requires Sound(s)
    ensures Sound(DoAnswer(s, n)) && Sound(DoGiveUp(s, n))
  {
    hide Sound, Become, Advance;
    ProcessSound(s, n);
    AdvanceSound(s, n);
    if ProcessOf(s, n).Claiming? && ProcessOf(s, n).id in s.answers && s.answers[ProcessOf(s, n).id] {
      BecomeSound(s, n, Holding(ProcessOf(s, n).ip));
    }
  }

  lemma ReadSound(s: State, ip: nat)
    requires Sound(s)
    ensures ip in s.entries ==> ReadOk(s.entries, s.revision, ip, s.entries[ip])
  {
    hide ProcessesOk, GrantsOk, AnswersOk, RecordsOk, RenewalsOk, RequestOk;
  }

  lemma RenewSound(s: State, n: Node, duration: nat)
    requires Sound(s)
    ensures Sound(DoRenewRead(s, n)) && Sound(DoRenewSend(s, n, duration))
  {
    hide Sound, Become, Send, ReadOk, Expiry;
    ProcessSound(s, n);
    match ProcessOf(s, n) {
      case Holding(ip) =>
        ReadSound(s, ip);
        if ip in s.entries {
          BecomeSound(s, n, Renewing(ip, s.entries[ip]));
        }
      case Renewing(ip, read) =>
        BecomeSound(s, n, Holding(ip));
        BecomeStore(s, n, Holding(ip));
        SendSound(Become(s, n, Holding(ip)), RenewRequest(n, ip, read, Expiry(s.clock, duration)));
      case _ =>
    }
  }

  lemma BecomeStore(s: State, n: Node, p: Process)
    ensures var t := Become(s, n, p);
            t.entries == s.entries && t.revision == s.revision && t.processes == s.processes[n := p]
  {
  }

  lemma ReleaseSound(s: State, n: Node)
    requires Sound(s)
    ensures Sound(DoRelease(s, n))
  {
    hide Sound, Become, Send, ReadOk;
    var p := ProcessOf(s, n);
    if p.Holding? || p.Renewing? {
      BecomeSound(s, n, Gone);
      BecomeStore(s, n, Gone);
      ReadSound(s, p.ip);
      if p.ip in s.entries {
        SendSound(Become(s, n, Gone), ReleaseRequest(n, p.ip, s.entries[p.ip]));
      }
    }
  }

  lemma TickSound(s: State, time: nat)
    requires Sound(s)
    ensures Sound(s.(clock := s.clock + time))
  {
    hide Holds, LiveAt, RecordsOk, RenewalsOk, GrantsOk, AnswersOk;
  }

  lemma StepSound(s: State, a: Action)
    requires Sound(s)
    ensures Sound(Step(s, a))
  {
    hide DoExecute, DoProbe, DoAnswer, DoGiveUp, DoRenewRead, DoRenewSend, DoRelease, Sound, Become;
    match a
    case Tick(time) => TickSound(s, time);
    case Begin(n, first, last, duration) =>
      if ProcessOf(s, n).Idle? {
        BecomeSound(s, n,
                    if first <= last then Probing(first, Scan(last, s.clock, Expiry(s.clock, duration))) else Gone);
      }
    case Fail(n) =>
      if ProcessOf(s, n).Probing? {
        BecomeSound(s, n, Gone);
      }
    case RenewFail(n) =>
      if ProcessOf(s, n).Renewing? {
        ProcessSound(s, n);
        BecomeSound(s, n, Holding(ProcessOf(s, n).ip));
      }
    case Execute(id) => ExecuteSound(s, id);
    case Probe(n) => ProbeSound(s, n);
    case Answer(n) => AnswerSound(s, n);
    case GiveUp(n) => AnswerSound(s, n);
    case RenewRead(n) => RenewSound(s, n, 0);
    case RenewSend(n, duration) => RenewSound(s, n, duration);
    case Release(n) => ReleaseSound(s, n);
  }

  /** Holds in every state of every run, timely or not. */
  lemma {:induction false} AlwaysSound(h: History, i: nat)
    requires IsRun(h) && i < |h.states|
    ensures Sound(h.states[i])
  {
    hide Step;
    if i > 0 {
      AlwaysSound(h, i - 1);
      assert Linked(h, i - 1);
      StepSound(h.states[i - 1], h.actions[i - 1]);
    }
  }

  /** A claim that commits replaces nothing that still keeps others away, in any run whatever. */
  lemma ClaimsOnlyFree(h: History, i: nat, id: nat)
    requires IsRun(h) && i < |h.states| && id in h.states[i].flight
    ensures var s, r := h.states[i], h.states[i].flight[id];
            r.ClaimRequest? && Holds(s.entries, r.ip, r.compare) ==> !Occupied(s.entries, r.ip, s.clock)
  {
    AlwaysSound(h, i);
  }

  /** The record that is about to be overwritten belongs to whoever else is entitled to the address. */
  lemma StolenFrom(s: State, id: nat)
    requires Sound(s) && Backed(s) && Commits(s, Execute(id))
    ensures var r := s.flight[id];
            Steals(s, Execute(id)) <==> exists m :: m != r.node && Entitled(s, m, r.ip)
  {
    var r := s.flight[id];
    assert RequestOk(s.clock, s.entries, s.revision, r);
    assert s.entries[r.ip] == r.read;
    if Steals(s, Execute(id)) {
      assert Entitled(s, r.read.value.node, r.ip);
    }
  }

  /** A committing renewal or release keeps every entitlement backed exactly when it does not steal. */
  lemma CommitKeepsBackedExactly(s: State, id: nat)
    requires Sound(s) && Backed(s) && Commits(s, Execute(id))
    ensures Backed(DoExecute(s, id)) <==> !Steals(s, Execute(id))
  {
    StolenFrom(s, id);
    hide Sound, Steals;
    var r := s.flight[id];
    var t := DoExecute(s, id);
    if m :| m != r.node && Entitled(s, m, r.ip) {
      assert Entitled(t, m, r.ip);
    } else {
      forall n: Node, ip: nat | Entitled(t, n, ip)
        ensures ip in t.entries && t.entries[ip].value == Lease(n, t.recorded[(n, ip)])
      {
        if (n, ip) != (r.node, r.ip) {
          assert Entitled(s, n, ip);
        }
      }
    }
  }

  lemma ClaimKeepsBacked(s: State, id: nat)
    requires Sound(s) && Backed(s) && id in s.flight && s.flight[id].ClaimRequest?
    ensures Backed(DoExecute(s, id))
  {
    var r := s.flight[id];
    var t := DoExecute(s, id);
    forall n: Node, ip: nat | Entitled(t, n, ip)
      ensures ip in t.entries && t.entries[ip].value == Lease(n, t.recorded[(n, ip)])
    {
      if Holds(s.entries, r.ip, r.compare) {
        if (n, ip) != (r.node, r.ip) {
          assert Entitled(s, n, ip);
        }
      } else {
        assert Entitled(s, n, ip);
      }
    }
  }

  lemma OthersKeepBacked(s: State, t: State)
    requires Backed(s) && WritesNothing(s, t)
    ensures Backed(t)
  {
    forall n: Node, ip: nat | Entitled(t, n, ip)
      ensures ip in t.entries && t.entries[ip].value == Lease(n, t.recorded[(n, ip)])
    {
      assert Entitled(s, n, ip);
    }
  }

  predicate WritesNothing(s: State, t: State) {
    t.entries == s.entries && t.recorded == s.recorded && t.clock >= s.clock
  }

  lemma ScanWritesNothing(s: State, n: Node)
    ensures WritesNothing(s, DoProbe(s, n)) && WritesNothing(s, DoAnswer(s, n)) && WritesNothing(s, DoGiveUp(s, n))
  {
    hide Occupied, Advance;
  }

  lemma HoldWritesNothing(s: State, n: Node, duration: nat)
    ensures WritesNothing(s, DoRenewRead(s, n)) && WritesNothing(s, DoRenewSend(s, n, duration))
    ensures WritesNothing(s, DoRelease(s, n))
  {
    hide Expiry;
  }

  /** A step that executes no transaction writes nothing. */
  lemma OthersWriteNothing(s: State, a: Action)
    requires !a.Execute?
    ensures WritesNothing(s, Step(s, a))
  {
    hide Expiry, DoProbe, DoAnswer, DoGiveUp, DoRenewRead, DoRenewSend, DoRelease;
    match a
    case Probe(n) => ScanWritesNothing(s, n);
    case Answer(n) => ScanWritesNothing(s, n);
    case GiveUp(n) => ScanWritesNothing(s, n);
    case RenewRead(n) => HoldWritesNothing(s, n, 0);
    case RenewSend(n, duration) => HoldWritesNothing(s, n, duration);
    case Release(n) => HoldWritesNothing(s, n, 0);
    case _ =>
  }

  lemma RefusedWritesNothing(s: State, id: nat)
    requires id in s.flight ==> !Holds(s.entries, s.flight[id].ip, CompareOf(s.flight[id]))
    ensures WritesNothing(s, DoExecute(s, id))
  {
    hide Holds;
  }

  lemma StepBackedExactly(s: State, a: Action)
    requires Sound(s) && Backed(s)
    ensures Backed(Step(s, a)) <==> !Steals(s, a)
  {
    hide Backed, Sound, DoExecute, Holds;
    if !a.Execute? {
      OthersWriteNothing(s, a);
      OthersKeepBacked(s, Step(s, a));
    } else if Commits(s, a) {
      CommitKeepsBackedExactly(s, a.id);
    } else if a.id in s.flight && s.flight[a.id].ClaimRequest? {
      ClaimKeepsBacked(s, a.id);
    } else {
      RefusedWritesNothing(s, a.id);
      OthersKeepBacked(s, Step(s, a));
    }
  }

  lemma OneEntitled(s: State, n: Node, m: Node, ip: nat)
    requires Backed(s) && Entitled(s, n, ip) && Entitled(s, m, ip)
    ensures n == m
  {
  }

  /**
   * In every run: up to any state, every entitled process finds its own record in the store if and only
   * if no renewal or release so far took another process's unexpired lease.
   */
  lemma {:induction false} BackedExactly(h: History, n: nat)
    requires IsRun(h) && n < |h.states|
    ensures (forall i :: 0 <= i <= n ==> Backed(h.states[i])) <==> Unstolen(h, n)
  {
    hide Step, Backed, Sound, Steals;
    if n == 0 {
      FirstBacked(h.states[0]);
    } else {
      BackedExactly(h, n - 1);
      assert Linked(h, n - 1);
      if forall i :: 0 <= i <= n - 1 ==> Backed(h.states[i]) {
        AlwaysSound(h, n - 1);
        StepBackedExactly(h.states[n - 1], h.actions[n - 1]);
        assert StealsAt(h, n - 1) <==> !Backed(h.states[n]);
      } else {
        var i :| 0 <= i < n - 1 && StealsAt(h, i);
      }
    }
  }

  /** A renewal or release in time finds its own record, so a timely run steals nothing. */
  lemma TimelyStealsNothing(h: History, n: nat)
    requires TimelyRun(h) && n < |h.states|
    ensures Unstolen(h, n)
  {
    hide Step, Backed, Sound, Steals, Timely;
    var i := 0;
    while i < n
      invariant 0 <= i <= n
      invariant Unstolen(h, i)
    {
      BackedExactly(h, i);
      AlwaysSound(h, i);
      assert TimelyAt(h, i);
      TimelyStep(h.states[i], h.actions[i]);
      assert !StealsAt(h, i);
      i := i + 1;
    }
  }

  lemma TimelyStep(s: State, a: Action)
    requires Sound(s) && Backed(s) && Timely(s, a)
    ensures !Steals(s, a)
  {
    if Commits(s, a) {
      StolenFrom(s, a.id);
      hide Sound, Steals;
      var r := s.flight[a.id];
      forall m | Entitled(s, m, r.ip) ensures m == r.node {
        OneEntitled(s, m, r.node, r.ip);
      }
    }
  }

  lemma AlwaysBacked(h: History, n: nat)
    requires TimelyRun(h) && n < |h.states|
    ensures Backed(h.states[n])
  {
    TimelyStealsNothing(h, n);
    BackedExactly(h, n);
  }

  lemma FirstBacked(s: State)
    requires Initial(s)
    ensures Backed(s)
  {
  }

  /**
   * Exclusivity: while what one process recorded for its address is unexpired, no other process is
   * granted the address, over every interleaving of scans, lost answers, late transactions, renewals
   * and releases that steal nothing.
   */
  lemma Exclusive(h: History, i: nat, n: Node, m: Node, ip: nat)
    requires IsRun(h) && i < |h.states| && Unstolen(h, i) && n != m
    requires Uses(h.states[i], n, ip) && Uses(h.states[i], m, ip)
    ensures var s := h.states[i];
            && (n, ip) in s.recorded && (m, ip) in s.recorded
            && (s.recorded[(n, ip)] <= s.clock || s.recorded[(m, ip)] <= s.clock)
  {
    AlwaysSound(h, i);
    BackedExactly(h, i);
    hide Unstolen;
    var s := h.states[i];
    if Entitled(s, n, ip) && Entitled(s, m, ip) {
      OneEntitled(s, n, m, ip);
      assert false;
    }
  }

  /** In particular when every renewal and release commits before its holder's recorded expiry. */
  lemma TimelyExclusive(h: History, i: nat, n: Node, m: Node, ip: nat)
    requires TimelyRun(h) && i < |h.states| && n != m
    requires Uses(h.states[i], n, ip) && Uses(h.states[i], m, ip)
    ensures var s := h.states[i];
            && (n, ip) in s.recorded && (m, ip) in s.recorded
            && (s.recorded[(n, ip)] <= s.clock || s.recorded[(m, ip)] <= s.clock)
  {
    TimelyStealsNothing(h, i);
    hide TimelyAt, Unstolen, Uses;
    Exclusive(h, i, n, m, ip);
  }

  // --------------------------------------- an untimely renewal breaks it

  /** The state a run ends in. */
  function Last(h: History): State
    requires |h.states| > 0
  {
    h.states[|h.states| - 1]
  }

  /** Any step can follow any run. */
  lemma Do(h: History, a: Action) returns (longer: History)
    requires IsRun(h)
    ensures IsRun(longer) && |longer.states| > 0 && Last(longer) == Step(Last(h), a)
  {
    hide Step;
    longer := History(h.states + [Step(Last(h), a)], h.actions + [a]);
    forall i | 0 <= i < |longer.actions| ensures Linked(longer, i) {
      if i < |h.actions| {
        assert Linked(h, i);
      }
    }
  }

  /** The state after `Begin` and `Probe` of a free address: its claim is under way. */
  lemma ClaimSent(s: State, n: Node, ip: nat, duration: nat, r: Request)
    requires ProcessOf(s, n).Idle? && !Occupied(s.entries, ip, s.clock)
    requires r == ClaimRequest(n, ip, if ip in s.entries then Revision(s.entries[ip].revision) else Absent,
                               s.clock, Expiry(s.clock, duration))
    ensures Step(Step(s, Begin(n, ip, ip, duration)), Probe(n)) ==
      Send(Become(s, n, Claiming(ip, Scan(ip, s.clock, r.expires), s.nextId)), r)
  {
    hide Expiry;
    var scan := Scan(ip, s.clock, r.expires);
    assert Step(s, Begin(n, ip, ip, duration)) == Become(s, n, Probing(ip, scan));
    var claiming := Claiming(ip, scan, s.nextId);
    assert s.processes[n := Probing(ip, scan)][n := claiming] == s.processes[n := claiming];
  }

  lemma ClaimExecuted(s: State, n: Node, ip: nat, duration: nat)
    requires ProcessOf(s, n).Idle? && !Occupied(s.entries, ip, s.clock) && s.nextId !in s.flight
    ensures var t := Step(Step(Step(s, Begin(n, ip, ip, duration)), Probe(n)), Execute(s.nextId));
            var expires := Expiry(s.clock, duration);
            t == s.(
              processes := s.processes[n := Claiming(ip, Scan(ip, s.clock, expires), s.nextId)],
              nextId := s.nextId + 1,
              answers := s.answers[s.nextId := true],
              entries := s.entries[ip := Entry(Lease(n, expires), s.revision + 1)],
              revision := s.revision + 1,
              recorded := s.recorded[(n, ip) := expires])
  {
    hide Expiry, Step, Occupied;
    var compare := if ip in s.entries then Revision(s.entries[ip].revision) else Absent;
    var r := ClaimRequest(n, ip, compare, s.clock, Expiry(s.clock, duration));
    ClaimSent(s, n, ip, duration, r);
    var sent := Send(Become(s, n, Claiming(ip, Scan(ip, s.clock, r.expires), s.nextId)), r);
    Executed(sent, s.nextId, r);
    assert sent.flight - {s.nextId} == s.flight;
  }

  lemma GrantSteps(s: State, n: Node, ip: nat, duration: nat)
    requires ProcessOf(s, n).Idle? && !Occupied(s.entries, ip, s.clock) && s.nextId !in s.flight
    ensures var t := Step(Step(Step(Step(s, Begin(n, ip, ip, duration)), Probe(n)), Execute(s.nextId)), Answer(n));
            && t.processes == s.processes[n := Holding(ip)] && t.clock == s.clock
            && t.entries == s.entries[ip := Entry(Lease(n, Expiry(s.clock, duration)), s.revision + 1)]
            && t.recorded == s.recorded[(n, ip) := Expiry(s.clock, duration)]
  {
    hide Expiry, Step, Occupied;
    ClaimExecuted(s, n, ip, duration);
    var done := Step(Step(Step(s, Begin(n, ip, ip, duration)), Probe(n)), Execute(s.nextId));
    Granted(done, n);
    assert s.processes[n := Holding(ip)] == done.processes[n := Holding(ip)];
  }

  lemma LastSound(h: History)
    requires IsRun(h)
    ensures |h.states| > 0 && Sound(Last(h))
  {
    hide Sound, Step;
    AlwaysSound(h, |h.states| - 1);
  }

  /** An undisturbed scan of one free address is granted it, and nobody else loses a record. */
  lemma FreeAddressGranted(h: History, n: Node, ip: nat, duration: nat) returns (longer: History)
    requires IsRun(h)
    requires var s := Last(h); ProcessOf(s, n).Idle? && !Occupied(s.entries, ip, s.clock)
    ensures IsRun(longer)
    ensures var s, t := Last(h), Last(longer);
            && t.processes == s.processes[n := Holding(ip)] && t.clock == s.clock
            && t.entries == s.entries[ip := Entry(Lease(n, Expiry(s.clock, duration)), s.revision + 1)]
            && t.recorded == s.recorded[(n, ip) := Expiry(s.clock, duration)]
  {
    hide Expiry, Step, Occupied, Sound, IsRun, ProcessOf;
    LastSound(h);
    var s := Last(h);
    FreshId(s);
    GrantSteps(s, n, ip, duration);
    longer := Do(h, Begin(n, ip, ip, duration));
    longer := Do(longer, Probe(n));
    longer := Do(longer, Execute(s.nextId));
    longer := Do(longer, Answer(n));
  }

  lemma Granted(s: State, n: Node)
    requires ProcessOf(s, n).Claiming? && ProcessOf(s, n).id in s.answers && s.answers[ProcessOf(s, n).id]
    ensures Step(s, Answer(n)) == Become(s, n, Holding(ProcessOf(s, n).ip))
  {
  }

  lemma RenewSteps(s: State, n: Node, ip: nat, duration: nat)
    requires ProcessOf(s, n) == Holding(ip) && ip in s.entries
    ensures var t := Step(Step(Step(s, RenewRead(n)), RenewSend(n, duration)), Execute(s.nextId));
            && t.clock == s.clock && t.processes == s.processes[n := Holding(ip)]
            && t.entries == s.entries[ip := Entry(Lease(n, Expiry(s.clock, duration)), s.revision + 1)]
            && t.recorded == s.recorded[(n, ip) := Expiry(s.clock, duration)]
  {
    hide Expiry, DoExecute;
    var r := RenewRequest(n, ip, s.entries[ip], Expiry(s.clock, duration));
    var read := Become(s, n, Renewing(ip, s.entries[ip]));
    var sent := Send(Become(read, n, Holding(ip)), r);
    assert Step(s, RenewRead(n)) == read;
    assert Step(read, RenewSend(n, duration)) == sent;
    assert sent.processes == s.processes[n := Holding(ip)];
    hide Step;
    Executed(sent, s.nextId, r);
  }

  /** A renewal takes the record over, whoever it belongs to by then: no owner is compared. */
  lemma RenewalTakesOver(h: History, n: Node, ip: nat, duration: nat) returns (longer: History)
    requires IsRun(h)
    requires ProcessOf(Last(h), n) == Holding(ip) && ip in Last(h).entries
    ensures IsRun(longer)
    ensures var s, t := Last(h), Last(longer);
            && t.clock == s.clock && t.processes == s.processes[n := Holding(ip)]
            && t.entries == s.entries[ip := Entry(Lease(n, Expiry(s.clock, duration)), s.revision + 1)]
            && t.recorded == s.recorded[(n, ip) := Expiry(s.clock, duration)]
  {
    hide Expiry, Step;
    RenewSteps(Last(h), n, ip, duration);
    longer := Do(h, RenewRead(n));
    longer := Do(longer, RenewSend(n, duration));
    longer := Do(longer, Execute(Last(h).nextId));
  }

  lemma Executed(s: State, id: nat, r: Request)
    requires id in s.flight && s.flight[id] == r && !r.ReleaseRequest? && Holds(s.entries, r.ip, CompareOf(r))
    ensures Step(s, Execute(id)) == s.(
      flight := s.flight - {id},
      answers := s.answers[id := true],
      entries := s.entries[r.ip := Entry(Lease(r.node, r.expires), s.revision + 1)],
      revision := s.revision + 1,
      recorded := s.recorded[(r.node, r.ip) := r.expires])
  {
  }

  /**
   * Process 1 renews after its lease has expired and gone to process 2: both use the address,
   * neither lease has expired.
   */
  lemma LateRenewalShares(ip: nat) returns (h: History)
    ensures IsRun(h) && |h.states| > 0
    ensures var s := Last(h); Uses(s, 1, ip) && Uses(s, 2, ip) && Entitled(s, 1, ip) && Entitled(s, 2, ip)
  {
    hide Step, Occupied;
    h := EmptyStore();
    h := FreeAddressGranted(h, 1, ip, SECOND);
    h := Elapse(h, SECOND);
    LeaseOver(Last(h), 1, ip);
    h := FreeAddressGranted(h, 2, ip, SECOND);
    h := RenewalTakesOver(h, 1, ip, SECOND);
  }

  lemma EmptyStore() returns (h: History)
    ensures IsRun(h) && Last(h) == State(0, map[], 0, map[], map[], 0, map[], map[])
    ensures forall ip :: !Occupied(Last(h).entries, ip, Last(h).clock)
  {
    h := History([State(0, map[], 0, map[], map[], 0, map[], map[])], []);
  }

  lemma Elapse(h: History, time: nat) returns (longer: History)
    requires IsRun(h)
    ensures IsRun(longer) && Last(longer) == Last(h).(clock := Last(h).clock + time)
  {
    longer := Do(h, Tick(time));
  }

  lemma LeaseOver(s: State, n: Node, ip: nat)
    requires ip in s.entries && s.entries[ip].value == Lease(n, Expiry(0, SECOND)) && s.clock == SECOND
    ensures !Occupied(s.entries, ip, s.clock)
  {
  }
}
