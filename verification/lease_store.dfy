/** Pool addresses and the sequential address scan (parseIPv4 and acquire in internal/tun/kvclient.go). */
module LeaseStore {
  import opened Common

  const LIMIT: nat := 0x1_0000_0000

  /** The four numbers Sscanf finds in a pool address, if it finds them. */
  datatype Quad = Quad(a: int, b: int, c: int, d: int)

  function ParseIPv4(scanned: Option<Quad>): Option<nat> {
    match scanned
    case None => None
    case Some(Quad(a, b, c, d)) =>
      if a < 1 || a > 254 || b < 0 || b > 255 || c < 0 || c > 255 || d < 1 || d > 254 then None
      else Some(a * 0x100_0000 + b * 0x1_0000 + c * 0x100 + d)
  }

  /** The numbers in an address's key, leases/by-ip/a.b.c.d. */
  function Key(ip: nat): Quad {
    Quad(ip / 0x100_0000 % 0x100, ip / 0x1_0000 % 0x100, ip / 0x100 % 0x100, ip % 0x100)
  }

  /** Different addresses have different keys, and an address is read back from its key. */
  lemma KeyInjective(x: nat, y: nat)
    requires x < LIMIT && y < LIMIT
    ensures Key(x) == Key(y) <==> x == y
  {
    KeyValue(x);
    KeyValue(y);
  }

  lemma KeyValue(x: nat)
    requires x < LIMIT
    ensures x == Key(x).a * 0x100_0000 + Key(x).b * 0x1_0000 + Key(x).c * 0x100 + Key(x).d
  {
    assert x / 0x1_0000 == x / 0x100 / 0x100 && x / 0x100_0000 == x / 0x1_0000 / 0x100;
  }

  /** Appending one number to an address and taking it off again. */
  lemma LastNumber(upper: nat, number: nat)
    requires number < 0x100
    ensures (upper * 0x100 + number) / 0x100 == upper && (upper * 0x100 + number) % 0x100 == number
  {
  }

  lemma Quotients(x: nat)
    ensures x / 0x1_0000 == x / 0x100 / 0x100
    ensures x / 0x100_0000 == x / 0x100 / 0x100 / 0x100
  {
  }

  /**
   * Four numbers are an address exactly when the outer ones are 1 to 254 and the inner ones 0 to 255. It
   * then has the key it was written as, and counting past it cannot wrap around.
   */
  lemma ParsedKey(quad: Quad)
    ensures ParseIPv4(Some(quad)).Some? <==>
      1 <= quad.a <= 254 && 0 <= quad.b <= 255 && 0 <= quad.c <= 255 && 1 <= quad.d <= 254
    ensures ParseIPv4(Some(quad)).Some? ==>
      var ip := ParseIPv4(Some(quad)).value;
      ip + 1 < LIMIT - 1 && Key(ip) == quad
  {
    var Quad(a, b, c, d) := quad;
    if ParseIPv4(Some(quad)).Some? {
      var ab := a * 0x100 + b;
      var abc := ab * 0x100 + c;
      var ip := abc * 0x100 + d;
      assert ip == ParseIPv4(Some(quad)).value;
      LastNumber(abc, d);
      LastNumber(ab, c);
      LastNumber(a, b);
      Quotients(ip);
      assert ip / 0x100 == abc;
      assert ip / 0x1_0000 == ab;
      assert ip / 0x100_0000 == a;
    }
  }

  // ------------------------------------------------------------- the store

  type Node = nat

  /** A lease record; Unreadable stands for every value without a usable expiry. */
  datatype Value = Lease(node: Node, expires: nat) | Unreadable

  datatype Entry = Entry(value: Value, revision: nat)

  datatype Compare = Absent | Revision(revision: nat)

  type Entries = map<nat, Entry>

  predicate Holds(entries: Entries, ip: nat, compare: Compare) {
    match compare
    case Absent => ip !in entries
    case Revision(r) => ip in entries && entries[ip].revision == r
  }

  /** The record keeps others away from its address. */
  predicate LiveAt(value: Value, now: nat) {
    value.Lease? && value.expires > now
  }

  predicate Occupied(entries: Entries, ip: nat, now: nat) {
    ip in entries && LiveAt(entries[ip].value, now)
  }

  const SECOND: nat := 1_000_000_000

  /** RFC 3339 text without a fraction drops the part of a second. */
  function Expiry(now: nat, duration: nat): (t: nat)
    ensures t <= now + duration < t + SECOND && t % 1_000_000_000 == 0
  {
    (now + duration) - (now + duration) % SECOND
  }

  class KvStore {
    var entries: Entries
    var revision: nat
    // Addresses whose requests fail.
    const getFails: set<nat>
    const txnFails: set<nat>

    constructor (entries: Entries, revision: nat, getFails: set<nat>, txnFails: set<nat>)
      ensures this.entries == entries && this.revision == revision
      ensures this.getFails == getFails && this.txnFails == txnFails
    {
      this.entries, this.revision, this.getFails, this.txnFails := entries, revision, getFails, txnFails;
    }

    method Txn(ip: nat, compare: Compare, value: Value) returns (ok: bool)
      modifies this
      ensures ok == (ip !in txnFails && Holds(old(entries), ip, compare))
      ensures ok ==> revision == old(revision) + 1 && entries == old(entries)[ip := Entry(value, revision)]
      ensures !ok ==> entries == old(entries) && revision == old(revision)
    {
      ok := ip !in txnFails && Holds(entries, ip, compare);
      if ok {
        revision := revision + 1;
        entries := entries[ip := Entry(value, revision)];
      }
    }
  }

  datatype Acquired = Acquired(ip: nat) | BadPool | GetFailed | Exhausted

  /** The scan goes on past an address that is occupied or cannot be written. */
  ghost predicate Skipped(store: KvStore, entries: Entries, now: nat, ip: nat) {
    ip !in store.getFails && (Occupied(entries, ip, now) || ip in store.txnFails)
  }

  ghost predicate Passed(store: KvStore, entries: Entries, now: nat, from: nat, to: nat) {
    forall j :: from <= j < to ==> Skipped(store, entries, now, j)
  }

  /** The free address was written, or the scan goes on, or reading the address failed. */
  datatype Attempt = Written | Next | NotRead

  /** One address of the scan: read it, skip it if occupied, else claim it for what was read. */
  method TryAddress(store: KvStore, ip: nat, now: nat, lease: Value) returns (outcome: Attempt)
    modifies store
    ensures outcome.NotRead? <==> ip in store.getFails
    ensures outcome.Next? ==> Skipped(store, old(store.entries), now, ip)
    ensures var was := old(store.entries);
            (ip in was && was[ip].value.Lease? && was[ip].value.expires > now ==> !outcome.Written?)
            && (ip !in was || was[ip].value.Unreadable? || was[ip].value.expires <= now ==>
                  ip !in store.getFails && ip !in store.txnFails ==> outcome.Written?)
    ensures outcome.Written? ==>
      && ip !in store.txnFails && !Occupied(old(store.entries), ip, now)
      && store.entries == old(store.entries)[ip := Entry(lease, store.revision)]
    ensures !outcome.Written? ==> store.entries == old(store.entries)
  {
    if ip in store.getFails {
      return NotRead;
    }
    var compare := Absent;
    if ip in store.entries {
      var entry := store.entries[ip];
      if LiveAt(entry.value, now) {
        return Next;
      }
      compare := Revision(entry.revision);
    }
    var ok := store.Txn(ip, compare, lease);
    return if ok then Written else Next;
  }

  /** What one scan of the addresses from `first` to `last` found and changed. */
  ghost predicate Scanned(store: KvStore, before: Entries, after: Entries, now: nat, first: nat, last: nat,
                          lease: Value, result: Acquired)
    reads store
  {
    match result
    case BadPool => false
    case Acquired(ip) =>
      && first <= ip <= last && Passed(store, before, now, first, ip)
      && ip !in store.getFails && ip !in store.txnFails && !Occupied(before, ip, now)
      && after == before[ip := Entry(lease, store.revision)]
    case GetFailed =>
      && after == before
      && exists ip :: first <= ip <= last && ip in store.getFails && Passed(store, before, now, first, ip)
    case Exhausted => after == before && Passed(store, before, now, first, last + 1)
  }

  /** The next address in a 32-bit counter; a parsed end of the pool keeps it from wrapping around. */
  function NextAddress(ip: nat): nat {
    (ip + 1) % LIMIT
  }

  lemma NoWrap(ip: nat)
    requires ip + 1 < LIMIT
    ensures NextAddress(ip) == ip + 1
  {
  }

  method ScanPool(store: KvStore, first: nat, last: nat, now: nat, lease: Value) returns (result: Acquired)
    requires last + 1 < LIMIT
    modifies store
    ensures Scanned(store, old(store.entries), store.entries, now, first, last, lease, result)
  {
    hide Passed, Skipped, Occupied, NextAddress;
    NonePassed(store, store.entries, now, first);
    var ip := first;
    while ip <= last
      invariant first <= ip && (ip <= last || ip == Max(first, last + 1))
      invariant store.entries == old(store.entries)
      invariant Passed(store, store.entries, now, first, ip)
      decreases last + 1 - ip
    {
      var outcome := TryAddress(store, ip, now, lease);
      if outcome == NotRead {
        return GetFailed;
      }
      if outcome == Written {
        return Acquired(ip);
      }
      OnePassed(store, store.entries, now, first, ip);
      NoWrap(ip);
      ip := NextAddress(ip);
    }
    AllPassed(store, store.entries, now, first, ip, last + 1);
    return Exhausted;
  }

  lemma NonePassed(store: KvStore, entries: Entries, now: nat, from: nat)
    ensures Passed(store, entries, now, from, from)
  {
  }

  lemma OnePassed(store: KvStore, entries: Entries, now: nat, from: nat, to: nat)
    requires Passed(store, entries, now, from, to) && Skipped(store, entries, now, to)
    ensures Passed(store, entries, now, from, to + 1)
  {
  }

  lemma AllPassed(store: KvStore, entries: Entries, now: nat, from: nat, to: nat, end: nat)
    requires Passed(store, entries, now, from, to) && end <= to
    ensures Passed(store, entries, now, from, end)
  {
  }

  /**
   * The scan takes the lowest address of the pool that is free and writable, changes nothing else,
   * and ends although the counter is an unsigned 32-bit number.
   */
  method Acquire(store: KvStore, poolStart: Option<Quad>, poolEnd: Option<Quad>, now: nat, duration: nat, node: Node)
    returns (result: Acquired)
    modifies store
    ensures result.BadPool? <==> ParseIPv4(poolStart).None? || ParseIPv4(poolEnd).None?
    ensures result.BadPool? ==> store.entries == old(store.entries)
    ensures !result.BadPool? ==>
      Scanned(store, old(store.entries), store.entries, now, ParseIPv4(poolStart).value, ParseIPv4(poolEnd).value,
              Lease(node, Expiry(now, duration)), result)
  {
    var start, end := ParseIPv4(poolStart), ParseIPv4(poolEnd);
    if start.None? || end.None? {
      return BadPool;
    }
    ParsedKey(poolStart.value);
    ParsedKey(poolEnd.value);
    hide ParseIPv4, Key, Passed, Occupied, Expiry;
    result := ScanPool(store, start.value, end.value, now, Lease(node, Expiry(now, duration)));
  }
}
