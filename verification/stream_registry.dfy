/** The receiver table and the frame handler that maintains it (OnStream in internal/tun/stream.go). */
module StreamRegistry {
  import opened Common
  import opened StreamLog
  import opened StreamSdk
  import opened StreamReceiver
  import StreamCodec

  datatype Entry = Entry(peer: nat, receiver: Receiver)

  /** Receivers by stream ID, and those that were removed from the table. */
  datatype Registry = Registry(live: map<nat, Entry>, retired: set<Entry>)

  datatype Inbound =
    | OpenFrame(sender: nat, session: Session, id: nat, epoch: nat, window: nat)
    | DataFrame(id: nat, epoch: nat, offset: nat, payload: Bytes, sdk: Answers)
    | ResumeFrame(id: nat, session: Session, epoch: nat, sdk: Answers)
    | CloseFrame(id: nat)

  predicate Superseded(live: map<nat, Entry>, sender: nat, id: nat, other: nat) {
    other in live && other != id && live[other].peer == sender
  }

  function Stopped(e: Entry): Entry {
    e.(receiver := StopAcks(e.receiver))
  }

  /** Drops every other receiver of the sender, then creates or re-targets the one opened. */
  function OnOpen(reg: Registry, sender: nat, session: Session, id: nat, epoch: nat, window: nat): Registry {
    var kept := map k | k in reg.live && !Superseded(reg.live, sender, id, k) :: reg.live[k];
    var gone := set k | k in reg.live && Superseded(reg.live, sender, id, k) :: Stopped(reg.live[k]);
    var entry := if id in reg.live then Entry(reg.live[id].peer, SetSession(reg.live[id].receiver, session))
                 else Entry(sender, NewReceiver(session, epoch, window));
    Registry(kept[id := entry], reg.retired + gone)
  }

  function OnFrame(reg: Registry, f: Inbound): Registry {
    match f
    case OpenFrame(sender, session, id, epoch, window) => OnOpen(reg, sender, session, id, epoch, window)
    case DataFrame(id, epoch, offset, payload, sdk) =>
      if id !in reg.live then reg
      else
        var e := reg.live[id];
        reg.(live := reg.live[id := e.(receiver := OnData(e.receiver, epoch, offset, payload, sdk))])
    case ResumeFrame(id, session, epoch, sdk) =>
      if id !in reg.live then reg
      else
        var e := reg.live[id];
        reg.(live := reg.live[id := e.(receiver := OnResume(e.receiver, session, epoch, sdk))])
    case CloseFrame(id) =>
      if id !in reg.live then reg
      else Registry(reg.live - {id}, reg.retired + {Stopped(reg.live[id])})
  }

  function Run(frames: seq<Inbound>): Registry {
    if frames == [] then Registry(map[], {}) else OnFrame(Run(frames[..|frames| - 1]), frames[|frames| - 1])
  }

  ghost predicate OnePerPeer(live: map<nat, Entry>) {
    forall a, b :: a in live && b in live && live[a].peer == live[b].peer ==> a == b
  }

  ghost predicate RegistryOk(reg: Registry) {
    && OnePerPeer(reg.live)
    && (forall id :: id in reg.live ==> !reg.live[id].receiver.stopped)
    && (forall e :: e in reg.retired ==> e.receiver.stopped && e.receiver.pending.None?)
  }

  /** Data, Resume and a repeated Open leave a receiver running; a removal stops it. */
  lemma StillRunning(r: Receiver, epoch: nat, offset: nat, payload: Bytes, session: Session, sdk: Answers)
    ensures OnData(r, epoch, offset, payload, sdk).stopped == r.stopped
    ensures OnResume(r, session, epoch, sdk).stopped == r.stopped
  {
  }

  lemma OpenKeeps(reg: Registry, sender: nat, session: Session, id: nat, epoch: nat, window: nat)
    requires RegistryOk(reg)
    ensures RegistryOk(OnOpen(reg, sender, session, id, epoch, window))
  {
  }

  lemma FrameKeeps(reg: Registry, f: Inbound)
    requires RegistryOk(reg)
    ensures RegistryOk(OnFrame(reg, f))
  {
    hide OnData, OnResume, OnOpen;
    match f
    case OpenFrame(sender, session, id, epoch, window) => OpenKeeps(reg, sender, session, id, epoch, window);
    case DataFrame(id, epoch, offset, payload, sdk) =>
      if id in reg.live {
        StillRunning(reg.live[id].receiver, epoch, offset, payload, NO_SESSION, sdk);
      }
    case ResumeFrame(id, session, epoch, sdk) =>
      if id in reg.live {
        StillRunning(reg.live[id].receiver, epoch, 0, [], session, sdk);
      }
    case CloseFrame(_) =>
  }

  /** Over any sequence of frames: one live receiver per peer, and every removed one is stopped. */
  lemma {:induction false} RegistryAlwaysOk(frames: seq<Inbound>)
    ensures RegistryOk(Run(frames))
  {
    if frames != [] {
      RegistryAlwaysOk(frames[..|frames| - 1]);
      FrameKeeps(Run(frames[..|frames| - 1]), frames[|frames| - 1]);
    }
  }

  /** While an ID stays registered, nothing, and no repeated Open, rewinds what it delivered. */
  lemma {:induction false} LiveNeverRewinds(frames: seq<Inbound>, from: nat, id: nat)
    requires from <= |frames|
    requires id in Run(frames).live && (forall k :: from <= k <= |frames| ==> id in Run(frames[..k]).live)
    ensures var before, after := Run(frames[..from]).live[id], Run(frames).live[id];
            && before.receiver.state.next <= after.receiver.state.next
            && before.receiver.accepted <= after.receiver.accepted
            && before.peer == after.peer
    decreases |frames|
  {
    assert frames[..|frames|] == frames;
    if from < |frames| {
      var shorter := frames[..|frames| - 1];
      forall k | from <= k <= |shorter| ensures id in Run(shorter[..k]).live {
        assert shorter[..k] == frames[..k];
      }
      LiveNeverRewinds(shorter, from, id);
      assert shorter[..from] == frames[..from] && shorter == frames[..|shorter|];
      StepNeverRewinds(Run(shorter), frames[|frames| - 1], id);
    }
  }

  lemma StepNeverRewinds(reg: Registry, f: Inbound, id: nat)
    requires id in reg.live && id in OnFrame(reg, f).live
    ensures var before, after := reg.live[id], OnFrame(reg, f).live[id];
            && before.receiver.state.next <= after.receiver.state.next
            && before.receiver.accepted <= after.receiver.accepted
            && before.peer == after.peer
  {
    if f.OpenFrame? {
      assert !Superseded(reg.live, f.sender, f.id, id);
    }
  }

  // ------------------------------------------------------- the runtime's table

  class TunDevice {
    var written: seq<Packet>

    constructor ()
      ensures written == []
    {
      written := [];
    }

    method WritePacket(packet: Packet)
      modifies this
      ensures written == old(written) + [packet]
    {
      written := written + [packet];
    }
  }

  class ReceiverTable {
    var streamRecv: map<nat, ReceiverObject>
    const device: TunDevice
    const wire: FrameLog
    ghost var retired: set<ReceiverObject>

    constructor (device: TunDevice, wire: FrameLog)
      ensures Valid() && streamRecv == map[] && retired == {} && this.device == device && this.wire == wire
    {
      this.device, this.wire := device, wire;
      streamRecv, retired := map[], {};
    }

    /** Distinct IDs map to distinct, unstopped receivers of distinct peers; removed receivers are stopped. */
    ghost predicate Valid()
      reads this, streamRecv.Values, retired
    {
      && (forall id :: id in streamRecv ==>
            streamRecv[id].id == id && streamRecv[id].Valid() && !streamRecv[id].ackStopped)
      && (forall a, b :: a in streamRecv && b in streamRecv && streamRecv[a].peer == streamRecv[b].peer ==> a == b)
      && (forall r :: r in retired ==> r.Valid() && r.ackStopped && r.ackPending.None?)
      && streamRecv.Values !! retired
    }

    /** The table as the specification of the frame handler sees it. */
    ghost function Abs(): Registry
      reads this, streamRecv.Values, retired
    {
      Registry(map id | id in streamRecv :: Entry(streamRecv[id].peer, streamRecv[id].Abs()),
               set r | r in retired :: Entry(r.peer, r.Abs()))
    }

    /** The IDs under which the sender has other receivers. */
    static ghost function Others(table: map<nat, ReceiverObject>, sender: nat, id: nat): set<nat> {
      set k | k in table && k != id && table[k].peer == sender
    }

    /** The receivers that the table has under some IDs. */
    static ghost function Named(table: map<nat, ReceiverObject>, ids: set<nat>): set<ReceiverObject> {
      set k | k in ids && k in table :: table[k]
    }

    /** Takes one receiver out of the table and stops its ACK writer. */
    method Retire(k: nat)
      requires Valid() && k in streamRecv
      modifies this`streamRecv, this`retired, streamRecv[k]
      ensures Valid()
      ensures streamRecv == old(streamRecv) - {k} && retired == old(retired) + {old(streamRecv[k])}
      ensures old(streamRecv)[k].Abs() == StopAcks(old(streamRecv[k].Abs()))
    {
      hide StopAcks, ReceiverObject.Abs, ReceiverObject.Valid;
      var receiver := streamRecv[k];
      streamRecv := streamRecv - {k};
      receiver.Stop();
      retired := retired + {receiver};
    }

    /** Different IDs have different receivers, none of them removed. */
    lemma Distinct()
      requires Valid()
      ensures streamRecv.Values !! retired && forall k :: k in streamRecv ==>
        streamRecv[k].id == k && streamRecv[k].Valid()
      ensures forall a, b :: a in streamRecv && b in streamRecv && a != b ==> streamRecv[a] != streamRecv[b]
    {
    }

    static lemma OneMore(start: map<nat, ReceiverObject>, gone: set<nat>, k: nat)
      requires gone <= start.Keys && k in start
      ensures (start - gone) - {k} == start - (gone + {k})
      ensures Named(start, gone + {k}) == Named(start, gone) + {start[k]}
    {
    }

    /** One ID was looked at; it goes if it is one of the others. */
    static lemma OneLess(start: map<nat, ReceiverObject>, sender: nat, id: nat, gone: set<nat>, todo: set<nat>, k: nat)
      requires gone == Others(start, sender, id) - todo && k in todo && k in start
      ensures if k != id && start[k].peer == sender then gone + {k} == Others(start, sender, id) - (todo - {k})
              else gone == Others(start, sender, id) - (todo - {k})
    {
    }

    /** Removes and stops every other receiver of the sender, in any map order. */
    method RetireOthers(sender: nat, id: nat)
      requires Valid()
      modifies this`streamRecv, this`retired, streamRecv.Values
      ensures Valid()
      ensures streamRecv == old(streamRecv - Others(streamRecv, sender, id))
      ensures retired == old(retired + Named(streamRecv, Others(streamRecv, sender, id)))
      ensures forall k :: k in old(streamRecv) && k in streamRecv ==> unchanged(old(streamRecv)[k])
      ensures forall k :: k in old(streamRecv) && k !in streamRecv ==>
        old(streamRecv)[k].Abs() == StopAcks(old(streamRecv[k].Abs()))
    {
      hide StopAcks, ReceiverObject.Abs, ReceiverObject.Valid, Valid, Others, Named;
      Distinct();
      var todo := streamRecv.Keys;
      ghost var start := streamRecv;
      ghost var gone: set<nat> := {};
      OthersListed(start, sender, id);
      while todo != {}
        invariant todo <= start.Keys && gone <= start.Keys && gone == Others(start, sender, id) - todo
        invariant streamRecv == start - gone
        invariant forall k :: k in start && k !in gone ==> unchanged(start[k])
        invariant forall k :: k in gone ==> start[k].Abs() == StopAcks(old(streamRecv[k].Abs()))
        invariant Valid()
        invariant retired == old(retired) + Named(start, gone)
        decreases todo
      {
        var k :| k in todo;
        OneLess(start, sender, id, gone, todo, k);
        todo := todo - {k};
        if k != id && streamRecv[k].peer == sender {
          Retire(k);
          OneMore(start, gone, k);
          gone := gone + {k};
        }
      }
      assert gone == Others(start, sender, id);
    }

    static lemma OthersListed(table: map<nat, ReceiverObject>, sender: nat, id: nat)
      ensures Others(table, sender, id) - table.Keys == {} && Named(table, {}) == {}
    {
    }

    /** Creates the opened receiver, or re-targets the live one, which keeps its offset. */
    method Register(sender: nat, session: Session, id: nat, epoch: nat, window: nat)
      requires Valid() && Others(streamRecv, sender, id) == {}
      modifies this`streamRecv, if id in streamRecv then {streamRecv[id]} else {}
      ensures Valid()
      ensures id in streamRecv
      ensures id in old(streamRecv) ==>
        && streamRecv == old(streamRecv) && streamRecv[id].Abs() == SetSession(old(streamRecv[id].Abs()), session)
        && streamRecv[id].targetSession == if session != NO_SESSION then session else old(streamRecv[id].targetSession)
      ensures id !in old(streamRecv) ==>
        && streamRecv - {id} == old(streamRecv)
        && streamRecv[id].peer == sender && streamRecv[id].Abs() == NewReceiver(session, epoch, window)
        && streamRecv[id].targetSession == session && streamRecv[id].epoch == epoch && streamRecv[id].next == 0
    {
      hide SetSession, NewReceiver, ReceiverObject.Abs, ReceiverObject.Valid;
      if id in streamRecv {
        streamRecv[id].SetTargetSession(session);
      } else {
        var receiver := new ReceiverObject(sender, id, session, epoch, window);
        assert forall k :: k in streamRecv ==> k !in Others(streamRecv, sender, id);
        streamRecv := streamRecv[id := receiver];
      }
    }

    /** The table part of an Open: retire the sender's other receivers, then register. */
    method OpenReceiver(sender: nat, session: Session, id: nat, epoch: nat, window: nat)
      requires Valid()
      modifies this`streamRecv, this`retired, streamRecv.Values
      ensures Valid() && id in streamRecv
      ensures old(streamRecv) - Others(old(streamRecv), sender, id) - {id} == streamRecv - {id}
      ensures forall k :: k in old(streamRecv) && k in streamRecv && k != id ==> unchanged(old(streamRecv)[k])
      ensures if id in old(streamRecv)
              then streamRecv[id] == old(streamRecv)[id]
                && streamRecv[id].Abs() == SetSession(old(streamRecv[id].Abs()), session)
              else streamRecv[id].peer == sender && streamRecv[id].Abs() == NewReceiver(session, epoch, window)
      ensures streamRecv[id].targetSession ==
              if session != NO_SESSION || id !in old(streamRecv) then session else old(streamRecv[id].targetSession)
      ensures retired == old(retired + Named(streamRecv, Others(streamRecv, sender, id)))
      ensures forall k :: k in old(streamRecv) && k !in streamRecv ==>
        old(streamRecv)[k].Abs() == StopAcks(old(streamRecv[k].Abs()))
    {
      hide StopAcks, SetSession, NewReceiver, ReceiverObject.Abs, ReceiverObject.Valid, Valid, Others;
      Distinct();
      NoOthersLeft(streamRecv, sender, id);
      RetireOthers(sender, id);
      Register(sender, session, id, epoch, window);
    }

    static lemma NoOthersLeft(table: map<nat, ReceiverObject>, sender: nat, id: nat)
      ensures Others(table - Others(table, sender, id), sender, id) == {}
      ensures id !in Others(table, sender, id)
    {
    }

    /** Who stays registered besides the opened receiver. */
    twostate lemma OthersGone(f: Inbound)
      requires f.OpenFrame?
      requires old(streamRecv) - Others(old(streamRecv), f.sender, f.id) - {f.id} == streamRecv - {f.id}
      ensures forall k :: k in streamRecv && k != f.id ==>
        k in old(streamRecv) && streamRecv[k] == old(streamRecv)[k] && streamRecv[k].peer != f.sender
      ensures forall k :: k in old(streamRecv) && k != f.id && old(streamRecv)[k].peer != f.sender ==> k in streamRecv
    {
      var others := Others(old(streamRecv), f.sender, f.id);
      forall k | k in streamRecv && k != f.id
        ensures k in old(streamRecv) && k !in others && streamRecv[k] == old(streamRecv)[k]
      {
        assert k in streamRecv - {f.id};
      }
      forall k | k in old(streamRecv) && k !in others && k != f.id ensures k in streamRecv {
        assert k in old(streamRecv) - others - {f.id};
      }
    }

    /** What an Open does to the live receivers is what the specification says. */
    twostate lemma OpenedLive(f: Inbound)
      requires f.OpenFrame?
      requires old(Valid()) && f.id in streamRecv
      requires old(streamRecv) - Others(old(streamRecv), f.sender, f.id) - {f.id} == streamRecv - {f.id}
      requires forall k :: k in old(streamRecv) && k in streamRecv && k != f.id ==>
        old(streamRecv)[k].Abs() == old(streamRecv[k].Abs())
      requires f.id in old(streamRecv) ==> streamRecv[f.id] == old(streamRecv)[f.id]
      requires f.id in old(streamRecv) ==> streamRecv[f.id].Abs() == SetSession(old(streamRecv[f.id].Abs()), f.session)
      requires f.id !in old(streamRecv) ==> streamRecv[f.id].peer == f.sender
      requires f.id !in old(streamRecv) ==> streamRecv[f.id].Abs() == NewReceiver(f.session, f.epoch, f.window)
      ensures Abs().live == OnFrame(old(Abs()), f).live
    {
      hide StopAcks, SetSession, NewReceiver, ReceiverObject.Abs, ReceiverObject.Valid;
      OthersGone(f);
      hide Others;
      var spec := OnFrame(old(Abs()), f).live;
      forall k | k in spec ensures k in Abs().live && Abs().live[k] == spec[k] {
        assert k != f.id ==> k in old(streamRecv) && old(streamRecv)[k].peer != f.sender;
      }
      forall k | k in Abs().live ensures k in spec {
        assert k != f.id ==> !Superseded(old(Abs()).live, f.sender, f.id, k);
      }
    }

    /** And so is what it does to the removed ones. */
    twostate lemma OpenedRetired(f: Inbound)
      requires f.OpenFrame?
      requires retired == old(retired + Named(streamRecv, Others(streamRecv, f.sender, f.id)))
      requires forall k :: k in Others(old(streamRecv), f.sender, f.id) ==>
        old(streamRecv)[k].Abs() == StopAcks(old(streamRecv[k].Abs()))
      requires forall r :: r in old(retired) ==> r.Abs() == old(r.Abs())
      ensures Abs().retired == OnFrame(old(Abs()), f).retired
    {
      hide StopAcks, SetSession, NewReceiver, ReceiverObject.Abs, ReceiverObject.Valid;
      var spec := OnFrame(old(Abs()), f);
      var others := Others(old(streamRecv), f.sender, f.id);
      forall e | e in Abs().retired ensures e in spec.retired {
        var r :| r in retired && e == Entry(r.peer, r.Abs());
        if r in old(retired) {
          assert r.Abs() == old(r.Abs());
          assert e in old(Abs()).retired;
        } else {
          var k :| k in others && r == old(streamRecv)[k];
          assert Superseded(old(Abs()).live, f.sender, f.id, k);
          assert e == Stopped(old(Abs()).live[k]);
        }
      }
      forall e | e in spec.retired ensures e in Abs().retired {
        if e in old(Abs()).retired {
          var r :| r in old(retired) && e == Entry(r.peer, old(r.Abs()));
          assert r in retired && r.Abs() == old(r.Abs());
        } else {
          var k :| k in others && e == Stopped(Entry(old(streamRecv)[k].peer, old(streamRecv[k].Abs())));
          assert old(streamRecv)[k] in retired;
        }
      }
    }

    twostate lemma OpenedAbs(f: Inbound)
      requires f.OpenFrame?
      requires old(Valid()) && f.id in streamRecv
      requires old(streamRecv) - Others(old(streamRecv), f.sender, f.id) - {f.id} == streamRecv - {f.id}
      requires forall k :: k in old(streamRecv) && k in streamRecv && k != f.id ==>
        old(streamRecv)[k].Abs() == old(streamRecv[k].Abs())
      requires f.id in old(streamRecv) ==> streamRecv[f.id] == old(streamRecv)[f.id]
      requires f.id in old(streamRecv) ==> streamRecv[f.id].Abs() == SetSession(old(streamRecv[f.id].Abs()), f.session)
      requires f.id !in old(streamRecv) ==> streamRecv[f.id].peer == f.sender
      requires f.id !in old(streamRecv) ==> streamRecv[f.id].Abs() == NewReceiver(f.session, f.epoch, f.window)
      requires retired == old(retired + Named(streamRecv, Others(streamRecv, f.sender, f.id)))
      requires forall k :: k in old(streamRecv) && k !in streamRecv ==>
        old(streamRecv)[k].Abs() == StopAcks(old(streamRecv[k].Abs()))
      requires forall r :: r in old(retired) ==> r.Abs() == old(r.Abs())
      ensures Abs() == OnFrame(old(Abs()), f)
    {
      hide StopAcks, SetSession, NewReceiver, ReceiverObject.Abs, ReceiverObject.Valid;
      OpenedLive(f);
      forall k | k in Others(old(streamRecv), f.sender, f.id) ensures k !in streamRecv {
        assert k !in streamRecv - {f.id};
      }
      OpenedRetired(f);
    }

    /** Registers the opened stream and answers the Open. */
    method HandleOpen(sender: nat, session: Session, id: nat, epoch: nat, window: nat)
      requires Valid()
      modifies this`streamRecv, this`retired, streamRecv.Values, wire
      ensures Valid() && id in streamRecv
      ensures old(streamRecv) - Others(old(streamRecv), sender, id) - {id} == streamRecv - {id}
      ensures forall k :: k in old(streamRecv) && k in streamRecv && k != id ==> unchanged(old(streamRecv)[k])
      ensures if id in old(streamRecv)
              then streamRecv[id] == old(streamRecv)[id]
                && streamRecv[id].Abs() == SetSession(old(streamRecv[id].Abs()), session)
              else streamRecv[id].peer == sender && streamRecv[id].Abs() == NewReceiver(session, epoch, window)
      ensures streamRecv[id].targetSession ==
              if session != NO_SESSION || id !in old(streamRecv) then session else old(streamRecv[id].targetSession)
      ensures retired == old(retired + Named(streamRecv, Others(streamRecv, sender, id)))
      ensures forall k :: k in old(streamRecv) && k !in streamRecv ==>
        old(streamRecv)[k].Abs() == StopAcks(old(streamRecv[k].Abs()))
      ensures wire.sent == old(wire.sent) + [Message(session, id, OpenAck(epoch, window))]
      ensures Abs() == OnFrame(old(Abs()), OpenFrame(sender, session, id, epoch, window))
    {
      hide StopAcks, SetSession, NewReceiver, ReceiverObject.Abs, ReceiverObject.Valid, Valid, Abs, Others, OnFrame;
      Distinct();
      OpenReceiver(sender, session, id, epoch, window);
      OpenedAbs(OpenFrame(sender, session, id, epoch, window));
      wire.Send(session, id, OpenAck(epoch, window));
    }

    /** Writes the packets of an accepted payload, or the payload itself when it is not a batch. */
    method WritePayload(payload: Bytes)
      modifies device
      ensures device.written == old(device.written) + StreamCodec.Unbatch(payload)
    {
      hide StreamCodec.Decode;
      var packets, batched := StreamCodec.DecodeStreamBatch(payload);
      if !batched {
        device.WritePacket(payload);
        return;
      }
      for i := 0 to |packets|
        invariant device.written == old(device.written) + packets[..i]
      {
        device.WritePacket(packets[i]);
        assert packets[..i + 1] == packets[..i] + [packets[i]];
      }
      assert packets[..|packets|] == packets;
    }

    /** A frame that only one live receiver sees. */
    twostate lemma OneUpdated(id: nat)
      requires old(Valid()) && streamRecv == old(streamRecv) && retired == old(retired)
      requires forall k :: k in streamRecv && k != id ==> unchanged(streamRecv[k])
      requires forall r :: r in retired ==> unchanged(r)
      ensures Abs() == if id in streamRecv
                       then old(Abs()).(live := old(Abs()).live[id := Entry(streamRecv[id].peer, streamRecv[id].Abs())])
                       else old(Abs())
      ensures id in old(Abs()).live <==> id in streamRecv
      ensures id in streamRecv ==> old(Abs()).live[id] == Entry(streamRecv[id].peer, old(streamRecv[id].Abs()))
    {
      hide ReceiverObject.Valid, ReceiverObject.Abs;
      assert forall r :: r in retired ==> r.Abs() == old(r.Abs());
      assert Abs().retired == old(Abs()).retired;
      assert forall k :: k in streamRecv && k != id ==> streamRecv[k].Abs() == old(streamRecv[k].Abs());
    }

    /** One live receiver changed by itself, and was not stopped. */
    twostate lemma OneStillValid(id: nat)
      requires old(Valid()) && streamRecv == old(streamRecv) && retired == old(retired)
      requires forall k :: k in streamRecv && k != id ==> unchanged(streamRecv[k])
      requires forall r :: r in retired ==> unchanged(r)
      requires id in streamRecv ==>
        streamRecv[id].Valid() && streamRecv[id].ackStopped == old(streamRecv[id].ackStopped)
      ensures Valid()
    {
      hide ReceiverObject.Valid;
      assert forall k :: k in streamRecv && k != id ==> streamRecv[k].Valid() == old(streamRecv[k].Valid());
      assert forall r :: r in retired ==> r.Valid() == old(r.Valid());
    }

    /** A live receiver moved to the removed ones, stopped. */
    twostate lemma OneRetired(id: nat)
      requires old(Valid()) && id in old(streamRecv)
      requires streamRecv == old(streamRecv) - {id} && retired == old(retired) + {old(streamRecv[id])}
      requires old(streamRecv[id]).Abs() == StopAcks(old(streamRecv[id].Abs()))
      requires forall k :: k in streamRecv ==> unchanged(streamRecv[k])
      requires forall r :: r in old(retired) ==> unchanged(r)
      ensures Abs() == Registry(old(Abs()).live - {id}, old(Abs()).retired + {Stopped(old(Abs()).live[id])})
    {
      hide ReceiverObject.Valid, ReceiverObject.Abs, StopAcks;
      var gone := old(streamRecv[id]);
      assert gone in retired;
      assert forall r :: r in old(retired) ==> r in retired && r.Abs() == old(r.Abs());
      forall e | e in Abs().retired ensures e in old(Abs()).retired + {Stopped(old(Abs()).live[id])} {
        var r :| r in retired && e == Entry(r.peer, r.Abs());
      }
      forall e | e in old(Abs()).retired ensures e in Abs().retired {
        var r :| r in old(retired) && e == Entry(r.peer, old(r.Abs()));
        assert r in retired;
      }
      assert Abs().live == old(Abs()).live - {id};
    }

    method HandleData(id: nat, epoch: nat, offset: nat, payload: Bytes, sdk: Answers)
      requires Valid()
      modifies if id in streamRecv then {streamRecv[id]} else {}, device
      ensures Valid()
      ensures id !in streamRecv ==> device.written == old(device.written)
      ensures id in streamRecv ==>
        && streamRecv[id].Abs() == OnData(old(streamRecv[id].Abs()), epoch, offset, payload, sdk)
        && device.written == old(device.written) +
             (if epoch == old(streamRecv[id].epoch) && offset == old(streamRecv[id].next) && |payload| > 0
              then StreamCodec.Unbatch(payload) else [])
      ensures Abs() == OnFrame(old(Abs()), DataFrame(id, epoch, offset, payload, sdk))
    {
      hide StreamCodec.Unbatch, OnData, ReceiverObject.Abs, ReceiverObject.Valid, Delivers, Valid, Abs;
      Distinct();
      if id in streamRecv {
        var delivered := streamRecv[id].HandleData(epoch, offset, payload, sdk);
        if delivered {
          WritePayload(payload);
        }
      }
      OneStillValid(id);
      OneUpdated(id);
    }

    method HandleResume(id: nat, session: Session, epoch: nat, sdk: Answers)
      requires Valid()
      modifies if id in streamRecv then {streamRecv[id]} else {}, wire
      ensures Valid()
      ensures id !in streamRecv ==> wire.sent == old(wire.sent)
      ensures id in streamRecv ==>
        && streamRecv[id].Abs() == OnResume(old(streamRecv[id].Abs()), session, epoch, sdk)
        && var taken := sdk.accepts && epoch >= old(streamRecv[id].epoch);
           && streamRecv[id].next == old(streamRecv[id].next)
           && streamRecv[id].targetSession ==
                (if taken && session != NO_SESSION then session else old(streamRecv[id].targetSession))
           && wire.sent == old(wire.sent) +
                (if taken then
                   [Message(streamRecv[id].targetSession, id, Ack(epoch, old(streamRecv[id].next), sdk.window))]
                 else [])
      ensures Abs() == OnFrame(old(Abs()), ResumeFrame(id, session, epoch, sdk))
    {
      hide OnResume, ReceiverObject.Abs, ReceiverObject.Valid, ResumeTaken, Valid, Abs;
      Distinct();
      if id in streamRecv {
        streamRecv[id].HandleResume(session, epoch, sdk, wire);
      }
      OneStillValid(id);
      OneUpdated(id);
    }

    method HandleClose(id: nat)
      requires Valid()
      modifies this`streamRecv, this`retired, if id in streamRecv then {streamRecv[id]} else {}
      ensures Valid()
      ensures streamRecv == old(streamRecv) - {id}
      ensures id in old(streamRecv) ==>
        && retired == old(retired) + {old(streamRecv[id])}
        && old(streamRecv[id]).Abs() == StopAcks(old(streamRecv[id].Abs()))
      ensures Abs() == OnFrame(old(Abs()), CloseFrame(id))
    {
      hide StopAcks, ReceiverObject.Abs, ReceiverObject.Valid;
      if id !in streamRecv {
        return;
      }
      Retire(id);
      OneRetired(id);
    }
  }
}
