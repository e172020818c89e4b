/** The receivers of one stream, as the step system follows them, are those of the whole receiver table. */
module StreamPeer {
  import opened Common
  import opened StreamLog
  import opened StreamSdk
  import opened StreamSystem
  import Table = StreamRegistry
  import Rx = StreamReceiver

  /** The table holds, for the stream's ID, exactly the system's live receiver, under its sender. */
  predicate Matches(reg: Table.Registry, s: State, sender: nat) {
    match s.live
    case None => s.port.id !in reg.live
    case Some(i) =>
      i < |s.receivers| && s.port.id in reg.live && reg.live[s.port.id] == Table.Entry(sender, s.receivers[i])
  }

  /** A frame of the sender, as the frame handler sees it; the answers of the SDK are inputs. */
  function Handled(m: Message, sender: nat, sdk: Answers): Option<Table.Inbound> {
    match m.frame
    case Open(epoch, window) => Some(Table.OpenFrame(sender, m.session, m.id, epoch, window))
    case Data(epoch, offset, payload) => Some(Table.DataFrame(m.id, epoch, offset, payload, sdk))
    case Resume(epoch, _) => Some(Table.ResumeFrame(m.id, m.session, epoch, sdk))
    case Close(_) => Some(Table.CloseFrame(m.id))
    case _ => None
  }

  function Arrival(m: Message, sdk: Answers, reached: bool): RemoteAction
    requires m.frame.Open? || m.frame.Data? || m.frame.Resume? || m.frame.Close?
  {
    match m.frame
    case Open(_, _) => OpenArrives(m, reached)
    case Data(_, _, _) => DataArrives(m, sdk)
    case Resume(_, _) => ResumeArrives(m, sdk, reached)
    case Close(_) => CloseArrives(m)
  }

  lemma OpenMatches(reg: Table.Registry, s: State, sender: nat, m: Message, reached: bool)
    requires Matches(reg, s, sender) && m in s.net && m.frame.Open?
    ensures Matches(Table.OnOpen(reg, sender, m.session, m.id, m.frame.epoch, m.frame.window),
                    DoOpenArrives(s, m, reached), sender)
  {
    hide Rx.StopAcks, Rx.SetSession;
  }

  lemma DataMatches(reg: Table.Registry, s: State, sender: nat, m: Message, sdk: Answers)
    requires Matches(reg, s, sender) && m in s.net && m.frame.Data?
    ensures Matches(Table.OnFrame(reg, Table.DataFrame(m.id, m.frame.epoch, m.frame.offset, m.frame.payload, sdk)),
                    DoDataArrives(s, m, sdk), sender)
  {
    hide Rx.OnData;
  }

  lemma ResumeMatches(reg: Table.Registry, s: State, sender: nat, m: Message, sdk: Answers, reached: bool)
    requires Matches(reg, s, sender) && m in s.net && m.frame.Resume?
    ensures Matches(Table.OnFrame(reg, Table.ResumeFrame(m.id, m.session, m.frame.epoch, sdk)),
                    DoResumeArrives(s, m, sdk, reached), sender)
  {
    hide Rx.OnResume;
  }

  lemma CloseMatches(reg: Table.Registry, s: State, sender: nat, m: Message)
    requires Matches(reg, s, sender) && m in s.net && m.frame.Close?
    ensures Matches(Table.OnFrame(reg, Table.CloseFrame(m.id)), RemoteStep(s, CloseArrives(m)), sender)
  {
    hide Rx.StopAcks;
  }

  /** What a receiver that is removed becomes, in the system and among the removed ones of the table. */
  predicate RetiredAlike(before: State, after: State, sender: nat, retired: set<Table.Entry>) {
    before.live.Some? && before.live.value < |before.receivers| && after.live.None? ==>
      var i := before.live.value;
      && i < |after.receivers| && after.receivers[i] == Rx.StopAcks(before.receivers[i])
      && Table.Entry(sender, after.receivers[i]) in retired
  }

  lemma OpenRetires(reg: Table.Registry, s: State, sender: nat, m: Message, reached: bool)
    requires Matches(reg, s, sender) && m in s.net && m.frame.Open?
    ensures RetiredAlike(s, DoOpenArrives(s, m, reached), sender,
                         Table.OnOpen(reg, sender, m.session, m.id, m.frame.epoch, m.frame.window).retired)
  {
    hide Rx.StopAcks, Rx.SetSession;
    if s.live.Some? && m.id != s.port.id {
      assert Table.Superseded(reg.live, sender, m.id, s.port.id);
    }
  }

  lemma CloseRetires(reg: Table.Registry, s: State, sender: nat, m: Message)
    requires Matches(reg, s, sender) && m in s.net && m.frame.Close?
    ensures RetiredAlike(s, RemoteStep(s, CloseArrives(m)), sender, Table.OnFrame(reg, Table.CloseFrame(m.id)).retired)
  {
    hide Rx.StopAcks;
  }

  lemma DeliveryRetires(reg: Table.Registry, s: State, sender: nat, m: Message, sdk: Answers, reached: bool)
    ensures RetiredAlike(s, DoDataArrives(s, m, sdk), sender, reg.retired)
    ensures RetiredAlike(s, DoResumeArrives(s, m, sdk, reached), sender, reg.retired)
  {
    hide Rx.OnData, Rx.OnResume, Rx.StopAcks;
  }

  /**
   * Any frame of the sender, of this stream or another, takes table and system to matching states, and
   * the receiver it removes, if any, is stopped and kept among the removed ones alike in both.
   */
  lemma ArrivalMatches(reg: Table.Registry, s: State, sender: nat, m: Message, sdk: Answers, reached: bool)
    requires Matches(reg, s, sender) && m in s.net && Handled(m, sender, sdk).Some?
    ensures var next, t := Table.OnFrame(reg, Handled(m, sender, sdk).value), RemoteStep(s, Arrival(m, sdk, reached));
            Matches(next, t, sender) && RetiredAlike(s, t, sender, next.retired)
  {
    hide Matches, RetiredAlike, Table.OnOpen, DoOpenArrives, DoDataArrives, DoResumeArrives;
    match m.frame {
      case Open(_, _) =>
        OpenMatches(reg, s, sender, m, reached);
        OpenRetires(reg, s, sender, m, reached);
      case Data(_, _, _) =>
        DataMatches(reg, s, sender, m, sdk);
        DeliveryRetires(reg, s, sender, m, sdk, reached);
      case Resume(_, _) =>
        ResumeMatches(reg, s, sender, m, sdk, reached);
        DeliveryRetires(reg, s, sender, m, sdk, reached);
      case Close(_) =>
        CloseMatches(reg, s, sender, m);
        CloseRetires(reg, s, sender, m);
      case _ =>
    }
  }
}
