/**
 Channel destruction in the form of the code: four loops over the queues of the channel and the
 server's places, on the tables of message passing and of connections at once.
 */
module TeardownKernel {
  import opened Base
  import opened Pril
  import opened Coupling
  import opened Teardown
  import I = Ipc
  import IpcDestroy
  import IpcKernel
  import C = Connect
  import ChannelDestroy
  import ConnectKernel

  class Kernel {
    const ipc: IpcKernel.Kernel
    const con: ConnectKernel.Kernel

    function View(): Sys
      reads ipc, con
    {
      Sys(ipc.View(), con.View())
    }

    constructor (ipc: IpcKernel.Kernel, con: ConnectKernel.Kernel)
      ensures this.ipc == ipc && this.con == con
    {
      this.ipc, this.con := ipc, con;
    }

    /** Whether `connect_detach` will be called for a connection with its own server place, and
        will send a pulse: the counts of the connection and of the one it shares with decide. */
    method LastLink(x: Id, ch: Id) returns (tell: bool)
      requires Joined(View()) && C.ByThread(x) in con.refs && IpcDestroy.OnChannel(ipc.net.chan, I.StOf(ipc.st, x), ch)
      ensures tell <==> Tells(View().k, x, ch)
    {
      C.LinksPositive(con.View(), C.ByThread(x));
      var c := con.refs[C.ByThread(x)];
      tell := false;
      if con.conns[c].links == 1 {
        if con.conns[c].v {
          C.ParentFacts(con.View(), c);
          var m := con.refs[C.ByChild(c)];
          if con.conns[m].links == 1 {
            c := m;
          } else {
            return;
          }
        }
        tell := con.conns[c].ch == Some(ch) && ch in con.disconnect;
      }
    }

    /** `force_ready` on a thread that is send- or reply-blocked on the channel: it leaves its queue,
        the channel may be told, and the link is given up. */
    method ReleaseThread(x: Id, ch: Id)
      requires Joined(View()) && C.ByThread(x) in con.refs && IpcDestroy.OnChannel(ipc.net.chan, I.StOf(ipc.st, x), ch)
      modifies ipc, con
      ensures View() == Release(old(View()), x, ch)
    {
      hide I.Inv, C.Inv, I.Unblock, I.SendPulse, C.Drop, Tells, IpcDestroy.FreshPulse, P;
      var tell := LastLink(x, ch);
      ipc.ForceReady(x);
      if tell {
        var p := P(ipc.prio, x);
        ipc.MsgSendPulse(ch, IpcDestroy.FreshPulse(ipc.pulses.Keys, -1), p, true, false, false, false);
      }
      con.Release(C.ByThread(x));
    }

    /** The loop over the send queue. */
    method DrainSenders(ch: Id, ghost n: nat)
      requires In(View(), ch, Senders)
      modifies ipc, con
      ensures In(View(), ch, Receivers) && I.Q(ipc.sendq, ch) == [] && con.chproc == old(con.chproc)
      ensures Walk(View(), ch, n, Receivers, []) == Walk(old(View()), ch, n, Senders, [])
    {
      while I.Q(ipc.sendq, ch) != []
        invariant In(View(), ch, Senders) && con.chproc == old(con.chproc)
        invariant Walk(View(), ch, n, Senders, []) == Walk(old(View()), ch, n, Senders, [])
        decreases IpcDestroy.Blocked(ipc.View(), ch), |I.Q(ipc.sendq, ch)|
      {
        ghost var s := View();
        WalkSend(s, ch, n, []);
        SendStepKeeps(s, ch);
        SendIteration(ch);
        assert View() == SendStep(s, ch);
      }
      WalkOn(View(), ch, n, Senders, []);
    }

    method SendIteration(ch: Id)
      requires Joined(View()) && I.Q(ipc.sendq, ch) != []
      modifies ipc, con
      ensures View() == SendStep(old(View()), ch)
    {
      var x := I.Q(ipc.sendq, ch)[0];
      if x in ipc.pulses {
        ipc.FreePulse(ch, x);
      } else {
        HeadSender(View(), ch);
        ReleaseThread(x, ch);
      }
    }

    /** The loop over the receive queue. */
    method DrainReceivers(ch: Id, ghost n: nat)
      requires In(View(), ch, Receivers)
      modifies ipc
      ensures In(View(), ch, Repliers) && I.Q(ipc.recvq, ch) == []
      ensures Walk(View(), ch, n, Repliers, []) == Walk(old(View()), ch, n, Receivers, [])
    {
      hide Walk, Torn, I.Inv, C.Inv, IpcDestroy.Blocked;
      while I.Q(ipc.recvq, ch) != []
        invariant In(View(), ch, Receivers)
        invariant Walk(View(), ch, n, Receivers, []) == Walk(old(View()), ch, n, Receivers, [])
        decreases IpcDestroy.Blocked(ipc.View(), ch)
      {
        ghost var s := View();
        WalkReceive(s, ch, n, []);
        RecvStepKeeps(s, ch);
        ipc.ForceReady(I.Q(ipc.recvq, ch)[0]);
        assert View() == RecvStep(s, ch);
      }
      WalkOn(View(), ch, n, Receivers, []);
    }

    /** The loop over the reply queue. */
    method DrainRepliers(ch: Id, ghost n: nat)
      requires In(View(), ch, Repliers)
      modifies ipc, con
      ensures In(View(), ch, Places(0)) && I.Q(ipc.replyq, ch) == [] && con.chproc == old(con.chproc)
      ensures Walk(View(), ch, n, Places(0), []) == Walk(old(View()), ch, n, Repliers, [])
    {
      while I.Q(ipc.replyq, ch) != []
        invariant In(View(), ch, Repliers) && con.chproc == old(con.chproc)
        invariant Walk(View(), ch, n, Repliers, []) == Walk(old(View()), ch, n, Repliers, [])
        decreases IpcDestroy.Blocked(ipc.View(), ch)
      {
        ghost var s := View();
        WalkReply(s, ch, n, []);
        ReplyStepKeeps(s, ch);
        HeadReplier(s, ch);
        ReleaseThread(I.Q(ipc.replyq, ch)[0], ch);
        assert View() == ReplyStep(s, ch);
      }
      WalkOn(View(), ch, n, Repliers, []);
    }

    /** The loop over the server's places. */
    method CutPlaces(ch: Id, n: nat)
      requires In(View(), ch, Places(0))
      modifies con
      ensures View() == Walk(old(View()), ch, n, Places(0), [])
    {
      hide In, Walk, Joined, Torn, ChannelDestroy.SeverSlot;
      var j := 0;
      while j < n
        invariant 0 <= j <= n && In(View(), ch, Places(j))
        invariant Walk(View(), ch, n, Places(j), []) == Walk(old(View()), ch, n, Places(0), [])
      {
        ghost var s := View();
        WalkPlace(s, ch, n, j, []);
        con.SeverPlace(C.Port(con.chproc[ch], j), ch);
        assert View() == PlaceStep(s, ch, j);
        j := j + 1;
      }
      WalkOn(View(), ch, n, Places(j), []);
    }

    /** The loops one after the other, then the channel's entry. */
    method TearDown(ch: Id, n: nat)
      requires In(View(), ch, Senders)
      modifies ipc, con
      ensures View() == Destroy(old(View()), ch, n, [])
    {
      hide In, Walk;
      DrainSenders(ch, n);
      DrainReceivers(ch, n);
      DrainRepliers(ch, n);
      CutPlaces(ch, n);
      con.ForgetChannel(ch);
      ipc.FollowConnections(ChanOf(con.conns));
    }

    /** `ker_channel_destroy`, for a server whose vector has `n` places. Afterwards nobody is blocked on
        the channel and no connection leads to it, every other thread and every descriptor is as
        before, and a pulse is left on it exactly if a connection was orphaned. */
    method DestroyChannel(ch: Id, n: nat) returns (ok: bool)
      requires Inv(View()) && (ch in con.chproc ==> ChannelDestroy.Within(con.View(), con.chproc[ch], n))
      modifies ipc, con
      ensures Inv(View()) && (ok <==> old(ch in con.chproc))
      ensures !ok ==> View() == old(View())
      ensures ok ==> old(In(View(), ch, Senders)) && View() == Destroy(old(View()), ch, n, [])
      ensures ok ==> ch !in con.chproc && forall c :: c in con.conns ==> con.conns[c].ch != Some(ch)
      ensures ok ==> forall u :: I.StOf(ipc.st, u) == old(Freed(ipc.View(), ch, u))
      ensures ok ==> (I.Q(ipc.sendq, ch) == [] <==> old(forall m :: !Orphaned(View(), m, ch)))
    {
      ok := ch in con.chproc;
      if ok {
        hide In, Walk, Inv, Orphaned, Freed, I.StOf, I.Q, IpcDestroy.PulsesOn, Destroy;
        DestroyCompletes(View(), ch, n, []);
        PulsesLeft(View(), ch, n);
        TearDown(ch, n);
      }
    }
  }
}
