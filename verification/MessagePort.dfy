/**
 * The message handler as it runs in PREOPERATE and OPERATE: an object of its own in
 * front of the on-request data handlers. Every method is tied to its step function.
 */
module MessagePort {
  import opened Bytes
  import opened IsduCodec
  import opened DlModel
  import opened DlAccounting
  import opened DlMultiplexer
  import opened DlMessages
  import opened DataLink
  import S = DlStartup

  lemma LinkRunOneMore(l: Link, inputs: seq<LinkInput>, i: nat)
    requires i < |inputs|
    ensures LinkRun(l, inputs[..i + 1]) == LinkStep(LinkRun(l, inputs[..i]), inputs[i])
  {
    assert inputs[..i + 1][..i] == inputs[..i];
  }

  class MessageHandler {
    const handlers: OnRequestHandlers
    var state: MessageState
    var mhcmd: S.MhCmd
    var retry: nat
    var timer: bool

    // The transceiver's cycle timer.
    var cycling: bool

    // What is on the line, and the triggers given so far.
    ghost var out: bool
    ghost var awaiting: bool
    ghost var seen: seq<Trigger>
    ghost var given: seq<Trigger>

    ghost predicate Valid()
      reads this, handlers, handlers.isdu_data, handlers.odout_buffer
    {
      handlers.Valid()
    }

    ghost function View(): Link
      reads this, handlers
    {
      Link(Session(handlers.View(), awaiting, seen), state, mhcmd, retry, timer, cycling, out, given)
    }

    /** In STARTUP, before a first mode command. */
    constructor (on_request: OnRequestHandlers)
      requires on_request.Valid()
      ensures Valid() && handlers == on_request
      ensures View() == Link(Session(on_request.View(), false, []), MsStartup2, S.McStartup, 0, false, false, false, [])
    {
      handlers := on_request;
      state, mhcmd, retry, timer, cycling := MsStartup2, S.McStartup, 0, false, false;
      out, awaiting, seen, given := false, false, [], [];
    }

    // ---------- the OD handler is called ----------

    method MessageAsked()
      requires Valid()
      modifies this, handlers, handlers.isdu_data, handlers.odout_buffer
      ensures Valid() && View() == Give(old(View()), Master)
    {
      ghost var s := Triggered(handlers.View(), Master);
      handlers.MasterMessage();
      seen := if IsduSees(s) then seen + [TrigMaster] else seen;
      awaiting, given := true, given + [TrigMaster];
    }

    method AnswerGiven(flag: bool, rx: RxBuffer)
      requires Valid()
      modifies this, handlers, handlers.isdu_data, handlers.odout_buffer
      ensures Valid() && View() == Give(old(View()), Device(flag, rx))
    {
      ghost var s := Triggered(handlers.View(), Device(flag, rx));
      handlers.DeviceMessage(flag, rx);
      seen := if IsduSees(s) then seen + [TrigDevice] else seen;
      awaiting, given := false, given + [TrigDevice];
    }

    method CalledAsSet()
      requires Valid()
      modifies this, handlers, handlers.isdu_data, handlers.odout_buffer
      ensures Valid() && View() == GiveAsSet(old(View()))
    {
      ghost var s := handlers.View();
      ghost var t := s.od.trigger;
      handlers.OdSmRun();
      seen := if IsduSees(s) then seen + [t] else seen;
      awaiting := if t == TrigNone then awaiting else t == TrigMaster;
      given := if t == TrigNone then given else given + [t];
    }

    method TriggerSet()
      requires Valid()
      modifies handlers
      ensures Valid() && View() == Prime(old(View()))
    {
      handlers.od := handlers.od.(trigger := TrigMaster);
    }

    /** iolink_dl_mh_handle_com_lost, after what is answered in PREOPERATE. */
    method ComLostSm(preoperate: bool)
      requires Valid()
      modifies this, handlers
      ensures Valid() && View() == GiveUpLink(old(View()), preoperate)
    {
      handlers.CommunicationLost(preoperate);
      retry, timer, cycling, out, state := 0, false, false, false, MsInactive0;
    }

    method DropSm()
      requires Valid()
      modifies this, handlers
      ensures Valid() && View() == Drop(old(View()))
    {
      handlers.com_lost := true;
      cycling, state := false, MsInactive0;
    }

    // ---------- the states ----------

    method Startup2Sm()
      requires Valid()
      modifies this
      ensures Valid() && View() == Startup2(old(View()))
    {
      if mhcmd == S.McPreoperate {
        state := MsPreoperate6;
      } else if mhcmd == S.McOperate {
        timer, state := true, MsOperate12;
      }
    }

    method Preoperate6Sm()
      requires Valid()
      modifies this, handlers
      ensures Valid() && View() == Preoperate6(old(View()))
    {
      if mhcmd == S.McOperate {
        timer, state := true, MsOperate12;
      } else if mhcmd == S.McStartup {
        state := MsStartup2;
      } else if mhcmd == S.McInactive {
        handlers.com_lost := true;
        out, state := true, MsInactive0;
      } else {
        WorkSm();
      }
    }

    method WorkSm()
      requires Valid() && mhcmd == S.McPreoperate
      modifies this, handlers
      ensures Valid() && View() == Preoperate6(old(View()))
    {
      if handlers.rwcmd == RwReadParam || handlers.rwcmd == RwWriteParam || handlers.rwcmd == RwIsduTransport
         || handlers.cmd.master_command == MASTERCMD_DEVICE_OPERATE || handlers.ev.event_flag {
        retry, timer, state := 0, true, MsGetOd7;
        TriggerSet();
      }
    }

    method GetOd7Sm()
      requires Valid()
      modifies this, handlers, handlers.isdu_data, handlers.odout_buffer
      ensures Valid() && View() == GetOd7(old(View()))
    {
      CalledAsSet();
      retry, out, state := 0, true, MsResponse8;
    }

    method AwaitReply9Sm(g: Signal)
      requires Valid()
      modifies this, handlers, handlers.isdu_data, handlers.odout_buffer
      ensures Valid() && View() == AwReply9(old(View()), g)
    {
      match g
      case Answered(flag, rx) =>
        AnswerGiven(flag, rx);
        out := false;
        WayBackSm();
      case Failed => timer, out, state := true, false, MsErrorHandling10;
      case _ =>
    }

    method WayBackSm()
      requires Valid()
      modifies this, handlers
      ensures Valid() && View() == AnswerTaken(old(View()))
    {
      if handlers.ih.state == IhIdle1 {
        if mhcmd == S.McOperate {
          timer, state := true, MsAwReply16;
        } else if !handlers.ev.event_flag {
          state := MsPreoperate6;
        }
      } else {
        timer := true;
        TriggerSet();
        state := MsGetOd7;
      }
    }

    method ErrorHandling10Sm(g: Signal)
      requires Valid()
      modifies this, handlers
      ensures Valid() && View() == ErrorHandling10(old(View()), g)
    {
      if retry >= S.MAX_RETRY {
        ComLostSm(true);
      } else if g == Elapsed && timer {
        retry, out, state := retry + 1, true, MsAwReply9;
      }
    }

    method EndOperateSm()
      requires Valid()
      modifies this, handlers
      ensures Valid() && View() == EndOperate(old(View()))
    {
      if mhcmd == S.McStartup {
        cycling, state := false, MsStartup2;
      } else {
        DropSm();
      }
    }

    method Operate12Sm()
      requires Valid()
      modifies this, handlers, handlers.isdu_data, handlers.odout_buffer
      ensures Valid() && View() == Operate12(old(View()))
    {
      if mhcmd == S.McStartup || mhcmd == S.McInactive {
        EndOperateSm();
      } else {
        MessageAsked();
        retry, cycling, out, state := 0, true, true, MsResponse15;
      }
    }

    method AwaitReply16Sm(g: Signal)
      requires Valid()
      modifies this, handlers, handlers.isdu_data, handlers.odout_buffer
      ensures Valid() && View() == AwReply16(old(View()), g)
    {
      if mhcmd == S.McStartup || mhcmd == S.McInactive {
        EndOperateSm();
      } else if handlers.rwcmd == RwWriteParam {
        MessageAsked();
        retry, state := 0, MsAwReply9;
      } else {
        CycleSm(g);
      }
    }

    method CycleSm(g: Signal)
      requires Valid() && !Ends(mhcmd) && handlers.rwcmd != RwWriteParam
      modifies this, handlers, handlers.isdu_data, handlers.odout_buffer
      ensures Valid() && View() == AwReply16(old(View()), g)
    {
      match g
      case Answered(flag, rx) =>
        AnswerGiven(flag, rx);
        MessageAsked();
        out := false;
      case Failed => ComLostSm(false);
      case _ =>
    }

    /** iolink_dl_message_h_sm. */
    method MessageSm(g: Signal)
      requires Valid()
      modifies this, handlers, handlers.isdu_data, handlers.odout_buffer
      ensures Valid() && View() == Sm(old(View()), g)
    {
      if state == MsOperate12 {
        Operate12Sm();
      } else if state == MsResponse15 || state == MsAwReply16 {
        state := MsAwReply16;
        AwaitReply16Sm(g);
      } else {
        PreoperateSm(g);
      }
    }

    method PreoperateSm(g: Signal)
      requires Valid() && state != MsOperate12 && state != MsResponse15 && state != MsAwReply16
      modifies this, handlers, handlers.isdu_data, handlers.odout_buffer
      ensures Valid() && View() == Sm(old(View()), g)
    {
      match state
      case MsInactive0 => cycling := false;
      case MsStartup2 => Startup2Sm();
      case MsPreoperate6 => Preoperate6Sm();
      case MsGetOd7 => GetOd7Sm();
      case MsResponse8 => AwaitReply9Sm(g);
      case MsAwReply9 => AwaitReply9Sm(g);
      case MsErrorHandling10 => ErrorHandling10Sm(g);
    }

    // ---------- what drives it ----------

    /** MH_Conf. */
    method MhConf(cmd: S.MhCmd)
      requires Valid()
      modifies this, handlers, handlers.isdu_data, handlers.odout_buffer
      ensures Valid() && View() == Conf(old(View()), cmd)
    {
      mhcmd := cmd;
      MessageSm(Poked);
    }

    /** iolink_dl_mode_h_sm: the handlers first, then the message handler. */
    method ModeEventSm()
      requires Valid()
      modifies this, handlers, handlers.isdu_data, handlers.odout_buffer
      ensures Valid() && View() == ModeStep(old(View()))
    {
      ghost var s := handlers.View();
      var cmd := CommandOfMode();
      handlers.ModeHandlerSm();
      if cmd.Some? {
        MhConf(cmd.value);
        if cmd.value == S.McInactive { handlers.com_lost := false; }
      }
    }

    method CommandOfMode() returns (cmd: Option<S.MhCmd>)
      requires Valid()
      ensures cmd == ModeCommand(handlers.View())
    {
      var dl_mode, lost := handlers.dl_mode, handlers.com_lost;
      cmd := None;
      match handlers.mode
      case MdIdle0 =>
      case MdEstCom1 =>
      case MdStartup2 =>
        if dl_mode == ModePreoperate {
          cmd := Some(S.McPreoperate);
        } else if dl_mode == ModeOperate {
          cmd := Some(S.McOperate);
        } else if dl_mode == ModeInactive || lost {
          cmd := Some(S.McInactive);
        }
      case MdPreoperate3 =>
        if dl_mode == ModeStartup {
          cmd := Some(S.McStartup);
        } else if dl_mode == ModeInactive {
          cmd := Some(S.McOperate);
        } else if lost {
          cmd := Some(S.McInactive);
        } else if dl_mode == ModeOperate {
          cmd := Some(S.McOperate);
        }
      case MdOperate4 =>
        if dl_mode == ModeStartup {
          cmd := Some(S.McStartup);
        } else if dl_mode == ModeInactive || lost {
          cmd := Some(S.McInactive);
        }
    }

    method CallTaken(i: Input)
      requires Valid()
      modifies this, handlers, handlers.isdu_data, handlers.odout_buffer
      ensures Valid() && View() == CallStep(old(View()), i)
    {
      if i.Param? {
        AccessCalled(i);
      } else if i.ModeEvent? {
        ModeEventSm();
      } else if i.WakeUp? {
        WakeUpCalled(i.ok);
      } else if !i.Master? && !i.Device? && !i.LinkLost? {
        PassedOn(i);
      }
    }

    method AccessCalled(i: Input)
      requires Valid() && i.Param?
      modifies handlers, handlers.isdu_data, handlers.odout_buffer
      ensures Valid() && View() == CallStep(old(View()), i)
    {
      PassedOn(i.(ready := state == MsPreoperate6 || state == MsAwReply16));
    }

    method WakeUpCalled(ok: bool)
      requires Valid()
      modifies this, handlers, handlers.isdu_data, handlers.odout_buffer
      ensures Valid() && View() == CallStep(old(View()), WakeUp(ok))
    {
      PassedOn(WakeUp(ok));
      if ok { state := MsStartup2; }
    }

    method PassedOn(i: Input)
      requires Valid()
      modifies handlers, handlers.isdu_data, handlers.odout_buffer
      ensures Valid() && View() == OnDl(old(View()), Step(old(handlers.View()), i))
    {
      handlers.Take(i);
    }

    method Take(i: LinkInput)
      requires Valid()
      modifies this, handlers, handlers.isdu_data, handlers.odout_buffer
      ensures Valid() && View() == LinkStep(old(View()), i)
    {
      match i
      case Line(g) => if g != Elapsed { MessageSm(g); }
      case Timer =>
        if timer { MessageSm(Elapsed); }
        timer := false;
      case Call(c) => CallTaken(c);
    }

    /** One event of the data link layer's thread after the other. */
    method Drive(inputs: seq<LinkInput>)
      requires Valid()
      modifies this, handlers, handlers.isdu_data, handlers.odout_buffer
      ensures Valid() && View() == LinkRun(old(View()), inputs)
    {
      var i := 0;
      while i < |inputs|
        invariant 0 <= i <= |inputs| && Valid()
        invariant View() == LinkRun(old(View()), inputs[..i])
      {
        LinkRunOneMore(old(View()), inputs, i);
        Take(inputs[i]);
        i := i + 1;
      }
      assert inputs[..|inputs|] == inputs;
    }

    /** So the object's triggers alternate over such a run exactly if no parameter write
        is taken up with a message on the line. */
    method DriveOpened(inputs: seq<LinkInput>)
      requires Valid() && Opened(View()) && HeardRun(View(), inputs) && StaysOnRun(View(), inputs)
      modifies this, handlers, handlers.isdu_data, handlers.odout_buffer
      ensures Valid()
      ensures Alternating(given, TrigMaster) <==> !SomeWriteTaken(old(View()), inputs)
    {
      TriggersAlternateIff(View(), inputs);
      Drive(inputs);
    }
  }
}
