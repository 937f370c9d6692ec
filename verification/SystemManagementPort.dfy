/**
 * System management as it runs: one object per port whose confirmation callbacks
 * update the parameter lists and the state in place. Every method is tied to the
 * step function on values.
 */
module SystemManagementPort {
  import opened Bytes
  import opened IsduCodec
  import opened SystemManagement
  import opened SystemManagementRuns
  import SystemManagementScript

  /** What can run can take each of its inputs in turn. */
  lemma {:induction false} CanRunPrefix(s: Sm, inputs: seq<SmInput>, i: nat)
    requires CanRun(s, inputs) && i < |inputs|
    ensures CanStep(SmRun(s, inputs[..i]), inputs[i])
    ensures SmRun(s, inputs[..i + 1]) == SmStep(SmRun(s, inputs[..i]), inputs[i])
  {
    assert inputs[..i + 1][..i] == inputs[..i];
    if i < |inputs| - 1 {
      var init := inputs[..|inputs| - 1];
      CanRunPrefix(s, init, i);
      assert init[..i] == inputs[..i];
    }
  }

  class SmPort {
    var state: SmState
    var config: Config
    var comp_retry: nat
    var dl_addr: nat
    var error_event: SmEvent
    var com1: bool

    // real_paramlist and dev_com
    var device: Device

    // What the other layers have yet to confirm.
    ghost var pending: Option<Access>
    ghost var al_pending: nat
    ghost var h: SmHistory

    ghost function View(): Sm
      reads this
    {
      Sm(state, config, device, com1, comp_retry, dl_addr, error_event, pending, al_pending, h)
    }

    /** iolink_sm_init. */
    constructor (cfg: Config, dev: Device)
      ensures Initial(View())
    {
      state, config, comp_retry, dl_addr, error_event, com1 := PortInactive, cfg, 0, DUMMY_WURQ, SmNone, false;
      device := dev;
      pending, al_pending, h := None, 0, SmHistory([], [], [], None, 0, 0, NOTHING_SEEN);
    }

    // ---------- requests and reports ----------

    /** DL_Read_req or DL_Write_req; the answer is always awaited. */
    method ReadWriteReq(addr: nat, value: byte, read: bool)
      modifies this`dl_addr, this`pending, this`h
      ensures View() == DlAccess(old(View()), Access(read, addr, value))
    {
      dl_addr := addr;
      pending := Some(Access(read, addr, value));
      h := h.(accesses := h.accesses + 1, seen := Written(h.seen, Access(read, addr, value)));
    }

    method PortModeInd(m: PortMode)
      modifies this`h
      ensures View() == Report(old(View()), m)
    {
      h := h.(modes := h.modes + [m]);
    }

    method SetModeReq(m: DlModeReq)
      modifies this`h
      ensures View() == SetMode(old(View()), m)
    {
      h := h.(setmodes := h.setmodes + [m]);
    }

    // ---------- actions ----------

    method ComlostAct()
      modifies this`h
      ensures View() == Comlost(old(View()))
    {
      SetModeReq(ReqInactive);
      PortModeInd(PmComlost);
    }

    method PortInactiveAct(e: SmEvent)
      modifies this
      ensures View() == GoInactive(old(View()), e)
    {
      dl_addr := DUMMY_WURQ;
      error_event := SmNone;
      if e == SetInactive {
        PortModeInd(PmInactive);
        SetModeReq(ReqInactive);
      } else if e == SetCom {
        SetModeReq(ReqStartup);
      }
    }

    method DidoAct()
      modifies this
      ensures View() == GoDido(old(View()))
    {
      var target := PmInactive;
      if config.mode == TargetDi {
        target := PmDi;
      } else if config.mode == TargetDo {
        target := PmDo;
      }
      PortModeInd(target);
      SetModeReq(ReqInactive);
    }

    method InspectFaultAct(e: SmEvent)
      modifies this`h
      ensures View() == InspectFault(old(View()), e)
    {
      match e
      case V10CompFault =>
        PortModeInd(PmCompFault);
        SetModeReq(ReqOperate);
      case RevisionFault =>
        PortModeInd(PmRevisionFault);
        SetModeReq(ReqPreoperate);
      case CompFault =>
        PortModeInd(PmCompFault);
        SetModeReq(ReqPreoperate);
      case SerNumFault => PortModeInd(PmSernumFault);
      case CycTimeFault =>
        PortModeInd(PmCyctimeFault);
        SetModeReq(ReqPreoperate);
      case CycTimeFaultV10 =>
        PortModeInd(PmCyctimeFault);
        SetModeReq(ReqInactive);
      case _ =>
    }

    method ReadComParameterAct(e: SmEvent)
      modifies this
      ensures View() == ReadComParameters(old(View()), e)
    {
      if e == ModeStartup {
        comp_retry := 0;
        h := h.(accesses := 0, retries := 0, seen := NOTHING_SEEN);
      }
      ReadWriteReq(MIN_CYCL, 0, true);
    }

    method RestartAct()
      modifies this
      ensures View() == Restart(old(View()))
    {
      comp_retry := comp_retry + 1;
      h := h.(retries := h.retries + 1);
      ReadWriteReq(REV_ID, config.revisionid, false);
    }

    method OperateInd(e: SmEvent)
      modifies this`h
      ensures View() == Operating(old(View()), e)
    {
      if e == ModeOperate || e == SmOperateV10 { PortModeInd(PmOperate); }
    }

    /** The report of COMREADY, with what it stands for. */
    method ReadyAct()
      modifies this`h
      ensures View() == Ready(old(View()))
    {
      h := h.(modes := h.modes + [PmComReady(h.checked, config, device.serial)]);
    }

    // ---------- the transitions ----------

    method InPortInactive(e: SmEvent)
      modifies this
      ensures View() == FirePortInactive(old(View()), e)
    {
      match e
      case ModeStartup =>
        state := ReadComParameter;
        ReadComParameterAct(e);
      case SetInactive => PortInactiveAct(e);
      case SetCom => PortInactiveAct(e);
      case SetDio =>
        state := Dido;
        DidoAct();
      case _ =>
    }

    method InWaitonDLPreoperate(e: SmEvent)
      modifies this
      ensures View() == FireWaitonDLPreoperate(old(View()), e)
    {
      match e
      case ModePreoperate =>
        state := CheckSerNum;
        al_pending := al_pending + 1;
      case CnfComlost =>
        state := PortInactive;
        ComlostAct();
      case _ =>
    }

    method InCheckSerNum(e: SmEvent)
      modifies this
      ensures View() == FireCheckSerNum(old(View()), e)
    {
      match e
      case SerNumOK =>
        state := Wait;
        ReadyAct();
      case SerNumFault =>
        state := InspectionFault;
        InspectFaultAct(e);
      case CnfComlost =>
        state := PortInactive;
        ComlostAct();
      case SetCom =>
        state := PortInactive;
        PortInactiveAct(e);
      case SetInactive => state := WaitForFallback;
      case _ =>
    }

    method InWait(e: SmEvent)
      modifies this
      ensures View() == FireWait(old(View()), e)
    {
      match e
      case SetCom =>
        state := PortInactive;
        PortInactiveAct(e);
      case SetDio =>
        state := Dido;
        DidoAct();
      case SmOperateV10 =>
        state := SMOperate;
        OperateInd(e);
      case ModeComlost =>
        state := PortInactive;
        ComlostAct();
      case WriteMasterCyclReq =>
        state := WriteMasterCycl;
        al_pending := al_pending + 1;
      case SetInactive => state := WaitForFallback;
      case _ =>
    }

    method InSMOperate(e: SmEvent)
      modifies this
      ensures View() == FireSMOperate(old(View()), e)
    {
      match e
      case ModeComlost =>
        state := PortInactive;
        ComlostAct();
      case ModeOperate => OperateInd(e);
      case SetInactive => state := WaitForFallback;
      case SetCom =>
        state := PortInactive;
        PortInactiveAct(e);
      case SetDio =>
        state := Dido;
        DidoAct();
      case _ =>
    }

    method InInspectionFault(e: SmEvent)
      modifies this
      ensures View() == FireInspectionFault(old(View()), e)
    {
      match e
      case RevisionFault => InspectFaultAct(e);
      case CompFault => InspectFaultAct(e);
      case CycTimeFault => InspectFaultAct(e);
      case SetInactive => state := WaitForFallback;
      case SetCom =>
        state := PortInactive;
        PortInactiveAct(e);
      case SetDio =>
        state := Dido;
        DidoAct();
      case ModeComlost =>
        state := PortInactive;
        ComlostAct();
      case _ =>
    }

    method InWaitonDLOperate(e: SmEvent)
      modifies this
      ensures View() == FireWaitonDLOperate(old(View()), e)
    {
      match e
      case ModeOperate =>
        state := CheckSerNum;
        al_pending := al_pending + 1;
      case CnfComlost =>
        state := PortInactive;
        ComlostAct();
      case ModeComlost =>
        state := PortInactive;
        ComlostAct();
      case _ =>
    }

    method InDido(e: SmEvent)
      modifies this
      ensures View() == FireDido(old(View()), e)
    {
      match e
      case SetInactive =>
        state := PortInactive;
        PortInactiveAct(e);
      case SetCom =>
        state := PortInactive;
        PortInactiveAct(e);
      case SetDio => DidoAct();
      case _ =>
    }

    method InReadComParameter(e: SmEvent)
      modifies this
      ensures View() == FireReadComParameter(old(View()), e)
    {
      match e
      case NotV10 =>
        state := CheckVxy;
        ReadWriteReq(MASTER_CMD, MASTER_IDENT, false);
      case V10 =>
        state := CheckCompV10;
        ReadWriteReq(VID_1, 0, true);
      case CnfComlost =>
        state := PortInactive;
        ComlostAct();
      case SetCom =>
        state := PortInactive;
        PortInactiveAct(e);
      case _ =>
    }

    method InCheckCompV10(e: SmEvent)
      modifies this
      ensures View() == FireCheckCompV10(old(View()), e)
    {
      match e
      case V10CompOK =>
        state := WaitonDLOperate;
        ReadWriteReq(MASTER_CYCL, device.cycletime, false);
      case V10CompFault =>
        state := InspectionFault;
        InspectFaultAct(e);
      case CycTimeFaultV10 =>
        state := InspectionFault;
        InspectFaultAct(e);
      case CnfComlost =>
        state := PortInactive;
        ComlostAct();
      case _ =>
    }

    method InCheckVxy(e: SmEvent)
      modifies this
      ensures View() == FireCheckVxy(old(View()), e)
    {
      match e
      case RevisionOK =>
        state := CheckComp;
        ReadWriteReq(VID_1, 0, true);
      case RetryStartup =>
        state := RestartDevice;
        RestartAct();
      case RevisionFault =>
        state := InspectionFault;
        ReadWriteReq(MASTER_CMD, DEVICE_PREOP, false);
      case CnfComlost =>
        state := PortInactive;
        ComlostAct();
      case _ =>
    }

    method InCheckComp(e: SmEvent)
      modifies this
      ensures View() == FireCheckComp(old(View()), e)
    {
      match e
      case CompOK =>
        state := WaitonDLPreoperate;
        ReadWriteReq(MASTER_CMD, DEVICE_PREOP, false);
      case RetryStartup =>
        state := RestartDevice;
        RestartAct();
      case CompFault =>
        state := InspectionFault;
        ReadWriteReq(MASTER_CMD, DEVICE_PREOP, false);
      case CycTimeFault =>
        state := InspectionFault;
        ReadWriteReq(MASTER_CMD, DEVICE_PREOP, false);
      case CnfComlost =>
        state := PortInactive;
        ComlostAct();
      case _ =>
    }

    method InRestartDevice(e: SmEvent)
      modifies this
      ensures View() == FireRestartDevice(old(View()), e)
    {
      match e
      case WriteDone =>
        state := ReadComParameter;
        ReadComParameterAct(e);
      case CnfComlost => ComlostAct();
      case ModeComlost =>
        state := CheckComp;
        h := h.(seen := h.seen.(cut := true));
      case _ =>
    }

    method InWaitForFallback(e: SmEvent)
      modifies this
      ensures View() == FireWaitForFallback(old(View()), e)
    {
      match e
      case SetInactive =>
        state := PortInactive;
        PortInactiveAct(e);
      case ModeComlost =>
        state := PortInactive;
        ComlostAct();
      case _ =>
    }

    method InWriteMasterCycl(e: SmEvent)
      modifies this
      ensures View() == FireWriteMasterCycl(old(View()), e)
    {
      match e
      case CnfComlost =>
        state := PortInactive;
        ComlostAct();
      case WriteMasterCyclDone => state := WaitDevmodeCnf;
      case _ =>
    }

    method InWaitDevmodeCnf(e: SmEvent)
      modifies this
      ensures View() == FireWaitDevmodeCnf(old(View()), e)
    {
      match e
      case SmOperateV10 =>
        state := SMOperate;
        OperateInd(e);
      case SmOperateReq =>
        state := SMOperate;
        OperateInd(e);
      case CnfComlost =>
        state := PortInactive;
        ComlostAct();
      case _ =>
    }

    /** iolink_sm_event. */
    method Event(e: SmEvent)
      modifies this
      ensures View() == Fire(old(View()), e)
    {
      if Reading(state) || state == CheckVxy { CheckEvent(e); } else { OtherEvent(e); }
    }

    method CheckEvent(e: SmEvent)
      requires Reading(state) || state == CheckVxy
      modifies this
      ensures View() == Fire(old(View()), e)
    {
      match state
      case ReadComParameter => InReadComParameter(e);
      case CheckCompV10 => InCheckCompV10(e);
      case CheckVxy => InCheckVxy(e);
      case CheckComp => InCheckComp(e);
      case RestartDevice => InRestartDevice(e);
    }

    method OtherEvent(e: SmEvent)
      requires !Reading(state) && state != CheckVxy
      modifies this
      ensures View() == Fire(old(View()), e)
    {
      match state
      case PortInactive => InPortInactive(e);
      case WaitonDLPreoperate => InWaitonDLPreoperate(e);
      case CheckSerNum => InCheckSerNum(e);
      case Wait => InWait(e);
      case SMOperate => InSMOperate(e);
      case InspectionFault => InInspectionFault(e);
      case WaitonDLOperate => InWaitonDLOperate(e);
      case Dido => InDido(e);
      case WaitForFallback => InWaitForFallback(e);
      case WriteMasterCycl => InWriteMasterCycl(e);
      case WaitDevmodeCnf => InWaitDevmodeCnf(e);
    }

    // ---------- the compatibility checks ----------

    method FaultEvent(e: SmEvent)
      modifies this
      ensures View() == Fault(old(View()), e)
    {
      error_event := e;
      Event(e);
    }

    method PassedEvent(e: SmEvent)
      modifies this
      ensures View() == Fire(Passed(old(View())), e)
    {
      h := h.(checked := Some(Check(config, device.cycletime, h.pass, h.seen)));
      Event(e);
    }

    method DoCheckCompV10()
      modifies this
      ensures View() == CheckCompatibilityV10(old(View()))
    {
      if config.cycletime != 0 && config.cycletime < device.cycletime {
        FaultEvent(CycTimeFaultV10);
      } else if config.level == NoCheck {
        PassedEvent(V10CompOK);
      } else if config.vendorid == VendorId(device) && config.deviceid == DeviceId(device) {
        PassedEvent(V10CompOK);
      } else {
        FaultEvent(V10CompFault);
      }
    }

    method DoCheckComp()
      modifies this
      ensures View() == CheckCompatibility(old(View()))
    {
      if config.cycletime != 0 && config.cycletime < device.cycletime {
        FaultEvent(CycTimeFault);
      } else if config.level == NoCheck {
        PassedEvent(CompOK);
      } else if config.vendorid != VendorId(device) {
        FaultEvent(CompFault);
      } else if config.deviceid == DeviceId(device) {
        PassedEvent(CompOK);
      } else if comp_retry == 0 {
        Event(RetryStartup);
      } else {
        FaultEvent(CompFault);
      }
    }

    method CheckVxyCnf()
      modifies this
      ensures View() == CheckRevision(old(View()))
    {
      if config.revisionid == 0 || config.revisionid == device.revisionid {
        Event(RevisionOK);
      } else if comp_retry == 0 {
        Event(RetryStartup);
      } else {
        FaultEvent(RevisionFault);
      }
    }

    /** The serial number is compared octet by octet. */
    method CheckSerialNumber()
      modifies this
      ensures View() == CheckSerial(old(View()))
    {
      var same, i := true, 0;
      while i < SERIAL_LENGTH
        invariant 0 <= i <= SERIAL_LENGTH
        invariant same <==> config.serial[..i] == device.serial[..i]
      {
        if config.serial[i] != device.serial[i] { same := false; }
        i := i + 1;
      }
      assert config.serial[..SERIAL_LENGTH] == config.serial && device.serial[..SERIAL_LENGTH] == device.serial;
      if config.level != Identical || same {
        Event(SerNumOK);
      } else {
        FaultEvent(SerNumFault);
      }
    }

    // ---------- confirmations ----------

    method StoreParameter(addr: nat, value: byte)
      modifies this`device, this`h
      ensures View() == Store(old(View()), addr, value)
    {
      h := h.(pass := if addr == VID_1 then [value] else if VID_1 < addr <= FID_2 then h.pass + [value] else h.pass,
              seen := Looked(View(), addr, value));
      match addr
      case 0x02 =>
        var mincycletime := if com1 then MIN_CYCL_TIME_1 else MIN_CYCL_TIME_2_3;
        device := device.(cycletime := if value < mincycletime then mincycletime else value, mincycle := value);
      case 0x03 => device := device.(mseq_cap := value);
      case 0x04 => device := device.(revisionid := value);
      case 0x05 => device := device.(pdi := value);
      case 0x06 => device := device.(pdo := value);
      case 0x07 => device := device.(vid := (value, 0));
      case 0x08 => device := device.(vid := (device.vid.0, Or(device.vid.1, value)));
      case 0x09 => device := device.(did := (value, 0, 0));
      case 0x0A => device := device.(did := (device.did.0, Or(device.did.1, value), device.did.2));
      case 0x0B => device := device.(did := (device.did.0, device.did.1, Or(device.did.2, value)));
      case 0x0C => device := device.(fid := (value, 0));
      case 0x0D => device := device.(fid := (device.fid.0, Or(device.fid.1, value)));
      case _ =>
    }

    method ReadOn(addr: nat)
      modifies this
      ensures View() == ReadNext(old(View()), addr)
    {
      match state
      case ReadComParameter =>
        if addr != PDO { ReadWriteReq(addr + 1, 0, true); } else { Event(if device.revisionid == REV_V10 then V10 else NotV10); }
      case CheckCompV10 =>
        if addr != FID_2 { ReadWriteReq(addr + 1, 0, true); } else { DoCheckCompV10(); }
      case CheckComp =>
        if addr != FID_2 { ReadWriteReq(addr + 1, 0, true); } else { DoCheckComp(); }
      case RestartDevice => Event(WriteDone);
      case _ =>
    }

    /** sm_DL_Read_cnf_cb. */
    method ReadConfirmation(ok: bool, value: byte)
      requires CanStep(View(), ReadConfirmed(ok, value))
      modifies this
      ensures View() == SmStep(old(View()), ReadConfirmed(ok, value))
    {
      pending := None;
      if !ok {
        Event(CnfComlost);
      } else if dl_addr != DUMMY_WURQ {
        var addr := dl_addr;
        StoreParameter(addr, value);
        ReadOn(addr);
      }
    }

    method RestartOn(addr: nat)
      modifies this
      ensures View() == RestartNext(old(View()), addr)
    {
      match addr
      case 0x04 =>
        if config.mode == CfgCom {
          ReadWriteReq(DID_1, (config.deviceid / 65536) % 256, false);
        } else {
          ReadWriteReq(MASTER_CMD, DEVICE_IDENT, false);
        }
      case 0x09 => ReadWriteReq(DID_2, (config.deviceid / 256) % 256, false);
      case 0x0A => ReadWriteReq(DID_3, config.deviceid % 256, false);
      case 0x0B => ReadWriteReq(MASTER_CMD, DEVICE_IDENT, false);
      case 0x00 => ReadWriteReq(MIN_CYCL, 0, true);
      case _ =>
    }

    /** sm_DL_Write_cnf_cb. */
    method WriteConfirmation(ok: bool)
      requires CanStep(View(), WriteConfirmed(ok))
      modifies this
      ensures View() == SmStep(old(View()), WriteConfirmed(ok))
    {
      pending := None;
      if !ok {
        Event(CnfComlost);
        return;
      }
      match state
      case WaitonDLPreoperate => SetModeReq(ReqPreoperate);
      case InspectionFault => Event(error_event);
      case CheckVxy => CheckVxyCnf();
      case RestartDevice => RestartOn(dl_addr);
      case WaitonDLOperate =>
        if dl_addr == MASTER_CYCL {
          ReadWriteReq(MASTER_CMD, DEVICE_OPERATE, false);
        } else if dl_addr == MASTER_CMD {
          SetModeReq(ReqOperate);
        }
    }

    /** sm_DL_Mode_ind_cb. */
    method ModeIndication(m: MhMode)
      modifies this
      ensures View() == SmStep(old(View()), Mode(m))
    {
      if m == MhComlost {
        if state != PortInactive && state != Dido { Event(ModeComlost); }
        return;
      }
      match state
      case PortInactive =>
        if m == MhStartup {
          Event(ModeStartup);
        } else if m == MhInactive {
          PortModeInd(if config.mode == TargetInactive then PmInactive else PmComlost);
        }
      case WaitonDLPreoperate => if m == MhPreoperate { Event(ModePreoperate); }
      case SMOperate => if m == MhOperate { Event(ModeOperate); }
      case WaitonDLOperate => if m == MhOperate { Event(ModeOperate); }
      case InspectionFault =>
      case _ => Event(ModeComlost);
    }

    /** A service of the application layer has its confirmation. */
    ghost method AlAnswered()
      requires al_pending > 0
      modifies this`al_pending
      ensures View() == AlDone(old(View()))
    {
      al_pending := al_pending - 1;
    }

    /** sm_AL_Read_cnf_cb. */
    method SerialConfirmation(r: SerialRead)
      requires CanStep(View(), SerialConfirmed(r))
      modifies this
      ensures View() == SmStep(old(View()), SerialConfirmed(r))
    {
      AlAnswered();
      SerialAnswer(r);
    }

    method SerialAnswer(r: SerialRead)
      modifies this
      ensures View() == SerialResult(old(View()), r)
    {
      match r
      case IndexNotAvailable => StoreSerial(Zeros(SERIAL_LENGTH));
      case SerialError => Event(if device.revisionid == REV_V11 then CnfComlost else ModeComlost);
      case SerialData(data) =>
        if |data| > SERIAL_LENGTH {
          Event(CnfComlost);
        } else {
          StoreSerial(Window(data, 0, SERIAL_LENGTH));
        }
    }

    method StoreSerial(serial: Serial)
      modifies this
      ensures View() == CheckSerial(WithSerial(old(View()), serial))
    {
      device := device.(serial := serial);
      CheckSerialNumber();
    }

    /** sm_write_cycl_cnf_cb. */
    method CycleConfirmation(ok: bool)
      requires CanStep(View(), CycleConfirmed(ok))
      modifies this
      ensures View() == SmStep(old(View()), CycleConfirmed(ok))
    {
      AlAnswered();
      Event(if ok then WriteMasterCyclDone else CnfComlost);
    }

    /** sm_DL_Write_Devmode_cnf. */
    method DevmodeConfirmation(ok: bool)
      modifies this
      ensures View() == SmStep(old(View()), DevmodeConfirmed(ok))
    {
      if ok && state == WaitDevmodeCnf {
        SetModeReq(ReqOperate);
        Event(if device.revisionid == REV_V10 then SmOperateV10 else SmOperateReq);
      } else if ok && state == WaitForFallback {
        Event(SetInactive);
      } else {
        Event(if state == WaitDevmodeCnf then CnfComlost else ModeComlost);
      }
    }

    /** sm_setportcfg_req_cb. */
    method SetPortConfiguration(cfg: Config)
      modifies this
      ensures View() == SmStep(old(View()), Configure(cfg))
    {
      if !Configurable(state) {
        return;
      }
      var event := SetInactive;
      if cfg.mode == CfgCom || cfg.mode == AutoCom {
        event := SetCom;
      } else if cfg.mode == TargetDi || cfg.mode == TargetDo {
        event := SetDio;
      }
      var saved := config.serial;
      config := cfg;
      if saved[0] != 0 { config := config.(serial := saved); }
      Event(event);
    }

    /** sm_operate_cb. */
    method OperateRequest()
      modifies this
      ensures View() == SmStep(old(View()), Operate)
    {
      if device.revisionid != REV_V10 || VendorId(device) != 0x014E {
        Event(WriteMasterCyclReq);
      } else {
        Event(SmOperateV10);
      }
    }

    /** The confirmation of the wake-up itself. */
    method WokenUp()
      requires CanStep(View(), Woken)
      ensures View() == SmStep(old(View()), Woken)
    {
    }

    /** The speed at which the device answered. */
    method SpeedDetected(is_com1: bool)
      modifies this`com1
      ensures View() == SmStep(old(View()), SpeedFound(is_com1))
    {
      com1 := is_com1;
    }

    // ---------- the thread of the port ----------

    method Take(i: SmInput)
      requires CanStep(View(), i)
      modifies this
      ensures View() == SmStep(old(View()), i)
    {
      match i
      case ReadConfirmed(ok, value) => ReadConfirmation(ok, value);
      case WriteConfirmed(ok) => WriteConfirmation(ok);
      case Woken => WokenUp();
      case Mode(m) => ModeIndication(m);
      case SpeedFound(is_com1) => SpeedDetected(is_com1);
      case SerialConfirmed(r) => SerialConfirmation(r);
      case CycleConfirmed(ok) => CycleConfirmation(ok);
      case DevmodeConfirmed(ok) => DevmodeConfirmation(ok);
      case Configure(cfg) => SetPortConfiguration(cfg);
      case Operate => OperateRequest();
    }

    /** One call after the other: the port does what the step machine does. */
    method Drive(inputs: seq<SmInput>)
      requires CanRun(View(), inputs)
      modifies this
      ensures View() == SmRun(old(View()), inputs)
    {
      var i := 0;
      assert inputs[..|inputs|] == inputs;
      while i < |inputs|
        invariant 0 <= i <= |inputs|
        invariant View() == SmRun(old(View()), inputs[..i])
      {
        CanRunPrefix(old(View()), inputs, i);
        Take(inputs[i]);
        i := i + 1;
      }
    }

    /** So from iolink_sm_init on every COMREADY stands for passed checks, and what was
        written is the script. */
    method DriveFromInit(inputs: seq<SmInput>)
      requires Initial(View()) && CanRun(View(), inputs)
      modifies this
      ensures forall k :: 0 <= k < |h.modes| && h.modes[k].PmComReady? ==> GateOk(h.modes[k])
      ensures SystemManagementScript.ScriptInv(View())
    {
      ComReadyIsGated(View(), inputs);
      SystemManagementScript.ComReadyIsOfRevision(View(), inputs);
      Drive(inputs);
    }
  }
}
