/**
 * The on-request application layer as it runs: one object per port, driven by
 * jobs. Every method is tied to the step function on values.
 */
module AppLayerPort {
  import opened Bytes
  import opened IsduCodec
  import opened DlModel
  import opened AppLayer

  lemma RunOneMore(s: Al, inputs: seq<AlInput>, i: nat)
    requires i < |inputs|
    ensures AlRun(s, inputs[..i + 1]) == AlStep(AlRun(s, inputs[..i]), inputs[i])
  {
    assert inputs[..i + 1][..i] == inputs[..i];
  }

  class AlPort {
    var od_state: AlOdState
    var job_req: AlRequest

    // The service in progress.
    var index: nat
    var subindex: byte
    var read: bool
    const data_read: array<byte>
    var data_write: seq<byte>
    var data_len: nat
    var errinfo: Status
    var qualifier: nat
    var cnf_cb: nat

    ghost var h: AlHistory

    ghost predicate Valid()
      reads this
    {
      data_read.Length == ISDU_MAX_SIZE
    }

    ghost function View(): Al
      requires Valid()
      reads this, data_read
    {
      Al(od_state, job_req,
         Service(index, subindex, read, data_read[..], data_write, data_len, errinfo, qualifier, cnf_cb), h)
    }

    /** iolink_al_init. */
    constructor ()
      ensures Valid() && fresh(data_read)
      ensures AlInv(View()) && InForm(View()) && View().h == AlHistory([], [], [], [], [])
    {
      od_state, job_req := OnReqIdle, AlRequest(false, 0, 0, [], 0);
      index, subindex, read, data_write, data_len := 0, 0, false, [], 0;
      data_read := new byte[ISDU_MAX_SIZE](_ => 0);
      errinfo, qualifier, cnf_cb := NoError, 0, 0;
      h := AlHistory([], [], [], [], []);
    }

    /** al_err_to_errortype. */
    method Error(is_isdu: bool) returns (error: nat)
      requires Valid()
      ensures error == ErrorType(View().sv, is_isdu)
    {
      error := SMI_NONE;
      if is_isdu {
        if errinfo == IsduChecksumError {
          error := SMI_M_ISDU_CHECKSUM;
        } else if read {
          if qualifier == READ_RESPONSE_NEG {
            error := if data_len == 2 then U16(data_read[0], data_read[1]) else SMI_APP_DEV;
          } else if qualifier != READ_RESPONSE_POS {
            error := SMI_APP_DEV;
          }
        } else {
          if qualifier == WRITE_RESPONSE_NEG {
            error := if data_len == 2 then U16(data_read[0], data_read[1]) else SMI_APP_DEV;
          } else if qualifier == DEVICE_NO_SERVICE && errinfo == NoError {
            error := SMI_COM_ERR;
          }
        }
      }
      if error == SMI_NONE {
        error := StatusError(errinfo);
      }
    }

    method ReadCallback(data: seq<byte>, error: nat)
      requires Valid()
      modifies this`h
      ensures View() == Deliver(old(View()), AlCnf(true, cnf_cb, data, error))
    {
      h := h.(confirmed := h.confirmed + [AlCnf(true, cnf_cb, data, error)]);
    }

    method WriteCallback(error: nat)
      requires Valid()
      modifies this`h
      ensures View() == Deliver(old(View()), AlCnf(false, cnf_cb, [], error))
    {
      h := h.(confirmed := h.confirmed + [AlCnf(false, cnf_cb, [], error)]);
    }

    method SendCnf(e: AlEvent)
      requires Valid()
      modifies this`h
      ensures View() == SendAlCnf(old(View()), e)
    {
      var error := Error(e == AlIsduCnf);
      match e
      case AlReadParamCnf => ReadCallback(Window(data_read[..], 0, data_len), error);
      case AlWriteParamCnf => WriteCallback(error);
      case AlIsduCnf =>
        if read { ReadCallback(Window(data_read[..], 0, data_len), error); } else { WriteCallback(error); }
      case _ =>
        if read { ReadCallback([], error); } else { WriteCallback(error); }
    }

    method BuildDlServiceAct() returns (e: AlEvent)
      requires Valid()
      modifies this
      ensures Valid() && BuildService(old(View())) == AlOutcome(View(), e)
    {
      e := AlArgErr;
      index, subindex, read, cnf_cb := job_req.index, job_req.subindex, job_req.read, job_req.cb;
      if job_req.read {
        data_len := 0;
        if index <= 1 { e := AlParamRead; } else { e := AlIsduRead; }
      } else {
        data_len, data_write := |job_req.data|, job_req.data;
        if index == 1 { e := AlParamWrite1; } else if index >= 2 { e := AlIsduWrite; }
      }
      if e == AlArgErr {
        errinfo := ParameterConflict;
      }
      h := h.(accepted := h.accepted + [job_req]);
    }

    method TransferAct(e: AlEvent)
      requires Valid()
      modifies this`h
      ensures View() == Transfer(old(View()), e)
    {
      match e
      case AlParamRead => h := h.(dl := h.dl + [ReadParam(index)]);
      case AlParamWrite1 => h := h.(dl := h.dl + [WriteParam(index, if data_write == [] then 0 else data_write[0])]);
      case _ =>
        var rd := e == AlIsduRead;
        h := h.(dl := h.dl + [Isdu(rd, index, subindex, if rd then [] else data_write)]);
    }

    method BusyAct()
      requires Valid()
      modifies this`h
      ensures View() == Busy(old(View()))
    {
      h := h.(busy := h.busy + [job_req],
              rejected := h.rejected + [AlCnf(job_req.read, job_req.cb, [], SMI_SERVICE_TEMP_UNAVAILABLE)]);
    }

    /** One pass: the transition of the state for the event, then its action. */
    method Fire(e: AlEvent) returns (next: AlEvent)
      requires Valid()
      modifies this
      ensures Valid() && AlFire(old(View()), e) == AlOutcome(View(), next)
    {
      next := AlNone;
      match od_state
      case OnReqIdle =>
        if e == AlService {
          od_state := BuildDlService;
          next := BuildDlServiceAct();
        }
      case BuildDlService =>
        if e == AlArgErr {
          od_state := OnReqIdle;
          SendCnf(e);
        } else if e == AlParamRead || e == AlParamWrite1 {
          od_state := AwaitDlParamCnf;
          TransferAct(e);
        } else if e == AlIsduRead || e == AlIsduWrite {
          od_state := AwaitDlIsduCnf;
          TransferAct(e);
        }
      case AwaitDlParamCnf =>
        if e == AlService {
          BusyAct();
        } else if e == AlAbort || e == AlReadParamCnf || e == AlWriteParamCnf {
          od_state := OnReqIdle;
          SendCnf(e);
        }
      case AwaitDlIsduCnf =>
        if e == AlService {
          BusyAct();
        } else if e == AlAbort || e == AlIsduCnf {
          od_state := OnReqIdle;
          SendCnf(e);
        }
    }

    /** iolink_al_od_event. */
    method Event(e: AlEvent)
      requires Valid()
      modifies this
      ensures Valid() && View() == AlHandle(old(View()), e)
    {
      var event := e;
      while event != AlNone
        invariant Valid()
        invariant AlHandle(old(View()), e) == if event == AlNone && e != AlNone then View() else AlHandle(View(), event)
        invariant event == AlService ==> e == AlService && View() == old(View())
        decreases if event == AlService then 2 else if event != AlNone then 1 else 0
      {
        ghost var before := View();
        var next := Fire(event);
        assert AlFire(before, event) == AlOutcome(View(), next);
        event := next;
      }
    }

    /** The job of AL_Read_req or AL_Write_req. */
    method HandleRequest(q: AlRequest)
      requires Valid()
      modifies this
      ensures Valid() && View() == AlStep(old(View()), Ask(q))
    {
      job_req := q;
      Event(AlService);
    }

    method HandleAbort()
      requires Valid()
      modifies this
      ensures Valid() && View() == AlStep(old(View()), AbortRequest)
    {
      errinfo, data_len := IsduAborted, 0;
      var event := AlAbort;
      if od_state == OnReqIdle { event := AlAbortPort; }
      Event(event);
    }

    method HandleReadParamCnf(value: byte, stat: Status)
      requires Valid()
      modifies this, data_read
      ensures Valid() && View() == AlStep(old(View()), ReadParamConfirmed(value, stat))
    {
      ghost var was := data_read[..];
      if data_len < data_read.Length { data_read[data_len] := value; }
      assert data_read[..] == Overwrite(was, data_len, [value]);
      data_len := data_len + 1;
      errinfo := stat;
      Event(AlReadParamCnf);
    }

    method HandleWriteParamCnf(stat: Status)
      requires Valid()
      modifies this
      ensures Valid() && View() == AlStep(old(View()), WriteParamConfirmed(stat))
    {
      errinfo := stat;
      Event(AlWriteParamCnf);
    }

    method HandleIsduCnf(data: Option<seq<byte>>, new_qualifier: nat, stat: Status)
      requires Valid()
      modifies this, data_read
      ensures Valid() && View() == AlStep(old(View()), IsduConfirmed(data, new_qualifier, stat))
    {
      var keep := if read then stat == NoError else new_qualifier == WRITE_RESPONSE_NEG;
      if keep && data.Some? && |data.value| <= ISDU_MAX_SIZE {
        ghost var was := data_read[..];
        forall i | 0 <= i < |data.value| { data_read[i] := data.value[i]; }
        assert data_read[..] == Overwrite(was, 0, data.value);
        data_len := |data.value|;
      }
      errinfo, qualifier := stat, new_qualifier;
      Event(AlIsduCnf);
    }

    // ---------- the thread of the layer ----------

    method Take(i: AlInput)
      requires Valid()
      modifies this, data_read
      ensures Valid() && View() == AlStep(old(View()), i)
    {
      match i
      case Ask(q) => HandleRequest(q);
      case AbortRequest => HandleAbort();
      case ReadParamConfirmed(value, stat) => HandleReadParamCnf(value, stat);
      case WriteParamConfirmed(stat) => HandleWriteParamCnf(stat);
      case IsduConfirmed(data, code, stat) => HandleIsduCnf(data, code, stat);
    }

    /** One job after the other: the layer does what the step machine does. */
    method Drive(inputs: seq<AlInput>)
      requires Valid()
      modifies this, data_read
      ensures Valid() && View() == AlRun(old(View()), inputs)
    {
      var i := 0;
      while i < |inputs|
        invariant 0 <= i <= |inputs| && Valid()
        invariant View() == AlRun(old(View()), inputs[..i])
      {
        RunOneMore(old(View()), inputs, i);
        Take(inputs[i]);
        i := i + 1;
      }
      assert inputs[..|inputs|] == inputs;
    }

    /** So from iolink_al_init on every request is confirmed once or turned away,
        except the one being awaited; like for like, in the form it asked for; and
        the data link layer was asked for exactly what was requested. */
    method DriveFromInit(inputs: seq<AlInput>)
      requires Valid() && AlInv(View()) && InForm(View()) && View().h == AlHistory([], [], [], [], [])
      modifies this, data_read
      ensures Valid() && AlInv(View())
      ensures |h.accepted| + |h.busy| == |h.confirmed| + |h.rejected| + Pending(View())
      ensures LikeForLikeRun(old(View()), inputs) ==> InForm(View())
      ensures h.dl == Asks(h.accepted)
    {
      ghost var s := View();
      OneConfirmationPerRequest(s, inputs);
      EveryRequestIsHandedDown(s, inputs);
      if LikeForLikeRun(s, inputs) { ConfirmedInForm(s, inputs); }
      Drive(inputs);
    }
  }
}
