/** The download pipeline as a transition system: the set-up and join of core/download.go, the two
    goroutines of `streamingRetrieval` (core/imap_client.go), `streamingDelivery`
    (core/deliver.go) and `streamingOldmailWriteout` (core/oldmail.go).

    Every goroutine has a program counter; every channel operation, file operation, counter update
    and access to `once.called` is one atomic step. A step is an `Action`; `Enabled` says when it can
    happen and `Do` what it does. */
module Pipeline {
  import opened Common
  import EmailFields

  const RETRIEVAL_BUFFER := 20
  const DELIVERY_BUFFER := 10

  /** `downloadMissingEmailsToFolder` from the call of `streamingRetrieval` on. */
  datatype MainPc =
    | CallRetrieval | CallDelivery | CallWriteout | OpenGate | Waiting
    | ReadFetchErrs | ReadDeliverErrs | ReadOldmailErrs
    | Returned(ok: bool)

  /** The goroutine that runs `UidFetch`. */
  datatype FetchPc =
    | FAbsent | FGate | FSending | FFailed | FCall | FHookCalled | FHookDone | FEnd

  /** The goroutine that hands messages on and polls for interrupts. */
  datatype TransPc =
    | TAbsent | TLoop | TPoll | TInterrupted | TCall | THookCalled | THookDone
    | TRecv | TSend(msg: Message) | TClose | TEnd

  datatype DelivPc =
    | DAbsent | DGate | DRecv | DHave(msg: Message) | DFailed | DSend(om: Oldmail)
    | DLeave | DClose | DEnd

  datatype WritePc =
    | WAbsent | WGate | WRecv | WHave(om: Oldmail) | WFailed | WClose | WCloseFailed | WLeave | WEnd

  /** `once` around `sync.Once`: whoever finds it running waits for the hook to finish. */
  datatype Once = Ready | Running | Spent

  /** The interrupt channel of the session: armed (with a signal pending or not) or deregistered. */
  datatype Interrupt = Armed(pending: bool) | Gone

  /** A message the deliverer is done with, and whether it now lies in `new/`. */
  datatype Handled = Handled(msg: Message, stored: bool)

  datatype State = State(
    // Fixed during the run: the validity of the mailbox, and what the fetch sends if it gets to
    // its end. The server may send nil in between.
    fold: int64, mail: seq<Option<Message>>,
    // Goroutines.
    main: MainPc, fetch: FetchPc, trans: TransPc, deliv: DelivPc, write: WritePc,
    // How far the fetch got, and whether it closed the unbuffered channel.
    sent: nat, fetchClosed: bool,
    // The two buffered channels.
    translated: seq<Message>, translatedClosed: bool,
    delivered: seq<Oldmail>, deliveredClosed: bool,
    // Synchronisation.
    gate: bool, wg: int, once: Once, called: bool, sig: Interrupt,
    // Error counters, and the sticky write error of the writer.
    fetchErrs: nat, deliverErrs: nat, oldmailErrs: nat, broken: bool,
    // What happened so far: messages the deliverer dealt with, records the writer took from its
    // channel, records appended to the log.
    handled: seq<Handled>, taken: seq<Oldmail>, log: seq<Oldmail>
  )

  datatype Action =
    // main
    | LaunchRetrieval | LaunchDelivery | LaunchWriteout | WriteoutOpenFails | StartGate | Join
    | CheckFetchErrs | CheckDeliverErrs | CheckOldmailErrs
    // fetch
    | FStart | FFinish | FFail | FCount | FEnter | FSetCalled | FDone
    // translate; THandOver is the rendezvous with the fetch on the unbuffered channel
    | TTest | TAsk | TCount | TEnter | TSetCalled | TDone | THandOver | TSpin | TPut | TCloseChan
    // deliver
    | DStart | DTake | DStore | DFail | DCount | DPut | DRangeEnds | DDone | DCloseChan
    // write out
    | WStart | WTake | WAppend | WAppendFails | WSkip | WCount | WRangeEnds
    | WCloseFile | WCloseFails | WCountClose | WDone
    // environment
    | Signal | Pause

  function Init(fold: int64, mail: seq<Option<Message>>, sig: Interrupt): State {
    State(fold, mail, CallRetrieval, FAbsent, TAbsent, DAbsent, WAbsent, 0, false, [], false, [], false,
          false, 0, Ready, false, sig, 0, 0, 0, false, [], [], [])
  }

  function RecordOf(msg: Message, fold: int64): Option<Oldmail> {
    match EmailFields.Extract(msg.fields, fold)
    case Ok((_, om)) => Some(om)
    case Err => None
  }

  predicate Enabled(s: State, a: Action) {
    match a
    case LaunchRetrieval => s.main.CallRetrieval?
    case LaunchDelivery => s.main.CallDelivery?
    case LaunchWriteout => s.main.CallWriteout?
    case WriteoutOpenFails => s.main.CallWriteout?
    case StartGate => s.main.OpenGate?
    case Join => s.main.Waiting? && s.wg == 0
    case CheckFetchErrs => s.main.ReadFetchErrs?
    case CheckDeliverErrs => s.main.ReadDeliverErrs?
    case CheckOldmailErrs => s.main.ReadOldmailErrs?

    case FStart => s.fetch.FGate? && s.gate
    case FFinish => s.fetch.FSending? && s.sent == |s.mail|
    case FFail => s.fetch.FSending?
    case FCount => s.fetch.FFailed?
    case FEnter => s.fetch.FCall? && !s.once.Running?
    case FSetCalled => s.fetch.FHookCalled?
    case FDone => s.fetch.FHookDone?

    case TTest => s.trans.TLoop?
    case TAsk => s.trans.TPoll?
    case TCount => s.trans.TInterrupted?
    case TEnter => s.trans.TCall? && !s.once.Running?
    case TSetCalled => s.trans.THookCalled?
    case TDone => s.trans.THookDone?
    case THandOver => s.trans.TRecv? && s.fetch.FSending? && s.sent < |s.mail|
    case TSpin => s.trans.TRecv? && s.fetchClosed
    case TPut => s.trans.TSend? && |s.translated| < RETRIEVAL_BUFFER
    case TCloseChan => s.trans.TClose?

    case DStart => s.deliv.DGate? && s.gate
    case DTake => s.deliv.DRecv? && s.translated != []
    case DStore => s.deliv.DHave? && RecordOf(s.deliv.msg, s.fold).Some?
    case DFail => s.deliv.DHave?
    case DCount => s.deliv.DFailed?
    case DPut => s.deliv.DSend? && |s.delivered| < DELIVERY_BUFFER
    case DRangeEnds => s.deliv.DRecv? && s.translated == [] && s.translatedClosed
    case DDone => s.deliv.DLeave?
    case DCloseChan => s.deliv.DClose?

    case WStart => s.write.WGate? && s.gate
    case WTake => s.write.WRecv? && s.delivered != []
    case WAppend => s.write.WHave? && !s.broken
    case WAppendFails => s.write.WHave? && !s.broken
    case WSkip => s.write.WHave? && s.broken
    case WCount => s.write.WFailed?
    case WRangeEnds => s.write.WRecv? && s.delivered == [] && s.deliveredClosed
    case WCloseFile => s.write.WClose?
    case WCloseFails => s.write.WClose?
    case WCountClose => s.write.WCloseFailed?
    case WDone => s.write.WLeave?

    case Signal => true
    case Pause => true
  }

  function NextMain(s: State, a: Action): MainPc {
    match a
    case LaunchRetrieval => CallDelivery
    case LaunchDelivery => CallWriteout
    case LaunchWriteout => OpenGate
    case WriteoutOpenFails => Returned(false)
    case StartGate => Waiting
    case Join => ReadFetchErrs
    case CheckFetchErrs => if s.fetchErrs > 0 then Returned(false) else ReadDeliverErrs
    case CheckDeliverErrs => if s.deliverErrs > 0 then Returned(false) else ReadOldmailErrs
    case CheckOldmailErrs => Returned(s.oldmailErrs == 0)
    case _ => s.main
  }

  /** A launch adds to the WaitGroup before it starts its goroutines. */
  function DoMain(s: State, a: Action): State
    requires Enabled(s, a)
  {
    s.(main := NextMain(s, a),
       wg := s.wg + if a.LaunchRetrieval? || a.LaunchDelivery? || a.LaunchWriteout? then 1 else 0,
       fetch := if a.LaunchRetrieval? then FGate else s.fetch,
       trans := if a.LaunchRetrieval? then TLoop else s.trans,
       deliv := if a.LaunchDelivery? then DGate else s.deliv,
       write := if a.LaunchWriteout? then WGate else s.write,
       gate := s.gate || a.StartGate?)
  }

  /** `sync.Once.Do`: the first caller runs the hook. */
  function Entered(once: Once): Once { if once.Ready? then Running else once }

  function NextFetch(s: State, a: Action): FetchPc {
    match a
    case FStart => FSending
    case FFinish => FCall
    case FFail => FFailed
    case FCount => FCall
    case FEnter => if s.once.Spent? then FEnd else FHookCalled
    case FSetCalled => FHookDone
    case FDone => FEnd
    case _ => s.fetch
  }

  /** Whatever its outcome, `UidFetch` closes its channel. */
  function DoFetch(s: State, a: Action): State
    requires Enabled(s, a)
  {
    s.(fetch := NextFetch(s, a),
       fetchClosed := s.fetchClosed || a.FFinish? || a.FFail?,
       fetchErrs := s.fetchErrs + if a.FCount? then 1 else 0,
       once := if a.FEnter? then Entered(s.once) else if a.FDone? then Spent else s.once,
       called := s.called || a.FSetCalled?,
       wg := s.wg - if a.FDone? then 1 else 0)
  }

  /** `interrupted`: a pending signal, or no signal channel any more. Asking takes the signal and
      deregisters, so that the answer stays true. */
  predicate Quiet(sig: Interrupt) { sig.Armed? && !sig.pending }

  function Asked(sig: Interrupt): Interrupt { if Quiet(sig) then sig else Gone }

  function NextPoll(s: State, a: Action): TransPc {
    match a
    case TAsk => if Quiet(s.sig) then TRecv else TInterrupted
    case TCount => TCall
    case TEnter => if s.once.Spent? then TLoop else THookCalled
    case TSetCalled => THookDone
    case TDone => TLoop
    case _ => s.trans
  }

  /** The translator's interrupt branch: the error is counted before the once is called. */
  function DoInterrupt(s: State, a: Action): State
    requires Enabled(s, a)
  {
    s.(trans := NextPoll(s, a),
       sig := if a.TAsk? then Asked(s.sig) else s.sig,
       fetchErrs := s.fetchErrs + if a.TCount? then 1 else 0,
       once := if a.TEnter? then Entered(s.once) else if a.TDone? then Spent else s.once,
       called := s.called || a.TSetCalled?,
       wg := s.wg - if a.TDone? then 1 else 0)
  }

  function Received(m: Option<Message>): TransPc { if m.Some? then TSend(m.value) else TLoop }

  function NextTrans(s: State, a: Action): TransPc
    requires Enabled(s, a)
  {
    match a
    case TTest => if s.called then TClose else TPoll
    case THandOver => Received(s.mail[s.sent])
    case TSpin => TLoop
    case TPut => TLoop
    case TCloseChan => TEnd
    case _ => s.trans
  }

  /** The translator's loop: test `called`, receive, hand on, close. */
  function DoHandOver(s: State, a: Action): State
    requires Enabled(s, a)
  {
    s.(trans := NextTrans(s, a),
       sent := s.sent + if a.THandOver? then 1 else 0,
       translated := if a.TPut? then s.translated + [s.trans.msg] else s.translated,
       translatedClosed := s.translatedClosed || a.TCloseChan?)
  }

  function NextDeliv(s: State, a: Action): DelivPc
    requires Enabled(s, a)
  {
    match a
    case DStart => DRecv
    case DTake => DHave(s.translated[0])
    case DStore => DSend(RecordOf(s.deliv.msg, s.fold).value)
    case DFail => DFailed
    case DCount => DRecv
    case DPut => DRecv
    case DRangeEnds => DLeave
    case DDone => DClose
    case DCloseChan => DEnd
    case _ => s.deliv
  }

  function DoDeliv(s: State, a: Action): State
    requires Enabled(s, a)
  {
    s.(deliv := NextDeliv(s, a),
       translated := if a.DTake? then s.translated[1..] else s.translated,
       handled := if a.DStore? || a.DFail? then s.handled + [Handled(s.deliv.msg, a.DStore?)] else s.handled,
       deliverErrs := s.deliverErrs + if a.DCount? then 1 else 0,
       delivered := if a.DPut? then s.delivered + [s.deliv.om] else s.delivered,
       deliveredClosed := s.deliveredClosed || a.DCloseChan?,
       wg := s.wg - if a.DDone? then 1 else 0)
  }

  function NextWrite(s: State, a: Action): WritePc
    requires Enabled(s, a)
  {
    match a
    case WStart => WRecv
    case WTake => WHave(s.delivered[0])
    case WAppend => WRecv
    case WAppendFails => WFailed
    case WSkip => WRecv
    case WCount => WRecv
    case WRangeEnds => WClose
    case WCloseFile => WLeave
    case WCloseFails => WCloseFailed
    case WCountClose => WLeave
    case WDone => WEnd
    case _ => s.write
  }

  function DoWrite(s: State, a: Action): State
    requires Enabled(s, a)
  {
    s.(write := NextWrite(s, a),
       delivered := if a.WTake? then s.delivered[1..] else s.delivered,
       taken := if a.WTake? then s.taken + [s.delivered[0]] else s.taken,
       log := if a.WAppend? then s.log + [s.write.om] else s.log,
       broken := s.broken || a.WAppendFails?,
       oldmailErrs := s.oldmailErrs + if a.WCount? || a.WCountClose? then 1 else 0,
       wg := s.wg - if a.WDone? then 1 else 0)
  }

  /** The translator appears twice, once for each branch of its loop body. */
  datatype Actor = Main | Fetcher | Translator | Interrupted | Deliverer | Writer | World

  function By(a: Action): Actor {
    match a
    case LaunchRetrieval | LaunchDelivery | LaunchWriteout | WriteoutOpenFails | StartGate | Join => Main
    case CheckFetchErrs | CheckDeliverErrs | CheckOldmailErrs => Main
    case FStart | FFinish | FFail | FCount | FEnter | FSetCalled | FDone => Fetcher
    case TTest | THandOver | TSpin | TPut | TCloseChan => Translator
    case TAsk | TCount | TEnter | TSetCalled | TDone => Interrupted
    case DStart | DTake | DStore | DFail | DCount | DPut | DRangeEnds | DDone | DCloseChan => Deliverer
    case WStart | WTake | WAppend | WAppendFails | WSkip | WCount | WRangeEnds => Writer
    case WCloseFile | WCloseFails | WCountClose | WDone => Writer
    case Signal | Pause => World
  }

  function Do(s: State, a: Action): State
    requires Enabled(s, a)
  {
    match By(a)
    case Main => DoMain(s, a)
    case Fetcher => DoFetch(s, a)
    case Translator => DoHandOver(s, a)
    case Interrupted => DoInterrupt(s, a)
    case Deliverer => DoDeliv(s, a)
    case Writer => DoWrite(s, a)
    case World => s.(sig := if a.Signal? && s.sig.Armed? then Armed(true) else s.sig)
  }

  predicate Feasible(s: State, run: seq<Action>)
    decreases |run|
  {
    run == [] || (Enabled(s, run[0]) && Feasible(Do(s, run[0]), run[1..]))
  }

  /** The state a run leads to: a run is any interleaving of the steps of all goroutines. */
  function After(s: State, run: seq<Action>): State
    requires Feasible(s, run)
    decreases |run|
  {
    if run == [] then s else After(Do(s, run[0]), run[1..])
  }
}
