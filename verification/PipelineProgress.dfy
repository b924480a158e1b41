/** The pipeline comes to its end: a measure that every step but the translator's spin on the
    closed channel lowers, a lowering step in every state in which main still has to wait, and the
    end of every weakly fair run. */
module PipelineProgress {
  import opened Common
  import opened Pipeline
  import opened PipelineSafety

  // ---------- the measure ----------

  function RankMain(m: MainPc): nat {
    match m
    case CallRetrieval => 9 case CallDelivery => 8 case CallWriteout => 7 case OpenGate => 6 case Waiting => 5
    case ReadFetchErrs => 3 case ReadDeliverErrs => 2 case ReadOldmailErrs => 1 case Returned(_) => 0
  }

  function RankFetch(f: FetchPc): nat {
    match f
    case FAbsent => 6 case FGate => 6 case FSending => 5 case FFailed => 4
    case FCall => 3 case FHookCalled => 2 case FHookDone => 1 case FEnd => 0
  }

  /** Once `called` is set the translator only has to find its way to the end of the loop. */
  function RankTrans(t: TransPc, called: bool): nat {
    match t
    case TAbsent => 9
    case TSend(_) => if called then 11 else 17
    case TPoll => if called then 7 else 9
    case TInterrupted => if called then 6 else 8
    case TCall => if called then 5 else 7
    case THookCalled => 6
    case THookDone => 5
    case TRecv => if called then 4 else 9
    case TLoop => if called then 3 else 9
    case TClose => 2
    case TEnd => 0
  }

  function RankDeliv(d: DelivPc): nat {
    match d
    case DAbsent => 6 case DGate => 6 case DRecv => 5 case DHave(_) => 11 case DFailed => 6
    case DSend(_) => 9 case DLeave => 3 case DClose => 2 case DEnd => 0
  }

  function RankWrite(w: WritePc): nat {
    match w
    case WAbsent => 7 case WGate => 7 case WRecv => 5 case WHave(_) => 7 case WFailed => 6
    case WClose => 4 case WCloseFailed => 3 case WLeave => 2 case WEnd => 0
  }

  /** The work left: unsent messages, channel contents and program counters. */
  function Work(s: State): int {
    RankMain(s.main) + 9 * (|s.mail| - s.sent) + RankFetch(s.fetch) + RankTrans(s.trans, s.called)
    + 7 * |s.translated| + RankDeliv(s.deliv) + 3 * |s.delivered| + RankWrite(s.write)
  }

  function Polls(t: TransPc): nat { match t case TLoop => 2 case TPoll => 1 case _ => 0 }

  function Measure(s: State): int { 3 * Work(s) + Polls(s.trans) }

  /** Steps that may leave the work as it is: the translator's polling loop and the environment. */
  predicate Idles(a: Action) { a.TTest? || a.TAsk? || a.TSpin? || a.Signal? || a.Pause? }

  predicate Lowers(s: State, a: Action, s': State) {
    && Work(s') <= Work(s)
    && (Work(s') == Work(s) ==> Idles(a) && (By(a).World? || !s.called))
    && (a.TSpin? || By(a).World? || Measure(s') < Measure(s))
  }

  lemma MainLowers(s: State, a: Action)
    requires GateWorks(s) && Enabled(s, a) && By(a).Main?
    ensures Lowers(s, a, DoMain(s, a))
  {
    hide RecordOf;
  }

  lemma FetchLowers(s: State, a: Action)
    requires OnceWorks(s) && Enabled(s, a) && By(a).Fetcher?
    ensures Lowers(s, a, DoFetch(s, a))
  {
    hide RecordOf;
  }

  lemma TransLowers(s: State, a: Action)
    requires OnceWorks(s) && Enabled(s, a) && By(a).Translator?
    ensures Lowers(s, a, DoHandOver(s, a))
  {
    hide RecordOf;
  }

  lemma InterruptLowers(s: State, a: Action)
    requires OnceWorks(s) && Enabled(s, a) && By(a).Interrupted?
    ensures Lowers(s, a, DoInterrupt(s, a))
  {
    hide RecordOf;
  }

  lemma DelivLowers(s: State, a: Action)
    requires Enabled(s, a) && By(a).Deliverer?
    ensures Lowers(s, a, DoDeliv(s, a))
  {
    hide RecordOf;
  }

  lemma WriteLowers(s: State, a: Action)
    requires Enabled(s, a) && By(a).Writer?
    ensures Lowers(s, a, DoWrite(s, a))
  {
    hide RecordOf;
  }

  lemma WorldLowers(s: State, a: Action)
    requires Enabled(s, a) && By(a).World?
    ensures Lowers(s, a, Do(s, a))
  {
    hide Enabled;
    assert Do(s, a).(sig := s.sig) == s;
  }

  /** Every step lowers the measure, except the spin on the closed channel and the environment. */
  lemma StepLowers(s: State, a: Action)
    requires Control(s) && Enabled(s, a)
    ensures Lowers(s, a, Do(s, a))
  {
    hide DoMain, DoFetch, DoHandOver, DoInterrupt, DoDeliv, DoWrite, Enabled, Lowers;
    hide Counted, OnceWorks, CausesCounted, GateWorks, ShutDownInOrder;
    match By(a) {
      case Main => MainLowers(s, a);
      case Fetcher => FetchLowers(s, a);
      case Translator => TransLowers(s, a);
      case Interrupted => InterruptLowers(s, a);
      case Deliverer => DelivLowers(s, a);
      case Writer => WriteLowers(s, a);
      case World => WorldLowers(s, a);
    }
  }

  // ---------- somebody can always go on ----------

  datatype Goroutine = OfMain | OfFetch | OfTrans | OfDeliv | OfWrite

  predicate Moves(a: Action, g: Goroutine) {
    match g
    case OfMain => By(a).Main?
    case OfFetch => By(a).Fetcher?
    case OfTrans => By(a).Translator? || By(a).Interrupted?
    case OfDeliv => By(a).Deliverer?
    case OfWrite => By(a).Writer?
  }

  predicate FetchReady(s: State) {
    && !s.fetch.FAbsent? && !s.fetch.FEnd? && (s.fetch.FGate? ==> s.gate)
    && (s.fetch.FSending? ==> s.sent == |s.mail|) && (s.fetch.FCall? ==> !s.once.Running?)
  }

  predicate TransReady(s: State) {
    && !s.trans.TAbsent? && !s.trans.TEnd?
    && (s.trans.TRecv? ==> (s.fetch.FSending? && s.sent < |s.mail|) || s.fetchClosed)
    && (s.trans.TCall? ==> !s.once.Running?)
    && (s.trans.TSend? ==> |s.translated| < RETRIEVAL_BUFFER)
  }

  predicate DelivReady(s: State) {
    && !s.deliv.DAbsent? && !s.deliv.DEnd? && (s.deliv.DGate? ==> s.gate)
    && (s.deliv.DRecv? ==> s.translated != [] || s.translatedClosed)
    && (s.deliv.DSend? ==> |s.delivered| < DELIVERY_BUFFER)
  }

  predicate WriteReady(s: State) {
    && !s.write.WAbsent? && !s.write.WEnd? && (s.write.WGate? ==> s.gate)
    && (s.write.WRecv? ==> s.delivered != [] || s.deliveredClosed)
  }

  predicate MainReady(s: State) { !s.main.Returned? && (s.main.Waiting? ==> s.wg == 0) }

  /** The goroutine is not blocked. A fetch that waits for the translator may fail at any time, but
      nobody can count on that. */
  predicate CanGo(s: State, g: Goroutine) {
    match g
    case OfMain => MainReady(s)
    case OfFetch => FetchReady(s)
    case OfTrans => TransReady(s)
    case OfDeliv => DelivReady(s)
    case OfWrite => WriteReady(s)
  }

  lemma FetchMove(s: State) returns (a: Action)
    requires FetchReady(s)
    ensures Enabled(s, a) && By(a).Fetcher? && !a.FFail?
  {
    match s.fetch {
      case FGate => a := FStart;
      case FSending => a := FFinish;
      case FFailed => a := FCount;
      case FCall => a := FEnter;
      case FHookCalled => a := FSetCalled;
      case FHookDone => a := FDone;
    }
  }

  lemma TransMove(s: State) returns (a: Action)
    requires TransReady(s)
    ensures Enabled(s, a) && (By(a).Translator? || By(a).Interrupted?)
  {
    match s.trans {
      case TLoop => a := TTest;
      case TPoll => a := TAsk;
      case TInterrupted => a := TCount;
      case TCall => a := TEnter;
      case THookCalled => a := TSetCalled;
      case THookDone => a := TDone;
      case TRecv => a := if s.fetch.FSending? && s.sent < |s.mail| then THandOver else TSpin;
      case TSend(_) => a := TPut;
      case TClose => a := TCloseChan;
    }
  }

  lemma DelivMove(s: State) returns (a: Action)
    requires DelivReady(s)
    ensures Enabled(s, a) && By(a).Deliverer?
  {
    match s.deliv {
      case DGate => a := DStart;
      case DRecv => a := if s.translated != [] then DTake else DRangeEnds;
      case DHave(_) => a := DFail;
      case DFailed => a := DCount;
      case DSend(_) => a := DPut;
      case DLeave => a := DDone;
      case DClose => a := DCloseChan;
    }
  }

  lemma WriteMove(s: State) returns (a: Action)
    requires WriteReady(s)
    ensures Enabled(s, a) && By(a).Writer?
  {
    match s.write {
      case WGate => a := WStart;
      case WRecv => a := if s.delivered != [] then WTake else WRangeEnds;
      case WHave(_) => a := if s.broken then WSkip else WAppend;
      case WFailed => a := WCount;
      case WClose => a := WCloseFile;
      case WCloseFailed => a := WCountClose;
      case WLeave => a := WDone;
    }
  }

  lemma MainMove(s: State) returns (a: Action)
    requires MainReady(s)
    ensures Enabled(s, a) && By(a).Main?
  {
    match s.main {
      case CallRetrieval => a := LaunchRetrieval;
      case CallDelivery => a := LaunchDelivery;
      case CallWriteout => a := LaunchWriteout;
      case OpenGate => a := StartGate;
      case Waiting => a := Join;
      case ReadFetchErrs => a := CheckFetchErrs;
      case ReadDeliverErrs => a := CheckDeliverErrs;
      case ReadOldmailErrs => a := CheckOldmailErrs;
    }
  }

  /** `CanGo` means what it says: the goroutine has an enabled step, the failing of the fetch aside. */
  lemma CanGoIffEnabled(s: State, g: Goroutine)
    ensures CanGo(s, g) <==> exists a :: Enabled(s, a) && Moves(a, g) && !a.FFail?
  {
    if CanGo(s, g) {
      var a;
      match g {
        case OfMain => a := MainMove(s);
        case OfFetch => a := FetchMove(s);
        case OfTrans => a := TransMove(s);
        case OfDeliv => a := DelivMove(s);
        case OfWrite => a := WriteMove(s);
      }
      assert Enabled(s, a) && Moves(a, g) && !a.FFail?;
    }
  }

  /** While main waits and nobody else can go on, the translator can, and it does not spin idly. */
  lemma OnlyTranslatorLeft(s: State)
    requires Control(s) && s.gate && s.wg > 0
    requires !FetchReady(s) && !DelivReady(s) && !WriteReady(s)
    ensures TransReady(s) && (s.called || !s.fetchClosed || TransInHook(s.trans))
  {
  }

  lemma WorkDropsMeasure(s: State, a: Action)
    requires Control(s) && Enabled(s, a) && !By(a).World?
    requires a.TSpin? ==> s.called
    ensures Measure(Do(s, a)) < Measure(s)
  {
    StepLowers(s, a);
    hide Do, Enabled, Work, Control;
  }

  /** No deadlock: in every state in which main has not returned yet, some goroutine has an enabled
      step that lowers the measure. */
  lemma Progress(s: State) returns (a: Action)
    requires Control(s) && !s.main.Returned?
    ensures Enabled(s, a) && !By(a).World? && !a.FFail? && Measure(Do(s, a)) < Measure(s)
  {
    if MainReady(s) {
      a := MainMove(s);
    } else if FetchReady(s) {
      a := FetchMove(s);
    } else if DelivReady(s) {
      a := DelivMove(s);
    } else if WriteReady(s) {
      a := WriteMove(s);
    } else {
      MainWaits(s);
      OnlyTranslatorLeft(s);
      a := TransMove(s);
      SpinOnlyWhenCalled(s, a);
    }
    hide Control;
    WorkDropsMeasure(s, a);
  }

  lemma MainWaits(s: State)
    requires Control(s) && !s.main.Returned? && !MainReady(s)
    ensures s.main.Waiting? && s.wg > 0 && s.gate
  {
    hide OnceWorks, CausesCounted, ShutDownInOrder;
  }

  lemma SpinOnlyWhenCalled(s: State, a: Action)
    requires Enabled(s, a) && (s.called || !s.fetchClosed || TransInHook(s.trans))
    ensures a.TSpin? ==> s.called
  {
  }
}
