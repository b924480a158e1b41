/** When `downloadMissingEmailsToFolder` returns nil. */
module PipelineOutcome {
  import opened Common
  import EmailFields
  import Interrupts
  import opened Pipeline
  import opened PipelineSafety

  /** Steps that count an error; failing to open the log ends the call at once. */
  predicate CountsError(a: Action) {
    a.FCount? || a.TCount? || a.DCount? || a.WCount? || a.WCountClose? || a.WriteoutOpenFails?
  }

  predicate NoErrors(s: State) {
    s.fetchErrs == 0 && s.deliverErrs == 0 && s.oldmailErrs == 0 && s.main != Returned(false)
  }

  predicate ErrorsTold(s: State, a: Action, s': State) { NoErrors(s') <==> NoErrors(s) && !CountsError(a) }

  lemma ErrorsOfMain(s: State, a: Action)
    requires Enabled(s, a) && By(a).Main?
    ensures ErrorsTold(s, a, DoMain(s, a))
  {
    hide RecordOf;
  }

  lemma ErrorsOfFetch(s: State, a: Action)
    requires Enabled(s, a) && By(a).Fetcher?
    ensures ErrorsTold(s, a, DoFetch(s, a))
  {
    hide RecordOf, NextFetch;
  }

  lemma ErrorsOfHandOver(s: State, a: Action)
    requires Enabled(s, a) && By(a).Translator?
    ensures ErrorsTold(s, a, DoHandOver(s, a))
  {
    hide RecordOf, Enabled, NextTrans;
  }

  lemma ErrorsOfPoll(s: State, a: Action)
    requires Enabled(s, a) && By(a).Interrupted?
    ensures ErrorsTold(s, a, DoInterrupt(s, a))
  {
    hide RecordOf, NextPoll;
  }

  lemma ErrorsOfDeliv(s: State, a: Action)
    requires Enabled(s, a) && By(a).Deliverer?
    ensures ErrorsTold(s, a, DoDeliv(s, a))
  {
    hide RecordOf, Enabled, NextDeliv;
  }

  lemma ErrorsOfWrite(s: State, a: Action)
    requires Enabled(s, a) && By(a).Writer?
    ensures ErrorsTold(s, a, DoWrite(s, a))
  {
    hide RecordOf, Enabled, NextWrite;
  }

  lemma ErrorsStep(s: State, a: Action)
    requires Enabled(s, a)
    ensures ErrorsTold(s, a, Do(s, a))
  {
    hide Enabled, DoMain, DoFetch, DoHandOver, DoInterrupt, DoDeliv, DoWrite;
    match By(a) {
      case Main => ErrorsOfMain(s, a);
      case Fetcher => ErrorsOfFetch(s, a);
      case Translator => ErrorsOfHandOver(s, a);
      case Interrupted => ErrorsOfPoll(s, a);
      case Deliverer => ErrorsOfDeliv(s, a);
      case Writer => ErrorsOfWrite(s, a);
      case World =>
    }
  }

  lemma {:induction false} ErrorsOfRun(s: State, run: seq<Action>)
    requires Feasible(s, run)
    ensures NoErrors(After(s, run)) <==> NoErrors(s) && forall a <- run :: !CountsError(a)
    decreases |run|
  {
    hide Enabled, Do, NoErrors, CountsError;
    if run == [] {
    } else {
      assert run == [run[0]] + run[1..];
      ErrorsStep(s, run[0]);
      ErrorsOfRun(Do(s, run[0]), run[1..]);
    }
  }

  /** A call that returns gives nil if and only if no error was counted and the log could be opened. */
  lemma NilIffNothingCounted(fold: int64, mail: seq<Option<Message>>, sig: Interrupt, run: seq<Action>)
    requires Feasible(Init(fold, mail, sig), run) && After(Init(fold, mail, sig), run).main.Returned?
    ensures After(Init(fold, mail, sig), run).main == Returned(true) <==> forall a <- run :: !CountsError(a)
  {
    InitInv(fold, mail, sig);
    assert NoErrors(Init(fold, mail, sig));
    hide Feasible, After, Init, Control, MessagesFlow, RecordsFlow, LogFollows, DropsCounted, CountsError;
    RunKeepsInv(Init(fold, mail, sig), run);
    ErrorsOfRun(Init(fold, mail, sig), run);
  }

  // ---------- when nothing goes wrong ----------

  /** A failing operation. */
  predicate OperationFails(a: Action) {
    a.FFail? || a.DFail? || a.WAppendFails? || a.WCloseFails? || a.WriteoutOpenFails?
  }

  predicate GoesWrong(a: Action) { OperationFails(a) || a.Signal? }

  predicate AllWell(s: State) {
    && NoErrors(s) && Quiet(s.sig)
    && !s.fetch.FFailed? && !s.trans.TInterrupted? && !s.deliv.DFailed? && !s.write.WFailed? && !s.write.WCloseFailed?
  }

  /** No step that counts an error is enabled. */
  lemma WellMeansUncounted(s: State, a: Action)
    requires AllWell(s) && Enabled(s, a) && !GoesWrong(a)
    ensures !CountsError(a)
  {
    hide RecordOf;
  }

  predicate StaysWell(s: State, s': State) {
    && Quiet(s'.sig) && !s'.fetch.FFailed? && !s'.trans.TInterrupted?
    && !s'.deliv.DFailed? && !s'.write.WFailed? && !s'.write.WCloseFailed?
  }

  lemma WellByMain(s: State, a: Action)
    requires AllWell(s) && Enabled(s, a) && !GoesWrong(a) && By(a).Main?
    ensures StaysWell(s, DoMain(s, a))
  {
    hide RecordOf, Enabled, NextMain;
  }

  lemma WellByFetch(s: State, a: Action)
    requires AllWell(s) && Enabled(s, a) && !GoesWrong(a) && By(a).Fetcher?
    ensures StaysWell(s, DoFetch(s, a))
  {
    hide RecordOf, Enabled;
  }

  lemma WellByHandOver(s: State, a: Action)
    requires AllWell(s) && Enabled(s, a) && !GoesWrong(a) && By(a).Translator?
    ensures StaysWell(s, DoHandOver(s, a))
  {
    hide RecordOf;
  }

  lemma WellByPoll(s: State, a: Action)
    requires AllWell(s) && Enabled(s, a) && !GoesWrong(a) && By(a).Interrupted?
    ensures StaysWell(s, DoInterrupt(s, a))
  {
    hide RecordOf;
  }

  lemma WellByDeliv(s: State, a: Action)
    requires AllWell(s) && Enabled(s, a) && !GoesWrong(a) && By(a).Deliverer?
    ensures StaysWell(s, DoDeliv(s, a))
  {
    hide RecordOf;
  }

  lemma WellByWrite(s: State, a: Action)
    requires AllWell(s) && Enabled(s, a) && !GoesWrong(a) && By(a).Writer?
    ensures StaysWell(s, DoWrite(s, a))
  {
    hide RecordOf;
  }

  lemma WellStep(s: State, a: Action)
    requires AllWell(s) && Enabled(s, a) && !GoesWrong(a)
    ensures AllWell(Do(s, a))
  {
    hide Enabled, DoMain, DoFetch, DoHandOver, DoInterrupt, DoDeliv, DoWrite, NoErrors, CountsError;
    WellMeansUncounted(s, a);
    ErrorsStep(s, a);
    match By(a) {
      case Main => WellByMain(s, a);
      case Fetcher => WellByFetch(s, a);
      case Translator => WellByHandOver(s, a);
      case Interrupted => WellByPoll(s, a);
      case Deliverer => WellByDeliv(s, a);
      case Writer => WellByWrite(s, a);
      case World =>
    }
  }

  // ---------- what an interrupt does ----------

  lemma {:induction false} SplitRun(s: State, run: seq<Action>, k: nat)
    requires Feasible(s, run) && k <= |run|
    ensures Feasible(s, run[..k]) && Feasible(After(s, run[..k]), run[k..])
    ensures After(s, run) == After(After(s, run[..k]), run[k..])
    decreases |run|
  {
    hide Enabled, Do;
    if k == 0 {
      assert run[..k] == [] && run[k..] == run;
    } else {
      assert run[..k][1..] == run[1..][..k - 1] && run[k..] == run[1..][k - 1..];
      SplitRun(Do(s, run[0]), run[1..], k - 1);
    }
  }

  /** A step in the middle of a run. */
  lemma StepOfRun(s: State, run: seq<Action>, k: nat)
    requires Feasible(s, run) && k < |run|
    ensures Feasible(s, run[..k]) && Enabled(After(s, run[..k]), run[k])
    ensures Feasible(Do(After(s, run[..k]), run[k]), run[k + 1..])
    ensures After(s, run) == After(Do(After(s, run[..k]), run[k]), run[k + 1..])
  {
    hide Enabled, Do;
    SplitRun(s, run, k);
    assert run[k..][1..] == run[k + 1..];
  }

  lemma SignalArrives(s: State)
    requires Enabled(s, Signal)
    ensures !Quiet(Do(s, Signal).sig) && Do(s, Signal).sent == s.sent
  {
  }

  /** Once the user has interrupted, at most one more message is taken from the fetch. */
  lemma SignalStopsRetrieval(fold: int64, mail: seq<Option<Message>>, sig: Interrupt, run: seq<Action>, k: nat)
    requires Feasible(Init(fold, mail, sig), run) && k < |run| && run[k].Signal?
    ensures Feasible(Init(fold, mail, sig), run[..k])
    ensures After(Init(fold, mail, sig), run).sent <= After(Init(fold, mail, sig), run[..k]).sent + 1
  {
    var init := Init(fold, mail, sig);
    hide Feasible, After, Init, Do, Enabled, Quiet;
    StepOfRun(init, run, k);
    SignalArrives(After(init, run[..k]));
    InterruptStopsRetrieval(Do(After(init, run[..k]), run[k]), run[k + 1..]);
  }

  lemma {:induction false} StaysInterrupted(s: State, run: seq<Action>)
    requires !Quiet(s.sig) && Feasible(s, run)
    ensures !Quiet(After(s, run).sig)
    decreases |run|
  {
    hide Do, Enabled;
    if run == [] {
    } else {
      InterruptedStep(s, run[0]);
      StaysInterrupted(Do(s, run[0]), run[1..]);
    }
  }

  /** A failure, or the interrupt, that somebody is about to count. */
  predicate Troubled(s: State) {
    s.trans.TInterrupted? || s.fetch.FFailed? || s.deliv.DFailed? || s.write.WFailed? || s.write.WCloseFailed?
  }

  predicate Spoilt(s: State) { Troubled(s) || !NoErrors(s) }

  lemma TroubleByMain(s: State, a: Action)
    requires Troubled(s) && GateWorks(s) && Enabled(s, a) && By(a).Main?
    ensures Troubled(DoMain(s, a))
  {
    hide RecordOf, NextMain;
  }

  lemma TroubleByFetch(s: State, a: Action)
    requires Troubled(s) && Enabled(s, a) && By(a).Fetcher? && !CountsError(a)
    ensures Troubled(DoFetch(s, a))
  {
    hide RecordOf;
  }

  lemma TroubleByHandOver(s: State, a: Action)
    requires Troubled(s) && Enabled(s, a) && By(a).Translator? && !CountsError(a)
    ensures Troubled(DoHandOver(s, a))
  {
    hide RecordOf;
  }

  lemma TroubleByPoll(s: State, a: Action)
    requires Troubled(s) && Enabled(s, a) && By(a).Interrupted? && !CountsError(a)
    ensures Troubled(DoInterrupt(s, a))
  {
    hide RecordOf;
  }

  lemma TroubleByDeliv(s: State, a: Action)
    requires Troubled(s) && Enabled(s, a) && By(a).Deliverer? && !CountsError(a)
    ensures Troubled(DoDeliv(s, a))
  {
    hide RecordOf;
  }

  lemma TroubleByWrite(s: State, a: Action)
    requires Troubled(s) && Enabled(s, a) && By(a).Writer? && !CountsError(a)
    ensures Troubled(DoWrite(s, a))
  {
    hide RecordOf;
  }

  lemma SpoiltStep(s: State, a: Action)
    requires Spoilt(s) && GateWorks(s) && Enabled(s, a)
    ensures Spoilt(Do(s, a))
  {
    hide Enabled, GateWorks, DoMain, DoFetch, DoHandOver, DoInterrupt, DoDeliv, DoWrite;
    hide NoErrors, CountsError, Troubled;
    ErrorsStep(s, a);
    if NoErrors(s) && !CountsError(a) {
      match By(a) {
        case Main => TroubleByMain(s, a);
        case Fetcher => TroubleByFetch(s, a);
        case Translator => TroubleByHandOver(s, a);
        case Interrupted => TroubleByPoll(s, a);
        case Deliverer => TroubleByDeliv(s, a);
        case Writer => TroubleByWrite(s, a);
        case World => TroubleByWorld(s, a);
      }
    }
  }

  lemma TroubleByWorld(s: State, a: Action)
    requires Troubled(s) && Enabled(s, a) && By(a).World?
    ensures Troubled(Do(s, a))
  {
    hide Enabled;
  }

  lemma {:induction false} SpoiltForGood(s: State, run: seq<Action>)
    requires Spoilt(s) && Inv(s) && Feasible(s, run)
    ensures Spoilt(After(s, run)) && Inv(After(s, run))
    decreases |run|
  {
    if run == [] {
    } else {
      SpoiltStep(s, run[0]);
      StepKeepsInv(s, run[0]);
      hide Spoilt, Inv, Do, Enabled;
      SpoiltForGood(Do(s, run[0]), run[1..]);
    }
  }

  lemma SpoiltIsNotNil(s: State)
    requires Spoilt(s) && Inv(s)
    ensures s.main != Returned(true)
  {
    hide MessagesFlow, RecordsFlow, LogFollows, DropsCounted;
    if s.main == Returned(true) {
      DoneIsOpen(s);
      AtRest(s);
    }
  }

  lemma FailingSpoils(s: State, a: Action)
    requires Enabled(s, a) && OperationFails(a)
    ensures Spoilt(Do(s, a))
  {
    hide RecordOf, DoHandOver, DoInterrupt;
    match By(a)
    case Main => hide DoFetch, DoDeliv, DoWrite;
    case Fetcher => hide DoMain, DoDeliv, DoWrite;
    case Deliverer => hide DoMain, DoFetch, DoWrite;
    case Writer => hide DoMain, DoFetch, DoDeliv;
  }

  /** A call in which some operation failed does not return nil. */
  lemma FailureIsAnError(fold: int64, mail: seq<Option<Message>>, sig: Interrupt, run: seq<Action>, k: nat)
    requires Feasible(Init(fold, mail, sig), run) && k < |run| && OperationFails(run[k])
    ensures After(Init(fold, mail, sig), run).main != Returned(true)
  {
    var init := Init(fold, mail, sig);
    InitInv(fold, mail, sig);
    hide Feasible, After, Init, Do, Enabled, Inv, Spoilt, OperationFails;
    StepOfRun(init, run, k);
    RunKeepsInv(init, run[..k]);
    var s := After(init, run[..k]);
    FailingSpoils(s, run[k]);
    StepKeepsInv(s, run[k]);
    SpoiltForGood(Do(s, run[k]), run[k + 1..]);
    SpoiltIsNotNil(After(init, run));
  }

  lemma AskingInterrupted(s: State)
    requires !Quiet(s.sig) && Enabled(s, TAsk)
    ensures Spoilt(Do(s, TAsk))
  {
  }

  /** A call whose translator has asked after the user interrupted does not return nil. */
  lemma SignalIsAnError(fold: int64, mail: seq<Option<Message>>, sig: Interrupt, run: seq<Action>, k: nat, j: nat)
    requires Feasible(Init(fold, mail, sig), run) && k < j < |run| && run[k].Signal? && run[j].TAsk?
    ensures After(Init(fold, mail, sig), run).main != Returned(true)
  {
    var init := Init(fold, mail, sig);
    InitInv(fold, mail, sig);
    hide Feasible, After, Init, Do, Enabled, Quiet, Inv, Spoilt;
    StepOfRun(init, run, j);
    var before := run[..j];
    StepOfRun(init, before, k);
    assert before[..k] == run[..k];
    SignalArrives(After(init, before[..k]));
    StaysInterrupted(Do(After(init, before[..k]), before[k]), before[k + 1..]);
    RunKeepsInv(init, before);
    var s := After(init, before);
    AskingInterrupted(s);
    StepKeepsInv(s, TAsk);
    SpoiltForGood(Do(s, TAsk), run[j + 1..]);
    SpoiltIsNotNil(After(init, run));
  }

  // ---------- the pieces the pipeline is made of ----------

  /** What is recorded of a message that has a place for each value. */
  lemma RecordIsOfFields(m: Message, fold: int64, n: int, t: int, i: int, j: int)
    ensures EmailFields.EmailAt(m.fields, n, t, i, j) ==>
              RecordOf(m, fold) == Some(Oldmail(fold, m.fields[n].n, m.fields[t].unix))
    ensures RecordOf(m, fold).Some? ==> exists n, t, i, j :: EmailFields.EmailAt(m.fields, n, t, i, j)
  {
    EmailFields.ExtractIsAt(m.fields, fold);
    hide EmailFields.Extract;
  }

  /** The translator can be twenty messages ahead of the deliverer, the deliverer ten records ahead of the writer. */
  lemma ChannelsHold(s: State)
    ensures Enabled(s, TPut) <==> s.trans.TSend? && |s.translated| < 20
    ensures Enabled(s, DPut) <==> s.deliv.DSend? && |s.delivered| < 10
  {
  }

  /** The interrupt of the pipeline as the channel of an interrupter with room for one signal. */
  function ChannelOf(sig: Interrupt): Interrupts.Channel {
    match sig
    case Gone => None
    case Armed(pending) => Some(if pending then 1 else 0)
  }

  /** The pipeline asks and is signalled like the interrupter. */
  lemma InterruptIsChannel(s: State)
    ensures Quiet(s.sig) <==> !Interrupts.Answer(ChannelOf(s.sig))
    ensures ChannelOf(Asked(s.sig)) == Interrupts.Apply(ChannelOf(s.sig), 1, Interrupts.Asking)
    ensures ChannelOf(Do(s, Signal).sig) == Interrupts.Apply(ChannelOf(s.sig), 1, Interrupts.Signalling)
  {
    hide RecordOf, DoMain, DoFetch, DoHandOver, DoInterrupt, DoDeliv, DoWrite;
  }
}
