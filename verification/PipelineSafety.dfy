/** What holds in every state the pipeline can reach, and the results that follow: nothing is
    remembered before it is stored, and a run without counted errors is complete. */
module PipelineSafety {
  import opened Common
  import opened Pipeline

  // ---------- the history, as plain lists ----------

  /** The messages among the first n hand-overs of the fetch, nil values dropped. */
  function Sent(mail: seq<Option<Message>>, n: nat): seq<Message>
    requires n <= |mail|
  {
    if n == 0 then [] else
      Sent(mail, n - 1) + match mail[n - 1] { case Some(m) => [m] case None => [] }
  }

  function Messages(handled: seq<Handled>): seq<Message> {
    if handled == [] then [] else Messages(handled[..|handled| - 1]) + [handled[|handled| - 1].msg]
  }

  /** The records of the messages that were stored, in order. */
  function Stored(handled: seq<Handled>, fold: int64): seq<Oldmail> {
    if handled == [] then [] else
      var last := handled[|handled| - 1];
      Stored(handled[..|handled| - 1], fold) +
      if last.stored && RecordOf(last.msg, fold).Some? then [RecordOf(last.msg, fold).value] else []
  }

  function AllRecords(msgs: seq<Message>, fold: int64): seq<Oldmail> {
    if msgs == [] then [] else
      var last := RecordOf(msgs[|msgs| - 1], fold);
      AllRecords(msgs[..|msgs| - 1], fold) + if last.Some? then [last.value] else []
  }

  // ---------- the invariant ----------

  predicate FetchInHook(f: FetchPc) { f.FHookCalled? || f.FHookDone? }
  predicate FetchCalling(f: FetchPc) { f.FCall? || FetchInHook(f) || f.FEnd? }
  predicate TransInHook(t: TransPc) { t.THookCalled? || t.THookDone? }
  predicate TransOver(t: TransPc) { t.TClose? || t.TEnd? }
  predicate DelivDrained(d: DelivPc) { d.DLeave? || d.DClose? || d.DEnd? }
  predicate DelivCounts(d: DelivPc) { !d.DAbsent? && !d.DClose? && !d.DEnd? }
  predicate WriteDrained(w: WritePc) { w.WClose? || w.WCloseFailed? || w.WLeave? || w.WEnd? }
  predicate SettingUp(m: MainPc) { m.CallRetrieval? || m.CallDelivery? || m.CallWriteout? }
  predicate Reading(m: MainPc) { m.ReadFetchErrs? || m.ReadDeliverErrs? || m.ReadOldmailErrs? }

  /** The WaitGroup counts the retrieval until its once has run, and the two later stages until
      they leave. */
  predicate Counted(s: State) {
    s.wg == One(!s.fetch.FAbsent? && !s.once.Spent?)
            + One(DelivCounts(s.deliv))
            + One(!s.write.WAbsent? && !s.write.WEnd?)
  }

  /** The once runs at most once, for one goroutine at a time, and `called` is set inside it. */
  predicate OnceWorks(s: State) {
    && (s.once.Running? <==> FetchInHook(s.fetch) || TransInHook(s.trans))
    && !(FetchInHook(s.fetch) && TransInHook(s.trans))
    && (s.called <==> s.once.Spent? || s.fetch.FHookDone? || s.trans.THookDone?)
    && (s.fetch.FEnd? ==> s.once.Spent?)
    && (TransOver(s.trans) ==> s.called)
    && (s.fetch.FAbsent? ==> s.once.Ready?)
  }

  /** Without a counted fetch error the once is called by the fetch, after everything was sent. */
  predicate CausesCounted(s: State) {
    && s.sent <= |s.mail|
    && (s.fetchClosed <==> s.fetch.FFailed? || FetchCalling(s.fetch))
    && (s.trans.TCall? || TransInHook(s.trans) ==> s.fetchErrs > 0)
    && (s.fetchErrs == 0 && !s.once.Ready? ==> FetchInHook(s.fetch) || s.fetch.FEnd?)
    && (s.fetchErrs == 0 && FetchCalling(s.fetch) ==> s.sent == |s.mail|)
  }

  /** The set-up: nobody passes the gate before it opens, and it opens last. */
  predicate GateWorks(s: State) {
    && (s.fetch.FAbsent? <==> s.main.CallRetrieval?)
    && (s.trans.TAbsent? <==> s.main.CallRetrieval?)
    && (s.deliv.DAbsent? <==> s.main.CallRetrieval? || s.main.CallDelivery?)
    && (s.write.WAbsent? <==> SettingUp(s.main) || (s.main == Returned(false) && !s.gate))
    && (s.gate ==> s.main.Waiting? || Reading(s.main) || s.main.Returned?)
    && (s.main.Waiting? || Reading(s.main) || s.main == Returned(true) ==> s.gate)
    && (!s.gate ==> (s.fetch.FAbsent? || s.fetch.FGate?) && (s.deliv.DAbsent? || s.deliv.DGate?)
                    && (s.write.WAbsent? || s.write.WGate?))
  }

  /** A stage ends only after the stage before it closed a drained channel. */
  predicate ShutDownInOrder(s: State) {
    && |s.translated| <= RETRIEVAL_BUFFER && |s.delivered| <= DELIVERY_BUFFER
    && (s.translatedClosed <==> s.trans.TEnd?)
    && (s.deliveredClosed <==> s.deliv.DEnd?)
    && (DelivDrained(s.deliv) ==> s.translatedClosed && s.translated == [])
    && (WriteDrained(s.write) ==> s.deliveredClosed && s.delivered == [])
  }

  function HeldByTrans(s: State): seq<Message> { if s.trans.TSend? then [s.trans.msg] else [] }
  function HeldByDeliv(s: State): seq<Message> { if s.deliv.DHave? then [s.deliv.msg] else [] }
  function OfferedByDeliv(s: State): seq<Oldmail> { if s.deliv.DSend? then [s.deliv.om] else [] }
  function HeldByWrite(s: State): seq<Oldmail> { if s.write.WHave? then [s.write.om] else [] }

  /** No message is lost, doubled or reordered between fetch and deliverer. */
  predicate MessagesFlow(s: State) {
    s.sent <= |s.mail| &&
    Sent(s.mail, s.sent) == (Messages(s.handled) + HeldByDeliv(s)) + s.translated + HeldByTrans(s)
  }

  /** No record is lost, doubled or reordered between deliverer and writer. */
  predicate RecordsFlow(s: State) {
    Stored(s.handled, s.fold) == s.taken + s.delivered + OfferedByDeliv(s)
  }

  /** The log of this run is the records taken so far, cut off at the first write error. */
  predicate LogFollows(s: State) {
    && (!s.broken ==> s.log + HeldByWrite(s) == s.taken)
    && (s.broken ==> s.log <= s.taken && (s.write == WFailed || s.oldmailErrs > 0))
    && (s.write == WFailed ==> s.broken)
    && s.log <= s.taken
  }

  /** Every message the deliverer dropped is counted, or about to be. */
  predicate DropsCounted(s: State) {
    && (s.deliverErrs == 0 && s.deliv != DFailed ==> forall h <- s.handled :: h.stored)
    && forall h <- s.handled :: h.stored ==> RecordOf(h.msg, s.fold).Some?
  }

  /** While main reads the counters the pipeline has come to rest. */
  predicate JoinedAtRest(s: State) {
    && (Reading(s.main) || s.main == Returned(true) ==> s.wg == 0)
    && (s.main.ReadDeliverErrs? || s.main.ReadOldmailErrs? || s.main == Returned(true) ==> s.fetchErrs == 0)
    && (s.main.ReadOldmailErrs? || s.main == Returned(true) ==> s.deliverErrs == 0)
    && (s.main == Returned(true) ==> s.oldmailErrs == 0)
  }

  predicate Control(s: State) {
    Counted(s) && OnceWorks(s) && CausesCounted(s) && GateWorks(s) && ShutDownInOrder(s)
  }

  predicate Inv(s: State) {
    && Control(s) && JoinedAtRest(s)
    && MessagesFlow(s) && RecordsFlow(s) && LogFollows(s) && DropsCounted(s)
  }

  lemma InitInv(fold: int64, mail: seq<Option<Message>>, sig: Interrupt)
    ensures Inv(Init(fold, mail, sig))
  {
  }

  // ---------- every step keeps it ----------

  lemma GateKeptByMain(s: State, a: Action)
    requires GateWorks(s) && Enabled(s, a) && By(a).Main?
    ensures GateWorks(DoMain(s, a))
  {
    hide RecordOf;
  }

  lemma ControlKeptByMain(s: State, a: Action)
    requires Control(s) && Enabled(s, a) && By(a).Main?
    ensures Control(DoMain(s, a))
  {
    hide RecordOf, NextMain;
    GateKeptByMain(s, a);
  }

  lemma ControlKeptByFetch(s: State, a: Action)
    requires Control(s) && Enabled(s, a) && By(a).Fetcher?
    ensures Control(DoFetch(s, a))
  {
    hide RecordOf;
  }

  lemma ControlKeptByTrans(s: State, a: Action)
    requires Control(s) && Enabled(s, a) && By(a).Translator?
    ensures Control(DoHandOver(s, a))
  {
    hide RecordOf;
  }

  lemma ControlKeptByInterrupt(s: State, a: Action)
    requires Control(s) && Enabled(s, a) && By(a).Interrupted?
    ensures Control(DoInterrupt(s, a))
  {
    hide RecordOf;
  }

  lemma ControlKeptByDeliv(s: State, a: Action)
    requires Control(s) && Enabled(s, a) && By(a).Deliverer?
    ensures Control(DoDeliv(s, a))
  {
    hide RecordOf;
  }

  lemma ControlKeptByWrite(s: State, a: Action)
    requires Control(s) && Enabled(s, a) && By(a).Writer?
    ensures Control(DoWrite(s, a))
  {
    hide RecordOf;
  }

  lemma ControlKeptByWorld(s: State, a: Action)
    requires Control(s) && Enabled(s, a) && By(a).World?
    ensures Control(Do(s, a))
  {
    hide RecordOf;
  }

  lemma ControlKept(s: State, a: Action)
    requires Control(s) && Enabled(s, a)
    ensures Control(Do(s, a))
  {
    hide Control, Enabled, DoMain, DoFetch, DoHandOver, DoInterrupt, DoDeliv, DoWrite;
    match By(a) {
      case Main => ControlKeptByMain(s, a);
      case Fetcher => ControlKeptByFetch(s, a);
      case Translator => ControlKeptByTrans(s, a);
      case Interrupted => ControlKeptByInterrupt(s, a);
      case Deliverer => ControlKeptByDeliv(s, a);
      case Writer => ControlKeptByWrite(s, a);
      case World => ControlKeptByWorld(s, a);
    }
  }

  /** Once the WaitGroup is at zero only the fetch may still run, and it has counted an error. */
  lemma AtRest(s: State)
    requires Control(s) && s.wg == 0 && s.gate
    ensures s.trans.TEnd? && (s.deliv.DClose? || s.deliv.DEnd?) && s.write.WEnd? && s.once.Spent?
    ensures s.fetchErrs == 0 ==> s.fetch.FEnd? && s.sent == |s.mail|
    ensures s.delivered == [] && s.translated == []
  {
  }

  lemma RestKeptByMain(s: State, a: Action)
    requires Control(s) && JoinedAtRest(s) && Enabled(s, a) && By(a).Main?
    ensures JoinedAtRest(DoMain(s, a))
  {
    hide RecordOf;
    hide Counted, OnceWorks, CausesCounted, ShutDownInOrder, GateWorks;
  }

  /** Main's place and what it reads at rest. */
  predicate StaysAtRest(s: State, s': State) {
    && s'.main == s.main && s'.wg == s.wg && (s.fetchErrs == 0 ==> s'.fetchErrs == 0)
    && s'.deliverErrs == s.deliverErrs && s'.oldmailErrs == s.oldmailErrs
  }

  lemma FetchAtRest(s: State, a: Action)
    requires OnceWorks(s) && Enabled(s, a) && By(a).Fetcher?
    requires s.once.Spent? && (s.fetchErrs == 0 ==> s.fetch.FEnd?)
    ensures StaysAtRest(s, DoFetch(s, a))
  {
    hide RecordOf;
  }

  lemma DelivAtRest(s: State, a: Action)
    requires Enabled(s, a) && By(a).Deliverer? && (s.deliv.DClose? || s.deliv.DEnd?)
    ensures StaysAtRest(s, DoDeliv(s, a))
  {
    hide RecordOf;
  }

  lemma NobodyElseAtRest(s: State, a: Action)
    requires s.trans.TEnd? && s.write.WEnd? && Enabled(s, a)
    ensures !By(a).Translator? && !By(a).Interrupted? && !By(a).Writer?
  {
    hide RecordOf;
  }

  lemma StepAtRest(s: State, a: Action)
    requires Control(s) && Enabled(s, a) && !By(a).Main? && s.wg == 0 && s.gate
    ensures StaysAtRest(s, Do(s, a))
  {
    hide Counted, CausesCounted, GateWorks, ShutDownInOrder, OnceWorks, Enabled;
    hide DoMain, DoFetch, DoHandOver, DoInterrupt, DoDeliv, DoWrite;
    AtRest(s);
    NobodyElseAtRest(s, a);
    if By(a).Fetcher? {
      FetchAtRest(s, a);
    } else if By(a).Deliverer? {
      DelivAtRest(s, a);
    }
  }

  lemma RestKeptAtRest(s: State, a: Action)
    requires Control(s) && JoinedAtRest(s) && Enabled(s, a) && !By(a).Main? && s.wg == 0 && s.gate
    ensures JoinedAtRest(Do(s, a))
  {
    hide Control, Enabled, Do;
    StepAtRest(s, a);
  }

  lemma NotAtRest(s: State)
    requires Control(s) && JoinedAtRest(s) && !(s.wg == 0 && s.gate)
    ensures !Reading(s.main) && s.main != Returned(true)
  {
    hide Counted, OnceWorks, CausesCounted, ShutDownInOrder;
  }

  lemma RestKept(s: State, a: Action)
    requires Control(s) && JoinedAtRest(s) && Enabled(s, a)
    ensures JoinedAtRest(Do(s, a))
  {
    hide Counted, OnceWorks, CausesCounted, GateWorks, ShutDownInOrder, Enabled;
    hide DoMain, DoFetch, DoHandOver, DoInterrupt, DoDeliv, DoWrite;
    if By(a).Main? {
      RestKeptByMain(s, a);
    } else if s.wg == 0 && s.gate {
      RestKeptAtRest(s, a);
    } else {
      NotAtRest(s);
      Frame(s, a);
    }
  }

  // ---------- the flow of messages and records ----------

  lemma SentOneMore(mail: seq<Option<Message>>, n: nat)
    requires n < |mail|
    ensures Sent(mail, n + 1) == Sent(mail, n) + match mail[n] { case Some(m) => [m] case None => [] }
  {
  }

  lemma MessagesOneMore(handled: seq<Handled>, h: Handled)
    ensures Messages(handled + [h]) == Messages(handled) + [h.msg]
  {
    assert (handled + [h])[..|handled|] == handled;
  }

  lemma StoredOneMore(handled: seq<Handled>, h: Handled, fold: int64)
    ensures Stored(handled + [h], fold) == Stored(handled, fold) +
      if h.stored && RecordOf(h.msg, fold).Some? then [RecordOf(h.msg, fold).value] else []
  {
    hide RecordOf;
    assert (handled + [h])[..|handled|] == handled;
  }

  /** Moving the head of the middle list to the end of the first one. */
  lemma Take<T>(first: seq<T>, mid: seq<T>, last: seq<T>)
    requires mid != []
    ensures (first + []) + mid + last == (first + [mid[0]]) + mid[1..] + last
  {
  }

  /** Moving the single element of the last list to the end of the middle one. */
  lemma Put<T>(first: seq<T>, mid: seq<T>, x: T)
    ensures first + mid + [x] == first + (mid + [x]) + []
  {
  }

  lemma Nothing<T>(first: seq<T>, mid: seq<T>, x: T)
    ensures (first + [x]) + mid == ((first + [x]) + []) + mid
    ensures first + mid + [] == first + mid
  {
  }

  lemma NothingMore<T>(s: seq<T>)
    ensures s + [] == s
  {
  }

  lemma MessagesKeptByHandOver(s: State)
    requires MessagesFlow(s) && Enabled(s, THandOver)
    ensures MessagesFlow(DoHandOver(s, THandOver))
  {
    hide Sent, Messages, RecordOf;
    var s' := DoHandOver(s, THandOver);
    SentOneMore(s.mail, s.sent);
    NothingMore(Messages(s.handled) + HeldByDeliv(s) + s.translated);
    assert HeldByDeliv(s') == HeldByDeliv(s) && HeldByTrans(s) == [];
    assert HeldByTrans(s') == match s.mail[s.sent] { case Some(m) => [m] case None => [] };
  }

  lemma MessagesKeptByTrans(s: State, a: Action)
    requires MessagesFlow(s) && Enabled(s, a) && By(a).Translator?
    ensures MessagesFlow(DoHandOver(s, a))
  {
    hide Sent, Messages, RecordOf;
    if a.THandOver? {
      MessagesKeptByHandOver(s);
    } else if a.TPut? {
      Put(Messages(s.handled) + HeldByDeliv(s), s.translated, s.trans.msg);
    }
  }

  lemma MessagesKeptByTake(s: State)
    requires MessagesFlow(s) && Enabled(s, DTake)
    ensures MessagesFlow(DoDeliv(s, DTake))
  {
    hide Sent, Messages, RecordOf;
    Take(Messages(s.handled), s.translated, HeldByTrans(s));
  }

  /** The message is stored, or it is dropped. */
  lemma MessagesKeptByHandling(s: State, a: Action)
    requires MessagesFlow(s) && Enabled(s, a) && (a.DStore? || a.DFail?)
    ensures MessagesFlow(DoDeliv(s, a))
  {
    hide Sent, Messages, RecordOf;
    MessagesOneMore(s.handled, Handled(s.deliv.msg, a.DStore?));
    Nothing(Messages(s.handled), s.translated, s.deliv.msg);
  }

  lemma MessagesKeptByDeliv(s: State, a: Action)
    requires MessagesFlow(s) && Enabled(s, a) && By(a).Deliverer?
    ensures MessagesFlow(DoDeliv(s, a))
  {
    hide Sent, Messages, RecordOf;
    if a.DTake? {
      MessagesKeptByTake(s);
    } else if a.DStore? || a.DFail? {
      MessagesKeptByHandling(s, a);
    }
  }

  // The parts of the state that only some goroutines touch.

  predicate SameMessages(s: State, s': State) {
    && s'.mail == s.mail && s'.sent == s.sent && s'.handled == s.handled && s'.translated == s.translated
    && HeldByTrans(s') == HeldByTrans(s) && HeldByDeliv(s') == HeldByDeliv(s)
  }

  predicate SameRecords(s: State, s': State) {
    && s'.fold == s.fold && s'.handled == s.handled && s'.taken == s.taken && s'.delivered == s.delivered
    && OfferedByDeliv(s') == OfferedByDeliv(s)
  }

  predicate SameLog(s: State, s': State) {
    && s'.log == s.log && s'.taken == s.taken && HeldByWrite(s') == HeldByWrite(s)
    && s'.broken == s.broken && s'.oldmailErrs == s.oldmailErrs
    && (s'.write.WFailed? <==> s.write.WFailed?)
  }

  predicate SameDrops(s: State, s': State) {
    && s'.fold == s.fold && s'.handled == s.handled && s'.deliverErrs == s.deliverErrs
    && (s'.deliv.DFailed? <==> s.deliv.DFailed?)
  }

  /** The constants stay, and exactly the `Done` of the once spends it. */
  predicate OnceCounted(s: State, a: Action, s': State) {
    && s'.fold == s.fold && s'.mail == s.mail
    && (OnceWorks(s) ==> One(a.FDone? || a.TDone?) + One(s.once.Spent?) == One(s'.once.Spent?))
  }

  lemma LaunchFindsNobody(s: State, a: Action)
    requires GateWorks(s) && Enabled(s, a)
    ensures a.LaunchRetrieval? ==> s.trans.TAbsent?
    ensures a.LaunchDelivery? ==> s.deliv.DAbsent?
    ensures a.LaunchWriteout? ==> s.write.WAbsent?
  {
    hide RecordOf;
  }

  lemma FrameOfMain(s: State, a: Action)
    requires GateWorks(s) && Enabled(s, a) && By(a).Main?
    ensures SameMessages(s, DoMain(s, a)) && SameRecords(s, DoMain(s, a))
    ensures SameLog(s, DoMain(s, a)) && SameDrops(s, DoMain(s, a))
    ensures OnceCounted(s, a, DoMain(s, a))
  {
    hide RecordOf, GateWorks, Enabled, NextMain, OnceWorks;
    LaunchFindsNobody(s, a);
  }

  lemma FrameOfFetch(s: State, a: Action)
    requires Enabled(s, a) && By(a).Fetcher?
    ensures SameMessages(s, DoFetch(s, a)) && SameRecords(s, DoFetch(s, a))
    ensures SameLog(s, DoFetch(s, a)) && SameDrops(s, DoFetch(s, a))
    ensures OnceCounted(s, a, DoFetch(s, a))
    ensures DoFetch(s, a).main == s.main
  {
    hide RecordOf;
  }

  lemma FrameOfInterrupt(s: State, a: Action)
    requires Enabled(s, a) && By(a).Interrupted?
    ensures SameMessages(s, DoInterrupt(s, a)) && SameRecords(s, DoInterrupt(s, a))
    ensures SameLog(s, DoInterrupt(s, a)) && SameDrops(s, DoInterrupt(s, a))
    ensures OnceCounted(s, a, DoInterrupt(s, a))
    ensures DoInterrupt(s, a).main == s.main
  {
    hide RecordOf;
    match a {
      case TAsk =>
      case TCount =>
      case TEnter =>
      case TSetCalled =>
      case TDone =>
    }
  }

  lemma FrameOfTrans(s: State, a: Action)
    requires Enabled(s, a) && By(a).Translator?
    ensures SameRecords(s, DoHandOver(s, a)) && SameLog(s, DoHandOver(s, a)) && SameDrops(s, DoHandOver(s, a))
    ensures OnceCounted(s, a, DoHandOver(s, a))
    ensures DoHandOver(s, a).main == s.main
  {
    hide RecordOf;
  }

  lemma FrameOfDeliv(s: State, a: Action)
    requires Enabled(s, a) && By(a).Deliverer?
    ensures SameLog(s, DoDeliv(s, a))
    ensures OnceCounted(s, a, DoDeliv(s, a))
    ensures DoDeliv(s, a).main == s.main
  {
    hide RecordOf;
  }

  lemma FrameOfWrite(s: State, a: Action)
    requires Enabled(s, a) && By(a).Writer?
    ensures SameMessages(s, DoWrite(s, a)) && SameDrops(s, DoWrite(s, a))
    ensures OnceCounted(s, a, DoWrite(s, a))
    ensures DoWrite(s, a).main == s.main
  {
    hide RecordOf;
  }

  lemma FrameOfWorld(s: State, a: Action)
    requires Enabled(s, a) && By(a).World?
    ensures SameMessages(s, Do(s, a)) && SameRecords(s, Do(s, a)) && SameLog(s, Do(s, a)) && SameDrops(s, Do(s, a))
    ensures OnceCounted(s, a, Do(s, a))
    ensures Do(s, a).main == s.main
  {
    hide RecordOf;
  }

  lemma Frame(s: State, a: Action)
    requires GateWorks(s) && Enabled(s, a)
    ensures !By(a).Translator? && !By(a).Deliverer? ==> SameMessages(s, Do(s, a))
    ensures !By(a).Deliverer? && !By(a).Writer? ==> SameRecords(s, Do(s, a))
    ensures !By(a).Writer? ==> SameLog(s, Do(s, a))
    ensures !By(a).Deliverer? ==> SameDrops(s, Do(s, a))
    ensures OnceCounted(s, a, Do(s, a))
    ensures !By(a).Main? ==> Do(s, a).main == s.main
  {
    hide DoMain, DoFetch, DoHandOver, DoInterrupt, DoDeliv, DoWrite, Enabled, GateWorks;
    hide SameMessages, SameRecords, SameLog, SameDrops, OnceCounted;
    match By(a) {
      case Main => FrameOfMain(s, a);
      case Fetcher => FrameOfFetch(s, a);
      case Translator => FrameOfTrans(s, a);
      case Interrupted => FrameOfInterrupt(s, a);
      case Deliverer => FrameOfDeliv(s, a);
      case Writer => FrameOfWrite(s, a);
      case World => FrameOfWorld(s, a);
    }
  }

  lemma MessagesKept(s: State, a: Action)
    requires GateWorks(s) && MessagesFlow(s) && Enabled(s, a)
    ensures MessagesFlow(Do(s, a))
  {
    hide Enabled, DoMain, DoFetch, DoHandOver, DoInterrupt, DoDeliv, DoWrite, Sent, Messages;
    match By(a) {
      case Translator => MessagesKeptByTrans(s, a);
      case Deliverer => MessagesKeptByDeliv(s, a);
      case _ => Frame(s, a);
    }
  }

  lemma RecordsKeptByStore(s: State)
    requires RecordsFlow(s) && Enabled(s, DStore)
    ensures RecordsFlow(DoDeliv(s, DStore))
  {
    hide RecordOf, Stored;
    var om := RecordOf(s.deliv.msg, s.fold).value;
    StoredOneMore(s.handled, Handled(s.deliv.msg, true), s.fold);
    Nothing(s.taken, s.delivered, om);
    assert OfferedByDeliv(DoDeliv(s, DStore)) == [om];
  }

  lemma RecordsKeptByFail(s: State)
    requires RecordsFlow(s) && Enabled(s, DFail)
    ensures RecordsFlow(DoDeliv(s, DFail))
  {
    hide RecordOf, Stored;
    StoredOneMore(s.handled, Handled(s.deliv.msg, false), s.fold);
    NothingMore(Stored(s.handled, s.fold));
  }

  lemma RecordsKeptByDeliv(s: State, a: Action)
    requires RecordsFlow(s) && Enabled(s, a) && By(a).Deliverer?
    ensures RecordsFlow(DoDeliv(s, a))
  {
    hide RecordOf, Stored;
    if a.DStore? {
      RecordsKeptByStore(s);
    } else if a.DFail? {
      RecordsKeptByFail(s);
    } else if a.DPut? {
      Put(s.taken, s.delivered, s.deliv.om);
    }
  }

  lemma RecordsKeptByWrite(s: State, a: Action)
    requires RecordsFlow(s) && Enabled(s, a) && By(a).Writer?
    ensures RecordsFlow(DoWrite(s, a))
  {
    hide Stored;
    if a.WTake? {
      Take(s.taken, s.delivered, OfferedByDeliv(s));
      assert s.taken + [] == s.taken;
    }
  }

  lemma RecordsKept(s: State, a: Action)
    requires GateWorks(s) && RecordsFlow(s) && Enabled(s, a)
    ensures RecordsFlow(Do(s, a))
  {
    hide Enabled, DoMain, DoFetch, DoHandOver, DoInterrupt, DoDeliv, DoWrite, Stored;
    match By(a) {
      case Deliverer => RecordsKeptByDeliv(s, a);
      case Writer => RecordsKeptByWrite(s, a);
      case _ => Frame(s, a);
    }
  }

  lemma LogKept(s: State, a: Action)
    requires GateWorks(s) && LogFollows(s) && Enabled(s, a)
    ensures LogFollows(Do(s, a))
  {
    hide Enabled, DoMain, DoFetch, DoHandOver, DoInterrupt, DoDeliv, DoWrite;
    match By(a) {
      case Writer => LogKeptByWrite(s, a);
      case _ => Frame(s, a);
    }
  }

  lemma LogKeptByWrite(s: State, a: Action)
    requires LogFollows(s) && Enabled(s, a) && By(a).Writer?
    ensures LogFollows(DoWrite(s, a))
  {
    hide RecordOf;
    match a {
      case WTake => assert s.log + [] == s.log;
      case WAppend => assert (s.log + [s.write.om]) + [] == s.log + [s.write.om];
      case _ =>
    }
  }

  lemma DropsKeptByDeliv(s: State, a: Action)
    requires DropsCounted(s) && Enabled(s, a) && By(a).Deliverer?
    ensures DropsCounted(DoDeliv(s, a))
  {
    hide RecordOf;
  }

  lemma DropsKept(s: State, a: Action)
    requires GateWorks(s) && DropsCounted(s) && Enabled(s, a)
    ensures DropsCounted(Do(s, a))
  {
    hide Enabled, DoMain, DoFetch, DoHandOver, DoInterrupt, DoDeliv, DoWrite, RecordOf;
    match By(a) {
      case Deliverer => DropsKeptByDeliv(s, a);
      case _ => Frame(s, a);
    }
  }

  lemma StepKeepsInv(s: State, a: Action)
    requires Inv(s) && Enabled(s, a)
    ensures Inv(Do(s, a))
  {
    ControlKept(s, a);
    RestKept(s, a);
    MessagesKept(s, a);
    RecordsKept(s, a);
    LogKept(s, a);
    DropsKept(s, a);
    hide Do, Enabled, JoinedAtRest, MessagesFlow, RecordsFlow, LogFollows, DropsCounted;
    hide Counted, OnceWorks, CausesCounted, GateWorks, ShutDownInOrder;
  }

  lemma {:induction false} RunKeepsInv(s: State, run: seq<Action>)
    requires Inv(s) && Feasible(s, run)
    ensures Inv(After(s, run))
    decreases |run|
  {
    hide Inv, Do, Enabled;
    if run == [] {
    } else {
      StepKeepsInv(s, run[0]);
      RunKeepsInv(Do(s, run[0]), run[1..]);
    }
  }

  // ---------- the results ----------

  lemma {:induction false} AllStored(handled: seq<Handled>, fold: int64)
    requires forall h <- handled :: h.stored
    requires forall h <- handled :: RecordOf(h.msg, fold).Some?
    ensures Stored(handled, fold) == AllRecords(Messages(handled), fold)
    ensures |Stored(handled, fold)| == |handled| == |Messages(handled)|
    ensures forall m <- Messages(handled) :: RecordOf(m, fold).Some?
  {
    hide RecordOf;
    if handled == [] {
    } else {
      var init, last := handled[..|handled| - 1], handled[|handled| - 1];
      AllStored(init, fold);
      assert Messages(handled)[..|handled| - 1] == Messages(init);
    }
  }

  /** Crash safety: wherever a run stops, the log holds records of messages that were stored before,
      in the order in which they were stored, none left out in between; and the deliverer dealt with
      a prefix of what was fetched, in order. Holds under delivery errors, write errors, fetch
      errors and interrupts, in every interleaving. */
  lemma CrashSafety(fold: int64, mail: seq<Option<Message>>, sig: Interrupt, run: seq<Action>)
    requires Feasible(Init(fold, mail, sig), run)
    ensures var s := After(Init(fold, mail, sig), run);
            && s.log <= Stored(s.handled, s.fold)
            && s.sent <= |s.mail| && Messages(s.handled) <= Sent(s.mail, s.sent)
  {
    InitInv(fold, mail, sig);
    RunKeepsInv(Init(fold, mail, sig), run);
    hide Feasible, After, Init, Control, JoinedAtRest, DropsCounted, Sent, Messages, Stored;
  }

  /** A run works on the mailbox and the reply it started with. */
  lemma {:induction false} RunKeepsConstants(s: State, run: seq<Action>)
    requires Inv(s) && Feasible(s, run)
    ensures After(s, run).fold == s.fold && After(s, run).mail == s.mail
    decreases |run|
  {
    if run == [] {
    } else {
      Frame(s, run[0]);
      StepKeepsInv(s, run[0]);
      hide Inv, Do, Enabled;
      RunKeepsConstants(Do(s, run[0]), run[1..]);
    }
  }

  lemma InitIs(fold: int64, mail: seq<Option<Message>>, sig: Interrupt)
    ensures Init(fold, mail, sig).fold == fold && Init(fold, mail, sig).mail == mail
  {
  }

  lemma DoneIsOpen(s: State)
    requires Control(s) && s.main == Returned(true)
    ensures s.gate
  {
  }

  /** Completeness of a clean run: when the function returns nil, every message the fetch had to
      send was extracted, stored once and recorded once, in the order of the fetch. */
  lemma CleanRunIsComplete(fold: int64, mail: seq<Option<Message>>, sig: Interrupt, run: seq<Action>)
    requires Feasible(Init(fold, mail, sig), run)
    requires After(Init(fold, mail, sig), run).main == Returned(true)
    ensures var s := After(Init(fold, mail, sig), run);
            var all := Sent(mail, |mail|);
            && Messages(s.handled) == all && (forall h <- s.handled :: h.stored)
            && s.log == AllRecords(all, fold) && |s.log| == |all|
            && forall m <- all :: RecordOf(m, fold).Some?
  {
    hide Feasible, After, Init, Control, Sent, RecordOf, Messages, Stored, AllRecords;
    var s := After(Init(fold, mail, sig), run);
    InitInv(fold, mail, sig);
    RunKeepsInv(Init(fold, mail, sig), run);
    RunKeepsConstants(Init(fold, mail, sig), run);
    InitIs(fold, mail, sig);
    DoneIsOpen(s);
    AtRest(s);
    AllStored(s.handled, fold);
    assert s.taken + [] + [] == s.taken && s.log + [] == s.log;
    assert (Messages(s.handled) + []) + [] + [] == Messages(s.handled);
  }

  /** How often a run calls `Done` for the retrieval. */
  function Dones(run: seq<Action>): nat {
    if run == [] then 0 else One(run[0].FDone? || run[0].TDone?) + Dones(run[1..])
  }

  lemma {:induction false} DonesUpToOnce(s: State, run: seq<Action>)
    requires Inv(s) && Feasible(s, run)
    ensures Dones(run) + One(s.once.Spent?) == One(After(s, run).once.Spent?)
    decreases |run|
  {
    if run == [] {
    } else {
      StepKeepsInv(s, run[0]);
      Frame(s, run[0]);
      hide Inv, Do, Enabled;
      DonesUpToOnce(Do(s, run[0]), run[1..]);
    }
  }

  /** Retrieval calls `Done` at most once in any run, although fetch and interrupt race for it, and
      the WaitGroup never goes negative. */
  lemma DoneAtMostOnce(fold: int64, mail: seq<Option<Message>>, sig: Interrupt, run: seq<Action>)
    requires Feasible(Init(fold, mail, sig), run)
    ensures Dones(run) <= 1
    ensures Dones(run) == 1 <==> After(Init(fold, mail, sig), run).once.Spent?
    ensures After(Init(fold, mail, sig), run).wg >= 0
  {
    InitInv(fold, mail, sig);
    DonesUpToOnce(Init(fold, mail, sig), run);
    RunKeepsInv(Init(fold, mail, sig), run);
    hide Feasible, After, MessagesFlow, RecordsFlow, LogFollows, DropsCounted, OnceWorks, CausesCounted, GateWorks;
  }

  /** An interrupt stops the retrieval: once the session is interrupted, at most the one message the translator
      is waiting for already is still taken from the fetch. */
  lemma {:induction false} InterruptStopsRetrieval(s: State, run: seq<Action>)
    requires !Quiet(s.sig) && Feasible(s, run)
    ensures After(s, run).sent <= s.sent + if s.trans.TRecv? then 1 else 0
    decreases |run|
  {
    if run == [] {
    } else {
      InterruptedStep(s, run[0]);
      hide Do, Enabled;
      InterruptStopsRetrieval(Do(s, run[0]), run[1..]);
    }
  }

  predicate StopsSoon(s: State, s': State) {
    && !Quiet(s'.sig)
    && s'.sent + (if s'.trans.TRecv? then 1 else 0) <= s.sent + if s.trans.TRecv? then 1 else 0
  }

  lemma InterruptedMain(s: State, a: Action)
    requires !Quiet(s.sig) && Enabled(s, a)
    ensures StopsSoon(s, DoMain(s, a))
  {
    hide RecordOf, Enabled;
  }

  lemma InterruptedFetch(s: State, a: Action)
    requires !Quiet(s.sig) && Enabled(s, a)
    ensures StopsSoon(s, DoFetch(s, a))
  {
    hide RecordOf, Enabled;
  }

  lemma InterruptedHandOver(s: State, a: Action)
    requires !Quiet(s.sig) && Enabled(s, a)
    ensures StopsSoon(s, DoHandOver(s, a))
  {
    hide RecordOf;
  }

  lemma InterruptedPoll(s: State, a: Action)
    requires !Quiet(s.sig) && Enabled(s, a)
    ensures StopsSoon(s, DoInterrupt(s, a))
  {
    hide RecordOf, Enabled;
  }

  lemma InterruptedDeliverer(s: State, a: Action)
    requires !Quiet(s.sig) && Enabled(s, a)
    ensures StopsSoon(s, DoDeliv(s, a))
  {
    hide RecordOf, Enabled;
  }

  lemma InterruptedWriter(s: State, a: Action)
    requires !Quiet(s.sig) && Enabled(s, a)
    ensures StopsSoon(s, DoWrite(s, a))
  {
    hide RecordOf, Enabled;
  }

  lemma InterruptedStep(s: State, a: Action)
    requires !Quiet(s.sig) && Enabled(s, a)
    ensures StopsSoon(s, Do(s, a))
  {
    hide Enabled, DoMain, DoFetch, DoHandOver, DoInterrupt, DoDeliv, DoWrite;
    match By(a)
    case Main => InterruptedMain(s, a);
    case Fetcher => InterruptedFetch(s, a);
    case Translator => InterruptedHandOver(s, a);
    case Interrupted => InterruptedPoll(s, a);
    case Deliverer => InterruptedDeliverer(s, a);
    case Writer => InterruptedWriter(s, a);
    case World =>
  }
}
