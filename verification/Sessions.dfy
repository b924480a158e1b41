/** The fork/join protocol of `DownloadFolder`, core/core.go:160-218: one authenticated session for the
    calling goroutine and the first worker, one more session for every other worker, errors collected
    under a mutex, and clean-up in deferred calls.

    Sessions are seen at the `ImapgrabOps` interface. Every call on a session may succeed or fail, and
    every access to the shared error list is a step of its own. `parts` is what `partitionFolders` makes
    of the folder list. */
module Sessions {

  datatype MainPc =
    | Login | LoginAdd(ok: bool) | LoginBad
    | List | ListAdd(ok: bool)
    // The loop over the partitions.
    | Top(i: nat) | Auth(i: nat) | AuthAdd(i: nat, ok: bool) | AskInterrupt(i: nat) | AskErrors(i: nat) | Go(i: nat)
    | BreakBad(i: nat) | BreakLogout(i: nat, term: bool) | BreakAdd(i: nat, ok: bool) | BreakErr(i: nat)
    // The deferred calls.
    | Wait | FinalBad | FinalLogout(term: bool) | FinalAdd(ok: bool)
    | Result(loggedIn: bool) | Returned(loggedIn: bool, isNil: bool)

  datatype WorkerPc =
    | Absent
    | Run(k: nat) | In(k: nat) | Add(k: nat, ok: bool)
    | Bad | Logout(term: bool) | LogoutAdd(ok: bool)
    | Leave | End

  /** What happens on the sessions, by number; the main session is number 0. */
  datatype Event =
    | Authenticated(i: nat, ok: bool)
    | Listed(i: nat, ok: bool)
    | Started(i: nat, k: nat)
    | Finished(i: nat, k: nat, ok: bool)
    | LoggedOut(i: nat, term: bool, ok: bool)
    /** The loop gives up, due to an interrupt or an error. */
    | Stopped(i: nat)

  datatype State = State(
    parts: seq<seq<string>>, main: MainPc, workers: seq<WorkerPc>,
    signalled: bool, wg: int, errs: nat, history: seq<Event>
  )

  /** One step of main or of a worker, with the outcome of the call it makes, if it makes one. */
  datatype Action = Main(ok: bool) | Worker(i: nat, ok: bool) | Signal

  // ---------- the goroutine that calls ----------

  function NextMain(m: MainPc, ok: bool, n: nat, signalled: bool, bad: bool): MainPc {
    match m
    case Login => LoginAdd(ok)
    case LoginAdd(_) => LoginBad
    case LoginBad => if bad then Result(false) else List
    case List => ListAdd(ok)
    case ListAdd(_) => Top(0)
    case Top(i) => if i >= n then Wait else if i > 0 then Auth(i) else AskInterrupt(i)
    case Auth(i) => AuthAdd(i, ok)
    case AuthAdd(i, _) => AskInterrupt(i)
    case AskInterrupt(i) => if signalled then BreakBad(i) else AskErrors(i)
    case AskErrors(i) => if bad then BreakBad(i) else Go(i)
    case Go(i) => Top(i + 1)
    case BreakBad(i) => BreakLogout(i, bad)
    case BreakLogout(i, _) => BreakAdd(i, ok)
    case BreakAdd(i, _) => BreakErr(i)
    case BreakErr(_) => Wait
    case Wait => FinalBad
    case FinalBad => FinalLogout(bad)
    case FinalLogout(_) => FinalAdd(ok)
    case FinalAdd(_) => Result(true)
    case Result(loggedIn) => Returned(loggedIn, !bad)
    case Returned(_, _) => m
  }

  function MainEvents(m: MainPc, ok: bool): seq<Event> {
    match m
    case Login => [Authenticated(0, ok)]
    case List => [Listed(0, ok)]
    case Auth(i) => [Authenticated(i, ok)]
    case BreakLogout(i, term) => [LoggedOut(i, term, ok)]
    case BreakErr(i) => [Stopped(i)]
    case FinalLogout(term) => [LoggedOut(0, term, ok)]
    case _ => []
  }

  /** A failed call that still has to be added to the errors. */
  function MainOwes(m: MainPc): nat {
    if (m.LoginAdd? || m.ListAdd? || m.AuthAdd? || m.BreakAdd? || m.FinalAdd?) && !m.ok then 1 else 0
  }

  // ---------- a worker ----------

  function NextWorker(w: WorkerPc, ok: bool, i: nat, len: nat, bad: bool): WorkerPc {
    match w
    case Absent => w
    case Run(k) => if k < len then In(k) else if i > 0 then Bad else Leave
    case In(k) => Add(k, ok)
    case Add(k, _) => Run(k + 1)
    case Bad => Logout(bad)
    case Logout(_) => LogoutAdd(ok)
    case LogoutAdd(_) => Leave
    case Leave => End
    case End => w
  }

  function WorkerEvents(w: WorkerPc, ok: bool, i: nat, len: nat): seq<Event> {
    match w
    case Run(k) => if k < len then [Started(i, k)] else []
    case In(k) => [Finished(i, k, ok)]
    case Logout(term) => [LoggedOut(i, term, ok)]
    case _ => []
  }

  function WorkerOwes(w: WorkerPc): nat {
    if (w.Add? || w.LogoutAdd?) && !w.ok then 1 else 0
  }

  // ---------- the whole ----------

  predicate Enabled(s: State, a: Action) {
    match a
    case Main(_) => !s.main.Returned? && (s.main.Wait? ==> s.wg == 0)
    case Worker(i, _) => i < |s.workers| && i < |s.parts| && !s.workers[i].Absent? && !s.workers[i].End?
    case Signal => !s.signalled
  }

  function DoMain(s: State, ok: bool): State {
    var m := s.main;
    s.(main := NextMain(m, ok, |s.parts|, s.signalled, s.errs > 0),
       history := s.history + MainEvents(m, ok),
       errs := s.errs + MainOwes(m) + if m.BreakErr? then 1 else 0,
       wg := s.wg + if m.Go? then 1 else 0,
       workers := if m.Go? && m.i < |s.workers| then s.workers[m.i := Run(0)] else s.workers)
  }

  function DoWorker(s: State, i: nat, ok: bool): State
    requires Enabled(s, Worker(i, ok))
  {
    var w := s.workers[i];
    s.(workers := s.workers[i := NextWorker(w, ok, i, |s.parts[i]|, s.errs > 0)],
       history := s.history + WorkerEvents(w, ok, i, |s.parts[i]|),
       errs := s.errs + WorkerOwes(w),
       wg := s.wg - if w.Leave? then 1 else 0)
  }

  function Do(s: State, a: Action): State
    requires Enabled(s, a)
  {
    match a
    case Main(ok) => DoMain(s, ok)
    case Worker(i, ok) => DoWorker(s, i, ok)
    case Signal => s.(signalled := true)
  }

  predicate Feasible(s: State, run: seq<Action>)
    decreases |run|
  {
    run == [] || (Enabled(s, run[0]) && Feasible(Do(s, run[0]), run[1..]))
  }

  function After(s: State, run: seq<Action>): State
    requires Feasible(s, run)
    decreases |run|
  {
    if run == [] then s else After(Do(s, run[0]), run[1..])
  }

  function Init(parts: seq<seq<string>>, signalled: bool): State {
    State(parts, Login, seq(|parts|, _ => Absent), signalled, 0, 0, [])
  }

  // ---------- how one session is used ----------

  /** `k` downloads are over; `Misused` if a call came out of turn. */
  datatype Phase = Fresh | Ready(k: nat) | Busy(k: nat) | Closed(k: nat, times: nat) | Misused

  function Advance(p: Phase, e: Event): Phase {
    match e
    case Authenticated(_, _) => if p.Fresh? then Ready(0) else Misused
    case Listed(_, _) => if p == Ready(0) then p else Misused
    case Started(_, k) => if p == Ready(k) then Busy(k) else Misused
    case Finished(_, k, _) => if p == Busy(k) then Ready(k + 1) else Misused
    case LoggedOut(_, _, _) =>
      if p.Ready? then Closed(p.k, 1) else if p.Closed? then Closed(p.k, p.times + 1) else Misused
    case Stopped(_) => p
  }

  function PhaseOf(h: seq<Event>, i: nat): Phase {
    if h == [] then Fresh else
      var p := PhaseOf(h[..|h| - 1], i);
      if h[|h| - 1].i == i then Advance(p, h[|h| - 1]) else p
  }

  /** Where the loop stopped, or -1. */
  function StopIn(h: seq<Event>): int {
    if h == [] then -1 else if h[|h| - 1].Stopped? then h[|h| - 1].i else StopIn(h[..|h| - 1])
  }

  predicate Fails(e: Event) {
    e.Stopped? || ((e.Authenticated? || e.Listed? || e.Finished? || e.LoggedOut?) && !e.ok)
  }

  function Failures(h: seq<Event>): nat {
    if h == [] then 0 else Failures(h[..|h| - 1]) + if Fails(h[|h| - 1]) then 1 else 0
  }

  lemma OneMore(h: seq<Event>, e: Event, i: nat)
    ensures PhaseOf(h + [e], i) == if e.i == i then Advance(PhaseOf(h, i), e) else PhaseOf(h, i)
    ensures StopIn(h + [e]) == if e.Stopped? then e.i else StopIn(h)
    ensures Failures(h + [e]) == Failures(h) + if Fails(e) then 1 else 0
  {
    assert (h + [e])[..|h|] == h;
  }

  lemma NoMore(h: seq<Event>)
    ensures h + [] == h
  {
  }
}
