/** Data model of the kernel: task slots, the wait object embedded in each slot, the kernel state,
    and the ledger that records every call made to the scheduling strategy. */
module KernelTypes {

  datatype Option<+T> = None | Some(value: T)

  const WAIT_INFINITE: int := 0x7FFF_FFFF
  const NO_WEIGHT: int := -1
  const NO_TIME_SLICE: int := 0
  const YIELD_TICKS: int := 1
  const TICKLESS_TICKS_MAX: int := 1000

  /** Template parameters of the kernel: the mode bits and the strategy's capability flags. */
  datatype Mode = Mode(
    dynamic: bool, hrt: bool, sync: bool, tickless: bool, timeslice: bool,
    inherit: bool, noSleepYield: bool)

  /** What the kernel reads from a user task. */
  datatype User = User(id: nat, stack: nat, weight: nat, quantum: nat)

  datatype WaitState = Idle | Waiting | Signaled | TimedOut | Cancelled

  /** The wait object: linked into the list of `sync` exactly while waiting. */
  datatype Wait = Wait(sync: Option<nat>, time: int, state: WaitState)

  datatype Hrt = Hrt(period: int, deadline: int, duration: int, done: bool)

  datatype Slice = Slice(quantum: int, left: int)

  /** One slot of the task pool. A negative `sleep` is the number of ticks left to sleep. */
  datatype Task = Task(
    user: Option<User>,
    removePending: bool, sleepPending: bool, wakePending: bool,
    suspended: bool, yieldPending: bool, suspendPending: bool,
    sleep: int, wait: Wait, hrt: Hrt, rtWeight: int, baseWeight: int, ts: Slice)

  datatype Fsm = FsmNone | Switching | Sleeping | Waking | Exiting
  datatype FsmEvent = EvSwitch | EvSleep | EvWake | EvExit
  datatype KState = Inactive | Ready | Running | Suspended | Locked

  datatype AddResult = AddOk | AddPoolFull | AddDuplicate | AddInvalid
  datatype SuspendResult = SuspendFail | SuspendDone | SuspendDeferred | SuspendAlready
  datatype ResumeResult = ResumeFail | ResumeNotSuspended | ResumeDone | ResumeLifted
  datatype LockResult = LockFailIsr | LockFail | LockWasUnlocked | LockWasLocked
  datatype WaitResult = WaitFail | WaitSignal | WaitTimeout | WaitCanceled

  /** A call to the strategy (first eight), or the start or end of a wait on a sync object.
      Calls for which a strategy looks the task up by its weight carry that weight. */
  datatype Note =
    | Added(i: nat, w: int)
    | Removed(i: nat, w: int)
    | Slept(i: nat, w: int)
    | Woke(i: nat, w: int)
    | Reweighed(i: nat, oldW: int, w: int)
    | Yielded(i: nat)
    | Sliced(i: nat)
    | Missed(i: nat)
    | WaitBegun(i: nat)
    | WaitEnded(i: nat, how: WaitState)

  /** The strategy as its contract describes it: the tasks it manages, the runnable ones with the
      weight each is filed under, and beside it the slots that wait on a sync object and how the last
      wait of each slot ended. */
  datatype Ledger = Ledger(all: set<nat>, filed: map<nat, int>, waiting: set<nat>, ended: map<nat, WaitState>)

  const EMPTY_LEDGER := Ledger({}, map[], {}, map[])

  /** The preconditions the strategies assert for each call. */
  predicate Legal(g: Ledger, n: Note) {
    match n
    case Added(i, w) => i !in g.all
    case Removed(i, w) => i in g.all && i !in g.waiting && (i in g.filed ==> g.filed[i] == w)
    case Slept(i, w) => i in g.filed && g.filed[i] == w
    case Woke(i, w) => i in g.all && i !in g.filed
    case Reweighed(i, oldW, w) => i in g.all && (i in g.filed ==> g.filed[i] == oldW)
    case Yielded(i) => i in g.filed
    case Sliced(i) => i in g.filed
    case Missed(i) => i in g.all
    case WaitBegun(i) => i in g.all && i !in g.waiting
    case WaitEnded(i, how) => i in g.waiting && (how == Signaled || how == TimedOut || how == Cancelled)
  }

  /** The effect the contract gives each call. */
  function Post(g: Ledger, n: Note): Ledger {
    match n
    case Added(i, w) => g.(all := g.all + {i}, filed := g.filed[i := w])
    case Removed(i, w) => g.(all := g.all - {i}, filed := g.filed - {i})
    case Slept(i, w) => g.(filed := g.filed - {i})
    case Woke(i, w) => g.(filed := g.filed[i := w])
    case Reweighed(i, oldW, w) => if i in g.filed then g.(filed := g.filed[i := w]) else g
    case WaitBegun(i) => g.(waiting := g.waiting + {i}, ended := g.ended - {i})
    case WaitEnded(i, how) => g.(waiting := g.waiting - {i}, ended := g.ended[i := how])
    case _ => g
  }

  /** Replays a history of calls; `None` when some call broke the contract. */
  function Replay(log: seq<Note>): Option<Ledger> {
    if log == [] then Some(EMPTY_LEDGER) else
    var g := Replay(log[..|log| - 1]);
    var n := log[|log| - 1];
    if g.Some? && Legal(g.value, n) then Some(Post(g.value, n)) else None
  }

  /** What the strategy returns from GetNext() and GetFirst() in one step. */
  datatype Choice = Choice(next: Option<nat>, first: nat)

  /** The kernel: slots, current task, both state machines, the tick counter, the sync objects
      registered for ticks with their wait lists, and the ledger with its history. */
  datatype K = K(
    mode: Mode, tasks: seq<Task>, now: Option<nat>, fsm: Fsm, kstate: KState, ticks: int,
    syncs: seq<nat>, waits: map<nat, seq<nat>>, strat: Ledger, log: seq<Note>)

  const FREE_TASK := Task(None, false, false, false, false, false, false, 0, Wait(None, 0, Idle),
                          Hrt(0, 0, 0, false), 0, 0, Slice(0, 0))

  predicate Asleep(t: Task) { t.sleep < 0 }
  predicate Infinite(t: Task) { t.sleep == -WAIT_INFINITE }
  predicate Busy(t: Task) { t.user.Some? }
  predicate IsWaiting(t: Task) { t.wait.sync.Some? }

  function BaseWeight(t: Task): int {
    if t.baseWeight != NO_WEIGHT then t.baseWeight else if t.user.Some? then t.user.value.weight else 0
  }

  function EffWeight(t: Task): int {
    if t.rtWeight != NO_WEIGHT then t.rtWeight else BaseWeight(t)
  }

  function WaitList(k: K, s: nat): seq<nat> { if s in k.waits then k.waits[s] else [] }

  function Max(a: int, b: int): int { if a < b then b else a }
  function Min(a: int, b: int): int { if a < b then a else b }
}
