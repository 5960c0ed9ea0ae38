/** The workers as they run: the pipeline of a pair, the stuck detector of a chain and startup. Each
    of their statements is a step of the protocol, with any steps of the other workers in between, so
    every theorem about histories holds of the repository and of what was sent, whenever a worker
    looks. */
module Workers {
  import opened Domain
  import opened Fees
  import opened Repository
  import opened Protocol
  import opened Invariants
  import opened Safety

  /** A world that some history ends in. */
  ghost predicate Reachable(pairs: set<Pair>, w: World) {
    exists ws, es :: IsHistory(pairs, ws, es) && ws[|es|] == w
  }

  lemma InitialIsReachable(pairs: set<Pair>)
    ensures Reachable(pairs, Initial())
  {
    assert IsHistory(pairs, [Initial()], []);
  }

  lemma ReachableStep(pairs: set<Pair>, w: World, e: Event)
    requires Reachable(pairs, w) && Enabled(pairs, w, e)
    ensures Reachable(pairs, Step(pairs, w, e))
  {
    var ws, es :| IsHistory(pairs, ws, es) && ws[|es|] == w;
    var (vs, fs) := (ws + [Step(pairs, w, e)], es + [e]);
    assert vs[|fs|] == Step(pairs, w, e);
    assert IsHistory(pairs, vs, fs);
  }

  lemma ReachableInv(pairs: set<Pair>, w: World)
    requires Reachable(pairs, w)
    ensures Inv(w)
  {
    var ws, es :| IsHistory(pairs, ws, es) && ws[|es|] == w;
    HistoryKeepsInv(pairs, ws, es, |es|);
  }

  lemma ReachableKeyed(pairs: set<Pair>, w: World)
    requires Reachable(pairs, w)
    ensures w.db.Keyed()
  {
    ReachableInv(pairs, w);
  }

  // ---- whose step it is ----

  datatype Worker = ThePipeline(p: Pair) | TheDetector(c: nat) | ThePoller(c: nat)

  predicate ActsAs(me: Worker, e: Event) {
    match me
    case ThePipeline(p) =>
      (match e
       case Claim(q, _, _) => q == p
       case Assign(q, _) => q == p
       case Refuse(q, _) => q == p
       case Sign(q, _, _, _, _) => q == p
       case StoreFirst(q, _) => q == p
       case Send(q, _) => q == p
       case Submit(q, _, _) => q == p
       case Fail(q, _) => q == p
       case _ => false)
    case TheDetector(c) =>
      (match e
       case Scan(d, _) => d == c
       case Look(d, _) => d == c
       case Skip(d) => d == c
       case GiveUp(d, _) => d == c
       case StoreNext(d, _, _) => d == c
       case SendNext(d, _) => d == c
       case Resubmit(d, _, _) => d == c
       case _ => false)
    case ThePoller(c) =>
      (match e
       case Read(d, _) => d == c
       case Mark(d, _, _, _, _) => d == c
       case Revert(d, _, _) => d == c
       case LookBack(d, _) => d == c
       case Resend(d, _) => d == c
       case MarkAttempt(d, _, _, _, _) => d == c
       case _ => false)
  }

  predicate KeepsMine(me: Worker, w: World, w': World) {
    && w'.phase == w.phase && w.sent <= w'.sent
    && match me
       case ThePipeline(p) => p in w.pipes ==> p in w'.pipes && w'.pipes[p] == w.pipes[p]
       case TheDetector(c) => w'.Det(c) == w.Det(c)
       case ThePoller(c) => w'.Poll(c) == w.Poll(c)
  }

  ghost predicate OneStage(w: World, w': World, p: Pair) {
    && w'.phase == w.phase && w'.dets == w.dets && w'.polls == w.polls && w.sent <= w'.sent
    && forall q :: q in w.pipes && q != p ==> q in w'.pipes && w'.pipes[q] == w.pipes[q]
  }

  lemma ClaimIsOneStage(w: World, p: Pair, id: TxId, o: Outcome)
    requires p in w.pipes && w.db.ClaimsNext(p, id)
    ensures OneStage(w, AfterClaim(w, p, id, o), p)
  {
  }

  lemma AssignIsOneStage(w: World, p: Pair, o: Outcome)
    requires p in w.pipes && w.pipes[p].Claimed?
    ensures OneStage(w, AfterAssign(w, p, o), p)
  {
  }

  lemma StoreIsOneStage(w: World, p: Pair, o: Outcome)
    requires p in w.pipes && w.pipes[p].Signed?
    ensures OneStage(w, AfterStoreFirst(w, p, o), p)
  {
  }

  lemma EndIsOneStage(w: World, e: Event)
    requires PipeEnabled(w, e) && (e.Submit? || e.Fail?)
    ensures OneStage(w, PipeStep(w, e), e.p)
  {
  }

  lemma PipesKeepMine(w: World, e: Event, me: Worker)
    requires PipeEnabled(w, e) && !ActsAs(me, e)
    ensures KeepsMine(me, w, PipeStep(w, e))
  {
    match e {
      case Create(_) =>
      case Log(_, _) =>
      case Claim(p, id, o) => ClaimIsOneStage(w, p, id, o);
      case Assign(p, o) => AssignIsOneStage(w, p, o);
      case Refuse(_, _) =>
      case Sign(_, _, _, _, _) =>
      case StoreFirst(p, o) => StoreIsOneStage(w, p, o);
      case Send(_, _) =>
      case Submit(_, _, _) => EndIsOneStage(w, e);
      case Fail(_, _) => EndIsOneStage(w, e);
    }
  }

  lemma DetsKeepMine(w: World, e: Event, me: Worker)
    requires DetEnabled(w, e) && !ActsAs(me, e)
    ensures KeepsMine(me, w, DetStep(w, e))
  {
  }

  lemma PollsKeepMine(w: World, e: Event, me: Worker)
    requires PollEnabled(w, e) && !ActsAs(me, e)
    ensures KeepsMine(me, w, PollStep(w, e))
  {
  }

  lemma OthersKeepMine(pairs: set<Pair>, w: World, e: Event, me: Worker)
    requires w.phase.Running? && Enabled(pairs, w, e) && !BootEnabled(pairs, w, e) && !ActsAs(me, e)
    ensures KeepsMine(me, w, Step(pairs, w, e))
  {
    if PipeEnabled(w, e) {
      PipesKeepMine(w, e, me);
    } else if DetEnabled(w, e) {
      DetsKeepMine(w, e, me);
    } else {
      PollsKeepMine(w, e, me);
    }
  }

  // ---- what the outside answers ----

  /** What the clock, the signer and the fee and gas questions answer to the worker at hand, the i-th
      time each is asked. Whether the node takes a transaction is in the client. */
  datatype Answers = Answers(
    clock: nat -> nat,
    signer: nat -> bool,
    quote: nat -> Quote,
    gasLimit: nat -> Option<nat>)

  /** How many answers were used. */
  datatype Used = Used(clocks: nat, signs: nat, asks: nat)

  /** After how many pages a disturbed scan is cut off. */
  method PagesUntilStopped() returns (n: nat) {
    n := *;
  }

  // ---- the process ----

  /** What the workers of a process share. `world` is the protocol's view of it; `alone` says that
      nobody acts between two statements of a worker. One client stands for every chain's. */
  class System {
    const pairs: set<Pair>
    const repo: Repo
    const client: EthClient
    const alone: bool
    const answers: Answers
    var used: Used
    var world: World

    method Clock() returns (now: nat)
      modifies this`used
      ensures now == answers.clock(old(used.clocks)) && used == old(used).(clocks := old(used.clocks) + 1)
    {
      now := answers.clock(used.clocks);
      used := used.(clocks := used.clocks + 1);
    }

    method SignerWorks() returns (ok: bool)
      modifies this`used
      ensures ok == answers.signer(old(used.signs)) && used == old(used).(signs := old(used.signs) + 1)
    {
      ok := answers.signer(used.signs);
      used := used.(signs := used.signs + 1);
    }

    method AskNode() returns (quote: Quote, gasLimit: Option<nat>)
      modifies this`used
      ensures quote == answers.quote(old(used.asks)) && gasLimit == answers.gasLimit(old(used.asks))
      ensures used == old(used).(asks := old(used.asks) + 1)
    {
      quote, gasLimit := answers.quote(used.asks), answers.gasLimit(used.asks);
      used := used.(asks := used.asks + 1);
    }

    /** Failures stay on record, and where nothing can fail none is recorded. */
    twostate predicate FaultsKept()
      reads repo, client
    {
      && (old(repo.faulted) ==> repo.faulted)
      && (repo.reliable && !old(repo.faulted) ==> !repo.faulted)
      && (old(client.faulted) ==> client.faulted)
      && (client.reliable && !old(client.faulted) ==> !client.faulted)
    }

    /** A statement, a read or an answer of the node has failed. */
    predicate Faulted()
      reads repo, client
    {
      repo.faulted || client.faulted
    }

    /** The repository and the deliveries are those of a world that some history ends in. */
    ghost predicate Valid()
      reads this, repo, client
    {
      Reachable(pairs, world) && world.db == repo.State() && world.sent == client.sent
    }

    constructor (pairs: set<Pair>, client: EthClient, alone: bool, reliable: bool, answers: Answers)
      requires client.sent == {}
      ensures Valid() && world == Initial() && fresh(repo) && repo.reliable == reliable && !repo.faulted
      ensures this.pairs == pairs && this.client == client && this.alone == alone && this.answers == answers
    {
      this.pairs, this.client, this.alone, this.answers := pairs, client, alone, answers;
      repo := new Repo(reliable);
      world, used := Initial(), Used(0, 0, 0);
      new;
      InitialIsReachable(pairs);
    }

    /** Records that a statement was the step e. */
    method Took(e: Event)
      requires Reachable(pairs, world) && Enabled(pairs, world, e)
      modifies this`world
      ensures Reachable(pairs, world) && world == Step(pairs, old(world), e)
    {
      ReachableStep(pairs, world, e);
      world := Step(pairs, world, e);
    }

    /** Any number of steps of the other workers. */
    method Others(me: Worker)
      requires Valid() && world.phase.Running?
      modifies this`world, repo, client`sent
      ensures Valid() && KeepsMine(me, old(world), world) && old(client.sent) <= client.sent
      ensures FaultsKept() && client.faulted == old(client.faulted)
      ensures alone ==> world == old(world) && repo.faulted == old(repo.faulted)
    {
      if alone { return; }
      var left: int := *;
      while left > 0
        invariant Valid() && world.phase.Running? && KeepsMine(me, old(world), world)
        invariant FaultsKept()
      {
        left := left - 1;
        var e: Event := *;
        if Enabled(pairs, world, e) && !BootEnabled(pairs, world, e) && !ActsAs(me, e) {
          OthersKeepMine(pairs, world, e, me);
          Took(e);
          repo.transactions, repo.attempts := world.db.txs, world.db.attempts;
          repo.cursors, repo.log := world.db.cursors, world.db.log;
          client.sent := world.sent;
          var failed: bool := *;
          repo.faulted := repo.faulted || (failed && !repo.reliable);
        }
      }
    }
  }
}
