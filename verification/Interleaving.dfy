/**
 * Many tasks at once.  One task manager serves any interleaving of arrivals, job deliveries, acknowledgements, timers
 * and clean-ups; what it holds for each task is at any time the state of a run of that task alone, so everything
 * proved of single runs holds for every task of the manager.
 */
module Interleaving {
  import opened Tcc
  import opened TccFacts
  import opened Coordination
  import opened Scheduling
  import opened Barrier
  import opened BarrierExact
  import opened Retries
  import opened Rounds
  import opened Outcome
  import opened Isolation
  import opened Manager

  /** Participants and messages of one task. */
  datatype Net = Net(delivered: set<Id>, acks: set<Update>,
                     reserved: set<Party>, confirmed: set<Party>, canceled: set<Party>)

  const SILENT: Net := Net({}, {}, {}, {}, {})

  function WithNet(v: View, n: Net): Sys {
    Sys(v, n.delivered, n.acks, n.reserved, n.confirmed, n.canceled)
  }

  function NetOf(s: Sys): Net {
    Net(s.delivered, s.acks, s.reserved, s.confirmed, s.canceled)
  }

  datatype Event = Arrive(task: Task) | Perform(id: Id, step: Step) | Clear(id: Id)

  /** The jobs belong to the task, and their ids tell jobs from transactions. */
  ghost predicate OwnPlan(plan: seq<Job>, t: Id, owner: Id -> Id, isJob: Id -> bool) {
    forall p :: 0 <= p < |plan| ==> OwnJob(plan[p], owner, t) && Kinds(plan[p], isJob)
  }

  /** Tasks are well planned, and updates carry the task of their job. */
  ghost predicate WellAddressed(e: Event, owner: Id -> Id, isJob: Id -> bool) {
    match e
    case Arrive(task) =>
      task.jobs != [] && WellPlanned(Queue(task)) && OwnPlan(Queue(task), task.id, owner, isJob)
    case Perform(t, step) => step.DeliverUpdate? ==> owner(step.u.job) == t
    case Clear(_) => true
  }

  /** A view and its messages are where the steps lead a task that runs alone. */
  ghost predicate Alone(v: View, n: Net, plan: seq<Job>, steps: seq<Step>) {
    WellPlanned(plan) && WithNet(v, n) == Run(Initial(plan), steps)
  }

  lemma AloneStarts(plan: seq<Job>)
    requires WellPlanned(plan)
    ensures Alone(Begin(plan), SILENT, plan, [])
  {
    assert WithNet(Begin(plan), SILENT) == Initial(plan);
  }

  lemma AloneLinked(v: View, n: Net, plan: seq<Job>, steps: seq<Step>)
    requires Alone(v, n, plan, steps)
    ensures Linked(WithNet(v, n)) && v.task.pending == plan
  {
    RunStaysLinked(plan, steps);
  }

  lemma AloneStep(v: View, n: Net, plan: seq<Job>, steps: seq<Step>, step: Step)
    requires Alone(v, n, plan, steps)
    ensures var s := Apply(WithNet(v, n), step); Alone(s.v, NetOf(s), plan, steps + [step])
  {
    assert (steps + [step])[..|steps + [step]| - 1] == steps;
    var s := Apply(WithNet(v, n), step);
    assert WithNet(s.v, NetOf(s)) == s;
  }

  lemma AloneJob(v: View, n: Net, plan: seq<Job>, steps: seq<Step>, p: nat)
    requires Alone(v, n, plan, steps) && Enabled(WithNet(v, n), DeliverJob(p))
    ensures p < |plan| && v.task.pending == plan
    ensures Alone(Start(v, plan[p]), n.(delivered := n.delivered + {plan[p].id}), plan, steps + [DeliverJob(p)])
  {
    AloneLinked(v, n, plan, steps);
    AloneStep(v, n, plan, steps, DeliverJob(p));
  }

  lemma AloneUpdate(v: View, n: Net, plan: seq<Job>, steps: seq<Step>, u: Update)
    requires Alone(v, n, plan, steps) && Enabled(WithNet(v, n), DeliverUpdate(u))
    ensures Alone(Handle(v, u), n, plan, steps + [DeliverUpdate(u)])
  {
    AloneStep(v, n, plan, steps, DeliverUpdate(u));
  }

  lemma AloneAsk(v: View, n: Net, plan: seq<Job>, steps: seq<Step>, ask: Out, succeeds: bool)
    requires Alone(v, n, plan, steps) && Enabled(WithNet(v, n), HandleAsk(ask, succeeds))
    ensures Alone(v, Replied(n, ask, succeeds), plan, steps + [HandleAsk(ask, succeeds)])
  {
    AloneStep(v, n, plan, steps, HandleAsk(ask, succeeds));
    var s := Apply(WithNet(v, n), HandleAsk(ask, succeeds));
    assert s.v == v && NetOf(s) == Replied(n, ask, succeeds);
  }

  /** Every loaded job of a task that runs alone is in its plan. */
  lemma AloneQueued(v: View, n: Net, plan: seq<Job>, steps: seq<Step>)
    requires Alone(v, n, plan, steps)
    ensures PlannedJobs(v)
  {
    AloneLinked(v, n, plan, steps);
    forall j | j in v.jobs ensures exists p :: 0 <= p < |plan| && plan[p].id == j {
      assert Fits(plan, j, v.jobs[j]);
      var p :| 0 <= p < |plan| && plan[p] == v.jobs[j].job;
    }
  }

  // ---- all tasks ----

  type Views = map<Id, View>
  type Nets = map<Id, Net>
  type Plans = map<Id, seq<Job>>
  type History = map<Id, seq<Step>>

  type Claim = (View, Net, seq<Job>, seq<Step>) -> bool

  /** The claim holds of every task. */
  ghost predicate OfAll(claim: Claim, views: Views, nets: Nets, plans: Plans, history: History) {
    && nets.Keys == views.Keys && plans.Keys == views.Keys && history.Keys == views.Keys
    && forall t {:trigger claim(views[t], nets[t], plans[t], history[t])} ::
         t in views ==> claim(views[t], nets[t], plans[t], history[t])
  }

  lemma OfAllPut(claim: Claim, views: Views, nets: Nets, plans: Plans, history: History,
                 t: Id, v: View, n: Net, plan: seq<Job>, steps: seq<Step>)
    requires OfAll(claim, views, nets, plans, history) && claim(v, n, plan, steps)
    ensures OfAll(claim, views[t := v], nets[t := n], plans[t := plan], history[t := steps])
  {
    forall x | x in views ensures claim(views[x], nets[x], plans[x], history[x]) {
    }
  }

  lemma OfAllDrop(claim: Claim, views: Views, nets: Nets, plans: Plans, history: History, t: Id)
    requires OfAll(claim, views, nets, plans, history)
    ensures OfAll(claim, views - {t}, nets - {t}, plans - {t}, history - {t})
  {
    forall x | x in views ensures claim(views[x], nets[x], plans[x], history[x]) {
    }
  }

  ghost function IsAlone(): Claim {
    (v: View, n: Net, plan: seq<Job>, steps: seq<Step>) => Alone(v, n, plan, steps)
  }

  /** Every task runs alone. */
  ghost predicate AllAlone(views: Views, nets: Nets, plans: Plans, history: History) {
    OfAll(IsAlone(), views, nets, plans, history)
  }

  lemma OneAlone(views: Views, nets: Nets, plans: Plans, history: History, t: Id)
    requires AllAlone(views, nets, plans, history) && t in views
    ensures Alone(views[t], nets[t], plans[t], history[t])
  {
    assert IsAlone()(views[t], nets[t], plans[t], history[t]);
  }

  lemma AllStart(views: Views, nets: Nets, plans: Plans, history: History, t: Id, plan: seq<Job>)
    requires AllAlone(views, nets, plans, history) && WellPlanned(plan)
    ensures AllAlone(views[t := Begin(plan)], nets[t := SILENT], plans[t := plan], history[t := []])
  {
    AloneStarts(plan);
    OfAllPut(IsAlone(), views, nets, plans, history, t, Begin(plan), SILENT, plan, []);
  }

  lemma AllMove(views: Views, nets: Nets, plans: Plans, history: History, t: Id, v: View, n: Net, steps: seq<Step>)
    requires AllAlone(views, nets, plans, history) && t in views && Alone(v, n, plans[t], steps)
    ensures AllAlone(views[t := v], nets[t := n], plans, history[t := steps])
  {
    OfAllPut(IsAlone(), views, nets, plans, history, t, v, n, plans[t], steps);
    assert plans[t := plans[t]] == plans;
  }

  lemma AllJob(views: Views, nets: Nets, plans: Plans, history: History, t: Id, p: nat)
    requires AllAlone(views, nets, plans, history) && t in views
    requires Enabled(WithNet(views[t], nets[t]), DeliverJob(p))
    ensures p < |plans[t]| && views[t].task.pending == plans[t]
    ensures AllAlone(views[t := Start(views[t], plans[t][p])],
                     nets[t := nets[t].(delivered := nets[t].delivered + {plans[t][p].id})],
                     plans, history[t := history[t] + [DeliverJob(p)]])
  {
    OneAlone(views, nets, plans, history, t);
    AloneJob(views[t], nets[t], plans[t], history[t], p);
    AllMove(views, nets, plans, history, t, Start(views[t], plans[t][p]),
            nets[t].(delivered := nets[t].delivered + {plans[t][p].id}), history[t] + [DeliverJob(p)]);
  }

  lemma AllUpdate(views: Views, nets: Nets, plans: Plans, history: History, t: Id, u: Update)
    requires AllAlone(views, nets, plans, history) && t in views
    requires Enabled(WithNet(views[t], nets[t]), DeliverUpdate(u))
    ensures AllAlone(views[t := Handle(views[t], u)], nets, plans, history[t := history[t] + [DeliverUpdate(u)]])
  {
    OneAlone(views, nets, plans, history, t);
    AloneUpdate(views[t], nets[t], plans[t], history[t], u);
    AllMove(views, nets, plans, history, t, Handle(views[t], u), nets[t], history[t] + [DeliverUpdate(u)]);
    assert nets[t := nets[t]] == nets;
  }

  lemma AllAsk(views: Views, nets: Nets, plans: Plans, history: History, t: Id, ask: Out, succeeds: bool)
    requires AllAlone(views, nets, plans, history) && t in views
    requires Enabled(WithNet(views[t], nets[t]), HandleAsk(ask, succeeds))
    ensures AllAlone(views, nets[t := Replied(nets[t], ask, succeeds)], plans,
                     history[t := history[t] + [HandleAsk(ask, succeeds)]])
  {
    OneAlone(views, nets, plans, history, t);
    AloneAsk(views[t], nets[t], plans[t], history[t], ask, succeeds);
    AllMove(views, nets, plans, history, t, views[t], Replied(nets[t], ask, succeeds),
            history[t] + [HandleAsk(ask, succeeds)]);
    assert views[t := views[t]] == views;
  }

  /** A step that is not enabled changes nothing. */
  lemma AllStutter(views: Views, nets: Nets, plans: Plans, history: History, t: Id, step: Step)
    requires AllAlone(views, nets, plans, history) && t in views && !Enabled(WithNet(views[t], nets[t]), step)
    ensures AllAlone(views, nets, plans, history[t := history[t] + [step]])
  {
    OneAlone(views, nets, plans, history, t);
    AloneStep(views[t], nets[t], plans[t], history[t], step);
    AllMove(views, nets, plans, history, t, views[t], nets[t], history[t] + [step]);
    assert views[t := views[t]] == views && nets[t := nets[t]] == nets;
  }

  lemma AllClear(views: Views, nets: Nets, plans: Plans, history: History, t: Id)
    requires AllAlone(views, nets, plans, history) && t in views
    ensures AllAlone(views - {t}, nets - {t}, plans - {t}, history - {t})
    ensures PlannedJobs(views[t])
  {
    OneAlone(views, nets, plans, history, t);
    AloneQueued(views[t], nets[t], plans[t], history[t]);
    OfAllDrop(IsAlone(), views, nets, plans, history, t);
  }

  ghost predicate OwnPlans(plans: Plans, owner: Id -> Id, isJob: Id -> bool) {
    forall t {:trigger OwnPlan(plans[t], t, owner, isJob)} :: t in plans ==> OwnPlan(plans[t], t, owner, isJob)
  }

  // ---- the manager at work ----

  /** What the manager holds, task by task. */
  ghost function Held(m: TaskManager): Views
    reads m
    requires m.Valid()
  {
    map t | t in m.trs :: m.ViewOf(t)
  }

  /** The manager is in order and every task runs alone. */
  ghost predicate Serves(m: TaskManager, nets: Nets, plans: Plans, history: History)
    reads m
  {
    m.Valid() && OwnPlans(plans, m.owner, m.isJob) && AllAlone(Held(m), nets, plans, history)
  }

  /** A task with a new id arrives. */
  method Admit(m: TaskManager, task: Task, nets: Nets, ghost plans: Plans, ghost history: History)
    requires Serves(m, nets, plans, history) && task.id !in m.outbox
    requires WellAddressed(Arrive(task), m.owner, m.isJob)
    modifies m
    ensures Serves(m, nets[task.id := SILENT], plans[task.id := Queue(task)], history[task.id := []])
    ensures m.outbox.Keys == old(m.outbox).Keys + {task.id}
  {
    AllStart(Held(m), nets, plans, history, task.id, Queue(task));
    OwnPlansGrow(plans, m.owner, m.isJob, task.id, Queue(task));
    AdmitManager(m, task);
  }

  method AdmitManager(m: TaskManager, task: Task)
    requires m.Valid() && task.id !in m.outbox && task.jobs != []
    requires OwnPlan(Queue(task), task.id, m.owner, m.isJob)
    modifies m
    ensures m.Valid() && Held(m) == old(Held(m))[task.id := Begin(Queue(task))]
    ensures m.outbox.Keys == old(m.outbox).Keys + {task.id}
  {
    m.Admit(task);
  }

  /** A scheduled job of `t` leaves the channel. */
  method OnJob(m: TaskManager, t: Id, p: nat, nets: Nets, ghost plans: Plans, ghost history: History)
    returns (nets': Nets)
    requires Serves(m, nets, plans, history) && t in nets && Enabled(WithNet(Held(m)[t], nets[t]), DeliverJob(p))
    modifies m
    ensures Serves(m, nets', plans, history[t := history[t] + [DeliverJob(p)]])
    ensures m.outbox.Keys == old(m.outbox).Keys
  {
    AllJob(Held(m), nets, plans, history, t, p);
    assert OwnPlan(plans[t], t, m.owner, m.isJob);
    var job := m.trs[t].pending[p];
    nets' := nets[t := nets[t].(delivered := nets[t].delivered + {job.id})];
    StartManager(m, t, job);
  }

  method StartManager(m: TaskManager, t: Id, job: Job)
    requires m.Valid() && t in m.trs && OwnJob(job, m.owner, t) && Kinds(job, m.isJob)
    modifies m
    ensures m.Valid() && Held(m) == old(Held(m))[t := Start(old(Held(m)[t]), job)]
    ensures m.outbox.Keys == old(m.outbox).Keys
  {
    StartOne(m, t, job);
  }

  method StartOne(m: TaskManager, t: Id, job: Job)
    requires m.Valid() && t in m.trs && OwnJob(job, m.owner, t) && Kinds(job, m.isJob)
    modifies m
    ensures m.Valid() && m.trs.Keys == old(m.trs).Keys && m.outbox.Keys == old(m.outbox).Keys
    ensures m.ViewOf(t) == Start(old(m.ViewOf(t)), job)
    ensures forall x :: x != t && x in m.trs ==> m.ViewOf(x) == old(m.ViewOf(x))
  {
    var _ := m.StartJob(t, job);
  }

  /** An acknowledgement in flight, or a timer of a loaded job, reaches the manager. */
  method OnUpdate(m: TaskManager, t: Id, u: Update, ghost nets: Nets, ghost plans: Plans, ghost history: History)
    requires Serves(m, nets, plans, history) && t in nets && Enabled(WithNet(Held(m)[t], nets[t]), DeliverUpdate(u))
    modifies m
    ensures Serves(m, nets, plans, history[t := history[t] + [DeliverUpdate(u)]])
    ensures m.outbox.Keys == old(m.outbox).Keys
  {
    AllUpdate(Held(m), nets, plans, history, t, u);
    UpdateManager(m, t, u);
  }

  method UpdateManager(m: TaskManager, t: Id, u: Update)
    requires m.Valid() && t in m.trs && Known(Held(m)[t], u)
    modifies m
    ensures m.Valid() && Held(m) == old(Held(m))[t := Handle(old(Held(m)[t]), u)]
    ensures m.outbox.Keys == old(m.outbox).Keys
  {
    UpdateOne(m, t, u);
  }

  /** The manager's own precondition follows: what the view of a task knows, the shared maps know. */
  method UpdateOne(m: TaskManager, t: Id, u: Update)
    requires m.Valid() && t in m.trs && Known(m.ViewOf(t), u)
    modifies m
    ensures m.Valid() && m.trs.Keys == old(m.trs).Keys && m.outbox.Keys == old(m.outbox).Keys
    ensures m.ViewOf(t) == Handle(old(m.ViewOf(t)), u)
    ensures forall x :: x != t && x in m.trs ==> m.ViewOf(x) == old(m.ViewOf(x))
  {
    Addressed(m, t, u);
    var _ := m.OnUpdate(t, u, Reserving);
  }

  lemma Addressed(m: TaskManager, t: Id, u: Update)
    requires m.Valid() && m.Resident(t) && Known(m.ViewOf(t), u)
    ensures m.owner(u.job) == t && m.isJob(u.job)
    ensures u.job in m.tjs && (!u.JobTimeout? ==> u.txn in m.tjs[u.job].joining)
    ensures u.TxnTimeout? ==> !m.isJob(u.txn) && m.owner(u.txn) == t
  {
    var r := m.tjs[u.job];
    assert ValidJob(u.job, r, m.owner, m.isJob);
    if u.TxnTimeout? {
      InIds(r.job.txns, |r.job.txns|, u.txn);
    }
  }

  /** A participant handles an ask and replies; the manager is not involved. */
  method OnAsk(m: TaskManager, t: Id, ask: Out, succeeds: bool, nets: Nets, ghost plans: Plans, ghost history: History)
    returns (nets': Nets)
    requires Serves(m, nets, plans, history) && t in nets
    requires Enabled(WithNet(Held(m)[t], nets[t]), HandleAsk(ask, succeeds))
    ensures Serves(m, nets', plans, history[t := history[t] + [HandleAsk(ask, succeeds)]])
  {
    AllAsk(Held(m), nets, plans, history, t, ask, succeeds);
    nets' := nets[t := Replied(nets[t], ask, succeeds)];
  }

  /** `TCC_TASK_CLEAR`: the task is forgotten, with all its jobs. */
  method ClearTask(m: TaskManager, t: Id, nets: Nets, ghost plans: Plans, ghost history: History)
    requires Serves(m, nets, plans, history) && t in nets
    modifies m
    ensures Serves(m, nets - {t}, plans - {t}, history - {t}) && Part(m.tjs, m.owner, t) == map[]
    ensures m.outbox.Keys == old(m.outbox).Keys
  {
    AllClear(Held(m), nets, plans, history, t);
    OwnPlansShrink(plans, m.owner, m.isJob, t);
    ClearManager(m, t);
  }

  method ClearManager(m: TaskManager, t: Id)
    requires m.Valid() && t in m.trs && PlannedJobs(Held(m)[t])
    modifies m
    ensures m.Valid() && Held(m) == old(Held(m)) - {t} && Part(m.tjs, m.owner, t) == map[]
    ensures m.outbox.Keys == old(m.outbox).Keys
  {
    assert AllQueued(m.tjs, m.trs[t].pending, m.owner, t) by {
      assert forall j :: j in m.tjs && m.owner(j) == t ==> j in m.ViewOf(t).jobs;
    }
    m.ClearResource(t);
  }

  // ---- any interleaving ----

  /** The step can happen: its message is in flight, or its timer belongs to a loaded job. */
  predicate Possible(m: TaskManager, t: Id, n: Net, step: Step)
    reads m
    requires t in m.trs && t in m.outbox
  {
    match step
    case DeliverJob(p) =>
      var pending := m.trs[t].pending;
      p < |pending| && Scheduled(pending[p].id) in m.outbox[t] && pending[p].id !in n.delivered
    case DeliverUpdate(u) =>
      && (u in n.acks || u.TxnTimeout? || u.JobTimeout?)
      && u.job in m.tjs && (u.JobTimeout? || u.txn in m.tjs[u.job].joining)
    case HandleAsk(ask, _) => ask in m.outbox[t] && IsAsk(ask)
  }

  lemma PossibleIsEnabled(m: TaskManager, t: Id, n: Net, step: Step)
    requires m.Valid() && t in m.trs && (step.DeliverUpdate? ==> m.owner(step.u.job) == t)
    ensures Possible(m, t, n, step) <==> Enabled(WithNet(Held(m)[t], n), step)
  {
  }

  method TakeStep(m: TaskManager, t: Id, step: Step, nets: Nets, ghost plans: Plans, ghost history: History)
    returns (nets': Nets)
    requires Serves(m, nets, plans, history) && t in nets && t in m.trs && Possible(m, t, nets[t], step)
    requires WellAddressed(Perform(t, step), m.owner, m.isJob)
    modifies m
    ensures Serves(m, nets', plans, history[t := history[t] + [step]]) && m.outbox.Keys == old(m.outbox).Keys
  {
    PossibleIsEnabled(m, t, nets[t], step);
    match step {
      case DeliverJob(p) => nets' := OnJob(m, t, p, nets, plans, history);
      case DeliverUpdate(u) =>
        OnUpdate(m, t, u, nets, plans, history);
        nets' := nets;
      case HandleAsk(ask, succeeds) => nets' := OnAsk(m, t, ask, succeeds, nets, plans, history);
    }
  }

  /** Jobs that wait in the channel, by their place in the plan. */
  type Waiting = map<nat, Job>

  /** The jobs of a state that have been scheduled and not delivered. */
  function InChannel(s: Sys): Waiting {
    map p: nat | p < |s.v.task.pending| && Enabled(s, DeliverJob(p)) :: s.v.task.pending[p]
  }

  /**
   * The events so far: the tasks seen, the plan and the steps of every task that has not been cleared, and the jobs
   * that cleared tasks have left in the channel.
   */
  datatype Book = Book(seen: set<Id>, plans: Plans, history: History, left: map<Id, Waiting>)

  function Recorded(b: Book, e: Event): Book {
    match e
    case Arrive(task) =>
      if task.id in b.seen then b
      else b.(seen := b.seen + {task.id}, plans := b.plans[task.id := Queue(task)],
              history := b.history[task.id := []])
    case Perform(t, step) =>
      if t in b.history then b.(history := b.history[t := b.history[t] + [step]]) else b
    case Clear(t) =>
      if t in b.history && t in b.plans && b.plans[t] != []
      then Book(b.seen, b.plans - {t}, b.history - {t},
                b.left[t := InChannel(Run(Initial(b.plans[t]), b.history[t]))])
      else b
  }

  function Journal(b: Book, events: seq<Event>): Book {
    if events == [] then b else Recorded(Journal(b, events[..|events| - 1]), events[|events| - 1])
  }

  /** The event delivers a job of a task that has been cleared. */
  predicate Late(b: Book, e: Event) {
    e.Perform? && e.step.DeliverJob? && e.id in b.left && e.step.p in b.left[e.id]
  }

  ghost predicate OwnWaiting(left: map<Id, Waiting>, owner: Id -> Id, isJob: Id -> bool) {
    forall t, p :: t in left && p in left[t] ==> OwnJob(left[t][p], owner, t) && Kinds(left[t][p], isJob)
  }

  /** The manager serves what the book says. */
  ghost predicate Follows(m: TaskManager, nets: Nets, b: Book)
    reads m
  {
    && Serves(m, nets, b.plans, b.history) && m.outbox.Keys == b.seen
    && OwnWaiting(b.left, m.owner, m.isJob) && b.left.Keys !! b.plans.Keys && b.left.Keys <= b.seen
  }

  method TakeArrival(m: TaskManager, task: Task, nets: Nets, ghost b: Book) returns (nets': Nets)
    requires Follows(m, nets, b) && WellAddressed(Arrive(task), m.owner, m.isJob)
    modifies m
    ensures Follows(m, nets', Recorded(b, Arrive(task)))
  {
    nets' := nets;
    if task.id !in m.outbox {
      Admit(m, task, nets, b.plans, b.history);
      nets' := nets[task.id := SILENT];
    }
  }

  /** A step; what cannot happen, such as mail that was never sent, has no effect. */
  method TakePossible(m: TaskManager, t: Id, step: Step, nets: Nets, ghost b: Book) returns (nets': Nets)
    requires Follows(m, nets, b) && WellAddressed(Perform(t, step), m.owner, m.isJob) && t in m.trs
    modifies m
    ensures Follows(m, nets', Recorded(b, Perform(t, step)))
  {
    nets' := nets;
    if Possible(m, t, nets[t], step) {
      nets' := TakeStep(m, t, step, nets, b.plans, b.history);
    } else {
      PossibleIsEnabled(m, t, nets[t], step);
      AllStutter(Held(m), nets, b.plans, b.history, t, step);
    }
  }

  /**
   * A step of a task that is not resident: a job left in the channel stops the manager, anything else has no effect.
   */
  method TakeLate(m: TaskManager, t: Id, step: Step, left: map<Id, Waiting>, ghost nets: Nets, ghost b: Book)
    returns (ok: bool)
    requires Follows(m, nets, b) && t !in m.trs && left == b.left
    modifies m
    ensures ok <==> !Late(b, Perform(t, step))
    ensures ok ==> Follows(m, nets, b)
  {
    ok := true;
    if step.DeliverJob? && t in left && step.p in left[t] {
      ok := m.StartJob(t, left[t][step.p]);
    }
  }

  method TakeClear(m: TaskManager, t: Id, nets: Nets, left: map<Id, Waiting>, ghost b: Book)
    returns (nets': Nets, left': map<Id, Waiting>)
    requires Follows(m, nets, b) && left == b.left
    modifies m
    ensures Follows(m, nets', Recorded(b, Clear(t))) && left' == Recorded(b, Clear(t)).left
  {
    nets', left' := nets, left;
    if t in m.trs {
      var pending := m.trs[t].pending;
      left' := left[t := map p: nat | p < |pending| && Possible(m, t, nets[t], DeliverJob(p)) :: pending[p]];
      ghost var s := WithNet(Held(m)[t], nets[t]);
      ChannelIsHeld(m, t, nets[t]);
      HeldIsRun(Held(m), nets, b.plans, b.history, t);
      assert OwnPlan(b.plans[t], t, m.owner, m.isJob);
      WaitingGrows(b.left, t, s, m.owner, m.isJob);
      ClearTask(m, t, nets, b.plans, b.history);
      nets' := nets - {t};
    }
  }

  /** What is in the channel can be read off the manager. */
  lemma ChannelIsHeld(m: TaskManager, t: Id, n: Net)
    requires m.Valid() && t in m.trs
    ensures var pending := m.trs[t].pending;
            (map p: nat | p < |pending| && Possible(m, t, n, DeliverJob(p)) :: pending[p])
            == InChannel(WithNet(Held(m)[t], n))
  {
    forall p: nat ensures Possible(m, t, n, DeliverJob(p)) <==> Enabled(WithNet(Held(m)[t], n), DeliverJob(p)) {
      PossibleIsEnabled(m, t, n, DeliverJob(p));
    }
  }

  lemma HeldIsRun(views: Views, nets: Nets, plans: Plans, history: History, t: Id)
    requires AllAlone(views, nets, plans, history) && t in views
    ensures plans[t] != [] && views[t].task.pending == plans[t]
    ensures WithNet(views[t], nets[t]) == Run(Initial(plans[t]), history[t])
  {
    OneAlone(views, nets, plans, history, t);
    AloneLinked(views[t], nets[t], plans[t], history[t]);
  }

  lemma WaitingGrows(left: map<Id, Waiting>, t: Id, s: Sys, owner: Id -> Id, isJob: Id -> bool)
    requires OwnWaiting(left, owner, isJob) && OwnPlan(s.v.task.pending, t, owner, isJob)
    ensures OwnWaiting(left[t := InChannel(s)], owner, isJob)
  {
  }

  /** One event.  Only a job of a cleared task stops the manager. */
  method TakeEvent(m: TaskManager, e: Event, nets: Nets, left: map<Id, Waiting>, ghost b: Book)
    returns (ok: bool, nets': Nets, left': map<Id, Waiting>)
    requires Follows(m, nets, b) && WellAddressed(e, m.owner, m.isJob) && left == b.left
    modifies m
    ensures ok <==> !Late(b, e)
    ensures ok ==> Follows(m, nets', Recorded(b, e)) && left' == Recorded(b, e).left
  {
    ok, nets', left' := true, nets, left;
    match e {
      case Arrive(task) => nets' := TakeArrival(m, task, nets, b);
      case Perform(t, step) =>
        if t in m.trs {
          nets' := TakePossible(m, t, step, nets, b);
        } else {
          ok := TakeLate(m, t, step, left, nets, b);
        }
      case Clear(t) => nets', left' := TakeClear(m, t, nets, left, b);
    }
  }

  /**
   * Any interleaving of arrivals, job deliveries, acknowledgements, handlers, timers and clean-ups, over any number
   * of tasks.  The manager stops exactly when a job is delivered that its task, cleared meanwhile, has left in the
   * channel. Otherwise what it holds for each task that has arrived and was not cleared is the state to which the
   * steps of that task lead when it runs alone.
   */
  method Serve(m: TaskManager, events: seq<Event>) returns (ok: bool, nets: Nets)
    requires m.Valid() && m.trs == map[]
    requires forall i :: 0 <= i < |events| ==> WellAddressed(events[i], m.owner, m.isJob)
    modifies m
    ensures var empty := Book(old(m.outbox).Keys, map[], map[], map[]);
            && (ok <==> NoneLate(empty, events, |events|))
            && (ok ==> Follows(m, nets, Journal(empty, events)))
  {
    ok, nets := true, map[];
    var left: map<Id, Waiting> := map[];
    ghost var empty := Book(m.outbox.Keys, map[], map[], map[]);
    ghost var b := empty;
    for i := 0 to |events|
      invariant ok && Follows(m, nets, b) && left == b.left
      invariant b == Journal(empty, events[..i]) && NoneLate(empty, events, i)
    {
      JournalSnoc(empty, events, i);
      ok, nets, left := TakeEvent(m, events[i], nets, left, b);
      if !ok {
        return;
      }
      b := Recorded(b, events[i]);
    }
    assert events[..|events|] == events;
  }

  /** None of the first `k` events is late. */
  ghost predicate NoneLate(b: Book, events: seq<Event>, k: nat)
    requires k <= |events|
  {
    forall i :: 0 <= i < k ==> !Late(Journal(b, events[..i]), events[i])
  }

  lemma JournalSnoc(b: Book, events: seq<Event>, i: nat)
    requires i < |events|
    ensures Journal(b, events[..i + 1]) == Recorded(Journal(b, events[..i]), events[i])
    ensures NoneLate(b, events, i) ==> (NoneLate(b, events, i + 1) <==> !Late(Journal(b, events[..i]), events[i]))
    ensures NoneLate(b, events, |events|) ==> NoneLate(b, events, i + 1)
  {
    assert events[..i + 1][..i] == events[..i];
  }

  // ---- what every task of the manager keeps ----

  /** The account of every transaction of the job is balanced. */
  ghost predicate Accounted(v: View, job: Job) {
    job.id in v.jobs ==> forall i :: 0 <= i < |job.txns| ==> Budget(v, job.id, job.txns[i])
  }

  /** Whoever a cancel of the job reaches, it reaches all. */
  ghost predicate CanceledTogether(log: seq<Out>, job: Job) {
    forall x, y :: SawCancel(job.id, x) in log && y in TxnIds(job) ==> AskedFinish(job.id, y, Canceled) in log
  }

  /** What single runs promise of a state after `k` jobs have been scheduled, and of job `p` of the plan. */
  ghost predicate Promises(s: Sys, plan: seq<Job>, p: nat, k: nat)
    requires p < |plan|
  {
    && Orderly(s.v, k) && AllTimed(s.v)
    && (p + 1 < k ==> JobDone(s, plan[p]))
    && (p + 1 == k == |plan| && JobDone(s, plan[p]) && !s.v.task.canceled ==> s.v.task.ended)
    && (Untouched(s.v, plan[p].id) || CancelProof(plan, p) ==> BarrierKept(s, plan[p]))
    && (Untouched(s.v, plan[p].id) ==> Accounted(s.v, plan[p]))
    && CanceledTogether(s.v.log, plan[p])
  }

  /**
   * So everything proved of single runs holds for every task of the manager: jobs are scheduled in order, after the
   * completion of all earlier ones, and the task ends with the last; until a cancel of a job is handled its barrier
   * holds and its retries are balanced by asks; the barrier of a job with at most one transaction, or behind one
   * without any, holds for good; and a cancel reaches all transactions of its job.
   */
  lemma EveryTaskKeepsItsPromises(views: Views, nets: Nets, plans: Plans, history: History, t: Id, p: nat)
    returns (k: nat)
    requires AllAlone(views, nets, plans, history) && t in views && p < |plans[t]|
    ensures Promises(WithNet(views[t], nets[t]), plans[t], p, k)
  {
    OneAlone(views, nets, plans, history, t);
    k := RunKeepsPromises(plans[t], history[t], p);
  }

  lemma RunKeepsPromises(plan: seq<Job>, steps: seq<Step>, p: nat) returns (k: nat)
    requires WellPlanned(plan) && p < |plan|
    ensures Promises(Run(Initial(plan), steps), plan, p, k)
  {
    var s := Run(Initial(plan), steps);
    k := RunKeepsInv(plan, steps);
    RunStaysLinked(plan, steps);
    assert p + 1 < k ==> JobDone(s, s.v.task.pending[p]);
    BarrierHoldsIff(plan, p);
    UnfinishedJobsAreTimed(plan, steps);
    RunCancelsTogether(plan, steps, p);
    if JobDone(s, plan[p]) && !s.v.task.canceled {
      NextFollowsDone(plan, steps, p);
    }
    if Untouched(s.v, plan[p].id) {
      ConfirmWaitsForAllReservations(plan, steps, p);
      RunIsAccounted(plan, steps, p);
    }
  }

  lemma RunCancelsTogether(plan: seq<Job>, steps: seq<Step>, p: nat)
    requires WellPlanned(plan) && p < |plan|
    ensures CanceledTogether(Run(Initial(plan), steps).v.log, plan[p])
  {
    var log := Run(Initial(plan), steps).v.log;
    forall x, y | SawCancel(plan[p].id, x) in log && y in TxnIds(plan[p])
      ensures AskedFinish(plan[p].id, y, Canceled) in log
    {
      CancelReachesEveryone(plan, steps, p, x, y);
    }
  }

  lemma RunIsAccounted(plan: seq<Job>, steps: seq<Step>, p: nat)
    requires WellPlanned(plan) && p < |plan| && Untouched(Run(Initial(plan), steps).v, plan[p].id)
    ensures Accounted(Run(Initial(plan), steps).v, plan[p])
  {
    var v := Run(Initial(plan), steps).v;
    if plan[p].id in v.jobs {
      forall i | 0 <= i < |plan[p].txns| ensures Budget(v, plan[p].id, plan[p].txns[i]) {
        RetriesAreAsks(plan, steps, p, i);
      }
    }
  }

  /**
   * The validator goes first: in every run of a task with a validator, no job of the task is scheduled before every
   * transaction of the validator has confirmed.
   */
  lemma ValidatorGoesFirst(task: Task, steps: seq<Step>, j: nat, x: Id)
    requires task.validator.Some? && j < |task.jobs| && WellPlanned(Queue(task))
    requires Scheduled(task.jobs[j].id) in Run(Initial(Queue(task)), steps).v.log
    requires x in TxnIds(task.validator.value)
    ensures Party(task.validator.value.id, x) in Run(Initial(Queue(task)), steps).confirmed
  {
    var plan := Queue(task);
    assert plan[0] == task.validator.value && plan[j + 1] == task.jobs[j];
    NextJobWaitsForCompletion(plan, steps, 0, j + 1);
  }

  /** Every loaded job is in the plan. */
  ghost predicate PlannedJobs(v: View) {
    forall j :: j in v.jobs ==> exists p :: 0 <= p < |v.task.pending| && v.task.pending[p].id == j
  }

  lemma OwnPlansGrow(plans: Plans, owner: Id -> Id, isJob: Id -> bool, t: Id, plan: seq<Job>)
    requires OwnPlans(plans, owner, isJob) && OwnPlan(plan, t, owner, isJob)
    ensures OwnPlans(plans[t := plan], owner, isJob)
  {
    forall x | x in plans ensures OwnPlan(plans[x], x, owner, isJob) {
    }
  }

  lemma OwnPlansShrink(plans: Plans, owner: Id -> Id, isJob: Id -> bool, t: Id)
    requires OwnPlans(plans, owner, isJob)
    ensures OwnPlans(plans - {t}, owner, isJob)
  {
    forall x | x in plans ensures OwnPlan(plans[x], x, owner, isJob) {
    }
  }

  /** What a participant's reply adds to the messages of its task. */
  function Replied(n: Net, ask: Out, succeeds: bool): Net
    requires IsAsk(ask)
  {
    var party, handler := Party(ask.job, ask.txn), HandlerFor(AskState(ask));
    if !succeeds || handler == Unsupported then n.(acks := n.acks + {Ack(ask.job, ask.txn, Canceled)})
    else match handler
      case Reserve => n.(reserved := n.reserved + {party}, acks := n.acks + {Ack(ask.job, ask.txn, Confirmed)})
      case Confirm => n.(confirmed := n.confirmed + {party}, acks := n.acks + {Ack(ask.job, ask.txn, Finished)})
      case Cancel => n.(canceled := n.canceled + {party}, acks := n.acks + {Ack(ask.job, ask.txn, Finished)})
  }
}
