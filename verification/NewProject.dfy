/** Activating a project that does not exist until its first payment is paid
    (activateNewProjectFromFirstPayment), with deliveries that die anywhere and are repeated. */
module NewProject {
  import opened Prelude
  import opened Runs

  type Owner = int

  /** A subscription row: whether it carries this payment's id and a Mollie subscription id. */
  datatype Sub = Sub(ours: bool, mollie: bool, price: int)

  datatype Project = Project(owner: Owner, subs: seq<Sub>)

  /** Everything one new-project checkout touches: its pending row (the owner), the project
      under its slug, the invoice of its payment, the Mollie subscription under its idempotency
      key (the amount) and whether its payment's refund was requested. */
  datatype State = State(
    pending: Option<Owner>,
    project: Option<Project>,
    invoice: Option<int>,
    mollie: Option<int>,
    refunded: bool)

  /** What the outside world answers during one delivery. */
  datatype Oracle = Oracle(price: Option<int>, creates: bool, mollieAnswers: bool)

  predicate HasOurs(s: State) {
    s.project.Some? && exists k :: 0 <= k < |s.project.value.subs| && s.project.value.subs[k].ours
  }

  function Refunded(s: State): State {
    s.(refunded := true)
  }

  /** The branches that give the money back: the intent is gone, there is no price, the slug
      belongs to someone else or to a project with a subscription, or it cannot be created. */
  predicate Refunds(s: State, o: Oracle) {
    || s.pending.None? || o.price.None?
    || (s.project.Some? && (s.project.value.owner != s.pending.value || s.project.value.subs != []))
    || (s.project.None? && !o.creates)
  }

  function WithProject(s: State): State
    requires s.pending.Some?
  {
    if s.project.Some? then s else s.(project := Some(Project(s.pending.value, [])))
  }

  /** Mollie creates at most one subscription under the key: a later request gets the first. */
  function WithMollie(s: State, o: Oracle): State
    requires o.price.Some?
  {
    if o.mollieAnswers then s.(mollie := s.mollie.Or(o.price)) else s
  }

  /** The last transaction: subscription, paid invoice, pending row gone. */
  function Committed(s: State, o: Oracle): State
    requires s.project.Some? && o.price.Some?
  {
    s.(project := Some(s.project.value.(subs := s.project.value.subs + [Sub(true, o.mollieAnswers, o.price.value)])),
       invoice := o.price, pending := None)
  }

  /** The durable states a delivery goes through, from the one it finds to the one it leaves. */
  function Trace(s: State, o: Oracle): (r: seq<State>)
    ensures |r| >= 1 && r[0] == s
  {
    if HasOurs(s) then [s]
    else if Refunds(s, o) then [s, Refunded(s)]
    else
      var s1 := WithProject(s);
      var s2 := WithMollie(s1, o);
      [s, s1, s2, Committed(s2, o)]
  }

  function Deliver(s: State, o: Oracle): State {
    var t := Trace(s, o); t[|t| - 1]
  }

  // ----- The delivery as the source runs it -----

  class Activation {
    var pending: Option<Owner>
    var project: Option<Project>
    var invoice: Option<int>
    var mollie: Option<int>
    var refunded: bool

    ghost function Now(): State
      reads this
    {
      State(pending, project, invoice, mollie, refunded)
    }

    constructor (owner: Owner)
      ensures Now() == State(Some(owner), None, None, None, false)
    {
      pending, project, invoice, mollie, refunded := Some(owner), None, None, None, false;
    }

    method FindOurs() returns (found: bool)
      ensures found <==> HasOurs(Now())
    {
      found := false;
      if project.Some? {
        var subs := project.value.subs;
        for k := 0 to |subs|
          invariant found <==> exists j :: 0 <= j < k && subs[j].ours
        {
          if subs[k].ours { found := true; }
        }
      }
    }

    /** One delivery that dies after `stop` durable effects, or runs to its end. */
    method Run(o: Oracle, stop: nat)
      modifies this
      ensures var t := Trace(old(Now()), o); Now() == t[if stop < |t| then stop else |t| - 1]
    {
      if stop == 0 { return; }
      var found := FindOurs();
      if found { return; }
      if pending.None? { refunded := true; return; }
      if o.price.None? { refunded := true; return; }
      match project {
        case None =>
          if !o.creates { refunded := true; return; }
          project := Some(Project(pending.value, []));
        case Some(existing) =>
          if existing.owner != pending.value || existing.subs != [] { refunded := true; return; }
      }
      if stop == 1 { return; }
      if o.mollieAnswers && mollie.None? { mollie := o.price; }
      if stop == 2 { return; }
      project := Some(project.value.(subs := project.value.subs + [Sub(true, o.mollieAnswers, o.price.value)]));
      invoice := o.price;
      pending := None;
    }
  }

  // ----- Crash refinement -----

  /** Before anything was done for the checkout. */
  predicate Fresh(s: State, owner: Owner) {
    s == State(Some(owner), None, None, None, false)
  }

  /** One project of the owner, one subscription row with its Mollie subscription, one Mollie
      subscription, one paid invoice, no pending row, no refund. */
  predicate ActivatedOnce(s: State, owner: Owner, price: int) {
    s == State(None, Some(Project(owner, [Sub(true, true, price)])), Some(price), Some(price), false)
  }

  /** A delivery that died before its last effect. */
  datatype Attempt = Attempt(oracle: Oracle, stop: nat)

  predicate Dies(s: State, a: Attempt) {
    a.stop < |Trace(s, a.oracle)| - 1
  }

  function After(s: State, a: Attempt): State
    requires Dies(s, a)
  {
    Trace(s, a.oracle)[a.stop]
  }

  predicate AllDie(s: State, attempts: seq<Attempt>)
    decreases |attempts|
  {
    attempts == [] || (Dies(s, attempts[0]) && AllDie(After(s, attempts[0]), attempts[1..]))
  }

  function Replay(s: State, attempts: seq<Attempt>): State
    requires AllDie(s, attempts)
    decreases |attempts|
  {
    if attempts == [] then s else Replay(After(s, attempts[0]), attempts[1..])
  }

  /** What deliveries that died can leave behind: nothing, the empty project, or the project and
      a Mollie subscription. */
  predicate HalfDone(s: State, owner: Owner) {
    && s.pending == Some(owner) && s.invoice.None? && !s.refunded
    && (s.project.None? || s.project == Some(Project(owner, [])))
    && (s.mollie.Some? ==> s.project.Some?)
  }

  predicate SamePrice(attempts: seq<Attempt>, price: int) {
    forall k | 0 <= k < |attempts| :: attempts[k].oracle.price == Some(price)
  }

  lemma DyingStaysHalfDone(s: State, owner: Owner, a: Attempt)
    requires HalfDone(s, owner) && Dies(s, a)
    ensures HalfDone(After(s, a), owner)
    ensures After(s, a).mollie == s.mollie || (s.mollie.None? && a.oracle.mollieAnswers && After(s, a).mollie == a.oracle.price)
  {
  }

  lemma {:induction false} ReplayIsHalfDone(s: State, owner: Owner, attempts: seq<Attempt>, price: int)
    requires HalfDone(s, owner) && AllDie(s, attempts) && SamePrice(attempts, price)
    requires s.mollie.None? || s.mollie == Some(price)
    ensures HalfDone(Replay(s, attempts), owner)
    ensures Replay(s, attempts).mollie.None? || Replay(s, attempts).mollie == Some(price)
    decreases |attempts|
  {
    if attempts != [] {
      DyingStaysHalfDone(s, owner, attempts[0]);
      assert attempts[0].oracle.price == Some(price);
      ReplayIsHalfDone(After(s, attempts[0]), owner, attempts[1..], price);
    }
  }

  lemma DeliverHalfDone(s: State, owner: Owner, o: Oracle)
    requires HalfDone(s, owner) && o.price.Some? && o.creates
    ensures Deliver(s, o) == State(None, Some(Project(owner, [Sub(true, o.mollieAnswers, o.price.value)])), o.price,
                                   if o.mollieAnswers then s.mollie.Or(o.price) else s.mollie, false)
  {
    var s2 := WithMollie(WithProject(s), o);
    assert s2.project.value.subs + [Sub(true, o.mollieAnswers, o.price.value)] == [Sub(true, o.mollieAnswers, o.price.value)];
  }

  /** However many deliveries die, and wherever, the next one that runs to its end leaves what an
      uninterrupted one would have left: the project activated once. (It must find the price,
      create the project if that is still to do, and reach Mollie.) */
  lemma CrashRefinement(s: State, owner: Owner, attempts: seq<Attempt>, last: Oracle, price: int)
    requires Fresh(s, owner) && AllDie(s, attempts) && SamePrice(attempts, price)
    requires last == Oracle(Some(price), true, true)
    ensures Deliver(Replay(s, attempts), last) == Deliver(s, last)
    ensures ActivatedOnce(Deliver(s, last), owner, price)
  {
    ReplayIsHalfDone(s, owner, attempts, price);
    DeliverHalfDone(s, owner, last);
    DeliverHalfDone(Replay(s, attempts), owner, last);
  }

  /** If the last delivery cannot reach Mollie, that still holds exactly when no earlier one had
      created the Mollie subscription. Otherwise Mollie charges for a subscription whose id is
      on no row. */
  lemma LastCallDecides(s: State, owner: Owner, attempts: seq<Attempt>, last: Oracle, price: int)
    requires Fresh(s, owner) && AllDie(s, attempts) && SamePrice(attempts, price)
    requires last == Oracle(Some(price), true, false)
    ensures Deliver(Replay(s, attempts), last) == Deliver(s, last) <==> Replay(s, attempts).mollie.None?
    ensures Deliver(Replay(s, attempts), last).project == Some(Project(owner, [Sub(true, false, price)]))
  {
    ReplayIsHalfDone(s, owner, attempts, price);
    DeliverHalfDone(s, owner, last);
    DeliverHalfDone(Replay(s, attempts), owner, last);
  }

  /** And that can happen: one delivery that dies between its Mollie call and its transaction is
      enough for the last one to lose that subscription. */
  lemma LastCallCanFail(s: State, owner: Owner, last: Oracle, price: int) returns (attempts: seq<Attempt>)
    requires Fresh(s, owner) && last == Oracle(Some(price), true, false)
    ensures |attempts| == 1 && AllDie(s, attempts) && SamePrice(attempts, price)
    ensures Deliver(Replay(s, attempts), last) != Deliver(s, last)
    ensures Deliver(Replay(s, attempts), last).mollie == Some(price)
  {
    var a := Attempt(Oracle(Some(price), true, true), 2);
    attempts := [a];
    assert Trace(s, a.oracle)[2].mollie == Some(price);
    assert AllDie(After(s, a), []);
    assert attempts[1..] == [];
    ReplayIsHalfDone(s, owner, attempts, price);
    DeliverHalfDone(Replay(s, attempts), owner, last);
    LastCallDecides(s, owner, attempts, last, price);
  }

  /** A delivery after the one that activated changes nothing. */
  lemma ActivatedStays(s: State, o: Oracle, again: Oracle)
    requires !HasOurs(s) && !Refunds(s, o)
    ensures HasOurs(Deliver(s, o)) && Deliver(Deliver(s, o), again) == Deliver(s, o)
  {
    var s2 := WithMollie(WithProject(s), o);
    var subs := Committed(s2, o).project.value.subs;
    assert subs[|subs| - 1].ours;
  }

  /** A refund is not final: the pending row stays, so if the project could not be created (or
      had no price) the first time, a redelivery that can activates it, although the payment was
      given back. It is exactly the intent being gone, or the slug being taken, that lasts. */
  lemma RefundThenActivation(s: State, o: Oracle, again: Oracle)
    requires !HasOurs(s) && Refunds(s, o) && again.price.Some? && again.creates
    ensures var s' := Deliver(Deliver(s, o), again);
      (HasOurs(s') && s'.refunded) <==>
        s.pending.Some? && (s.project.Some? ==> s.project.value.owner == s.pending.value && s.project.value.subs == [])
  {
    var s1 := Refunded(s);
    if !Refunds(s1, again) {
      ActivatedStays(s1, again, again);
    }
  }

  // ----- Every interleaving -----

  /** A delivery between its effects: the project is there, and Mollie was called or not yet. */
  datatype Flight = Flight(price: int, answered: Option<bool>)

  /** The checkout and the delivery that is working on it, if any: a payment's deliveries come one
      after the other. */
  datatype Busy = Busy(state: State, flight: Option<Flight>)

  /** The effects of a delivery one by one, its death, and what others may do to the same checkout
      in between: take the slug, add a subscription to the project, or remove the pending row. */
  datatype Step =
    | Begins(oracle: Oracle)
    | CallsMollie(answers: bool)
    | Commits(indexFree: bool)
    | Dies
    | SlugTaken(other: Owner)
    | SubAdded(mollie: bool, price: int)
    | PendingRemoved

  predicate Enabled(b: Busy, step: Step) {
    match step
    case Begins(_) => b.flight.None?
    case CallsMollie(_) => b.flight.Some? && b.flight.value.answered.None?
    case Commits(_) => b.flight.Some? && b.flight.value.answered.Some? && b.state.project.Some?
    case Dies => b.flight.Some?
    case SlugTaken(_) => b.state.project.None?
    case SubAdded(_, _) => b.state.project.Some?
    case PendingRemoved => true
  }

  /** The checks, and the project found or created. */
  function Begin(s: State, o: Oracle): Busy {
    if HasOurs(s) then Busy(s, None)
    else if Refunds(s, o) then Busy(Refunded(s), None)
    else Busy(WithProject(s), Some(Flight(o.price.value, None)))
  }

  function OracleOf(f: Flight): Oracle {
    Oracle(Some(f.price), true, f.answered == Some(true))
  }

  function AddSub(s: State, mollie: bool, price: int): State
    requires s.project.Some?
  {
    s.(project := Some(s.project.value.(subs := s.project.value.subs + [Sub(false, mollie, price)])))
  }

  /** A subscription added meanwhile can make the live index refuse the row: the transaction
      fails and the delivery with it. */
  function Apply(b: Busy, step: Step): Busy
    requires Enabled(b, step)
  {
    var s := b.state;
    match step
    case Begins(o) => Begin(s, o)
    case CallsMollie(answers) =>
      var f := b.flight.value.(answered := Some(answers));
      Busy(WithMollie(s, OracleOf(f)), Some(f))
    case Commits(indexFree) => Busy(if indexFree then Committed(s, OracleOf(b.flight.value)) else s, None)
    case Dies => b.(flight := None)
    case SlugTaken(other) => b.(state := s.(project := Some(Project(other, []))))
    case SubAdded(mollie, price) => b.(state := AddSub(s, mollie, price))
    case PendingRemoved => b.(state := s.(pending := None))
  }

  /** Without others in between, the effects one by one are the delivery's trace. */
  lemma FlightIsTrace(s: State, o: Oracle)
    requires !HasOurs(s) && !Refunds(s, o)
    ensures var b1 := Begin(s, o);
      && Enabled(b1, CallsMollie(o.mollieAnswers))
      && var b2 := Apply(b1, CallsMollie(o.mollieAnswers));
         && Enabled(b2, Commits(true))
         && Trace(s, o) == [s, b1.state, b2.state, Apply(b2, Commits(true)).state]
  {
  }

  /** At most one row carries the payment; it exists exactly when the invoice does, and its
      Mollie subscription was created. */
  ghost predicate Inv(s: State) {
    && (s.invoice.Some? <==> HasOurs(s))
    && (s.invoice.Some? ==> s.pending.None?)
    && (s.project.Some? ==>
          var subs := s.project.value.subs;
          && (forall j, k | 0 <= j < |subs| && 0 <= k < |subs| && subs[j].ours && subs[k].ours :: j == k)
          && (forall k | 0 <= k < |subs| && subs[k].ours && subs[k].mollie :: s.mollie.Some?))
  }

  lemma CommitKeeps(s: State, o: Oracle)
    requires Inv(s) && !HasOurs(s) && s.project.Some? && o.price.Some? && (o.mollieAnswers ==> s.mollie.Some?)
    ensures Inv(Committed(s, o))
  {
    var subs, subs' := s.project.value.subs, Committed(s, o).project.value.subs;
    assert subs'[|subs|].ours;
    assert forall k | 0 <= k < |subs| :: subs'[k] == subs[k] && !subs[k].ours;
  }

  lemma AddKeeps(s: State, mollie: bool, price: int)
    requires Inv(s) && s.project.Some?
    ensures Inv(AddSub(s, mollie, price)) && (HasOurs(AddSub(s, mollie, price)) <==> HasOurs(s))
  {
    var subs := s.project.value.subs;
    var subs' := AddSub(s, mollie, price).project.value.subs;
    assert forall k | 0 <= k < |subs| :: subs'[k] == subs[k];
    assert !subs'[|subs|].ours;
  }

  /** A delivery in flight has its project, no row yet, and the Mollie subscription it was told of. */
  ghost predicate BusyInv(b: Busy) {
    && Inv(b.state)
    && (b.flight.Some? ==>
          && b.state.project.Some? && !HasOurs(b.state)
          && (b.flight.value.answered == Some(true) ==> b.state.mollie.Some?))
  }

  lemma StepKeeps(b: Busy, step: Step)
    requires BusyInv(b) && Enabled(b, step)
    ensures BusyInv(Apply(b, step))
  {
    match step
    case Begins(_) =>
    case CallsMollie(_) =>
    case Commits(indexFree) =>
      if indexFree { CommitKeeps(b.state, OracleOf(b.flight.value)); }
    case Dies =>
    case SlugTaken(_) =>
    case SubAdded(mollie, price) => AddKeeps(b.state, mollie, price);
    case PendingRemoved =>
  }

  /** Whatever others do before, between and after its effects, and however often deliveries die
      and repeat, the payment makes at most one subscription row, and the row, the paid invoice
      and the end of the pending intent come together. */
  lemma AtMostOneActivation(bs: seq<Busy>, steps: seq<Step>, owner: Owner, n: nat)
    requires |bs| == |steps| + 1 && n <= |steps| && bs[0].flight.None? && Fresh(bs[0].state, owner)
    requires forall k | 0 <= k < |steps| :: Enabled(bs[k], steps[k]) && bs[k + 1] == Apply(bs[k], steps[k])
    ensures Inv(bs[n].state)
  {
    forall k: nat | k + 1 < |bs| && BusyInv(bs[k]) ensures BusyInv(bs[k + 1]) {
      StepKeeps(bs[k], steps[k]);
    }
    Along(bs, b => BusyInv(b), (b: Busy, b': Busy) => true, n, n);
  }

  /** What a delivery that runs to its end leaves: nothing new if an earlier one had activated the
      project; the project activated, if the intent is there, the price known and the slug free, or
      the owner's own and still without a subscription; and otherwise the refund. */
  lemma DeliveryEnds(s: State, o: Oracle)
    ensures var ours := s.project.Some? && exists k | 0 <= k < |s.project.value.subs| :: s.project.value.subs[k].ours;
      if ours then Deliver(s, o) == s
      else if s.pending.Some? && o.price.Some?
              && (if s.project.Some? then s.project.value == Project(s.pending.value, []) else o.creates)
      then Deliver(s, o) == State(None, Some(Project(s.pending.value, [Sub(true, o.mollieAnswers, o.price.value)])), o.price,
                                  if o.mollieAnswers && s.mollie.None? then o.price else s.mollie, s.refunded)
      else Deliver(s, o) == s.(refunded := true)
  {
    var none: seq<Sub>, sub := [], Sub(true, o.mollieAnswers, o.price.GetOr(0));
    assert none + [sub] == [sub];
    if HasOurs(s) {
    } else if Refunds(s, o) {
      assert Deliver(s, o) == Refunded(s);
    } else {
      var s2 := WithMollie(WithProject(s), o);
      assert s2.project == Some(Project(s.pending.value, none));
      assert Deliver(s, o) == Committed(s2, o);
    }
  }
}
