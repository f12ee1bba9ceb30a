/** The module-level producer: double-checked locking by any number of threads, step by step. */
module KafkaProducer {
  import opened Numbers

  /** Where a thread is inside _get_producer; a producer is known by its number in the order of construction. */
  datatype Place =
    | Start
    | Waiting
    | Entered
    | Building
    | Assigning(built: nat)
    | Leaving
    | Returning
    | Returned(producer: Option<nat>)
    | Raised

  /** The global, the lock's holder, how many producers were ever constructed, and where each thread is. */
  datatype State = State(producer: Option<nat>, holder: Option<nat>, constructed: nat, threads: map<nat, Place>)

  /** One step of one thread; constructing a producer may raise. */
  datatype Step = Enter(t: nat) | Move(t: nat, raises: bool)

  const INITIAL := State(None, None, 0, map[])

  function At(s: State, t: nat, p: Place): State {
    s.(threads := s.threads[t := p])
  }

  function Next(s: State, step: Step): Option<State> {
    match step
    case Enter(t) =>
      if t in s.threads then None else Some(At(s, t, Start))
    case Move(t, raises) =>
      if t !in s.threads then None else
      match s.threads[t]
      case Start =>
        Some(At(s, t, if s.producer.Some? then Returning else Waiting))
      case Waiting =>
        if s.holder.Some? then None else Some(At(s, t, Entered).(holder := Some(t)))
      case Entered =>
        Some(At(s, t, if s.producer.None? then Building else Leaving))
      case Building =>
        if raises then Some(At(s, t, Raised).(holder := None))
        else Some(At(s, t, Assigning(s.constructed)).(constructed := s.constructed + 1))
      case Assigning(built) =>
        Some(At(s, t, Leaving).(producer := Some(built)))
      case Leaving =>
        Some(At(s, t, Returning).(holder := None))
      case Returning =>
        Some(At(s, t, Returned(s.producer)))
      case Returned(_) => None
      case Raised => None
  }

  function Run(steps: seq<Step>): Option<State> {
    if steps == [] then Some(INITIAL) else
    match Run(steps[..|steps| - 1])
    case None => None
    case Some(s) => Next(s, steps[|steps| - 1])
  }

  predicate Inside(p: Place) {
    p == Entered || p == Building || p.Assigning? || p == Leaving
  }

  /** Some thread has constructed the producer and not stored it yet. */
  ghost predicate Unassigned(s: State) {
    s.holder.Some? && s.holder.value in s.threads && s.threads[s.holder.value].Assigning?
  }

  ghost predicate Inv(s: State) {
    && (forall t | t in s.threads :: Inside(s.threads[t]) <==> s.holder == Some(t))
    && (s.holder.Some? ==> s.holder.value in s.threads)
    && (s.producer.Some? ==> s.producer.value == 0)
    && s.constructed == (if s.producer.Some? || Unassigned(s) then 1 else 0)
    && (forall t | t in s.threads ::
          match s.threads[t]
          case Building => s.producer.None?
          case Assigning(b) => b == 0 && s.producer.None?
          case Leaving => s.producer.Some?
          case Returning => s.producer.Some?
          case Returned(p) => p == Some(0) && s.producer.Some?
          case _ => true)
  }

  lemma StepKeeps(s: State, step: Step)
    requires Inv(s) && Next(s, step).Some?
    ensures Inv(Next(s, step).value)
  {
    if step.Enter? {
      EnterKeeps(s, step.t);
    } else if Inside(s.threads[step.t]) {
      InsideKeeps(s, step.t, step.raises);
    } else {
      OutsideKeeps(s, step.t, step.raises);
    }
  }

  lemma EnterKeeps(s: State, t: nat)
    requires Inv(s) && Next(s, Enter(t)).Some?
    ensures Inv(Next(s, Enter(t)).value)
  {
  }

  /** Threads inside the lock are the holder alone, so that what it does to the global disturbs no one. */
  lemma InsideKeeps(s: State, t: nat, raises: bool)
    requires Inv(s) && Next(s, Move(t, raises)).Some? && Inside(s.threads[t])
    ensures Inv(Next(s, Move(t, raises)).value)
  {
    match s.threads[t]
    case Entered =>
    case Building =>
    case Assigning(built) =>
    case Leaving =>
  }

  lemma OutsideKeeps(s: State, t: nat, raises: bool)
    requires Inv(s) && Next(s, Move(t, raises)).Some? && !Inside(s.threads[t])
    ensures Inv(Next(s, Move(t, raises)).value)
  {
  }

  lemma {:induction false} RunKeeps(steps: seq<Step>)
    requires Run(steps).Some?
    ensures Inv(Run(steps).value)
  {
    if steps != [] {
      RunKeeps(steps[..|steps| - 1]);
      StepKeeps(Run(steps[..|steps| - 1]).value, steps[|steps| - 1]);
    }
  }

  /**
   * In every interleaving, failures of construction included, at most one producer is ever constructed, the threads
   * inside the lock are at most one, and every call that returns yields that same producer, never None.
   */
  lemma AtMostOneProducer(steps: seq<Step>)
    requires Run(steps).Some?
    ensures var s := Run(steps).value;
            && s.constructed <= 1
            && (forall t, u | t in s.threads && u in s.threads && Inside(s.threads[t]) && Inside(s.threads[u]) ::
              t == u)
            && (forall t | t in s.threads && s.threads[t].Returned? ::
                  s.threads[t].producer.Some? && s.threads[t].producer == s.producer && s.constructed == 1)
  {
    RunKeeps(steps);
  }

  /**
   * A thread outside the lock and not finished can always move, unless another thread holds the lock: and that one can.
   */
  lemma SomeThreadCanMove(steps: seq<Step>, t: nat)
    requires Run(steps).Some? && t in Run(steps).value.threads
    requires !Run(steps).value.threads[t].Returned? && !Run(steps).value.threads[t].Raised?
    ensures var s := Run(steps).value;
            || Next(s, Move(t, false)).Some?
            || (s.holder.Some? && Next(s, Move(s.holder.value, false)).Some?)
  {
    RunKeeps(steps);
  }

  /** Once the producer is stored, a call does not touch the lock, whoever holds it. */
  lemma StoredNeedsNoLock(s: State, t: nat, raises: bool)
    requires t in s.threads && s.threads[t] == Start && s.producer.Some?
    ensures Next(s, Move(t, raises)) == Some(At(s, t, Returning))
  {
  }

  /** A call fails only if its own construction raised. */
  lemma {:induction false} OnlyConstructionFails(steps: seq<Step>, t: nat)
    requires Run(steps).Some? && t in Run(steps).value.threads && Run(steps).value.threads[t] == Raised
    ensures Move(t, true) in steps
  {
    var init, last := steps[..|steps| - 1], steps[|steps| - 1];
    assert steps == init + [last];
    if last != Move(t, true) {
      OnlyConstructionFails(init, t);
    }
  }

  /** The state after n moves of one thread, of which none raises. */
  function Moves(s: State, t: nat, n: nat): Option<State> {
    if n == 0 then Some(s) else
    match Moves(s, t, n - 1)
    case None => None
    case Some(s') => Next(s', Move(t, false))
  }

  lemma NextMove(s: State, t: nat, n: nat, from: State, p: Place, to: State, q: Place)
    requires Moves(s, t, n) == Some(from) && from.threads == s.threads[t := p]
    requires Next(from, Move(t, false)) == Some(to.(threads := from.threads[t := q])) && to.threads == s.threads[t := q]
    ensures Moves(s, t, n + 1) == Some(to)
  {
    assert from.threads[t := q] == s.threads[t := q];
  }

  /** Where a thread is, with the rest of the threads as in s. */
  function With(s: State, t: nat, p: Place, producer: Option<nat>, holder: Option<nat>, constructed: nat): State {
    State(producer, holder, constructed, s.threads[t := p])
  }

  /** A call that finds the producer stored and is left alone returns it. */
  lemma StoredIsReturned(s: State, t: nat)
    requires t in s.threads && s.threads[t] == Start && s.producer.Some?
    ensures Moves(s, t, 2) == Some(At(s, t, Returned(s.producer)))
  {
    assert Moves(s, t, 0) == Some(s) && s.threads[t := Start] == s.threads;
    NextMove(s, t, 0, s, Start, At(s, t, Returning), Returning);
    NextMove(s, t, 1, At(s, t, Returning), Returning, At(s, t, Returned(s.producer)), Returned(s.producer));
  }

  /** A call that finds nothing stored and the lock free, and is left alone, constructs the producer and returns it. */
  lemma NewIsReturned(s: State, t: nat)
    requires t in s.threads && s.threads[t] == Start && s.holder.None? && s.producer.None?
    ensures var n := s.constructed;
            Moves(s, t, 7) == Some(With(s, t, Returned(Some(n)), Some(n), None, n + 1))
  {
    var n, me := s.constructed, Some(t);
    var s4, s5 := With(s, t, Assigning(n), None, me, n + 1), With(s, t, Leaving, Some(n), me, n + 1);
    var s6 := With(s, t, Returning, Some(n), None, n + 1);
    NewIsConstructed(s, t);
    NextMove(s, t, 4, s4, Assigning(n), s5, Leaving);
    NextMove(s, t, 5, s5, Leaving, s6, Returning);
    NextMove(s, t, 6, s6, Returning, With(s, t, Returned(Some(n)), Some(n), None, n + 1), Returned(Some(n)));
  }

  lemma NewIsConstructed(s: State, t: nat)
    requires t in s.threads && s.threads[t] == Start && s.holder.None? && s.producer.None?
    ensures Moves(s, t, 4) == Some(With(s, t, Assigning(s.constructed), None, Some(t), s.constructed + 1))
  {
    var n, me := s.constructed, Some(t);
    var s1, s2 := With(s, t, Waiting, None, None, n), With(s, t, Entered, None, me, n);
    var s3 := With(s, t, Building, None, me, n);
    assert Moves(s, t, 0) == Some(s) && s.threads[t := Start] == s.threads;
    NextMove(s, t, 0, s, Start, s1, Waiting);
    NextMove(s, t, 1, s1, Waiting, s2, Entered);
    NextMove(s, t, 2, s2, Entered, s3, Building);
    NextMove(s, t, 3, s3, Building, With(s, t, Assigning(n), None, me, n + 1), Assigning(n));
  }
}
