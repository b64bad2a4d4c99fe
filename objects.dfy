/** Events: an action with its subjects, the prior its `upkeep` set, and
    an outcome slot that reads `<missing>` until the action happens. */
module Objects {
  import opened Wrappers
  import opened Helpers
  import opened Players

  /** What an outcome's details, or an action's subjects, hold: a number
      (a base), a player, or Python's None. */
  datatype Value = Num(n: int) | Person(who: Player) | Nothing

  /** The `Outcome` triple; `details` is None for the start event. */
  datatype Outcome = Outcome(result: string, record: string, details: Option<map<string, Value>>)

  /** The placeholder the outcome slot holds before the action happens. */
  const Missing := "<missing>"

  /** A `BayesAction`. `outcome` is None while the slot still holds the
      `<missing>` placeholder. */
  class Event {
    const name: string
    const action: string
    const subjects: seq<(string, Value)>
    var probs: Option<Table>
    var outcome: Option<Outcome>
    var happened: bool

    /** Construction: the subjects are named, the outcome slot is empty,
        nothing has happened, and `upkeep` has set the prior (None for the
        actions whose `upkeep` does nothing). */
    constructor (name: string, action: string, subjects: seq<(string, Value)>, prior: Option<Table>)
      ensures this.name == name && this.action == action && this.subjects == subjects
      ensures probs == prior && outcome.None? && !happened
    {
      this.name := name;
      this.action := action;
      this.subjects := subjects;
      probs := prior;
      outcome := None;
      happened := false;
    }

    /** `result`: a missing outcome raises. */
    function Result(): (r: Result<string>)
      reads this
      ensures r.Success? <==> outcome.Some?
      ensures r.Success? ==> r.value == outcome.value.result
    {
      match outcome
      case Some(o) => Success(o.result)
      case None => Failure("ValueError: Bad outcome \"" + Missing + "\"!")
    }

    /** `record`: a missing outcome has no record attribute. */
    function Record(): (r: Result<string>)
      reads this
      ensures r.Success? <==> outcome.Some?
      ensures r.Success? ==> r.value == outcome.value.record
    {
      match outcome
      case Some(o) => Success(o.record)
      case None => Failure("AttributeError: 'str' object has no attribute 'record'")
    }

    /** `details`: likewise. */
    function Details(): (r: Result<Option<map<string, Value>>>)
      reads this
      ensures r.Success? <==> outcome.Some?
      ensures r.Success? ==> r.value == outcome.value.details
    {
      match outcome
      case Some(o) => Success(o.details)
      case None => Failure("AttributeError: 'str' object has no attribute 'details'")
    }

    /** `make_happen`: the event is marked as happened first, then the
        action is performed; `performed` is what the action wrote, or the
        error it raised, in which case the slot keeps what it held. A
        second call overwrites the first outcome. The move event's own
        `make_happen` does the same. */
    method MakeHappen(performed: Result<Outcome>)
      modifies this
      ensures happened
      ensures outcome == if performed.Success? then Some(performed.value) else old(outcome)
      ensures probs == old(probs)
    {
      happened := true;
      if performed.Success? {
        outcome := Some(performed.value);
      }
    }

    /** The shift event's `make_happen`: it writes the outcome but never
        marks the event as happened. */
    method Perform(performed: Result<Outcome>)
      modifies this
      ensures happened == old(happened)
      ensures outcome == if performed.Success? then Some(performed.value) else old(outcome)
      ensures probs == old(probs)
    {
      if performed.Success? {
        outcome := Some(performed.value);
      }
    }
  }
}
