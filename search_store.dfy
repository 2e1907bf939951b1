/** The global search filter store: a free-text `query` and a selected
    `specialization`, each with a setter that overwrites its own field. */
module Search {

  datatype SearchState = SearchState(query: string, specialization: string)

  /** One call of a setter. */
  datatype Write = SetQuery(q: string) | SetSpecialization(s: string)

  const Initial: SearchState := SearchState("", "")

  /** The state after one setter call: only the written field changes. */
  function Step(state: SearchState, w: Write): (next: SearchState)
    ensures w.SetQuery? ==> next.query == w.q && next.specialization == state.specialization
    ensures w.SetSpecialization? ==> next.specialization == w.s && next.query == state.query
  {
    match w
    case SetQuery(q) => state.(query := q)
    case SetSpecialization(s) => state.(specialization := s)
  }

  /** The state after a series of setter calls, applied in order. */
  function Run(state: SearchState, writes: seq<Write>): SearchState
    decreases |writes|
  {
    if writes == [] then state else Run(Step(state, writes[0]), writes[1..])
  }

  /** The query written last in `writes`, or `initial` if none writes it. */
  function LastQuery(initial: string, writes: seq<Write>): string
    decreases |writes|
  {
    if writes == [] then initial
    else if writes[|writes| - 1].SetQuery? then writes[|writes| - 1].q
    else LastQuery(initial, writes[..|writes| - 1])
  }

  /** The specialization written last in `writes`, or `initial` if none. */
  function LastSpecialization(initial: string, writes: seq<Write>): string
    decreases |writes|
  {
    if writes == [] then initial
    else if writes[|writes| - 1].SetSpecialization? then writes[|writes| - 1].s
    else LastSpecialization(initial, writes[..|writes| - 1])
  }

  /** A first write only changes the starting point of `LastQuery`. */
  lemma {:induction false} LastQueryCons(state: SearchState, w: Write, rest: seq<Write>)
    ensures LastQuery(state.query, [w] + rest) == LastQuery(Step(state, w).query, rest)
    decreases |rest|
  {
    if rest != [] {
      var n := |rest|;
      assert ([w] + rest)[..n] == [w] + rest[..n - 1];
      LastQueryCons(state, w, rest[..n - 1]);
    } else {
      assert ([w] + rest)[..0] == [];
    }
  }

  /** A first write only changes the starting point of `LastSpecialization`. */
  lemma {:induction false} LastSpecializationCons(state: SearchState, w: Write, rest: seq<Write>)
    ensures LastSpecialization(state.specialization, [w] + rest)
            == LastSpecialization(Step(state, w).specialization, rest)
    decreases |rest|
  {
    if rest != [] {
      var n := |rest|;
      assert ([w] + rest)[..n] == [w] + rest[..n - 1];
      LastSpecializationCons(state, w, rest[..n - 1]);
    } else {
      assert ([w] + rest)[..0] == [];
    }
  }

  /** Last write wins, field by field: after any series of setter calls
      each field holds the value its own setter wrote last, or its value
      before the series when its setter was not called. */
  lemma {:induction false} LastWriteWins(state: SearchState, writes: seq<Write>)
    ensures Run(state, writes).query == LastQuery(state.query, writes)
    ensures Run(state, writes).specialization == LastSpecialization(state.specialization, writes)
    decreases |writes|
  {
    if writes != [] {
      assert writes == [writes[0]] + writes[1..];
      LastWriteWins(Step(state, writes[0]), writes[1..]);
      LastQueryCons(state, writes[0], writes[1..]);
      LastSpecializationCons(state, writes[0], writes[1..]);
    }
  }

  /** Each setter is idempotent. */
  lemma StepIdempotent(state: SearchState, w: Write)
    ensures Step(Step(state, w), w) == Step(state, w)
  {
  }

  /** The two setters touch different fields, so their order does not matter. */
  lemma SettersCommute(state: SearchState, q: string, s: string)
    ensures Step(Step(state, SetQuery(q)), SetSpecialization(s))
         == Step(Step(state, SetSpecialization(s)), SetQuery(q))
  {
  }

  class SearchStore {
    var query: string
    var specialization: string

    function State(): SearchState
      reads this
    {
      SearchState(query, specialization)
    }

    constructor ()
      ensures State() == Initial
    {
      query := "";
      specialization := "";
    }

    method SetQuery(q: string)
      modifies this
      ensures query == q && specialization == old(specialization)
      ensures State() == Step(old(State()), Write.SetQuery(q))
    {
      query := q;
    }

    method SetSpecialization(s: string)
      modifies this
      ensures specialization == s && query == old(query)
      ensures State() == Step(old(State()), Write.SetSpecialization(s))
    {
      specialization := s;
    }
  }
}
