/** Concurrent creation of the Docker network for one Neutron network on one host.

    Any number of callers run `get_or_create_network`. Every call to the database or to Docker is one
    step, and steps of different callers interleave freely. The database admits one row for the
    network; the row carries the id of the Docker network once that exists. */
module KuryrNetwork {
  import opened Options

  type Caller = nat
  type DockerId = nat

  // `owner` is the caller whose insert created the row; it stands for the row's uuid.
  datatype Row = Row(owner: Caller, networkId: Option<DockerId>)

  datatype Pc =
    | Look                                                // list Docker networks by name
    | Insert(attempt: nat)                                // insert the row
    | ReadRow(attempt: nat)                               // the insert failed: list rows
    | ReadDocker(attempt: nat, seen: Option<Row>)         // then list Docker networks, and compare
    | CreateDocker                                        // the insert succeeded: create in Docker
    | DestroyRow                                          // Docker failed: delete the row, re-raise
    | SaveRow(network: DockerId)                          // Docker succeeded: store the id
    | Returned(row: Row)                                  // `create_network` returned this row
    | AlreadyThere                                        // `get_or_create_network` had nothing to do
    | Raised

  const ATTEMPTS := 3

  // `docker` lists the networks with this name, oldest first.
  datatype State = State(row: Option<Row>, docker: seq<DockerId>, callers: map<Caller, Pc>)
  {
    function At(c: Caller, pc: Pc): State {
      this.(callers := callers[c := pc])
    }
  }

  // One step of caller c. Docker may refuse to create, and picks any fresh id when it does not.
  ghost predicate Step(s: State, s': State, c: Caller) {
    c in s.callers &&
    match s.callers[c]
    case Look =>
      s' == s.At(c, if s.docker != [] then AlreadyThere else Insert(1))
    case Insert(a) =>
      if s.row.None? then s' == s.At(c, CreateDocker).(row := Some(Row(c, None)))
      else s' == s.At(c, ReadRow(a))
    case ReadRow(a) =>
      s' == s.At(c, ReadDocker(a, s.row))
    case ReadDocker(a, seen) =>
      if seen.Some? && seen.value.networkId.Some? && s.docker != [] && seen.value.networkId.value == s.docker[0] then
        s' == s.At(c, Returned(seen.value))
      else
        s' == s.At(c, if a < ATTEMPTS then Insert(a + 1) else Raised)
    case CreateDocker =>
      || s' == s.At(c, DestroyRow)
      || exists d :: d !in s.docker && s' == s.At(c, SaveRow(d)).(docker := s.docker + [d])
    case DestroyRow =>
      s' == s.At(c, Raised).(row := if s.row.Some? && s.row.value.owner == c then None else s.row)
    case SaveRow(d) =>
      if s.row.Some? && s.row.value.owner == c then
        s' == s.At(c, Returned(Row(c, Some(d)))).(row := Some(Row(c, Some(d))))
      else s' == s.At(c, Raised)
    case Returned(_) => false
    case AlreadyThere => false
    case Raised => false
  }

  // The database and Docker agree: neither has the network, or both have the same one.
  predicate Agree(s: State) {
    match s.row
    case None => s.docker == []
    case Some(r) => r.networkId.Some? && s.docker == [r.networkId.value]
  }

  ghost predicate Init(s: State) {
    Agree(s) && forall c :: c in s.callers ==> s.callers[c] == Look || s.callers[c] == Insert(1)
  }

  // Between its insert and its last step a caller owns the row.
  predicate Owns(pc: Pc) {
    pc.CreateDocker? || pc.DestroyRow? || pc.SaveRow?
  }

  // What a caller may hold, given the shared state.
  ghost predicate CallerOk(s: State, c: Caller)
    requires c in s.callers
  {
    var pc := s.callers[c];
    && (Owns(pc) ==> s.row == Some(Row(c, None)))
    && (Owns(pc) ==> s.docker == if pc.SaveRow? then [pc.network] else [])
    && (pc.ReadDocker? && pc.seen.Some? && pc.seen.value.networkId.Some? ==> Created(s, pc.seen.value.networkId.value))
    && (pc.Returned? ==> pc.row.networkId.Some? && Created(s, pc.row.networkId.value))
  }

  // The one Docker network is d, and the row says so.
  ghost predicate Created(s: State, d: DockerId) {
    s.docker == [d] && s.row.Some? && s.row.value.networkId == Some(d)
  }

  ghost predicate Inv(s: State) {
    && (forall c :: c in s.callers ==> CallerOk(s, c))
    && (Agree(s) || (s.row.Some? && s.row.value.owner in s.callers && Owns(s.callers[s.row.value.owner])))
    && (s.row.Some? && s.row.value.networkId.None? ==>
          s.row.value.owner in s.callers && Owns(s.callers[s.row.value.owner]))
  }

  lemma StepKeepsInv(s: State, s': State, c: Caller)
    requires Inv(s) && Step(s, s', c)
    ensures Inv(s')
  {
    assert CallerOk(s, c);
    forall k | k in s'.callers ensures CallerOk(s', k) {
      assert k == c || s'.callers[k] == s.callers[k];
      assert CallerOk(s, k);
    }
  }

  /******* Runs *******/

  ghost predicate IsRun(states: seq<State>, who: seq<Caller>) {
    && |states| == |who| + 1
    && Init(states[0])
    && forall i :: 0 <= i < |who| ==> Step(states[i], states[i + 1], who[i])
  }

  lemma {:induction false} RunKeepsInv(states: seq<State>, who: seq<Caller>, i: nat)
    requires IsRun(states, who) && i < |states|
    ensures Inv(states[i])
  {
    if i > 0 {
      RunKeepsInv(states, who, i - 1);
      StepKeepsInv(states[i - 1], states[i], who[i - 1]);
    }
  }

  // In every interleaving there is never a second Docker network, and whatever a caller returns is
  // a row with the id of the one Docker network.
  lemma OneNetwork(states: seq<State>, who: seq<Caller>, i: nat, c: Caller)
    requires IsRun(states, who) && i < |states| && c in states[i].callers
    ensures |states[i].docker| <= 1
    ensures states[i].callers[c].Returned? ==>
              var r := states[i].callers[c].row;
              r.networkId.Some? && states[i].docker == [r.networkId.value]
  {
    RunKeepsInv(states, who, i);
    var s := states[i];
    assert CallerOk(s, c);
    if !Agree(s) {
      assert CallerOk(s, s.row.value.owner);
    }
  }

  predicate Finished(pc: Pc) {
    pc.Returned? || pc.AlreadyThere? || pc.Raised?
  }

  // When all callers are done, no row is left without its Docker network, nor the reverse.
  lemma NothingLeftBehind(states: seq<State>, who: seq<Caller>, i: nat)
    requires IsRun(states, who) && i < |states|
    requires forall c :: c in states[i].callers ==> Finished(states[i].callers[c])
    ensures Agree(states[i])
  {
    RunKeepsInv(states, who, i);
  }

  // The Docker network and the row never change once both are there.
  lemma {:induction false} CreatedStays(states: seq<State>, who: seq<Caller>, i: nat, j: nat, d: DockerId)
    requires IsRun(states, who) && i <= j < |states| && Created(states[i], d)
    ensures Created(states[j], d) && states[j].row == states[i].row
    decreases j - i
  {
    if i < j {
      CreatedStays(states, who, i, j - 1, d);
      RunKeepsInv(states, who, j - 1);
      assert Step(states[j - 1], states[j], who[j - 1]);
      assert CallerOk(states[j - 1], who[j - 1]);
    }
  }

  /******* Every caller finishes *******/

  function Left(pc: Pc): nat {
    match pc
    case Look => 3 * ATTEMPTS + 3
    case Insert(a) => 2 + (if a <= ATTEMPTS then 3 * (ATTEMPTS - a) + 1 else 1)
    case ReadRow(a) => if a <= ATTEMPTS then 3 * (ATTEMPTS - a) + 2 else 2
    case ReadDocker(a, _) => if a <= ATTEMPTS then 3 * (ATTEMPTS - a) + 1 else 1
    case CreateDocker => 2
    case DestroyRow => 1
    case SaveRow(_) => 1
    case Returned(_) => 0
    case AlreadyThere => 0
    case Raised => 0
  }

  lemma StepUsesOne(s: State, s': State, w: Caller, c: Caller)
    requires Step(s, s', w) && c in s.callers
    ensures c in s'.callers
    ensures Left(s'.callers[c]) + (if w == c then 1 else 0) <= Left(s.callers[c])
  {
  }

  ghost function StepsOf(who: seq<Caller>, c: Caller): nat {
    if who == [] then 0
    else StepsOf(who[..|who| - 1], c) + if who[|who| - 1] == c then 1 else 0
  }

  // A caller takes at most 12 steps, whatever the others do.
  lemma {:induction false} CallerFinishes(states: seq<State>, who: seq<Caller>, c: Caller)
    requires IsRun(states, who) && c in states[0].callers
    ensures c in states[|who|].callers
    ensures StepsOf(who, c) + Left(states[|who|].callers[c]) <= 12
  {
    if who != [] {
      var n := |who| - 1;
      hide Step, Left;
      assert IsRun(states[..n + 1], who[..n]);
      CallerFinishes(states[..n + 1], who[..n], c);
      StepUsesOne(states[n], states[n + 1], who[n], c);
    }
  }

  /******* What every caller gets *******/

  // The next steps of a caller at an insert, once the row is there with its network.
  function Course(attempt: nat, row: Row, steps: nat): Pc {
    match steps
    case 0 => Insert(attempt)
    case 1 => ReadRow(attempt)
    case 2 => ReadDocker(attempt, Some(row))
    case _ => Returned(row)
  }

  lemma CourseStep(s: State, s': State, w: Caller, c: Caller, a: nat, d: DockerId, k: nat)
    requires Step(s, s', w) && Created(s, d) && c in s.callers && s.callers[c] == Course(a, s.row.value, k)
    ensures c in s'.callers && s'.callers[c] == Course(a, s.row.value, if w == c then k + 1 else k)
    ensures w == c ==> k < 3
  {
  }

  lemma StepsOfSlice(who: seq<Caller>, i: nat, j: nat, c: Caller)
    requires i < j <= |who|
    ensures StepsOf(who[i..j], c) == StepsOf(who[i..j - 1], c) + if who[j - 1] == c then 1 else 0
  {
    assert who[i..j][..|who[i..j]| - 1] == who[i..j - 1];
  }

  // In every interleaving a caller that is about to insert when the network is there returns its row
  // with the third own step from there.
  lemma {:induction false} FindsCreated(
    states: seq<State>, who: seq<Caller>, i: nat, j: nat, c: Caller, d: DockerId)
    requires IsRun(states, who) && i <= j < |states| && Created(states[i], d)
    requires c in states[i].callers && states[i].callers[c].Insert?
    ensures c in states[j].callers && StepsOf(who[i..j], c) <= 3
    ensures states[j].callers[c] ==
            Course(states[i].callers[c].attempt, states[i].row.value, StepsOf(who[i..j], c))
    decreases j - i
  {
    if i < j {
      FindsCreated(states, who, i, j - 1, c, d);
      CreatedStays(states, who, i, j - 1, d);
      var k := StepsOf(who[i..j - 1], c);
      StepsOfSlice(who, i, j, c);
      assert Step(states[j - 1], states[j], who[j - 1]);
      hide Step, Created, StepsOf;
      CourseStep(states[j - 1], states[j], who[j - 1], c, states[i].callers[c].attempt, d, k);
    } else {
      assert who[i..j] == [];
    }
  }

  // What a caller met so far: the network in Docker at its first look, no row at an insert, a created
  // network or not each time it read the row, a refusal by Docker.
  datatype History = History(found: bool, inserted: bool, readings: seq<bool>, refused: bool)

  ghost function Past(states: seq<State>, who: seq<Caller>, c: Caller, i: nat): History
    requires IsRun(states, who) && i < |states| && c in states[0].callers
  {
    if i == 0 then History(false, false, [], false)
    else
      var h, s := Past(states, who, c, i - 1), states[i - 1];
      if who[i - 1] != c || c !in s.callers then h
      else
        match s.callers[c]
        case Look => h.(found := s.docker != [])
        case Insert(_) => h.(inserted := s.row.None?)
        case ReadRow(_) => h.(readings := h.readings + [(exists d :: Created(s, d))])
        case CreateDocker => h.(refused := states[i].docker == s.docker)
        case _ => h
  }

  predicate NoneTrue(r: seq<bool>) {
    forall k :: 0 <= k < |r| ==> !r[k]
  }

  predicate PastFits(pc: Pc, h: History) {
    && (h.found <==> pc.AlreadyThere?)
    && match pc
       case Look => h == History(false, false, [], false)
       case Insert(a) => !h.inserted && !h.refused && NoneTrue(h.readings) && 1 <= a <= 3 && |h.readings| == a - 1
       case ReadRow(a) => !h.inserted && !h.refused && NoneTrue(h.readings) && 1 <= a <= 3 && |h.readings| == a - 1
       case ReadDocker(a, seen) =>
         && !h.inserted && !h.refused && 1 <= a <= 3 && |h.readings| == a && NoneTrue(h.readings[..a - 1])
         && (h.readings[a - 1] <==> seen.Some? && seen.value.networkId.Some?)
       case CreateDocker => h.inserted && !h.refused
       case DestroyRow => h.inserted && h.refused
       case SaveRow(_) => h.inserted && !h.refused
       case Returned(_) => !h.refused && (h.inserted || true in h.readings)
       case AlreadyThere => true
       case Raised => if h.inserted then h.refused else h.readings == [false, false, false]
  }

  lemma {:induction false} PastAlwaysFits(states: seq<State>, who: seq<Caller>, c: Caller, i: nat)
    requires IsRun(states, who) && i < |states| && c in states[0].callers
    ensures c in states[i].callers && PastFits(states[i].callers[c], Past(states, who, c, i))
  {
    if i > 0 {
      PastAlwaysFits(states, who, c, i - 1);
      RunKeepsInv(states, who, i - 1);
      var s, s', w := states[i - 1], states[i], who[i - 1];
      assert Step(s, s', w);
      OthersStay(s, s', w, c);
      hide Step, Inv, PastFits;
      if w == c {
        StepFits(s, s', c, Past(states, who, c, i - 1), Past(states, who, c, i));
      }
    }
  }

  lemma OthersStay(s: State, s': State, w: Caller, c: Caller)
    requires Step(s, s', w) && c in s.callers
    ensures c in s'.callers && (w != c ==> s'.callers[c] == s.callers[c])
  {
  }

  lemma StepFits(s: State, s': State, c: Caller, h: History, h': History)
    requires Inv(s) && Step(s, s', c) && PastFits(s.callers[c], h)
    requires h' == match s.callers[c]
                   case Look => h.(found := s.docker != [])
                   case Insert(_) => h.(inserted := s.row.None?)
                   case ReadRow(_) => h.(readings := h.readings + [(exists d :: Created(s, d))])
                   case CreateDocker => h.(refused := s'.docker == s.docker)
                   case _ => h
    ensures PastFits(s'.callers[c], h')
  {
    assert CallerOk(s, c);
    if s.callers[c].ReadRow? {
      RowTells(s);
    }
    if s.callers[c].ReadDocker? && NoneTrue(h.readings) {
      assert |h.readings| == 3 ==> h.readings == [false, false, false];
    }
  }

  // A row with an id means a created network.
  lemma RowTells(s: State)
    requires Inv(s)
    ensures (exists d :: Created(s, d)) <==> s.row.Some? && s.row.value.networkId.Some?
  {
    assert s.row.Some? && s.row.value.owner in s.callers ==> CallerOk(s, s.row.value.owner);
    if s.row.Some? && s.row.value.networkId.Some? {
      assert Created(s, s.row.value.networkId.value);
    }
  }

  // A caller that is done has raised exactly if its own call was refused by Docker, or if it found a
  // row at every insert and in none of exactly three readings a created network. It had nothing to do
  // exactly if the network was there at its look. In all other cases it returned a row.
  lemma OutcomeIff(states: seq<State>, who: seq<Caller>, c: Caller, i: nat)
    requires IsRun(states, who) && i < |states| && c in states[0].callers
    requires c in states[i].callers && Finished(states[i].callers[c])
    ensures var pc, h := states[i].callers[c], Past(states, who, c, i);
            && (pc.AlreadyThere? <==> h.found)
            && (pc.Raised? <==>
                !h.found && if h.inserted then h.refused else h.readings == [false, false, false])
            && (pc.Returned? <==> !h.found && if h.inserted then !h.refused else true in h.readings)
  {
    PastAlwaysFits(states, who, c, i);
  }

  // A caller that is not done can always take a step.
  lemma NobodyIsStuck(s: State, c: Caller)
    requires c in s.callers && !Finished(s.callers[c])
    ensures exists s' :: Step(s, s', c)
  {
    match s.callers[c]
    case Look => assert Step(s, s.At(c, if s.docker != [] then AlreadyThere else Insert(1)), c);
    case Insert(a) =>
      assert Step(s, if s.row.None? then s.At(c, CreateDocker).(row := Some(Row(c, None))) else s.At(c, ReadRow(a)), c);
    case ReadRow(a) => assert Step(s, s.At(c, ReadDocker(a, s.row)), c);
    case ReadDocker(a, seen) =>
      var retry := s.At(c, if a < ATTEMPTS then Insert(a + 1) else Raised);
      assert Step(s, retry, c) || (seen.Some? && Step(s, s.At(c, Returned(seen.value)), c));
    case CreateDocker => assert Step(s, s.At(c, DestroyRow), c);
    case DestroyRow =>
      var kept := if s.row.Some? && s.row.value.owner == c then None else s.row;
      assert Step(s, s.At(c, Raised).(row := kept), c);
    case SaveRow(d) =>
      var saved := s.At(c, Returned(Row(c, Some(d)))).(row := Some(Row(c, Some(d))));
      assert Step(s, if s.row.Some? && s.row.value.owner == c then saved else s.At(c, Raised), c);
  }

  // Docker may accept with any fresh id, and then the creator returns and the network is there.
  lemma CreatorCanSucceed(s: State, c: Caller, d: DockerId) returns (s': State, s'': State)
    requires Inv(s) && c in s.callers && s.callers[c] == CreateDocker
    ensures Step(s, s', c) && Step(s', s'', c)
    ensures s''.callers[c] == Returned(Row(c, Some(d))) && Created(s'', d)
  {
    assert CallerOk(s, c);
    s' := s.At(c, SaveRow(d)).(docker := s.docker + [d]);
    s'' := s'.At(c, Returned(Row(c, Some(d)))).(row := Some(Row(c, Some(d))));
  }
}
