/** The CNI life cycle of one container: which ADD and DEL commands are issued when the container is
    reported started or stopped. Commands succeed. */
module CniNetwork {
  import opened Options

  type Pid = nat

  // ADD names the network namespace of a process; without a process id it names none.
  datatype Command = Add(ns: Option<Pid>) | Del(pid: Pid)

  datatype Event = Start(pid: Option<Pid>) | Stop

  // The process id kept in the container's CNI metadata, and the commands issued so far.
  datatype State = State(pid: Option<Pid>, issued: seq<Command>)

  const INITIAL := State(None, [])

  function Started(s: State, pid: Option<Pid>): State {
    if s.pid == pid then s
    else State(pid, s.issued + (if s.pid.Some? then [Del(s.pid.value)] else []) + [Add(pid)])
  }

  function Stopped(s: State): State {
    if s.pid.Some? then State(None, s.issued + [Del(s.pid.value)]) else s
  }

  function Handle(s: State, e: Event): State {
    match e
    case Start(pid) => Started(s, pid)
    case Stop => Stopped(s)
  }

  function Run(events: seq<Event>): State {
    if events == [] then INITIAL
    else Handle(Run(events[..|events| - 1]), events[|events| - 1])
  }

  /******* What the CNI specification allows *******/

  // ADD of a namespace and DEL of the same one take turns, so at most one is attached.
  predicate Alternates(cmds: seq<Command>) {
    forall i :: 0 <= i < |cmds| ==> InTurn(cmds, i)
  }

  predicate InTurn(cmds: seq<Command>, i: nat)
    requires i < |cmds|
  {
    if i % 2 == 0 then cmds[i].Add? && cmds[i].ns.Some?
    else cmds[i].Del? && cmds[i - 1] == Add(Some(cmds[i].pid))
  }

  // The namespace that is attached after these commands.
  function AttachedAfter(cmds: seq<Command>): Option<Pid> {
    if |cmds| % 2 == 0 then None
    else match cmds[|cmds| - 1]
      case Add(p) => p
      case Del(_) => None
  }

  // A start without a process id while one is recorded.
  predicate LosesPid(s: State, e: Event) {
    e == Start(None) && s.pid.Some?
  }

  ghost predicate NeverLosesPid(events: seq<Event>) {
    forall i :: 0 <= i < |events| ==> !LosesPid(Run(events[..i]), events[i])
  }

  ghost predicate Good(s: State) {
    Alternates(s.issued) && s.pid == AttachedAfter(s.issued)
  }

  lemma StepIsGoodIff(s: State, e: Event)
    requires Good(s)
    ensures if LosesPid(s, e) then !Alternates(Handle(s, e).issued) else Good(Handle(s, e))
  {
    var r := Handle(s, e).issued;
    if s.issued != [] {
      assert InTurn(s.issued, |s.issued| - 1);
    }
    if LosesPid(s, e) {
      assert !InTurn(r, |r| - 1);
    } else {
      forall i | 0 <= i < |r| ensures InTurn(r, i) {
        assert i < |s.issued| ==> InTurn(s.issued, i);
      }
    }
  }

  lemma {:induction false} PrefixRuns(events: seq<Event>, i: nat)
    requires i <= |events|
    ensures Run(events[..i]).issued <= Run(events).issued
    decreases |events| - i
  {
    if i < |events| {
      PrefixRuns(events, i + 1);
      assert events[..i + 1][..i] == events[..i];
    } else {
      assert events[..i] == events;
    }
  }

  // Over every run, ADD and DEL alternate with matching namespaces exactly when no start comes
  // without a process id while one is recorded; and then the recorded id is the attached one.
  lemma {:induction false} AlternatesIff(events: seq<Event>)
    ensures Alternates(Run(events).issued) <==> NeverLosesPid(events)
    ensures NeverLosesPid(events) ==> Run(events).pid == AttachedAfter(Run(events).issued)
  {
    if events != [] {
      var init, last := events[..|events| - 1], events[|events| - 1];
      AlternatesIff(init);
      assert forall i :: 0 <= i < |init| ==> init[..i] == events[..i];
      assert NeverLosesPid(events) <==> NeverLosesPid(init) && !LosesPid(Run(init), last);
      PrefixRuns(events, |events| - 1);
      PrefixAlternates(Run(init).issued, Run(events).issued);
      if NeverLosesPid(init) {
        StepIsGoodIff(Run(init), last);
      }
    }
  }

  // After a start with a process id its namespace is attached, and after a stop none is; so no ADD and
  // no DEL is left out.
  lemma LastEventCounts(events: seq<Event>)
    requires events != [] && NeverLosesPid(events)
    ensures AttachedAfter(Run(events).issued) ==
            match events[|events| - 1]
            case Start(p) => p
            case Stop => None
  {
    AlternatesIff(events);
  }

  function Commands(s: State, e: Event): seq<Command>
    requires s.issued <= Handle(s, e).issued
  {
    Handle(s, e).issued[|s.issued|..]
  }

  // An event issues commands exactly for a change of the process: first DEL of the old one, then ADD
  // of the new one.
  lemma CommandsOf(s: State, e: Event)
    ensures s.issued <= Handle(s, e).issued
    ensures forall p: Pid :: Del(p) in Commands(s, e) <==> s.pid == Some(p) && e != Start(s.pid)
    ensures forall p: Option<Pid> :: Add(p) in Commands(s, e) <==> e == Start(p) && s.pid != p
    ensures |Commands(s, e)| <= 2
    ensures |Commands(s, e)| == 2 ==> Commands(s, e)[0].Del? && Commands(s, e)[1].Add?
  {
    var del := if s.pid.Some? then [Del(s.pid.value)] else [];
    match e
    case Stop =>
      assert Commands(s, e) == del;
    case Start(p) =>
      assert Commands(s, e) == if s.pid == p then [] else del + [Add(p)];
  }

  lemma PrefixAlternates(a: seq<Command>, b: seq<Command>)
    requires a <= b
    ensures Alternates(b) ==> Alternates(a)
  {
    assert forall i :: 0 <= i < |a| ==> (InTurn(a, i) <==> InTurn(b, i));
  }

  class Container {
    var pid: Option<Pid>        // in `cni_metadata`
    var savedPid: Option<Pid>   // the same field as last saved
    var issued: seq<Command>

    ghost function View(): State
      reads this
    {
      State(pid, issued)
    }

    constructor ()
      ensures View() == INITIAL && savedPid == pid
    {
      pid, savedPid, issued := None, None, [];
    }

    // `exitCode` is that of the command that tells the container its network is ready.
    method OnContainerStarted(newPid: Option<Pid>, exitCode: int) returns (ok: bool)
      requires savedPid == pid
      modifies this
      ensures View() == Started(old(View()), newPid) && savedPid == pid
      ensures ok <==> exitCode == 0 || old(pid) == newPid
    {
      if pid == newPid {
        return true;
      }
      var oldPid := pid;
      pid := None;
      if oldPid.Some? {
        issued := issued + [Del(oldPid.value)];
        savedPid := pid;
      }
      issued := issued + [Add(newPid)];
      pid := newPid;
      savedPid := pid;
      ok := exitCode == 0;
    }

    method OnContainerStopped()
      requires savedPid == pid
      modifies this
      ensures View() == Stopped(old(View())) && savedPid == pid
    {
      var oldPid := pid;
      pid := None;
      if oldPid.Some? {
        issued := issued + [Del(oldPid.value)];
        savedPid := pid;
      }
    }
  }
}
