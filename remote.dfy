// The remote entity of the integration (custom_components/ramses_cc/
// remote.py): a table of named commands (packets as strings) for one HVAC
// remote, which can be learnt from the radio, deleted, and sent repeatedly.
// Transmissions, the pauses between them and the refresh that follows are
// recorded in a log; the events heard while learning are a parameter.

module Remote {
  import opened Outcomes
  import Broker

  /** The codes a remote's learnt packet may carry. */
  const LearnCodes: set<string> := {"22F1", "22F3", "22F7"}

  /** A command argument: a bare name, or any sequence of names. */
  datatype CommandArg = Name(name: string) | Names(names: seq<string>)

  /** `[command] if isinstance(command, str) else list(command)` */
  function AsList(c: CommandArg): (r: seq<string>)
    ensures c.Name? ==> r == [c.name]
    ensures c.Names? ==> r == c.names
  {
    match c
    case Name(n) => [n]
    case Names(ns) => ns
  }

  /** The one command name learn and send accept. */
  function OneName(c: CommandArg): (r: Result<string>)
    ensures r.Ok? <==> |AsList(c)| == 1
    ensures r.Ok? ==> r.value == AsList(c)[0]
    ensures r.Err? ==> r.error == TypeError
  {
    var names := AsList(c);
    if |names| != 1 then Err(TypeError) else Ok(names[0])
  }

  /** A packet event heard on the bus while learning. */
  datatype LearnEvent = LearnEvent(at: int, src: string, code: string, packet: string)

  /** The learn filter: a packet from this remote with one of the codes. */
  predicate Matches(deviceId: string, ev: LearnEvent)
  {
    ev.src == deviceId && ev.code in LearnCodes
  }

  /** The learnt packet, if any: events before the deadline are heard in
    * order; a matching one is stored; the wait ends once the stored packet
    * is non-empty. */
  function Learnt(deviceId: string, events: seq<LearnEvent>, expires: int, stored: Option<string>): (r: Option<string>)
    decreases |events|
  {
    if events == [] || events[0].at >= expires then stored
    else
      var s := if Matches(deviceId, events[0]) then Some(events[0].packet) else stored;
      if s.Some? && s.value != "" then s
      else Learnt(deviceId, events[1..], expires, s)
  }

  /** What is learnt is what was stored before, or the packet of an event
    * that passed the filter. */
  lemma {:induction false} LearntIsHeard(deviceId: string, events: seq<LearnEvent>, expires: int, stored: Option<string>)
    ensures var r := Learnt(deviceId, events, expires, stored);
      r.Some? ==> r == stored || exists ev :: ev in events && Matches(deviceId, ev) && r.value == ev.packet
    decreases |events|
  {
    if events != [] && events[0].at < expires {
      var s := if Matches(deviceId, events[0]) then Some(events[0].packet) else stored;
      if s.None? || s.value == "" {
        LearntIsHeard(deviceId, events[1..], expires, s);
        assert forall ev :: ev in events[1..] ==> ev in events;
      }
    }
  }

  /** Hearing the event at `i`, in time. */
  lemma LearntStep(deviceId: string, events: seq<LearnEvent>, i: nat, expires: int, stored: Option<string>)
    requires i < |events| && events[i].at < expires
    ensures var s := if Matches(deviceId, events[i]) then Some(events[i].packet) else stored;
      Learnt(deviceId, events[i..], expires, stored) ==
      if s.Some? && s.value != "" then s else Learnt(deviceId, events[i + 1..], expires, s)
  {
    assert events[i..][0] == events[i] && events[i..][1..] == events[i + 1..];
  }

  /** Nothing but a matching event heard in time is ever learnt. */
  lemma {:induction false} LearntOnlyMatching(deviceId: string, events: seq<LearnEvent>, expires: int)
    requires forall i :: 0 <= i < |events| && events[i].at < expires ==> !Matches(deviceId, events[i])
    ensures Learnt(deviceId, events, expires, None) == None
    decreases |events|
  {
    if events != [] && events[0].at < expires {
      LearntOnlyMatching(deviceId, events[1..], expires);
    }
  }

  /** Events arrive in time order. */
  predicate Ordered(events: seq<LearnEvent>)
  {
    forall i, j :: 0 <= i < j < |events| ==> events[i].at <= events[j].at
  }

  /** In time-ordered events, the first matching non-empty packet heard
    * before the deadline is the one learnt. */
  lemma {:induction false} LearntFirst(deviceId: string, events: seq<LearnEvent>, expires: int, stored: Option<string>, k: nat)
    requires Ordered(events)
    requires k < |events| && events[k].at < expires && Matches(deviceId, events[k]) && events[k].packet != ""
    requires forall i :: 0 <= i < k ==> !(Matches(deviceId, events[i]) && events[i].packet != "")
    requires stored.None? || stored.value == ""
    ensures Learnt(deviceId, events, expires, stored) == Some(events[k].packet)
    decreases k
  {
    assert events[0].at <= events[k].at;
    if k > 0 {
      var s := if Matches(deviceId, events[0]) then Some(events[0].packet) else stored;
      assert Ordered(events[1..]) by {
        forall i, j | 0 <= i < j < |events[1..]| ensures events[1..][i].at <= events[1..][j].at {
          assert events[1..][i] == events[i + 1] && events[1..][j] == events[j + 1];
        }
      }
      forall i | 0 <= i < k - 1 ensures !(Matches(deviceId, events[1..][i]) && events[1..][i].packet != "") {
        assert events[1..][i] == events[i + 1];
      }
      LearntFirst(deviceId, events[1..], expires, s, k - 1);
    }
  }

  /** The table after learning: the old entry of that name is gone and the
    * learnt packet, if any, stored under it; nothing else changes. */
  function AfterLearning(commands: map<string, string>, name: string, learnt: Option<string>): (r: map<string, string>)
    ensures name in r <==> learnt.Some?
    ensures learnt.Some? ==> r[name] == learnt.value
  {
    var kept := map k | k in commands && k != name :: commands[k];
    if learnt.Some? then kept[name := learnt.value] else kept
  }

  /** Learning leaves every other entry as it was. */
  lemma AfterLearningKeeps(commands: map<string, string>, name: string, learnt: Option<string>, k: string)
    requires k != name
    ensures k in AfterLearning(commands, name, learnt) <==> k in commands
    ensures k in commands ==> AfterLearning(commands, name, learnt)[k] == commands[k]
  {
  }

  /** Storing under the name replaces whatever the name held. */
  lemma AfterLearningStore(commands: map<string, string>, name: string, learnt: Option<string>, packet: string)
    ensures AfterLearning(commands, name, Some(packet)) == AfterLearning(commands, name, learnt)[name := packet]
  {
    var a := AfterLearning(commands, name, Some(packet));
    var b := AfterLearning(commands, name, learnt)[name := packet];
    assert a.Keys == b.Keys;
  }

  /** Learning into a table that has lost the name is learning into the
    * table itself. */
  lemma AfterLearningAgain(commands: map<string, string>, name: string, learnt: Option<string>)
    ensures AfterLearning(AfterLearning(commands, name, None), name, learnt) == AfterLearning(commands, name, learnt)
  {
    var a := AfterLearning(AfterLearning(commands, name, None), name, learnt);
    var b := AfterLearning(commands, name, learnt);
    assert a.Keys == b.Keys;
  }

  /** What a send does: the stored frame transmitted, a pause, or the
    * refresh asked of the broker at the end. */
  datatype RemoteAction = Transmit(frame: string) | Pause(secs: real) | Refresh

  /** The transmissions of a send: the frame `n` times with a pause between
    * two consecutive ones. */
  function Repeated(frame: string, n: int, delay: real): (r: seq<RemoteAction>)
    ensures |r| == if n <= 0 then 0 else 2 * n - 1
    ensures forall i :: 0 <= i < |r| ==> r[i] == if i % 2 == 0 then Transmit(frame) else Pause(delay)
    decreases n
  {
    if n <= 0 then []
    else if n == 1 then [Transmit(frame)]
    else Repeated(frame, n - 1, delay) + [Pause(delay), Transmit(frame)]
  }

  /** A send transmits exactly `n` times and pauses exactly `n - 1` times,
    * never before the first or after the last transmission. */
  lemma {:induction false} RepeatedCounts(frame: string, n: int, delay: real)
    requires n >= 1
    ensures multiset(Repeated(frame, n, delay))[Transmit(frame)] == n
    ensures multiset(Repeated(frame, n, delay))[Pause(delay)] == n - 1
    ensures Repeated(frame, n, delay)[0] == Transmit(frame) && Repeated(frame, n, delay)[2 * n - 2] == Transmit(frame)
    decreases n
  {
    if n > 1 {
      RepeatedCounts(frame, n - 1, delay);
      assert Repeated(frame, n, delay) == Repeated(frame, n - 1, delay) + [Pause(delay), Transmit(frame)];
    }
  }

  class Remote {
    const deviceId: string
    /** Whether the library fakes this remote, so that it may send. */
    const isFaked: bool
    const broker: Broker.RamsesBroker
    /** The named commands. */
    var commands: map<string, string>
    /** What the remote has done, oldest first. */
    var log: seq<RemoteAction>

    /** The initial table is the broker's stored table for this remote, or
      * an empty one. */
    constructor (deviceId: string, isFaked: bool, broker: Broker.RamsesBroker)
      ensures this.deviceId == deviceId && this.isFaked == isFaked && this.broker == broker
      ensures commands == (if deviceId in broker.remotes then broker.remotes[deviceId] else map[])
      ensures log == []
    {
      this.deviceId := deviceId;
      this.isFaked := isFaked;
      this.broker := broker;
      commands := if deviceId in broker.remotes then broker.remotes[deviceId] else map[];
      log := [];
    }

    /** `async_delete_command`: any extra keyword argument fails the
      * `assert not kwargs`; otherwise the named entries go and absent names
      * are ignored.  `extraArgs` names the extra keyword arguments. */
    method DeleteCommand(command: CommandArg, extraArgs: set<string>) returns (r: Result<()>)
      modifies this`commands
      ensures r.Err? <==> extraArgs != {}
      ensures r.Err? ==> r.error == AssertionError && commands == old(commands)
      ensures r.Ok? ==> forall k :: k in commands <==> k in old(commands) && k !in AsList(command)
      ensures r.Ok? ==> forall k :: k in commands ==> commands[k] == old(commands)[k]
    {
      var names := AsList(command);
      if extraArgs != {} {
        return Err(AssertionError);
      }
      commands := map k | k in commands && k !in names :: commands[k];
      return Ok(());
    }

    /** `async_learn_command`: exactly one name (TypeError), then no extra
      * keyword argument (AssertionError); an existing entry of that name is
      * deleted first; the broker's learn_device_id is this remote while the
      * events before the deadline are heard, and None after. */
    method LearnCommand(command: CommandArg, timeout: int, now: int, events: seq<LearnEvent>, extraArgs: set<string>)
      returns (r: Result<()>)
      modifies this`commands, broker`learnDeviceId
      ensures r.Err? <==> |AsList(command)| != 1 || extraArgs != {}
      ensures |AsList(command)| != 1 ==> r == Err(TypeError)
      ensures |AsList(command)| == 1 && extraArgs != {} ==> r == Err(AssertionError)
      ensures r.Err? ==> commands == old(commands) && broker.learnDeviceId == old(broker.learnDeviceId)
      ensures r.Ok? ==> broker.learnDeviceId.None?
      ensures r.Ok? ==>
        commands == AfterLearning(old(commands), AsList(command)[0], Learnt(deviceId, events, now + timeout, None))
    {
      var one := OneName(command);
      if one.Err? {
        return Err(one.error);
      }
      if extraArgs != {} {
        return Err(AssertionError);
      }
      var name := one.value;
      if name in commands {
        var _ := DeleteCommand(Names([name]), {});
        assert commands == AfterLearning(old(commands), name, None);
      }
      broker.learnDeviceId := Some(deviceId);
      Listen(name, now + timeout, events);
      AfterLearningAgain(old(commands), name, Learnt(deviceId, events, now + timeout, None));
      broker.learnDeviceId := None;
      return Ok(());
    }

    /** The wait of `async_learn_command`: each event heard before the
      * deadline that passes the filter stores its packet under the name;
      * the wait ends once the stored packet is non-empty. */
    method Listen(name: string, expires: int, events: seq<LearnEvent>)
      modifies this`commands
      requires name !in commands
      ensures commands == AfterLearning(old(commands), name, Learnt(deviceId, events, expires, None))
    {
      ghost var table := commands;
      ghost var stored: Option<string> := None;
      assert commands == AfterLearning(table, name, None);
      var i := 0;
      while i < |events| && events[i].at < expires
        invariant 0 <= i <= |events|
        invariant commands == AfterLearning(table, name, stored)
        invariant stored.Some? ==> stored.value == ""
        invariant Learnt(deviceId, events, expires, None) == Learnt(deviceId, events[i..], expires, stored)
      {
        LearntStep(deviceId, events, i, expires, stored);
        stored := Hear(name, events[i], table, stored);
        if name in commands && commands[name] != "" {
          break;
        }
        i := i + 1;
      }
    }

    /** The learn listener, for one event: a packet that passes the filter
      * is stored under the name. */
    method Hear(name: string, ev: LearnEvent, ghost table: map<string, string>, ghost stored: Option<string>)
      returns (ghost heard: Option<string>)
      modifies this`commands
      requires commands == AfterLearning(table, name, stored)
      ensures heard == if Matches(deviceId, ev) then Some(ev.packet) else stored
      ensures commands == AfterLearning(table, name, heard)
    {
      heard := stored;
      if Matches(deviceId, ev) {
        AfterLearningStore(table, name, stored, ev.packet);
        commands := commands[name := ev.packet];
        heard := Some(ev.packet);
      }
    }

    /** `async_send_command`: exactly one name, no hold time, no extra
      * keyword argument, a known name and a faked device, checked in that
      * order before anything is sent; then the stored frame `numRepeats`
      * times with pauses between, and a refresh. */
    method SendCommand(command: CommandArg, numRepeats: int, delaySecs: real, holdSecs: Option<real>, extraArgs: set<string>)
      returns (r: Result<()>)
      modifies this`log
      ensures |AsList(command)| != 1 ==> r == Err(TypeError)
      ensures |AsList(command)| == 1 && holdSecs.Some? && holdSecs.value != 0.0 ==> r == Err(TypeError)
      ensures |AsList(command)| == 1 && (holdSecs.None? || holdSecs.value == 0.0) && extraArgs != {} ==>
        r == Err(AssertionError)
      ensures (|AsList(command)| == 1 && (holdSecs.None? || holdSecs.value == 0.0) && extraArgs == {} &&
        AsList(command)[0] !in commands) ==> r == Err(LookupError)
      ensures (|AsList(command)| == 1 && (holdSecs.None? || holdSecs.value == 0.0) && extraArgs == {} &&
        AsList(command)[0] in commands && !isFaked) ==> r == Err(TypeError)
      ensures r.Err? ==> log == old(log)
      ensures r.Ok? ==> (AsList(command)[0] in commands &&
        log == old(log) + Repeated(commands[AsList(command)[0]], numRepeats, delaySecs) + [Refresh])
    {
      var one := OneName(command);
      if one.Err? {
        return Err(one.error);
      }
      if holdSecs.Some? && holdSecs.value != 0.0 {
        return Err(TypeError);
      }
      if extraArgs != {} {
        return Err(AssertionError);
      }
      var name := one.value;
      if name !in commands {
        return Err(LookupError);
      }
      if !isFaked {
        return Err(TypeError);
      }
      var frame := commands[name];
      var x := 0;
      while x < numRepeats
        invariant 0 <= x <= (if numRepeats < 0 then 0 else numRepeats)
        invariant log == old(log) + Repeated(frame, x, delaySecs)
      {
        if x != 0 {
          log := log + [Pause(delaySecs)];
        }
        log := log + [Transmit(frame)];
        x := x + 1;
      }
      assert Repeated(frame, x, delaySecs) == Repeated(frame, numRepeats, delaySecs);
      log := log + [Refresh];
      return Ok(());
    }
  }
}
