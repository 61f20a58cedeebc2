/** The midir MIDI backend (src/backend/midir.rs). The MIDI callback
    thread feeds a FIFO channel of `(MidiEvent, µs)` pairs that
    `poll_event` drains; input connections are kept in a map keyed by the
    name they were opened under. The native midir calls are represented by
    their outcomes, passed in as parameters. */
module Midir {
  import opened Ints
  import W = Wrappers
  import MT = MidiTypes
  import Mi = Midi
  import T = Time
  import CE = CoreEvents

  /** A native input port, by the name midir reports for it. */
  datatype Port = Port(name: string)

  /** An open input connection: the port and the client name it was
      opened with. */
  datatype Connection = Connection(port: Port, name: string)

  /** What the native layer answers when asked to open `port` under
      `name` (creating the client and connecting it). */
  type ConnectOutcome = (Port, string) -> W.Result<()>

  /** A pending channel entry: the event and its timestamp in µs. */
  type Pending = (Mi.MidiEvent, u64)

  /* ---- specification functions ---- */

  /** `try_recv` on the channel, followed by `poll_event`'s handling of
      it: the oldest pending pair becomes a timestamped MIDI event and
      leaves the channel; an empty channel gives `Event::None` while a
      sender remains, and an error once all senders are gone. Returns the
      result and the channel left behind. */
  function Poll(pending: seq<Pending>, connected: bool): (r: (W.Result<CE.Event>, seq<Pending>))
    ensures pending != [] ==> r.1 == pending[1..]
    ensures pending != [] ==>
              r.0 == W.Ok(CE.Event.New(CE.Midi(pending[0].0), W.Some(T.FromU64(pending[0].1))))
    ensures pending == [] ==> r.1 == []
    ensures pending == [] ==> (r.0.Ok? <==> connected)
  {
    if pending != [] then
      (W.Ok(CE.Event.New(CE.Midi(pending[0].0), W.Some(T.FromU64(pending[0].1)))), pending[1..])
    else if connected then
      (W.Ok(CE.Event.None), [])
    else
      (W.Err(W.ChannelDisconnected), [])
  }

  /** The decimal digits of `n`, as `format!("{n}")` writes them. */
  function Decimal(n: nat): (s: string)
    ensures |s| >= 1
    ensures forall i :: 0 <= i < |s| ==> '0' <= s[i] <= '9'
    decreases n
  {
    if n < 10 then [DigitChar(n)] else Decimal(n / 10) + [DigitChar(n % 10)]
  }

  function DigitChar(d: nat): (c: char)
    requires d < 10
    ensures '0' <= c <= '9' && c as int - '0' as int == d
  {
    (d + '0' as int) as char
  }

  /** The name `in_connect_all` gives the port at position `num`. */
  function InPortName(num: nat): string {
    "in_port " + Decimal(num)
  }

  /** The loop of `in_connect_all` from port `i` on: connect each port
      under its own name, stopping at the first failure. Returns the
      result and the connections left behind. */
  function ConnectFrom(ports: seq<Port>, i: nat, conns: map<string, Connection>,
                       outcome: ConnectOutcome): (W.Result<()>, map<string, Connection>)
    decreases |ports| - i
  {
    if i >= |ports| then (W.Ok(()), conns)
    else
      var name := InPortName(i);
      match outcome(ports[i], name)
      case Err(e) => (W.Err(e), conns)
      case Ok(_) => ConnectFrom(ports, i + 1, conns[name := Connection(ports[i], name)], outcome)
  }

  /* ---- the backend ---- */

  class MidirBackend {
    /** The input ports the unconnected midir input reports. */
    var ports: seq<Port>
    /** `input_connections`. */
    var inputConnections: map<string, Connection>
    /** The channel's pending pairs, oldest first. */
    var pending: seq<Pending>
    /** Whether a sender of the channel is still alive. The backend itself
        holds `input_producer`, so as long as it exists a sender is left and
        no operation here clears the flag; it is a parameter of the model so
        that `Poll`'s disconnected case can still be stated. */
    var connected: bool

    /** `new`: no connections and an empty, connected channel. */
    constructor (available: seq<Port>)
      ensures ports == available && inputConnections == map[]
      ensures pending == [] && connected
    {
      ports := available;
      inputConnections := map[];
      pending := [];
      connected := true;
    }

    /** `wait_event`: not supported. */
    method WaitEvent() returns (r: W.Result<CE.Event>)
      ensures r == W.Err(W.NotSupported)
    {
      r := W.Err(W.NotSupported);
    }

    /** `poll_event`. */
    method PollEvent() returns (r: W.Result<CE.Event>)
      modifies this
      ensures (r, pending) == Poll(old(pending), connected)
      ensures connected == old(connected) && ports == old(ports)
      ensures inputConnections == old(inputConnections)
    {
      if pending != [] {
        var (event, us) := pending[0];
        pending := pending[1..];
        r := W.Ok(CE.Event.New(CE.Midi(event), W.Some(T.FromU64(us))));
      } else if connected {
        r := W.Ok(CE.Event.None);
      } else {
        r := W.Err(W.ChannelDisconnected);
      }
    }

    /** The connection callback's `send`: a parsed message, converted to
        the crate's event, joins the channel with its timestamp. */
    method Produce(message: MT.MidiMessage, us: u64)
      modifies this
      ensures pending == old(pending) + [(Mi.FromMessage(message), us)]
      ensures connected == old(connected) && ports == old(ports)
      ensures inputConnections == old(inputConnections)
    {
      pending := pending + [(Mi.FromMessage(message), us)];
    }

    /** `in_count`. */
    function InCount(): (n: usize)
      reads this
      requires |ports| <= U64_MAX
      ensures n == |ports|
    {
      |ports|
    }

    /** `in_names`: the ports' names, in port order. */
    method InNames() returns (names: seq<string>)
      ensures |names| == |ports|
      ensures forall i :: 0 <= i < |ports| ==> names[i] == ports[i].name
    {
      names := [];
      for i := 0 to |ports|
        invariant |names| == i
        invariant forall j :: 0 <= j < i ==> names[j] == ports[j].name
      {
        names := names + [ports[i].name];
      }
    }

    /** `in_connections`: the number of open input connections. */
    function InConnections(): (n: nat)
      reads this
      ensures n == |inputConnections.Keys|
    {
      |inputConnections|
    }

    /** `in_connect`: on success the connection is stored under `name`,
        replacing any earlier one; on failure the native error is returned
        and nothing changes. */
    method InConnect(port: Port, name: string, outcome: ConnectOutcome) returns (r: W.Result<()>)
      modifies this
      ensures r == outcome(port, name)
      ensures r.Ok? ==> inputConnections == old(inputConnections)[name := Connection(port, name)]
      ensures r.Err? ==> inputConnections == old(inputConnections)
      ensures r.Ok? ==> InConnections() == old(InConnections()) + (if name in old(inputConnections) then 0 else 1)
      ensures ports == old(ports) && pending == old(pending) && connected == old(connected)
    {
      r := outcome(port, name);
      if r.Ok? {
        ConnectionCount(inputConnections, name, Connection(port, name));
        inputConnections := inputConnections[name := Connection(port, name)];
      }
    }

    /** `in_connect_index`: an index past the last port is an error and
        connects nothing. */
    method InConnectIndex(index: usize, name: string, outcome: ConnectOutcome) returns (r: W.Result<()>)
      modifies this
      ensures index >= |old(ports)| ==>
                r == W.Err(W.Message("midi port index out of bounds."))
                && inputConnections == old(inputConnections)
      ensures index < |old(ports)| ==> r == outcome(old(ports)[index], name)
      ensures index < |old(ports)| && r.Ok? ==>
                inputConnections == old(inputConnections)[name := Connection(old(ports)[index], name)]
      ensures r.Err? && index < |old(ports)| ==> inputConnections == old(inputConnections)
      ensures ports == old(ports) && pending == old(pending) && connected == old(connected)
    {
      if index < |ports| {
        r := InConnect(ports[index], name, outcome);
      } else {
        r := W.Err(W.Message("midi port index out of bounds."));
      }
    }

    /** `in_connect_last`: with no ports there is nothing to do, and that
        is not an error. */
    method InConnectLast(name: string, outcome: ConnectOutcome) returns (r: W.Result<()>)
      modifies this
      ensures old(ports) == [] ==> r == W.Ok(()) && inputConnections == old(inputConnections)
      ensures old(ports) != [] ==> r == outcome(old(ports)[|old(ports)| - 1], name)
      ensures old(ports) != [] && r.Ok? ==>
                inputConnections == old(inputConnections)[name := Connection(old(ports)[|old(ports)| - 1], name)]
      ensures r.Err? ==> inputConnections == old(inputConnections)
      ensures ports == old(ports) && pending == old(pending) && connected == old(connected)
    {
      if |ports| > 0 {
        r := InConnect(ports[|ports| - 1], name, outcome);
      } else {
        r := W.Ok(());
      }
    }

    /** `in_connect_all`: every port in turn, under the name
        `in_port <num>`, stopping at the first failure. */
    method InConnectAll(outcome: ConnectOutcome) returns (r: W.Result<()>)
      modifies this
      ensures (r, inputConnections) == ConnectFrom(old(ports), 0, old(inputConnections), outcome)
      ensures ports == old(ports) && pending == old(pending) && connected == old(connected)
    {
      var num := 0;
      while num < |ports|
        invariant 0 <= num <= |ports|
        invariant ports == old(ports) && pending == old(pending) && connected == old(connected)
        invariant ConnectFrom(ports, num, inputConnections, outcome)
               == ConnectFrom(ports, 0, old(inputConnections), outcome)
        decreases |ports| - num
      {
        var res := InConnect(ports[num], InPortName(num), outcome);
        if res.Err? {
          r := res;
          return;
        }
        num := num + 1;
      }
      r := W.Ok(());
    }
  }

  /* ---- properties ---- */

  /** The channel is first in, first out: a pair sent behind others does
      not change what the next poll returns, and it stays queued. */
  lemma PollIsFifo(pending: seq<Pending>, x: Pending, connected: bool)
    requires pending != []
    ensures Poll(pending + [x], connected).0 == Poll(pending, connected).0
    ensures Poll(pending + [x], connected).1 == Poll(pending, connected).1 + [x]
  {
    assert (pending + [x])[1..] == pending[1..] + [x];
  }

  /** A polled pair becomes a MIDI event stamped with its µs, where 0
      becomes 1; an empty connected channel is `Event::None`, not an
      error. */
  lemma PollEvents(e: Mi.MidiEvent, us: u64, connected: bool)
    ensures Poll([(e, us)], connected).0 == W.Ok(CE.Event(CE.Midi(e), W.Some(T.New(us))))
    ensures us == 0 ==> Poll([(e, us)], connected).0.value.emitted.value.micros == 1
    ensures Poll([], true) == (W.Ok(CE.Event.None), [])
    ensures Poll([], false) == (W.Err(W.ChannelDisconnected), [])
  {
  }

  /** A message sent by the callback comes out of an otherwise empty
      channel as the MIDI event it names. */
  lemma ProducedMessageIsPolled(m: MT.MidiMessage, us: u64, connected: bool)
    ensures Poll([(Mi.FromMessage(m), us)], connected).0.Ok?
    ensures Mi.ToMessage(Poll([(Mi.FromMessage(m), us)], connected).0.value.kind.midi) == m
  {
  }

  /** `in_connections` after an `in_connect` that succeeded: a connection
      stored under a new name adds one to the count, while one stored under
      a name already present replaces the old one and leaves the count as
      it was. */
  lemma ConnectionCount(conns: map<string, Connection>, name: string, c: Connection)
    ensures name !in conns ==> |conns[name := c].Keys| == |conns.Keys| + 1
    ensures name in conns ==> |conns[name := c].Keys| == |conns.Keys|
  {
    if name in conns {
      assert conns[name := c].Keys == conns.Keys;
    } else {
      assert conns[name := c].Keys == conns.Keys + {name};
    }
  }

  /** Different numbers give different decimal strings. */
  lemma {:induction false} DecimalInjective(a: nat, b: nat)
    requires Decimal(a) == Decimal(b)
    ensures a == b
    decreases a
  {
    var s := Decimal(a);
    if a < 10 && b < 10 {
      assert s[0] == DigitChar(a) && s[0] == DigitChar(b);
    } else if a < 10 || b < 10 {
      assert false;
    } else {
      var n := |s|;
      assert s[n - 1] == DigitChar(a % 10) && s[n - 1] == DigitChar(b % 10);
      assert s[..n - 1] == Decimal(a / 10) && s[..n - 1] == Decimal(b / 10);
      DecimalInjective(a / 10, b / 10);
    }
  }

  /** Ports get distinct names. */
  lemma InPortNamesDistinct(i: nat, j: nat)
    requires InPortName(i) == InPortName(j)
    ensures i == j
  {
    var p := "in_port ";
    assert InPortName(i)[|p|..] == Decimal(i);
    assert InPortName(j)[|p|..] == Decimal(j);
    DecimalInjective(i, j);
  }

  /** Connecting from port `i` on keeps every connection that was there
      under a name no later port uses. */
  lemma {:induction false} ConnectFromKeeps(ports: seq<Port>, i: nat, conns: map<string, Connection>,
                                            outcome: ConnectOutcome, key: string)
    requires key in conns
    requires forall j :: i <= j < |ports| ==> InPortName(j) != key
    ensures key in ConnectFrom(ports, i, conns, outcome).1
    ensures ConnectFrom(ports, i, conns, outcome).1[key] == conns[key]
    decreases |ports| - i
  {
    if i < |ports| && outcome(ports[i], InPortName(i)).Ok? {
      ConnectFromKeeps(ports, i + 1, conns[InPortName(i) := Connection(ports[i], InPortName(i))],
                       outcome, key);
    }
  }

  /** When `in_connect_all` succeeds, every port from `i` on is connected
      under its own name; connections under other names are untouched. */
  lemma {:induction false} ConnectFromOk(ports: seq<Port>, i: nat, conns: map<string, Connection>,
                                         outcome: ConnectOutcome)
    requires ConnectFrom(ports, i, conns, outcome).0.Ok?
    ensures forall j :: i <= j < |ports| ==>
              && InPortName(j) in ConnectFrom(ports, i, conns, outcome).1
              && ConnectFrom(ports, i, conns, outcome).1[InPortName(j)]
                 == Connection(ports[j], InPortName(j))
    ensures forall j :: i <= j < |ports| ==> outcome(ports[j], InPortName(j)).Ok?
    decreases |ports| - i
  {
    if i < |ports| {
      var name := InPortName(i);
      var next := conns[name := Connection(ports[i], name)];
      ConnectFromOk(ports, i + 1, next, outcome);
      forall k | i + 1 <= k < |ports| ensures InPortName(k) != name {
        if InPortName(k) == name {
          InPortNamesDistinct(k, i);
        }
      }
      ConnectFromKeeps(ports, i + 1, next, outcome, name);
    }
  }

  /** When `in_connect_all` fails, it reports the first failing port's
      error, and the ports before it are connected. */
  lemma {:induction false} ConnectFromErr(ports: seq<Port>, i: nat, conns: map<string, Connection>,
                                          outcome: ConnectOutcome)
    requires ConnectFrom(ports, i, conns, outcome).0.Err?
    ensures exists k :: i <= k < |ports|
              && outcome(ports[k], InPortName(k)).Err?
              && ConnectFrom(ports, i, conns, outcome).0 == outcome(ports[k], InPortName(k))
              && forall j :: i <= j < k ==> outcome(ports[j], InPortName(j)).Ok?
    decreases |ports| - i
  {
    var name := InPortName(i);
    if outcome(ports[i], name).Ok? {
      ConnectFromErr(ports, i + 1, conns[name := Connection(ports[i], name)], outcome);
      var k :| i + 1 <= k < |ports|
              && outcome(ports[k], InPortName(k)).Err?
              && ConnectFrom(ports, i + 1, conns[name := Connection(ports[i], name)], outcome).0
                 == outcome(ports[k], InPortName(k))
              && forall j :: i + 1 <= j < k ==> outcome(ports[j], InPortName(j)).Ok?;
      assert i <= k < |ports|;
    } else {
      assert outcome(ports[i], InPortName(i)).Err?;
    }
  }
}
