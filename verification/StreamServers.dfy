/** The audio server as moved streams see it (mixer.rs): what a move does when it takes
    effect, what it reports, and the record that is possible of it. */
module StreamServers {
  import opened Wrappers
  import opened Model
  import opened Strings
  import opened Outputs

  // A playback stream; no Pulse index means that it cannot be moved.
  datatype Stream = Stream(identity: NodeIdentity, sink: Option<string>)

  datatype SinkNode = SinkNode(
    id: nat, identity: NodeIdentity, owner: Option<nat>, moduleId: Option<nat>, definition: Option<Mix>)

  datatype Graph = Graph(
    cookie: nat, streams: seq<Stream>, names: map<string, seq<SinkNode>>,
    outputs: seq<Output>, default: Option<string>)
  {
    function Node(name: string): Option<SinkNode> {
      if name in names && |names[name]| == 1 then Some(names[name][0]) else None
    }

    predicate Owned(name: string, owner: nat) {
      var node := Node(name);
      node.Some? && node.value.owner == Some(owner)
    }
  }

  datatype OwnedSink = OwnedSink(cookie: nat, moduleId: nat, owner: nat, missing: nat)
  datatype PersistentSink = PersistentSink(identity: NodeIdentity, definition: Mix)

  predicate IntakeName(name: string) {
    StartsWith(name, "openwave_src_")
  }

  // A generated definition stamps its node with the mix it came from.
  predicate DefinitionMatches(node: SinkNode, mix: Mix) {
    node.moduleId.None? && node.definition == Some(mix)
  }

  function StreamIn(streams: seq<Stream>, id: NodeIdentity): Option<Stream> {
    if streams == [] then None
    else if streams[0].identity == id then Some(streams[0])
    else StreamIn(streams[1..], id)
  }

  // What is worth remembering of where a stream came from.
  function Origin(sink: Option<string>): Option<string> {
    if sink.Some? && !OpenWaveName(sink.value) then sink else None
  }

  datatype Place = Place(streams: map<NodeIdentity, string>, sinks: map<string, SinkNode>, cookie: nat)

  /** The graph says where every stream plays, and who owns which module, right now. */
  predicate Truthful(g: Graph, p: Place) {
    && g.cookie == p.cookie
    && (forall s :: s in g.streams ==>
          s.sink == (if s.identity in p.streams then Some(p.streams[s.identity]) else None))
    && (forall id :: id in p.streams ==> exists s :: s in g.streams && s.identity == id)
    && (forall s :: s in g.streams ==> s.identity.cookie == g.cookie)
    && (forall name :: name in p.sinks ==> name in g.names)
    && (forall name :: name in g.names && g.Node(name).Some? ==> name in p.sinks && p.sinks[name] == g.Node(name).value)
  }

  lemma {:induction false} StreamInIs(streams: seq<Stream>, id: NodeIdentity)
    ensures var r := StreamIn(streams, id);
      if r.Some? then r.value in streams && r.value.identity == id
      else forall s :: s in streams ==> s.identity != id
  {
    if streams != [] {
      StreamInIs(streams[1..], id);
      assert streams == [streams[0]] + streams[1..];
    }
  }

  /** What the snapshot says of one stream is where it plays. */
  lemma TruthfulStream(g: Graph, p: Place, id: NodeIdentity)
    requires Truthful(g, p)
    ensures var s := StreamIn(g.streams, id);
      if id in p.streams then s.Some? && s.value.identity == id && s.value.sink == Some(p.streams[id])
      else s.Some? ==> s.value.identity == id && s.value.sink == None
  {
    StreamInIs(g.streams, id);
  }

  /** A displacement that has taken effect: where the stream was before it, whether the
      move that began it reported success, and whether any of its moves did. */
  datatype Trip = Trip(origin: Option<string>, told: bool, known: bool)

  type Trips = map<NodeIdentity, Trip>

  type Ledger = map<NodeIdentity, Option<string>>

  predicate OnIntake(p: Place, id: NodeIdentity) {
    id in p.streams && IntakeName(p.streams[id])
  }

  /** What a move that took effect does, whatever it reported. A trip begins with the first
      move into an intake, goes on through any others, and ends with a move out, unless
      OpenWave knows of the trip and not of its end. */
  function Displaced(home: Trips, s: Stream, to: string, ok: bool): Trips {
    var id := s.identity;
    if IntakeName(to) then
      home[id := if id in home then home[id].(known := home[id].known || ok) else Trip(Origin(s.sink), ok, ok)]
    else if ok || (id in home && !home[id].known) then home - {id}
    else home
  }

  /** Others move streams too: a trip nobody knows of ends when the stream leaves the
      intakes; one that is known lasts until OpenWave finds that it has ended. */
  function Drifted(home: Trips, p: Place): Trips {
    map id | id in home && (home[id].known || OnIntake(p, id)) :: home[id]
  }

  /** No trip that is known has ended. */
  ghost predicate KnownKept(was: Trips, now: Trips) {
    && now.Keys <= was.Keys
    && forall id :: id in was && was[id].known ==> id in now && now[id] == was[id]
  }

  ghost predicate Tracked(home: Trips, p: Place) {
    forall id :: id in home ==> (home[id].told ==> home[id].known) && (home[id].known || OnIntake(p, id))
  }

  /** The record that is possible without seeing which failed moves took effect: the first
      origin if the move that began the trip reported success, no origin if only a later
      one did, and nothing at all if none did. */
  function Recorded(home: Trips): Ledger {
    map id | id in home && home[id].known :: if home[id].told then home[id].origin else None
  }

  /** What a report does to a record: success brings in an origin, unless there is one, or
      ends it; a failure says nothing. */
  function Told(record: Ledger, s: Stream, to: string, ok: bool): Ledger {
    if !ok then record
    else if !IntakeName(to) then record - {s.identity}
    else if s.identity in record then record
    else record[s.identity := Origin(s.sink)]
  }

  lemma RecordedMove(home: Trips, p: Place, s: Stream, to: string, ok: bool)
    requires Tracked(home, p) && s.identity in p.streams && s.sink == Some(p.streams[s.identity])
    ensures var q := p.(streams := p.streams[s.identity := to]); Tracked(Displaced(home, s, to, ok), q)
    ensures Recorded(Displaced(home, s, to, ok)) == Told(Recorded(home), s, to, ok)
  {
    IntakesAreOurs(p.streams[s.identity]);
  }

  lemma IntakesAreOurs(name: string)
    ensures IntakeName(name) ==> OpenWaveName(name)
  {
    if IntakeName(name) {
      assert "openwave_src_"[..9] == "openwave_";
      assert name[..9] == name[..13][..9];
    }
  }

  lemma RecordedDrift(home: Trips, p: Place)
    requires forall id :: id in home ==> (home[id].told ==> home[id].known)
    ensures Tracked(Drifted(home, p), p) && Recorded(Drifted(home, p)) == Recorded(home)
  {}

  lemma NothingRecorded(home: Trips)
    ensures (forall id :: id !in home) ==> Recorded(home) == map[]
  {}

  lemma RecordedTold(home: Trips, id: NodeIdentity)
    requires id in home && home[id].told && home[id].known
    ensures id in Recorded(home) && Recorded(home)[id] == home[id].origin
  {}

  /** A stream is recorded with its first origin exactly when the move that first displaced
      it reported success, or when it came from no output and a later move did. */
  lemma RecordedFirst(home: Trips, p: Place, id: NodeIdentity)
    requires Tracked(home, p) && id in home
    ensures (id in Recorded(home) && Recorded(home)[id] == home[id].origin) <==>
      home[id].told || (home[id].known && home[id].origin.None?)
  {}

  /** A stream on an output is moved into one intake, which takes effect and is reported as
      failed, and then into another: on record is that it came from nowhere. */
  lemma MisreportedMove(id: NodeIdentity, output: string, a: string, b: string)
    requires !OpenWaveName(output) && IntakeName(a) && IntakeName(b)
    ensures var first := Displaced(map[], Stream(id, Some(output)), a, false);
      var second := Displaced(first, Stream(id, Some(a)), b, true);
      && first == map[id := Trip(Some(output), false, false)] && Recorded(first) == map[]
      && second == map[id := Trip(Some(output), false, true)] && Recorded(second) == map[id := None]
  {}

  datatype Report = Report(place: Place, graph: Option<Graph>)

  /** A move command, and what it reported. */
  datatype Move = Move(stream: NodeIdentity, from: Option<string>, to: string, ok: bool)

  /** The streams of which a move was refused, in `moves` from `n` on. */
  function RefusedSince(moves: seq<Move>, n: nat): set<NodeIdentity>
    requires n <= |moves|
  {
    set m | m in moves[n..] && !m.ok :: m.stream
  }

  lemma RefusedMore(moves: seq<Move>, more: seq<Move>, n: nat)
    requires n <= |moves| && moves <= more
    ensures RefusedSince(moves, n) <= RefusedSince(more, n)
    ensures RefusedSince(more, |moves|) <= RefusedSince(more, n)
  {
    assert forall m :: m in moves[n..] ==> m in more[n..] by {
      assert forall i :: n <= i < |moves| ==> moves[i] == more[i];
    }
  }

  /** A command about a sink, what it was about as the server had it, and what it reported. */
  datatype Act =
    | Loaded(name: string, owner: nat, moduleId: Option<nat>)
    | Unloaded(name: string, node: SinkNode, cookie: nat, ok: bool)
    | Destroyed(name: string, node: SinkNode, ok: bool)

  /** At some instant since the `n`th, no sink had this name. */
  ghost predicate Gone(stages: seq<map<string, SinkNode>>, n: nat, name: string) {
    exists i :: n <= i < |stages| && name !in stages[i]
  }

  lemma GoneStill(stages: seq<map<string, SinkNode>>, more: seq<map<string, SinkNode>>, n: nat, k: nat, name: string)
    requires stages <= more && k <= n && Gone(stages, n, name)
    ensures Gone(more, k, name)
  {
    var i :| n <= i < |stages| && name !in stages[i];
    assert name !in more[i];
  }

  /** The module unloaded was the one loaded under this name, by server, owner and number. */
  predicate OwnUnload(e: Act, sinks: map<string, OwnedSink>) {
    && e.Unloaded? && e.name in sinks && e.cookie == sinks[e.name].cookie
    && e.node.owner == Some(sinks[e.name].owner) && e.node.moduleId == Some(sinks[e.name].moduleId)
  }

  /** The node destroyed was the one recorded, still with the definition that was written. */
  predicate OwnDestroy(e: Act, removed: map<string, PersistentSink>) {
    && e.Destroyed? && e.name in removed && e.node.identity == removed[e.name].identity
    && DefinitionMatches(e.node, removed[e.name].definition)
  }

  /** Since the `n`th, only unwanted sinks were taken away, and only our own. */
  ghost predicate OnlyOurs(
    acts: seq<Act>, n: nat, wanted: set<string>, sinks: map<string, OwnedSink>, removed: map<string, PersistentSink>)
  {
    forall i :: n <= i < |acts| ==>
      !acts[i].Loaded? && acts[i].name !in wanted && (OwnUnload(acts[i], sinks) || OwnDestroy(acts[i], removed))
  }

  /** The audio server as streams and sinks see it. `home` tells of every stream that moves
      of OpenWave have displaced, as they took effect and not as they were reported. */
  class StreamServer {
    var place: Place
    var reports: seq<Report>  // what the world does next, and what the tools print of it
    ghost var home: Trips
    ghost var moves: seq<Move>
    ghost var running: set<nat>  // helper processes
    ghost var acts: seq<Act>     // the commands about sinks so far
    ghost var stages: seq<map<string, SinkNode>>  // the sinks there were, instant by instant
    ghost var seen: Option<Graph>                 // the last observation

    constructor (reports: seq<Report>)
      ensures this.reports == reports && place == Place(map[], map[], 0) && home == map[] && moves == []
      ensures acts == [] && stages == [] && seen == None
    {
      place := Place(map[], map[], 0);
      this.reports := reports;
      home, moves, running, acts, stages, seen := map[], [], {}, [], [], None;
    }

    /** The world moves on, then is observed; a report that is not true of it is a failure. */
    method Snapshot() returns (g: Option<Graph>)
      requires Tracked(home, place)
      modifies this`place, this`reports, this`home, this`stages, this`seen
      ensures stages == old(stages) + [place.sinks] && seen == g
      ensures Tracked(home, place) && Recorded(home) == Recorded(old(home)) && home.Keys <= old(home).Keys
      ensures KnownKept(old(home), home)
      ensures g.Some? ==> Truthful(g.value, place)
    {
      if reports == [] {
        stages, seen := stages + [place.sinks], None;
        return None;
      }
      place := reports[0].place;
      RecordedDrift(home, place);
      home := Drifted(home, place);
      g := reports[0].graph;
      reports := reports[1..];
      if g.Some? && !Truthful(g.value, place) {
        g := None;
      }
      stages, seen := stages + [place.sinks], g;
    }

    /** `move-sink-input`. Success means that the stream plays there now; a failure may
        have moved it all the same. */
    method MoveStream(s: Stream, to: string) returns (ok: bool)
      requires Tracked(home, place)
      requires s.sink == if s.identity in place.streams then Some(place.streams[s.identity]) else None
      modifies this`place, this`home, this`moves
      ensures Tracked(home, place) && moves == old(moves) + [Move(s.identity, s.sink, to, ok)]
      ensures (place == old(place) && home == old(home) && !ok)
        || (s.identity in old(place).streams
            && place == old(place).(streams := old(place).streams[s.identity := to])
            && home == Displaced(old(home), s, to, ok))
      ensures Recorded(home) == Told(Recorded(old(home)), s, to, ok)
      ensures home.Keys <= old(home).Keys + {s.identity} && (s.sink.None? ==> home == old(home))
    {
      ok := *;
      var applied: bool := *;
      ok := ok && s.sink.Some?;
      if s.sink.Some? && (ok || applied) {
        RecordedMove(home, place, s, to, ok);
        place := place.(streams := place.streams[s.identity := to]);
        home := Displaced(home, s, to, ok);
      }
      moves := moves + [Move(s.identity, s.sink, to, ok)];
    }

    /** Found gone, or playing into something that is no intake: nothing is owed any more. */
    ghost method Release(id: NodeIdentity)
      requires Tracked(home, place) && !OnIntake(place, id)
      modifies this`home
      ensures Tracked(home, place) && home == old(home) - {id} && Recorded(home) == Recorded(old(home)) - {id}
    {
      home := home - {id};
    }

    /** A new server: its predecessor's streams are gone with it. */
    ghost method ReleaseAll()
      requires forall id :: id in home ==> id !in place.streams
      modifies this`home
      ensures home == map[]
    {
      home := map[];
    }

    /** `load-module module-null-sink` with a fresh owner token. */
    method Load(name: string, owner: nat) returns (r: Result<nat>)
      modifies this`acts
      ensures acts == old(acts) + [Loaded(name, owner, if r.Ok? then Some(r.value) else None)]
    {
      var ok: bool := *;
      var moduleId: nat := *;
      r := if ok then Ok(moduleId) else Err(Unavailable);
      acts := acts + [Loaded(name, owner, if r.Ok? then Some(r.value) else None)];
    }

    /** `unload-module`: only ever for the module of a sink that nothing plays into. */
    method Unload(name: string, moduleId: nat) returns (ok: bool)
      requires name in place.sinks && place.sinks[name].moduleId == Some(moduleId)
      requires forall id :: id in place.streams ==> place.streams[id] != name
      requires Tracked(home, place)
      modifies this`place, this`acts, this`stages
      ensures Tracked(home, place)
      ensures place == old(place) || place == old(place).(sinks := old(place).sinks - {name})
      ensures ok ==> name !in place.sinks
      ensures acts == old(acts) + [Unloaded(name, old(place).sinks[name], old(place).cookie, ok)]
      ensures stages == old(stages) + [place.sinks]
    {
      ok := *;
      var applied: bool := *;
      acts := acts + [Unloaded(name, place.sinks[name], place.cookie, ok)];
      if ok || applied {
        place := place.(sinks := place.sinks - {name});
      }
      stages := stages + [place.sinks];
    }

    /** `pw-cli destroy`: only ever for the node of a sink that nothing plays into. */
    method Destroy(name: string, node: nat) returns (ok: bool)
      requires name in place.sinks && place.sinks[name].id == node
      requires forall id :: id in place.streams ==> place.streams[id] != name
      requires Tracked(home, place)
      modifies this`place, this`acts, this`stages
      ensures Tracked(home, place)
      ensures place == old(place) || place == old(place).(sinks := old(place).sinks - {name})
      ensures ok ==> name !in place.sinks
      ensures acts == old(acts) + [Destroyed(name, old(place).sinks[name], ok)]
      ensures stages == old(stages) + [place.sinks]
    {
      ok := *;
      var applied: bool := *;
      acts := acts + [Destroyed(name, place.sinks[name], ok)];
      if ok || applied {
        place := place.(sinks := place.sinks - {name});
      }
      stages := stages + [place.sinks];
    }

    /** SIGTERM to a helper process of ours; success means that it has ended. */
    method Terminate(child: nat) returns (ok: bool)
      modifies this`running
      ensures running == if ok then old(running) - {child} else old(running)
    {
      ok := *;
      running := if ok then running - {child} else running;
    }
  }
}
