/**
  Any number of clerks calling one server over a network that may lose a request or a
  reply.  A clerk has one call outstanding; it retries the call until a reply arrives, then
  retries a confirmation until that is answered, and only then returns.  Each region under
  the server's lock is one step, and so is each move of the network.
 */
module KvProtocol {
  import opened Wrappers
  import opened Linearizability
  import opened History
  import opened KvModel
  import opened KvServer

  // Where a clerk's current call is.
  datatype Phase =
    | Idle
    | Ready(r: Request, start: int)                       // to be sent, for the first time or again
    | Sent(r: Request, start: int)                        // on its way to the handler
    | Reading(r: Request, start: int, value: string)      // Get, between its regions
    | Checked(r: Request, start: int)                     // Put or Append, between its regions
    | Replied(r: Request, start: int, value: string)      // the reply is on its way
    | Answered(r: Request, start: int, value: string)     // to be confirmed
    | Confirming(r: Request, start: int, value: string)   // the confirmation is on its way
    | Confirmed(r: Request, start: int, value: string)    // its reply is on its way

  // A history variable: what took effect, when, and when the caller learned of it.
  datatype Effect = Effect(client: nat, r: Request, value: string, start: int, at: int, ret: Option<int>)

  // history is what the callers recorded; used are the ids drawn so far.
  datatype World = World(server: State, clerks: seq<Phase>, used: set<int>, clock: int,
                         log: seq<Effect>, history: seq<KvOperation>)

  // A field that arrives as the zero value is not transmitted and does not overwrite.
  function Decode(held: string, arrived: string): string {
    if arrived == "" then held else arrived
  }

  // How a call is recorded: get is 0, put is 1 with no output, append is 3.
  function Recorded(client: int, r: Request, start: int, value: string, end: int): KvOperation {
    match r.op
    case Get => Operation(client, Input(0, r.key, ""), start, Output(value), end)
    case Put => Operation(client, Input(1, r.key, r.value), start, Output(""), end)
    case Append => Operation(client, Input(3, r.key, r.value), start, Output(value), end)
  }

  datatype Action =
    | Invoke(c: nat, r: Request)
    | Send(c: nat)
    | LoseRequest(c: nat)
    | First(c: nat)
    | Second(c: nat)
    | LoseReply(c: nat)
    | Deliver(c: nat)
    | SendConfirm(c: nat)
    | LoseConfirm(c: nat)
    | RunConfirm(c: nat)
    | LoseConfirmReply(c: nat)
    | Return(c: nat)

  predicate Enabled(w: World, a: Action) {
    && a.c < |w.clerks|
    && var p := w.clerks[a.c];
       match a
       case Invoke(_, r) => p.Idle? && r.id !in w.used
       case Send(_) => p.Ready?
       case LoseRequest(_) => p.Sent?
       case First(_) => p.Sent?
       case Second(_) => p.Reading? || p.Checked?
       case LoseReply(_) => p.Replied?
       case Deliver(_) => p.Replied?
       case SendConfirm(_) => p.Answered?
       case LoseConfirm(_) => p.Confirming?
       case RunConfirm(_) => p.Confirming?
       case LoseConfirmReply(_) => p.Confirmed?
       case Return(_) => p.Confirmed?
  }

  function At(w: World, c: nat, p: Phase): World
    requires c < |w.clerks|
  {
    w.(clerks := w.clerks[c := p], clock := w.clock + 1)
  }

  function Logged(w: World, c: nat, p: Phase, value: string): World
    requires !p.Idle?
  {
    w.(log := w.log + [Effect(c, p.r, value, p.start, w.clock, None)])
  }

  // The effect of request id is marked as returned.
  function Close(log: seq<Effect>, id: int, end: int): (r: seq<Effect>)
    ensures |r| == |log|
    ensures forall i :: 0 <= i < |log| ==> r[i] == if log[i].r.id == id then log[i].(ret := Some(end)) else log[i]
  {
    seq(|log|, i requires 0 <= i < |log| => if log[i].r.id == id then log[i].(ret := Some(end)) else log[i])
  }

  function Act(w: World, a: Action): World
    requires Enabled(w, a)
  {
    var p := w.clerks[a.c];
    match a
    case Invoke(c, r) => At(w, c, Ready(r, w.clock)).(used := w.used + {r.id})
    case Send(c) => At(w, c, Sent(p.r, p.start))
    case LoseRequest(c) => At(w, c, Ready(p.r, p.start))
    case First(c) =>
      var known := Recall(w.server, p.r.id);
      if known.Some? then At(w, c, Replied(p.r, p.start, known.value))
      else if p.r.op == Get then
        var value := Lookup(w.server.kvMap, p.r.key);
        At(Logged(w, c, p, value), c, Reading(p.r, p.start, value))
      else At(w, c, Checked(p.r, p.start))
    case Second(c) =>
      if p.Reading? then At(w, c, Replied(p.r, p.start, p.value)).(server := File(w.server, p.r.id, p.value))
      else
        var value := Lookup(w.server.kvMap, p.r.key);
        At(Logged(w, c, p, value), c, Replied(p.r, p.start, value)).(server := Apply(w.server, p.r))
    case LoseReply(c) => At(w, c, Ready(p.r, p.start))
    case Deliver(c) => At(w, c, Answered(p.r, p.start, Decode("", p.value)))
    case SendConfirm(c) => At(w, c, Confirming(p.r, p.start, p.value))
    case LoseConfirm(c) => At(w, c, Answered(p.r, p.start, p.value))
    case RunConfirm(c) => At(w, c, Confirmed(p.r, p.start, p.value)).(server := Confirm(w.server, p.r.id))
    case LoseConfirmReply(c) => At(w, c, Answered(p.r, p.start, p.value))
    case Return(c) =>
      var value := Decode(p.value, "");
      At(w, c, Idle).(log := Close(w.log, p.r.id, w.clock),
                      history := w.history + [Recorded(c, p.r, p.start, value, w.clock)])
  }

  ghost predicate Start(w: World) {
    && w.server == State(map[], map[]) && w.log == [] && w.history == []
    && forall c :: 0 <= c < |w.clerks| ==> w.clerks[c].Idle?
  }

  ghost predicate IsRun(ws: seq<World>, actions: seq<Action>) {
    && |ws| == |actions| + 1 && Start(ws[0])
    && forall i :: 0 <= i < |actions| ==> Enabled(ws[i], actions[i]) && ws[i + 1] == Act(ws[i], actions[i])
  }
}
