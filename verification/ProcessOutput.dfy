/**
 One supervised process: its bounded transcript and the fan-out of its single
 output stream to lossless and droppable attach clients. Distribution under the
 lock, the sends outside it, attach, receive, detach and exit are separate
 steps, so any interleaving of the goroutines is a sequence of these methods.
 */
module ProcessOutput {
  import opened Options
  import opened Decimals

  type Byte = char
  type Bytes = seq<Byte>

  /** The capacity of a client's channel. */
  const CAPACITY := 128

  const NOTICE := "\n[rc-kube transcript truncated]\n"

  // ---- the transcript as a function of the output ----------------------

  /** How many output bytes fit after a transcript that began as initial. */
  function Kept(initial: Bytes, max: int, output: Bytes): (n: nat)
    ensures n <= |output|
  {
    if max <= 0 then |output|
    else
      var room := if max > |initial| then max - |initial| else 0;
      if |output| <= room then |output| else room
  }

  function Recorded(initial: Bytes, max: int, output: Bytes): Bytes {
    initial + output[..Kept(initial, max, output)]
  }

  predicate Overflows(initial: Bytes, max: int, output: Bytes) {
    Kept(initial, max, output) < |output|
  }

  /**
   The recorded output is the longest prefix within the limit, and the flag is
   set exactly when the output did not fit.
   */
  lemma RecordedIsLongestPrefix(max: int, output: Bytes, n: nat)
    requires n <= |output|
    ensures Recorded([], max, output) <= output
    ensures max > 0 ==> |Recorded([], max, output)| <= max
    ensures max > 0 && n <= max ==> output[..n] <= Recorded([], max, output)
    ensures Overflows([], max, output) <==> max > 0 && |output| > max
  {
  }

  /** What the file, its recorded length and the truncated flag hold for the output so far. */
  predicate Transcribed(file: Bytes, length: int, truncated: bool, initial: Bytes, max: int, output: Bytes) {
    && file == Recorded(initial, max, output) + (if truncated then NOTICE else [])
    && length == |Recorded(initial, max, output)|
    && (truncated <==> Overflows(initial, max, output))
  }

  // ---- clients ---------------------------------------------------------

  datatype Ending = Following | Slow | Complete | Left

  /**
   One attach session: replay was captured when the output was at bytes long,
   buffered is its channel, delivered what it wrote after the replay, and done
   its closed done channel.
   */
  datatype Client = Client(
    id: string,
    lossless: bool,
    replay: Bytes,
    at: nat,
    buffered: seq<Bytes>,
    delivered: Bytes,
    done: bool,
    ending: Ending)

  function Flatten(chunks: seq<Bytes>): Bytes {
    if chunks == [] then [] else chunks[0] + Flatten(chunks[1..])
  }

  lemma {:induction false} FlattenSnoc(chunks: seq<Bytes>, chunk: Bytes)
    ensures Flatten(chunks + [chunk]) == Flatten(chunks) + chunk
  {
    if chunks == [] {
      assert chunks + [chunk] == [chunk];
    } else {
      assert (chunks + [chunk])[1..] == chunks[1..] + [chunk];
      FlattenSnoc(chunks[1..], chunk);
    }
  }

  /** Everything that reached the client after its replay. */
  function Got(c: Client): Bytes {
    c.delivered + Flatten(c.buffered)
  }

  /**
   An attached client misses nothing but what is still owed to it; any client
   has a prefix of the output after its attach. Only a droppable client is ever
   closed while it still follows, or told that it was slow.
   */
  predicate Served(c: Client, output: Bytes, owed: Bytes) {
    && c.at <= |output|
    && |c.buffered| <= CAPACITY
    && Got(c) + owed <= output[c.at..]
    && (!c.done ==> Got(c) + owed == output[c.at..])
    && (c.lossless && c.done ==> !c.ending.Following?)
    && (c.lossless ==> !c.ending.Slow?)
  }

  /** What distribute does to one client. */
  function Handed(c: Client, chunk: Bytes): Client {
    if c.done || c.lossless then c
    else if |c.buffered| < CAPACITY then c.(buffered := c.buffered + [chunk])
    else c.(done := true)
  }

  predicate Awaits(c: Client) {
    !c.done && c.lossless
  }

  lemma HandedIsServed(c: Client, output: Bytes, chunk: Bytes)
    requires Served(c, output, [])
    ensures Served(Handed(c, chunk), output + chunk, if Awaits(c) then chunk else [])
  {
    FlattenSnoc(c.buffered, chunk);
    assert (output + chunk)[c.at..] == output[c.at..] + chunk;
    assert Got(c) + [] == Got(c);
    assert Got(c.(buffered := c.buffered + [chunk])) == Got(c) + chunk;
  }

  /** The select takes the send: there is room, and done is open or loses. */
  predicate Takes(c: Client, preferDone: bool) {
    |c.buffered| < CAPACITY && !(c.done && preferDone)
  }

  /** One chunk enters a client's channel. */
  function Pushed(c: Client, chunk: Bytes): Client {
    c.(buffered := c.buffered + [chunk])
  }

  lemma PushedIsServed(c: Client, output: Bytes, chunk: Bytes)
    requires Served(c, output, chunk) && |c.buffered| < CAPACITY
    ensures Served(Pushed(c, chunk), output, [])
  {
    FlattenSnoc(c.buffered, chunk);
    assert Got(Pushed(c, chunk)) == Got(c) + chunk;
    assert Got(c) + chunk + [] == Got(c) + chunk;
  }

  /** The client takes the oldest chunk out of its channel and writes it. */
  function Taken(c: Client): Client
    requires c.buffered != []
  {
    c.(delivered := c.delivered + c.buffered[0], buffered := c.buffered[1..])
  }

  lemma TakenGotTheSame(c: Client)
    requires c.buffered != []
    ensures Got(Taken(c)) == Got(c)
  {
    assert Flatten(c.buffered) == c.buffered[0] + Flatten(c.buffered[1..]);
  }

  // ---- all sessions together -------------------------------------------

  /**
   A write in progress: the clients that still have to take its chunk. Their
   order is the iteration order of a map, so it is left open.
   */
  datatype Sending = Sending(chunk: Bytes, targets: set<nat>)

  function Owed(pending: Option<Sending>, i: nat): Bytes {
    if pending.Some? && i in pending.value.targets then pending.value.chunk else []
  }

  /** The process's history as far as a session's promise depends on it. */
  datatype Past = Past(initial: Bytes, max: int, output: Bytes, exited: bool)

  predicate SessionOk(c: Client, owed: Bytes, past: Past) {
    && Served(c, past.output, owed)
    && c.replay == Recorded(past.initial, past.max, past.output[..c.at])
    && (c.lossless && c.ending.Complete? ==> past.exited && c.delivered == past.output[c.at..])
  }

  predicate SessionsOk(sessions: seq<Client>, pending: Option<Sending>, past: Past) {
    && (forall i :: 0 <= i < |sessions| ==> SessionOk(sessions[i], Owed(pending, i), past))
    && (pending.Some? ==> forall i :: i in pending.value.targets ==> i < |sessions| && sessions[i].lossless)
    && (past.exited ==> pending.None?)
  }

  predicate Open(sessions: seq<Client>, i: nat)
    requires i < |sessions|
  {
    !sessions[i].done
  }

  /** The clients map names exactly the sessions whose done is still open. */
  predicate RegisterOk(clients: map<string, nat>, sessions: seq<Client>) {
    && (forall id {:trigger id in clients} :: id in clients ==>
          clients[id] < |sessions| && sessions[clients[id]].id == id && Open(sessions, clients[id]))
    && (forall i {:trigger Open(sessions, i)} :: 0 <= i < |sessions| && Open(sessions, i) ==>
          sessions[i].id in clients && clients[sessions[i].id] == i)
  }

  /** A change of one session that keeps its id and its done keeps the register. */
  lemma RegisterKeeps(clients: map<string, nat>, sessions: seq<Client>, n: nat, c: Client)
    requires RegisterOk(clients, sessions) && n < |sessions|
    requires c.id == sessions[n].id && c.done == sessions[n].done
    ensures RegisterOk(clients, sessions[n := c])
  {
    var after := sessions[n := c];
    forall i | 0 <= i < |after| ensures Open(after, i) <==> Open(sessions, i) {
    }
  }

  /** Every client outside todo has been handed the chunk, and the lossless ones are noted. */
  ghost predicate HandedSoFar(
      before: seq<Client>, now: seq<Client>, targets: set<nat>, todo: set<string>, data: Bytes) {
    && |now| == |before|
    && (forall i :: 0 <= i < |before| ==>
          now[i] == if before[i].id in todo then before[i] else Handed(before[i], data))
    && (forall i :: i in targets <==> 0 <= i < |before| && Awaits(before[i]) && before[i].id !in todo)
  }

  lemma OneMoreHanded(before: seq<Client>, now: seq<Client>, targets: set<nat>, todo: set<string>, data: Bytes,
                      clients: map<string, nat>, id: string)
    requires HandedSoFar(before, now, targets, todo, data) && RegisterOk(clients, now)
    requires id in todo && id in clients
    ensures
      var n := clients[id];
      HandedSoFar(before, now[n := Handed(now[n], data)], if now[n].lossless then targets + {n} else targets,
                  todo - {id}, data)
    ensures var n := clients[id]; now[n].lossless ==> now[n := Handed(now[n], data)] == now
  {
    var n := clients[id];
    assert now[n] == before[n];
    forall i | 0 <= i < |before| && i != n && before[i].id == id
      ensures now[i].done && now[i] == before[i]
    {
      assert !Open(now, i);
    }
  }

  /** Handing a chunk to every session keeps what all of them were promised. */
  lemma DistributeServes(before: seq<Client>, after: seq<Client>, targets: set<nat>, data: Bytes, past: Past)
    requires SessionsOk(before, None, past) && !past.exited
    requires HandedSoFar(before, after, targets, {}, data)
    ensures SessionsOk(after, Some(Sending(data, targets)), past.(output := past.output + data))
  {
    forall i | 0 <= i < |before|
      ensures SessionOk(after[i], Owed(Some(Sending(data, targets)), i), past.(output := past.output + data))
    {
      HandedIsServed(before[i], past.output, data);
      assert (past.output + data)[..before[i].at] == past.output[..before[i].at];
    }
  }

  /** One session changes, and nothing is owed to it any more if it was served. */
  lemma ReplaceKeeps(sessions: seq<Client>, clients: map<string, nat>, pending: Option<Sending>, n: nat, c: Client,
                     served: bool, past: Past)
    requires SessionsOk(sessions, pending, past) && RegisterOk(clients, sessions) && n < |sessions|
    requires c.id == sessions[n].id && c.lossless == sessions[n].lossless && c.done == sessions[n].done
    requires SessionOk(c, if served then [] else Owed(pending, n), past)
    requires served ==> pending.Some?
    ensures
      var rest := if served then Some(pending.value.(targets := pending.value.targets - {n})) else pending;
      SessionsOk(sessions[n := c], rest, past)
    ensures RegisterOk(clients, sessions[n := c])
  {
    RegisterKeeps(clients, sessions, n, c);
  }

  /** Close the done of session n and forget it, unless that already happened. */
  method Removed(clients: map<string, nat>, sessions: seq<Client>, n: nat)
    returns (left: map<string, nat>, after: seq<Client>)
    requires n < |sessions| && RegisterOk(clients, sessions)
    ensures RegisterOk(left, after)
    ensures after == sessions[n := sessions[n].(done := true)]
    ensures left == if sessions[n].done then clients else clients - {sessions[n].id}
  {
    left, after := clients, sessions;
    var id := sessions[n].id;
    assert Open(sessions, n) <==> !sessions[n].done;
    if id in clients && clients[id] == n {
      after := sessions[n := sessions[n].(done := true)];
      left := clients - {id};
      forall i | 0 <= i < |after| ensures Open(after, i) <==> i != n && Open(sessions, i) {
      }
    }
  }

  /**
   The clients loop of distribute, in the map's arbitrary iteration order: a
   droppable client takes the chunk into its channel, or is dropped when that
   is full; the lossless clients are returned.
   */
  method HandToAll(clients: map<string, nat>, sessions: seq<Client>, data: Bytes)
    returns (left: map<string, nat>, after: seq<Client>, targets: set<nat>)
    requires RegisterOk(clients, sessions)
    ensures RegisterOk(left, after)
    ensures HandedSoFar(sessions, after, targets, {}, data)
  {
    left, after, targets := clients, sessions, {};
    forall i | 0 <= i < |sessions| && sessions[i].id !in clients ensures sessions[i].done {
      assert !Open(sessions, i);
    }
    var todo := clients.Keys;
    while todo != {}
      invariant RegisterOk(left, after)
      invariant todo <= left.Keys
      invariant HandedSoFar(sessions, after, targets, todo, data)
      decreases |todo|
    {
      var id :| id in todo;
      var n := left[id];
      OneMoreHanded(sessions, after, targets, todo, data, left, id);
      if after[n].lossless {
        targets := targets + {n};
      } else if |after[n].buffered| < CAPACITY {
        RegisterKeeps(left, after, n, after[n].(buffered := after[n].buffered + [data]));
        after := after[n := after[n].(buffered := after[n].buffered + [data])];
      } else {
        left, after := Removed(left, after, n);
      }
      todo := todo - {id};
    }
  }

  class SupervisedProcess {
    var transcript: Bytes
    const transcriptMax: int
    var transcriptLen: int
    var truncated: bool
    var clients: map<string, nat>
    var sessions: seq<Client>
    var nextClient: nat
    var exited: bool
    var pending: Option<Sending>
    ghost const initial: Bytes
    /** Everything the process has written; the source keeps only the transcript of it. */
    var output: Bytes

    ghost function History(): Past
      reads this
    {
      Past(initial, transcriptMax, output, exited)
    }

    ghost predicate Valid()
      reads this
    {
      && Transcribed(transcript, transcriptLen, truncated, initial, transcriptMax, output)
      && RegisterOk(clients, sessions)
      && SessionsOk(sessions, pending, History())
    }

    /** A transcript left by an earlier, rolled back start is appended to. */
    constructor (existing: Bytes, max: int)
      ensures Valid() && History() == Past(existing, max, [], false) && sessions == [] && pending.None?
    {
      transcript, transcriptMax, transcriptLen, truncated := existing, max, |existing|, false;
      clients, sessions, nextClient := map[], [], 0;
      exited, pending, initial, output := false, None, existing, [];
    }

    /** The transcript half of distribute. */
    method Record(data: Bytes)
      requires Transcribed(transcript, transcriptLen, truncated, initial, transcriptMax, output)
      modifies this`transcript, this`transcriptLen, this`truncated, this`output
      ensures Transcribed(transcript, transcriptLen, truncated, initial, transcriptMax, output)
        && output == old(output) + data
    {
      RecordedStep(initial, transcriptMax, output, data);
      if !truncated {
        var toWrite := data;
        if transcriptMax > 0 {
          var remaining := transcriptMax - transcriptLen;
          if remaining < |toWrite| {
            if remaining < 0 { remaining := 0; }
            toWrite := toWrite[..remaining];
          }
        }
        if |toWrite| > 0 {
          transcript := transcript + toWrite;
          transcriptLen := transcriptLen + |toWrite|;
        }
        if transcriptMax > 0 && |toWrite| < |data| {
          transcript := transcript + NOTICE;
          truncated := true;
        }
      }
      output := output + data;
    }

    /** readTranscriptLocked: the recorded output, never the notice. */
    method ReadTranscript() returns (data: Bytes)
      requires Transcribed(transcript, transcriptLen, truncated, initial, transcriptMax, output)
      ensures data == Recorded(initial, transcriptMax, output)
    {
      if !truncated || |transcript| <= transcriptLen {
        return transcript;
      }
      return transcript[..transcriptLen];
    }

    /**
     The locked half of a Write: record the data, hand it to the droppable
     clients, and note the lossless clients that still have to take it.
     */
    method Distribute(data: Bytes)
      requires Valid() && !exited && pending.None?
      modifies this
      ensures Valid() && nextClient == old(nextClient)
      ensures History() == old(History()).(output := old(output) + data)
      ensures pending.Some? && pending.value.chunk == data
      ensures HandedSoFar(old(sessions), sessions, pending.value.targets, {}, data)
    {
      Record(data);
      var left, after, targets := HandToAll(clients, sessions, data);
      DistributeServes(sessions, after, targets, data, old(History()));
      clients, sessions := left, after;
      pending := Some(Sending(data, targets));
    }

    /**
     The next lossless client takes the chunk, or its closed done releases the
     sender, or both are ready and either happens; with a full channel and an
     open done the sender waits.
     */
    method SendTo(n: nat, preferDone: bool) returns (moved: bool)
      requires Valid() && pending.Some? && n in pending.value.targets
      modifies this`sessions, this`pending
      ensures Valid()
      ensures var c, sending := old(sessions)[n], old(pending).value;
        && moved == (c.done || |c.buffered| < CAPACITY)
        && sessions == old(sessions)[n := if Takes(c, preferDone) then Pushed(c, sending.chunk) else c]
        && pending == Some(if moved then sending.(targets := sending.targets - {n}) else sending)
    {
      var c := sessions[n];
      if c.done && (preferDone || |c.buffered| >= CAPACITY) {
        moved := true;
      } else if |c.buffered| < CAPACITY {
        PushedIsServed(c, output, pending.value.chunk);
        c := c.(buffered := c.buffered + [pending.value.chunk]);
        moved := true;
      } else {
        moved := false;
      }
      ReplaceKeeps(sessions, clients, pending, n, c, moved, History());
      sessions := sessions[n := c];
      if moved {
        pending := Some(pending.value.(targets := pending.value.targets - {n}));
      }
    }

    /** Every lossless client was served, so Write returns. */
    method FinishWrite()
      requires Valid() && pending.Some? && pending.value.targets == {}
      modifies this`pending
      ensures Valid() && pending.None?
    {
      pending := None;
    }

    /**
     openAttach: the replay and the truncated flag come from one locked read. A
     finished process registers nobody; a taken client ID is refused, and a
     generated one has used up its number even then.
     */
    method Attach(clientID: string, lossless: bool) returns (r: Attachment)
      requires Valid()
      modifies this`sessions, this`clients, this`nextClient
      ensures Valid()
      ensures r.Refused? <==> !exited && ClientName(clientID, old(nextClient)) in old(clients)
      ensures !r.Refused? ==> r.replay == Recorded(initial, transcriptMax, output) && r.truncated == truncated
      ensures r.Joined? ==> sessions == old(sessions) + [
        Client(ClientName(clientID, old(nextClient)), lossless, r.replay, |output|, [], [], false, Following)
      ]
      ensures !r.Joined? ==> sessions == old(sessions) && clients == old(clients)
      ensures r.ReplayOnly? <==> exited
      ensures nextClient == if !exited && clientID == "" then old(nextClient) + 1 else old(nextClient)
    {
      var replay := ReadTranscript();
      if exited {
        return ReplayOnly(replay, truncated);
      }
      var id := clientID;
      if id == "" {
        id := "client-" + Natural(nextClient);
        nextClient := nextClient + 1;
      }
      if id in clients {
        return Refused;
      }
      var c := Client(id, lossless, replay, |output|, [], [], false, Following);
      JoinKeeps(sessions, clients, pending, c, History());
      clients := clients[id := |sessions|];
      sessions := sessions + [c];
      r := Joined(replay, truncated);
    }

    /** The stream loop takes one chunk from its channel and writes it out. */
    method Receive(n: nat)
      requires Valid() && n < |sessions| && sessions[n].buffered != []
      requires sessions[n].ending.Following?
      modifies this`sessions
      ensures Valid() && sessions == old(sessions)[n := Taken(old(sessions)[n])]
    {
      var c := Taken(sessions[n]);
      TakenGotTheSame(sessions[n]);
      ReplaceKeeps(sessions, clients, pending, n, c, false, History());
      sessions := sessions[n := c];
    }

    /**
     The stream loop returns: as slow when done is closed, with success when the
     process has exited and the channel is drained, and for a cancelled context
     or a failed write at any time.
     */
    method EndStream(n: nat, ending: Ending)
      requires Valid() && n < |sessions| && sessions[n].ending.Following? && MayEnd(sessions[n], ending, exited)
      modifies this`sessions
      ensures Valid() && sessions == old(sessions)[n := old(sessions)[n].(ending := ending)]
    {
      var c := sessions[n].(ending := ending);
      assert Got(c) == c.delivered + Flatten(c.buffered);
      if ending.Complete? {
        assert Got(c) + [] == c.delivered;
      }
      ReplaceKeeps(sessions, clients, pending, n, c, false, History());
      sessions := sessions[n := c];
    }

    /** The deferred removal of a stream that has returned. */
    method Detach(n: nat)
      requires Valid() && n < |sessions| && !sessions[n].ending.Following?
      modifies this`sessions, this`clients
      ensures Valid() && sessions == old(sessions)[n := old(sessions)[n].(done := true)]
      ensures clients == if old(sessions)[n].done then old(clients) else old(clients) - {old(sessions)[n].id}
    {
      clients, sessions := Removed(clients, sessions, n);
    }

    /** wait: output has stopped before the exit channel closes. */
    method Exit()
      requires Valid() && pending.None?
      modifies this`exited
      ensures Valid() && exited
    {
      exited := true;
    }

    /** Any schedule of the goroutines; a step that cannot happen is passed over. */
    method Run(events: seq<Event>)
      requires Valid()
      modifies this
      ensures Valid()
      ensures old(output) <= output
    {
      for k := 0 to |events|
        invariant Valid() && old(output) <= output
      {
        match events[k]
        case Write(data) =>
          if !exited && pending.None? { Distribute(data); }
        case Send(n, preferDone) =>
          if pending.Some? && n in pending.value.targets { var _ := SendTo(n, preferDone); }
        case WriteReturns =>
          if pending.Some? && pending.value.targets == {} { FinishWrite(); }
        case Join(id, lossless) =>
          var _ := Attach(id, lossless);
        case Take(n) =>
          if n < |sessions| && sessions[n].buffered != [] && sessions[n].ending.Following? { Receive(n); }
        case End(n, ending) =>
          if n < |sessions| && sessions[n].ending.Following?
            && MayEnd(sessions[n], ending, exited) { EndStream(n, ending); }
        case Leave(n) =>
          if n < |sessions| && !sessions[n].ending.Following? { Detach(n); }
        case ProcessExits =>
          if pending.None? { Exit(); }
      }
    }
  }

  /** Steps of the process's goroutines and of its attach streams. */
  datatype Event =
    | Write(data: Bytes)
    | Send(client: nat, preferDone: bool)
    | WriteReturns
    | Join(id: string, lossless: bool)
    | Take(client: nat)
    | End(client: nat, ending: Ending)
    | Leave(client: nat)
    | ProcessExits

  datatype Attachment = Refused | ReplayOnly(replay: Bytes, truncated: bool) | Joined(replay: Bytes, truncated: bool)

  function ClientName(clientID: string, next: nat): string {
    if clientID == "" then "client-" + Natural(next) else clientID
  }

  predicate MayEnd(c: Client, ending: Ending, exited: bool) {
    match ending
    case Following => false
    case Slow => c.done
    case Complete => exited && c.buffered == []
    case Left => true
  }

  lemma JoinKeeps(sessions: seq<Client>, clients: map<string, nat>, pending: Option<Sending>, c: Client, past: Past)
    requires SessionsOk(sessions, pending, past) && RegisterOk(clients, sessions)
    requires c.id !in clients && !c.done && c.at == |past.output| && c.buffered == [] && c.delivered == []
    requires c.ending.Following? && c.replay == Recorded(past.initial, past.max, past.output)
    ensures SessionsOk(sessions + [c], pending, past)
    ensures RegisterOk(clients[c.id := |sessions|], sessions + [c])
  {
    var after := sessions + [c];
    assert past.output[..|past.output|] == past.output;
    assert SessionOk(c, [], past);
    forall i | 0 <= i < |sessions| ensures Open(after, i) <==> Open(sessions, i) {
    }
    assert forall i :: 0 <= i < |sessions| ==> after[i] == sessions[i];
    assert Open(after, |sessions|);
  }

  /**
   In every reachable state: while a lossless stream follows, its replay, what
   it wrote, what is buffered and what is owed make up all output; a stream
   that ended with success wrote all of it; it is never cut off as slow. Any
   stream wrote a prefix. Whole output means from its first byte if the
   transcript was complete at the attach, which the session was told.
   */
  lemma StreamsAreFaithful(p: SupervisedProcess, n: nat)
    requires p.Valid() && n < |p.sessions|
    ensures
      var c := p.sessions[n];
      var wrote := c.replay + c.delivered;
      var all := c.replay + p.output[c.at..];
      && wrote <= all
      && c.at <= |p.output|
      && (!Overflows(p.initial, p.transcriptMax, p.output[..c.at]) ==> all == p.initial + p.output)
      && (c.lossless && c.ending.Following? ==> wrote + Flatten(c.buffered) + Owed(p.pending, n) == all)
      && (c.lossless && c.ending.Complete? ==> wrote == all)
      && (c.lossless ==> !c.ending.Slow?)
  {
    assert SessionOk(p.sessions[n], Owed(p.pending, n), p.History());
    StreamIsFaithful(p.sessions[n], Owed(p.pending, n), p.History());
  }

  lemma StreamIsFaithful(c: Client, owed: Bytes, past: Past)
    requires SessionOk(c, owed, past)
    ensures c.replay + c.delivered <= c.replay + past.output[c.at..]
    ensures !Overflows(past.initial, past.max, past.output[..c.at]) ==>
      c.replay + past.output[c.at..] == past.initial + past.output
    ensures c.lossless && c.ending.Following? ==>
      c.replay + c.delivered + Flatten(c.buffered) + owed == c.replay + past.output[c.at..]
  {
    var buffered := Flatten(c.buffered);
    assert c.replay + c.delivered + buffered + owed == c.replay + (c.delivered + buffered + owed);
    assert past.output[..c.at] + past.output[c.at..] == past.output;
  }

  lemma RecordedStep(initial: Bytes, max: int, output: Bytes, data: Bytes)
    ensures Overflows(initial, max, output) ==>
      Recorded(initial, max, output + data) == Recorded(initial, max, output) && Overflows(initial, max, output + data)
    ensures !Overflows(initial, max, output) ==>
      var room := max - |initial| - |output|;
      var n := if max <= 0 || |data| <= room then |data| else if room < 0 then 0 else room;
      Recorded(initial, max, output) == initial + output
      && Recorded(initial, max, output + data) == initial + output + data[..n]
      && (Overflows(initial, max, output + data) <==> n < |data|)
  {
  }
}
