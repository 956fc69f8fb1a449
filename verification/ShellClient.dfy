/** `streamAgentChat` (frontend/src/chat/agent.ts): what the shell hears of a request, whatever the network does. */
module ShellClient {
  import opened Json
  import opened Sse
  import opened Conversation
  import opened RunEvents
  import opened Streams
  import H = Harness

  datatype Callback =
    | OnText(delta: string)
    | OnTool(name: string, status: string, isError: bool)
    | OnArtifact(artifact: Json)
    | OnDone(data: Json)
    | OnError(code: string)

  predicate Last(c: Callback) {
    c.OnDone? || c.OnError?
  }

  /** JSON text and the artifact parser. */
  datatype Codec = Codec(dumps: Dict -> string, loads: string -> Option<Json>, artifact: Json -> Option<Json>)

  /** Serialising gives one line that parses back: what `json.dumps` and `JSON.parse` agree on. */
  ghost predicate Faithful(k: Codec) {
    forall d :: k.loads(k.dumps(d)) == Some(Obj(d)) && OneLine(k.dumps(d))
  }

  function Field(j: Json, key: string): Json {
    if j.Obj? then Get(j.fields, key) else Null
  }

  function ErrorCode(j: Json): string {
    if Field(j, "error") == Str("AUTH_EXPIRED") then "AUTH_EXPIRED" else "AGENT_UNAVAILABLE"
  }

  /** The callback of `handleFrame`, if any. */
  function Heard(k: Codec, f: Frame): Option<Callback> {
    match k.loads(f.data)
    case None => None
    case Some(j) =>
      if f.event == "text" then
        match Field(j, "delta")
        case Str(s) => if s != "" then Some(OnText(s)) else None
        case _ => None
      else if f.event == "tool" then
        if Field(j, "name").Str? && (Field(j, "status") == Str("started") || Field(j, "status") == Str("finished")) then
          Some(OnTool(Field(j, "name").s, Field(j, "status").s, Field(j, "is_error") == Bool(true)))
        else None
      else if f.event == "artifact" then
        match k.artifact(j)
        case Some(a) => Some(OnArtifact(a))
        case None => None
      else if f.event == "done" then Some(OnDone(j))
      else if f.event == "error" then Some(OnError(ErrorCode(j)))
      else None
  }

  /** What `handleFrame` returns: true on a terminal frame that parses. */
  predicate Stops(k: Codec, f: Frame) {
    Heard(k, f).Some? && Last(Heard(k, f).value)
  }

  function Opt(heard: Option<Callback>): seq<Callback> {
    match heard case Some(c) => [c] case None => []
  }

  function AllHeard(k: Codec, fs: seq<Frame>): seq<Callback> {
    if fs == [] then []
    else AllHeard(k, fs[..|fs| - 1]) + Opt(Heard(k, fs[|fs| - 1]))
  }

  /** How the request went before and while its body was read. */
  datatype Connection =
    | NoCredentials
    | FetchFails
    | BadResponse(body: Json)
    | Streaming(chunks: seq<string>, broken: bool)

  /** Exactly one terminal callback, and it is the last one. */
  predicate OneLast(cs: seq<Callback>) {
    cs != [] && Last(cs[|cs| - 1]) && forall i | 0 <= i < |cs| - 1 :: !Last(cs[i])
  }

  lemma {:induction false} HeardBeforeStop(k: Codec, fs: seq<Frame>)
    requires forall i | 0 <= i < |fs| :: !Stops(k, fs[i])
    ensures forall i | 0 <= i < |AllHeard(k, fs)| :: !Last(AllHeard(k, fs)[i])
    decreases |fs|
  {
    if fs != [] {
      HeardBeforeStop(k, fs[..|fs| - 1]);
      assert !Stops(k, fs[|fs| - 1]);
    }
  }

  /** Callbacks of the delivered frames: one terminal callback, last, exactly when the reader stopped. */
  lemma HeardOnce(k: Codec, r: Reader, stop: Frame -> bool)
    requires (forall f :: stop(f) == Stops(k, f)) && StopsAtLast(r, stop) && (r.stopped ==> r.frames != [])
    ensures if r.stopped then OneLast(AllHeard(k, r.frames)) else forall c | c in AllHeard(k, r.frames) :: !Last(c)
  {
    if r.stopped {
      HeardBeforeStop(k, r.frames[..|r.frames| - 1]);
    } else {
      HeardBeforeStop(k, r.frames);
    }
  }

  /** `streamAgentChat`. `aborted` is the abort signal as the code finds it when it asks. */
  method StreamAgentChat(k: Codec, connection: Connection, aborted: bool) returns (callbacks: seq<Callback>)
    ensures !aborted ==> OneLast(callbacks)
    ensures connection.NoCredentials? ==> callbacks == [OnError("AGENT_UNAVAILABLE")]
    ensures connection.FetchFails? ==> callbacks == if aborted then [] else [OnError("AGENT_UNAVAILABLE")]
    ensures connection.BadResponse? && aborted ==> callbacks == []
    ensures connection.BadResponse? && !aborted ==>
              callbacks == [OnError(if Field(connection.body, "error") == Str("AUTH_EXPIRED") then "AUTH_EXPIRED"
                                    else "AGENT_UNAVAILABLE")]
    ensures connection.Streaming? ==>
              var r := ReadText(Concat(connection.chunks), connection.broken, f => Stops(k, f));
              callbacks == AllHeard(k, r.frames)
                           + if r.stopped || aborted then [] else [OnError("AGENT_UNAVAILABLE")]
  {
    match connection {
      case NoCredentials =>
        return [OnError("AGENT_UNAVAILABLE")];
      case FetchFails =>
        return if aborted then [] else [OnError("AGENT_UNAVAILABLE")];
      case BadResponse(body) =>
        return if aborted then [] else [OnError(ErrorCode(body))];
      case Streaming(chunks, broken) =>
        var stop := f => Stops(k, f);
        var frames, terminal, threw := ReadSse(chunks, broken, stop);
        ReadStopsAtTerminal(Concat(chunks), broken, stop);
        HeardOnce(k, ReadText(Concat(chunks), broken, stop), stop);
        callbacks := [];
        for i := 0 to |frames|
          invariant callbacks == AllHeard(k, frames[..i])
        {
          assert frames[..i + 1][..i] == frames[..i];
          var heard := Heard(k, frames[i]);
          if heard.Some? {
            callbacks := callbacks + [heard.value];
          }
        }
        assert frames[..|frames|] == frames;
        if !aborted && !terminal {
          callbacks := callbacks + [OnError("AGENT_UNAVAILABLE")];
        }
    }
  }

  // --- end to end ---------------------------------------------------------------------------------------------

  function AsFrames(k: Codec, es: seq<Event>): (r: seq<Frame>)
    ensures |r| == |es|
  {
    seq(|es|, i requires 0 <= i < |es| => Frame(es[i].name, k.dumps(es[i].data)))
  }

  lemma {:induction false} NothingCut(fs: seq<Frame>, stop: Frame -> bool)
    requires fs != [] && stop(fs[|fs| - 1]) && forall i | 0 <= i < |fs| - 1 :: !stop(fs[i])
    ensures UpToTerminal(fs, stop) == fs
  {
    if |fs| > 1 {
      assert forall i | 0 <= i < |fs[1..]| :: fs[1..][i] == fs[i + 1];
      NothingCut(fs[1..], stop);
      assert fs == [fs[0]] + fs[1..];
    }
  }

  lemma StopsExactly(k: Codec, e: Event)
    requires Faithful(k)
    ensures Heard(k, Frame(e.name, k.dumps(e.data))).Some? && Last(Heard(k, Frame(e.name, k.dumps(e.data))).value) <==>
            Terminal(e)
    ensures e.name == "done" ==> Heard(k, Frame(e.name, k.dumps(e.data))) == Some(OnDone(Obj(e.data)))
    ensures e.name == "error" ==> Heard(k, Frame(e.name, k.dumps(e.data))) == Some(OnError(ErrorCode(Obj(e.data))))
  {
    assert k.loads(k.dumps(e.data)) == Some(Obj(e.data));
  }

  /** Frame by frame, a stream with one terminal event is read whole and stops the reader at its end. */
  lemma StreamRead(k: Codec, es: seq<Event>, eol: string, chunks: seq<string>, broken: bool, stop: Frame -> bool)
    requires Faithful(k) && OneTerminalLast(es) && LineEnding(eol) && (forall e | e in es :: OneLine(e.name))
    requires (forall f :: stop(f) == Stops(k, f)) && Concat(chunks) == PrintAll(AsFrames(k, es), eol)
    ensures var r := ReadText(Concat(chunks), broken, stop); r.stopped && r.frames == AsFrames(k, es)
  {
    var fs := AsFrames(k, es);
    var n := |es| - 1;
    forall i | 0 <= i < |fs| ensures Printable(fs[i]) && (stop(fs[i]) <==> i == n) {
      assert es[i] in es;
      StopsExactly(k, es[i]);
      assert i < n ==> es[..n][i] == es[i];
    }
    RoundTrip(fs, eol, chunks, broken, stop);
    NothingCut(fs, stop);
    assert stop(fs[n]);
  }

  lemma LastHeard(k: Codec, es: seq<Event>)
    requires Faithful(k) && OneTerminalLast(es)
    ensures var cs := AllHeard(k, AsFrames(k, es)); cs != [] && (cs[|cs| - 1].OnDone? <==> es[|es| - 1].name == "done")
  {
    var fs := AsFrames(k, es);
    StopsExactly(k, es[|es| - 1]);
    assert fs[|fs| - 1] == Frame(es[|es| - 1].name, k.dumps(es[|es| - 1].data));
  }

  /**
   From the loop to the screen: on every run of the session machine, each stream consumed to its end
   reaches the shell frame by frame, under any chunking and line ending, and ends in one terminal
   callback: done for a done event, error for an error event.
   */
  lemma EveryStreamEndsOnce(cfg: Config, acts: seq<Action>, k: Codec, es: seq<Event>, eol: string, chunks: seq<string>,
                            broken: bool)
    requires Faithful(k) && es in Exec(cfg, acts).finished && LineEnding(eol)
    requires Concat(chunks) == PrintAll(AsFrames(k, es), eol)
    ensures var r := ReadText(Concat(chunks), broken, f => Stops(k, f));
            && r.stopped && r.frames == AsFrames(k, es)
            && OneLast(AllHeard(k, r.frames))
            && (AllHeard(k, r.frames)[|AllHeard(k, r.frames)| - 1].OnDone? <==> es[|es| - 1].name == "done")
  {
    OneTerminalAlways(cfg, acts);
    NamesKnown(cfg, acts, es);
    var stop := f => Stops(k, f);
    StreamRead(k, es, eol, chunks, broken, stop);
    ReadStopsAtTerminal(Concat(chunks), broken, stop);
    HeardOnce(k, ReadText(Concat(chunks), broken, stop), stop);
    LastHeard(k, es);
  }

  // --- what the screen is told --------------------------------------------------------------------------------------

  /** What one event tells. */
  function SaidBy(e: Event): string {
    match Get(e.data, "delta") case Str(s) => (if e.name == "text" then s else "") case _ => ""
  }

  function ToolsBy(e: Event): seq<(Json, Json, Json)> {
    if e.name == "tool" then [(Get(e.data, "name"), Get(e.data, "status"), Get(e.data, "is_error"))] else []
  }

  function CardsBy(k: Codec, e: Event): seq<Json> {
    if e.name == "artifact" then (match k.artifact(Obj(e.data)) case Some(a) => [a] case None => []) else []
  }

  /** The text of a stream: the deltas of its text events, joined. */
  function Said(es: seq<Event>): string {
    if es == [] then ""
    else Said(es[..|es| - 1]) + SaidBy(es[|es| - 1])
  }

  /** The text that reached the screen. */
  function Spoken(cs: seq<Callback>): string {
    if cs == [] then ""
    else Spoken(cs[..|cs| - 1]) + match cs[|cs| - 1] case OnText(delta) => delta case _ => ""
  }

  /** The calls that a stream tells of, with status and flag. */
  function ToolsTold(es: seq<Event>): seq<(Json, Json, Json)> {
    if es == [] then []
    else ToolsTold(es[..|es| - 1]) + ToolsBy(es[|es| - 1])
  }

  function ToolsHeard(cs: seq<Callback>): seq<(Json, Json, Json)> {
    if cs == [] then []
    else
      ToolsHeard(cs[..|cs| - 1])
      + match cs[|cs| - 1] case OnTool(name, status, isError) => [(Str(name), Str(status), Bool(isError))] case _ => []
  }

  /** The cards of a stream, as the shell's parser takes them. */
  function CardsTold(k: Codec, es: seq<Event>): seq<Json> {
    if es == [] then []
    else CardsTold(k, es[..|es| - 1]) + CardsBy(k, es[|es| - 1])
  }

  function CardsHeard(cs: seq<Callback>): seq<Json> {
    if cs == [] then []
    else CardsHeard(cs[..|cs| - 1]) + match cs[|cs| - 1] case OnArtifact(artifact) => [artifact] case _ => []
  }

  /** Both sides agree on all three. */
  ghost predicate ToldAll(k: Codec, es: seq<Event>, cs: seq<Callback>) {
    Spoken(cs) == Said(es) && ToolsHeard(cs) == ToolsTold(es) && CardsHeard(cs) == CardsTold(k, es)
  }

  lemma HeardSays(k: Codec, e: Event)
    requires Faithful(k) && BeatsOk(ReadEvent(e))
    ensures var cs := Opt(Heard(k, Frame(e.name, k.dumps(e.data))));
            Spoken(cs) == SaidBy(e) && ToolsHeard(cs) == ToolsBy(e) && CardsHeard(cs) == CardsBy(k, e)
  {
    assert k.loads(k.dumps(e.data)) == Some(Obj(e.data));
    OneBeat(e);
    hide Get, ReadEvent, BeatsOk;
  }

  lemma CallbacksMore(cs: seq<Callback>, heard: Option<Callback>)
    ensures Spoken(cs + Opt(heard)) == Spoken(cs) + Spoken(Opt(heard))
    ensures ToolsHeard(cs + Opt(heard)) == ToolsHeard(cs) + ToolsHeard(Opt(heard))
    ensures CardsHeard(cs + Opt(heard)) == CardsHeard(cs) + CardsHeard(Opt(heard))
  {
    if heard.Some? {
      assert (cs + [heard.value])[..|cs|] == cs;
    } else {
      assert cs + [] == cs;
    }
  }

  lemma EventsMore(k: Codec, es: seq<Event>)
    requires es != []
    ensures var init, e := es[..|es| - 1], es[|es| - 1];
            && Said(es) == Said(init) + SaidBy(e) && ToolsTold(es) == ToolsTold(init) + ToolsBy(e)
            && CardsTold(k, es) == CardsTold(k, init) + CardsBy(k, e)
  {
    hide Get;
  }

  lemma OneEvent(k: Codec, es: seq<Event>, cs: seq<Callback>)
    requires Faithful(k) && es != [] && BeatsOk(ReadEvent(es[|es| - 1])) && ToldAll(k, es[..|es| - 1], cs)
    ensures var e := es[|es| - 1];
            ToldAll(k, es, cs + Opt(Heard(k, Frame(e.name, k.dumps(e.data)))))
  {
    var e := es[|es| - 1];
    hide Faithful, BeatsOk, ReadEvent, Heard, Opt, Spoken, Said, SaidBy, ToolsHeard, ToolsTold, ToolsBy, CardsHeard,
      CardsTold, CardsBy;
    HeardSays(k, e);
    CallbacksMore(cs, Heard(k, Frame(e.name, k.dumps(e.data))));
    EventsMore(k, es);
  }

  lemma OneBeat(e: Event)
    requires BeatsOk(ReadEvent(e))
    ensures e.name == "text" ==> Get(e.data, "delta").Str?
    ensures e.name == "tool" ==>
              && Get(e.data, "name").Str? && Get(e.data, "is_error").Bool?
              && (Get(e.data, "status") == Str("started") || Get(e.data, "status") == Str("finished"))
  {
    if e.name == "text" || e.name == "tool" {
      assert BeatOk(ReadEvent(e)[0]);
    }
  }

  lemma {:induction false} AllEvents(k: Codec, es: seq<Event>)
    requires Faithful(k) && BeatsOk(Beats(es))
    ensures ToldAll(k, es, AllHeard(k, AsFrames(k, es)))
    decreases |es|
  {
    hide *;
    if es == [] {
      NoEvents(k, es);
    } else {
      var init := es[..|es| - 1];
      BeatsOfFront(es);
      HeardOfFront(k, es);
      AllEvents(k, init);
      OneEvent(k, es, AllHeard(k, AsFrames(k, init)));
    }
  }

  lemma NoEvents(k: Codec, es: seq<Event>)
    requires es == []
    ensures ToldAll(k, es, AllHeard(k, AsFrames(k, es)))
  {
  }

  lemma BeatsOfFront(es: seq<Event>)
    requires es != [] && BeatsOk(Beats(es))
    ensures BeatsOk(Beats(es[..|es| - 1])) && BeatsOk(ReadEvent(es[|es| - 1]))
  {
    hide BeatsOk, ReadEvent;
    BeatsParts(Beats(es[..|es| - 1]), ReadEvent(es[|es| - 1]));
  }

  lemma HeardOfFront(k: Codec, es: seq<Event>)
    requires es != []
    ensures var n := |es| - 1;
            AllHeard(k, AsFrames(k, es)) == AllHeard(k, AsFrames(k, es[..n]))
                                         + Opt(Heard(k, Frame(es[n].name, k.dumps(es[n].data))))
  {
    hide Heard;
    assert AsFrames(k, es)[..|es| - 1] == AsFrames(k, es[..|es| - 1]);
  }

  lemma BeatsParts(a: seq<Beat>, b: seq<Beat>)
    requires BeatsOk(a + b)
    ensures BeatsOk(a) && BeatsOk(b)
  {
    assert forall i | 0 <= i < |a| :: (a + b)[i] == a[i];
    assert forall i | 0 <= i < |b| :: (a + b)[|a| + i] == b[i];
  }

  /** The last callback passes on how the stream ended. */
  lemma EndHeard(k: Codec, es: seq<Event>)
    requires Faithful(k) && OneTerminalLast(es) && BeatsOk(Beats(es))
    ensures var cs, e := AllHeard(k, AsFrames(k, es)), es[|es| - 1];
            && cs != []
            && (e.name == "done" ==> cs[|cs| - 1] == OnDone(Obj(e.data)))
            && (e.name == "error" ==> cs[|cs| - 1].OnError? && Get(e.data, "error") == Str(cs[|cs| - 1].code))
  {
    var n := |es| - 1;
    var fs := AsFrames(k, es);
    StopsExactly(k, es[n]);
    assert fs[n] == Frame(es[n].name, k.dumps(es[n].data));
    BeatsParts(Beats(es[..n]), ReadEvent(es[n]));
    if es[n].name == "error" {
      assert BeatOk(ReadEvent(es[n])[0]);
    }
  }

  /**
   What the customer sees: each finished stream of every run, under any chunking and line ending, shows its text delta
   by delta, its calls with name, status and flag, and its cards, in order, and ends as it ended.
   */
  lemma EveryStreamIsShown(cfg: Config, acts: seq<Action>, k: Codec, es: seq<Event>, eol: string, chunks: seq<string>,
                           broken: bool)
    requires Faithful(k) && es in Exec(cfg, acts).finished && LineEnding(eol)
    requires Concat(chunks) == PrintAll(AsFrames(k, es), eol)
    ensures var r := ReadText(Concat(chunks), broken, f => Stops(k, f));
            && es != []
            && var cs, e := AllHeard(k, r.frames), es[|es| - 1];
            && ToldAll(k, es, cs) && cs != []
            && (e.name == "done" ==> cs[|cs| - 1] == OnDone(Obj(e.data)))
            && (e.name == "error" ==> cs[|cs| - 1].OnError? && Get(e.data, "error") == Str(cs[|cs| - 1].code))
  {
    EveryStreamEndsOnce(cfg, acts, k, es, eol, chunks, broken);
    OneTerminalAlways(cfg, acts);
    FinishedOk(cfg, acts);
    hide Exec, ReadText, AllHeard, Faithful, BeatsOk, PrintAll, AsFrames, ToldAll, OneLast;
    AllEvents(k, es);
    EndHeard(k, es);
  }

  /** The text of a list of beats. */
  function WordsOf(bs: seq<Beat>): string {
    if bs == [] then ""
    else
      WordsOf(bs[..|bs| - 1])
      + match bs[|bs| - 1] case Words(delta) => (if delta.Str? then delta.s else "") case _ => ""
  }

  lemma {:induction false} SaidIsWords(es: seq<Event>)
    ensures Said(es) == WordsOf(Beats(es))
    decreases |es|
  {
    if es != [] {
      hide ReadEvent, WordsOf, Beats;
      SaidIsWords(es[..|es| - 1]);
      WordsSnoc(Beats(es[..|es| - 1]), es[|es| - 1]);
      BeatsFront(es);
    } else {
      assert Said(es) == "" && Beats(es) == [] && WordsOf([]) == "";
    }
  }

  lemma WordsSnoc(bs: seq<Beat>, e: Event)
    ensures WordsOf(bs + ReadEvent(e))
         == WordsOf(bs) + match Get(e.data, "delta") case Str(s) => (if e.name == "text" then s else "") case _ => ""
  {
    var one := ReadEvent(e);
    if one != [] {
      assert (bs + one)[..|bs|] == bs && one == [one[0]];
    } else {
      assert bs + one == bs;
    }
  }

  /** From the model to the screen: the text shown of a request that ran to its end is what the model said. */
  lemma WordsReachScreen(cfg: Config, acts: seq<Action>, k: Codec, eol: string, chunks: seq<string>, broken: bool)
    requires Faithful(k) && Enabled(Exec(cfg, acts), Return) && LineEnding(eol)
    requires Concat(chunks) == PrintAll(AsFrames(k, Exec(cfg, acts).emitted), eol)
    ensures var r := ReadText(Concat(chunks), broken, f => Stops(k, f));
            Spoken(AllHeard(k, r.frames)) == WordsOf(Told(cfg, acts).beats)
  {
    hide *;
    var es := Exec(cfg, acts).emitted;
    StreamTold(cfg, acts);
    EveryStreamIsShown(cfg, acts + [Return], k, es, eol, chunks, broken);
    TextShown(k, es, AllHeard(k, ReadText(Concat(chunks), broken, f => Stops(k, f)).frames));
    SaidIsWords(es);
  }

  lemma TextShown(k: Codec, es: seq<Event>, cs: seq<Callback>)
    requires ToldAll(k, es, cs)
    ensures Spoken(cs) == Said(es)
  {
  }

  lemma NamesKnown(cfg: Config, acts: seq<Action>, es: seq<Event>)
    requires es in Exec(cfg, acts).finished
    ensures forall e | e in es :: OneLine(e.name)
  {
    NameInvAlways(cfg, acts);
    forall e | e in es ensures OneLine(e.name) {
      assert KnownName(e);
    }
  }

  // --- the harness -----------------------------------------------------------------------------------------------

  /** Serialised dicts end in a brace. */
  ghost predicate EndsInBrace(k: Codec) {
    forall d :: k.dumps(d) != "" && k.dumps(d)[|k.dumps(d)| - 1] == '}'
  }

  function AsRead(es: seq<Event>): seq<H.Parsed> {
    seq(|es|, i requires 0 <= i < |es| => H.Parsed(Some(es[i].name), Some(Obj(es[i].data))))
  }

  /**
   The other reader of the same streams: the harness recovers every event of each, name and data, and never raises.
   */
  lemma HarnessReadsEveryStream(cfg: Config, acts: seq<Action>, k: Codec, es: seq<Event>)
    requires Faithful(k) && EndsInBrace(k) && es in Exec(cfg, acts).finished
    ensures H.ParseText(k.loads, PrintAll(AsFrames(k, es), "\n")) == Some(AsRead(es))
  {
    hide Faithful, EndsInBrace, Exec;
    OneTerminalAlways(cfg, acts);
    NamesKnown(cfg, acts, es);
    StreamReadByHarness(k, es);
  }

  lemma SolidFrame(k: Codec, e: Event)
    requires Faithful(k) && EndsInBrace(k) && OneLine(e.name)
    ensures H.Solid(Frame(e.name, k.dumps(e.data))) && k.loads(k.dumps(e.data)) == Some(Obj(e.data))
  {
    assert k.loads(k.dumps(e.data)) == Some(Obj(e.data)) && OneLine(k.dumps(e.data));
  }

  lemma StreamReadByHarness(k: Codec, es: seq<Event>)
    requires Faithful(k) && EndsInBrace(k) && es != [] && forall e | e in es :: OneLine(e.name)
    ensures H.ParseText(k.loads, PrintAll(AsFrames(k, es), "\n")) == Some(AsRead(es))
  {
    hide Faithful, EndsInBrace, OneLine, H.Solid, H.ParseText, PrintAll;
    var fs, docs := AsFrames(k, es), seq(|es|, i requires 0 <= i < |es| => Obj(es[i].data));
    forall i | 0 <= i < |fs| ensures H.Solid(fs[i]) && k.loads(fs[i].data) == Some(docs[i]) {
      assert es[i] in es;
      SolidFrame(k, es[i]);
    }
    H.HarnessRoundTrip(k.loads, fs, docs);
    assert H.AsParsed(fs, docs) == AsRead(es);
  }
}
