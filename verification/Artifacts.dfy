/** `_artifact_payload` (backend/app/agent/loop.py): the value of `Config.artifact` in production. */
module Artifacts {
  import opened Json
  import opened Transcript
  import opened Curation
  import opened Conversation
  import opened Streams

  const DATA_ARTIFACT_TOOLS: set<string> := {"get_holdings", "get_money_transactions", "get_brokerage_rates"}

  function FileFlowKey(name: string): Json {
    if name == "get_pnl_report" then Str("pnl")
    else if name == "get_ledger_report" then Str("ledger")
    else if name == "get_capital_gains_report" then Str("tax")
    else if name == "download_contract_note" then Str("contract-notes")
    else Null
  }

  function WithoutKey(d: Dict, key: string): Dict {
    if d == [] then []
    else if d[0].0 == key then WithoutKey(d[1..], key)
    else [d[0]] + WithoutKey(d[1..], key)
  }

  /** `{**d, **e}` */
  function Update(d: Dict, e: Dict): Dict
    decreases |e|
  {
    if e == [] then d else Update(Assign(d, e[0].0, e[0].1), e[1..])
  }

  /** `value or {}`. */
  function OrEmpty(value: Json): Json {
    if value in {Null, Bool(false), Int(0), Real(0.0), Str(""), Arr([])} then Obj([]) else value
  }

  predicate IsForm(name: string, e: Dict) {
    name == "open_report_form" && Get(e, "kind") == Str("form")
  }

  predicate IsTicket(name: string, e: Dict) {
    name == "raise_support_ticket" && Get(e, "kind") == Str("ticket")
  }

  predicate IsFile(e: Dict) {
    "fileToken" in Keys(e)
  }

  predicate IsData(name: string, e: Dict) {
    name in DATA_ARTIFACT_TOOLS && Get(e, "kind") == Str("ok")
  }

  /** `_artifact_payload`. */
  function ArtifactPayload(name: string, o: Outcome): Option<Dict> {
    if o.isError || o.envelope.None? then None
    else
      var e := o.envelope.value;
      if IsForm(name, e) then
        Some([("kind", Str("flow")), ("flowKey", Get(e, "flow")), ("seed", OrEmpty(Get(e, "seed")))])
      else if IsTicket(name, e) then
        Some([("kind", Str("ticket")), ("ticketId", Get(e, "ticketId")), ("status", Get(e, "status"))])
      else if IsFile(e) then
        Some([("kind", Str("file")), ("file", Get(e, "file")), ("fileToken", Get(e, "fileToken")),
              ("flowKey", FileFlowKey(name))])
      else if IsData(name, e) then
        Some(Update([("kind", Str("data")), ("tool", Str(name))], WithoutKey(e, "kind")))
      else None
  }

  // --- rounds that answer by themselves ---------------------------------------------------------------------------

  lemma ErrorsHaveNoCard(name: string, o: Outcome)
    ensures ArtifactPayload(name, o).Some? ==> !o.isError
  {
  }

  lemma EndOfRound(cfg: Config, t: State)
    ensures var r := Conclude(cfg, t);
            && (r.phase.Closing? && |r.outbox| == 1 && r.outbox[0].name == "done" <==> t.artifactsOnly)
            && (r.phase.Calling? <==> !t.artifactsOnly && !t.authExpired)
            && r.calls == if r.phase.Calling? then t.calls + [r.calls[|t.calls|]] else t.calls
  {
    assert "done"[0] != "error"[0];
    hide Sent;
  }

  /**
   A round of tools on any run, by what was sent of it: with its last result the request ends in `done` without another
   model call if and only if the stream holds as many cards as answers since its calls were announced; one answer
   without a card, an error, a search, a list, an empty state, and the model is asked to go on, unless a login expired.
   */
  lemma RoundAnswersIff(cfg: Config, acts: seq<Action>)
    requires cfg.artifact == ArtifactPayload && Enabled(Exec(cfg, acts), Record)
    requires Exec(cfg, acts).phase.next == |Exec(cfg, acts).phase.uses| - 1
    ensures var s, t := Exec(cfg, acts), Next(cfg, Exec(cfg, acts), Record);
            var round := SinceAnnounced(Beats(s.emitted));
            && AnswerMarks(round) == |s.phase.uses|
            && (t.phase.Closing? && |t.outbox| == 1 && t.outbox[0].name == "done" && t.calls == s.calls <==>
                Cards(round) == AnswerMarks(round))
            && (t.phase.Calling? && |t.calls| == |s.calls| + 1 <==>
                Cards(round) != AnswerMarks(round) && !t.authExpired)
  {
    hide *;
    var s := Exec(cfg, acts);
    RecordIs(cfg, s);
    var (uses, outcomes, k) := (s.phase.uses, s.phase.outcomes, s.phase.next);
    RoundSent(cfg, acts);
    RecordNext(cfg, s);
    LastResult(cfg, s, uses, outcomes, k);
  }

  lemma RecordNext(cfg: Config, s: State)
    requires Enabled(s, Record)
    ensures Next(cfg, s, Record) == RecordStep(cfg, s)
  {
    hide RecordStep;
  }

  lemma AllCards(cfg: Config, uses: seq<Block>, outcomes: seq<Outcome>)
    requires cfg.artifact == ArtifactPayload && |uses| == |outcomes|
    ensures CardsOnly(cfg, uses, outcomes, |uses|) <==> EachMakesCard(cfg, uses, outcomes)
  {
    forall i | 0 <= i < |uses| ensures ArtifactPayload(NameOf(uses[i]), outcomes[i]).Some? ==> !outcomes[i].isError {
      ErrorsHaveNoCard(NameOf(uses[i]), outcomes[i]);
    }
    hide ArtifactPayload;
  }

  /** With the last result stored, the request ends if every call of the round made a card. */
  lemma LastResult(cfg: Config, s: State, uses: seq<Block>, outcomes: seq<Outcome>, k: nat)
    requires cfg.artifact == ArtifactPayload && k + 1 == |uses| == |outcomes|
    requires s.artifactsOnly <==> CardsOnly(cfg, uses, outcomes, k)
    ensures var t := Conclude(cfg, Stored(cfg, s, uses[k], outcomes[k]));
            && (t.phase.Closing? && |t.outbox| == 1 && t.outbox[0].name == "done" && t.calls == s.calls <==>
                EachMakesCard(cfg, uses, outcomes))
            && (t.phase.Calling? && |t.calls| == |s.calls| + 1 <==>
                !EachMakesCard(cfg, uses, outcomes) && !t.authExpired)
  {
    hide *;
    AllCards(cfg, uses, outcomes);
    OneMoreFlag(cfg, uses, outcomes, k);
    FlagsOf(cfg, s, uses[k], outcomes[k]);
    ConcludeIs(cfg, Stored(cfg, s, uses[k], outcomes[k]));
    EndOfRound(cfg, Stored(cfg, s, uses[k], outcomes[k]));
  }

  // --- what a data card shows ----------------------------------------------------------------------------------------

  lemma {:induction false} GetWithout(d: Dict, key: string, k: string)
    requires k != key
    ensures Get(WithoutKey(d, key), k) == Get(d, k) && (k in Keys(WithoutKey(d, key)) <==> k in Keys(d))
  {
    if d != [] {
      GetWithout(d[1..], key, k);
      KeysCons(d);
      if d[0].0 != key {
        assert WithoutKey(d, key)[1..] == WithoutKey(d[1..], key);
        KeysCons(WithoutKey(d, key));
      }
    }
  }

  /** Later entries win, as in Python. */
  lemma {:induction false} GetUpdate(d: Dict, e: Dict, k: string)
    requires DistinctKeys(e)
    ensures Get(Update(d, e), k) == if k in Keys(e) then Get(e, k) else Get(d, k)
    decreases |e|
  {
    if e != [] {
      KeysCons(e);
      assert forall i, j | 0 <= i < j < |e[1..]| :: e[1..][i].0 != e[1..][j].0;
      GetUpdate(Assign(d, e[0].0, e[0].1), e[1..], k);
      if k == e[0].0 {
        assert forall i | 0 <= i < |e[1..]| :: e[1..][i].0 != k;
      }
    }
  }

  lemma ConsDistinct(p: (string, Json), rest: Dict)
    requires DistinctKeys(rest) && p.0 !in Keys(rest)
    ensures DistinctKeys([p] + rest) && Keys([p] + rest) == {p.0} + Keys(rest)
  {
    assert forall i | 0 <= i < |rest| :: rest[i].0 in Keys(rest);
    KeysCons([p] + rest);
    assert ([p] + rest)[1..] == rest;
  }

  lemma HeadDistinct(d: Dict)
    requires DistinctKeys(d) && d != []
    ensures DistinctKeys(d[1..]) && d[0].0 !in Keys(d[1..])
  {
    assert forall i | 0 <= i < |d[1..]| :: d[1..][i] == d[i + 1];
  }

  lemma {:induction false} WithoutDistinct(d: Dict, key: string)
    requires DistinctKeys(d)
    ensures DistinctKeys(WithoutKey(d, key)) && key !in Keys(WithoutKey(d, key))
  {
    if d != [] {
      HeadDistinct(d);
      WithoutDistinct(d[1..], key);
      if d[0].0 != key {
        hide DistinctKeys, Keys;
        GetWithout(d[1..], key, d[0].0);
        ConsDistinct(d[0], WithoutKey(d[1..], key));
      }
    }
  }

  /** A data card shows every field of the envelope as it is, but for `kind`, which says that it is data. */
  lemma DataCardShowsEnvelope(name: string, o: Outcome, k: string)
    requires ArtifactPayload(name, o).Some? && DistinctKeys(o.envelope.value)
    requires !IsForm(name, o.envelope.value) && !IsTicket(name, o.envelope.value) && !IsFile(o.envelope.value)
    ensures var card, e := ArtifactPayload(name, o).value, o.envelope.value;
            && Get(card, "kind") == Str("data")
            && (k in Keys(e) && k != "kind" ==> Get(card, k) == Get(e, k))
            && ("tool" !in Keys(e) ==> Get(card, "tool") == Str(name))
  {
    var e := o.envelope.value;
    var base: Dict := [("kind", Str("data")), ("tool", Str(name))];
    assert base[1..][0] == base[1];
    WithoutDistinct(e, "kind");
    GetUpdate(base, WithoutKey(e, "kind"), "kind");
    GetUpdate(base, WithoutKey(e, "kind"), "tool");
    GetUpdate(base, WithoutKey(e, "kind"), k);
    GetWithout(e, "kind", "tool");
    if k != "kind" {
      GetWithout(e, "kind", k);
    }
    hide Update, WithoutKey;
  }

  /** Which successes make a card, and what a form, a ticket and a file card say of their envelope. */
  lemma CardSays(name: string, o: Outcome)
    ensures ArtifactPayload(name, o).Some? <==>
            && !o.isError && o.envelope.Some?
            && var e := o.envelope.value; IsForm(name, e) || IsTicket(name, e) || IsFile(e) || IsData(name, e)
    ensures ArtifactPayload(name, o).Some? ==>
              var card, e := ArtifactPayload(name, o).value, o.envelope.value;
              && (IsForm(name, e) ==>
                    && Get(card, "kind") == Str("flow") && Get(card, "flowKey") == Get(e, "flow")
                    && (if Truthy(Get(e, "seed")) then Get(card, "seed") == Get(e, "seed")
                        else Get(card, "seed") == Obj([])))
              && (IsTicket(name, e) ==>
                    && Get(card, "kind") == Str("ticket") && Get(card, "ticketId") == Get(e, "ticketId")
                    && Get(card, "status") == Get(e, "status"))
              && (IsFile(e) && !IsForm(name, e) && !IsTicket(name, e) ==>
                    && Get(card, "kind") == Str("file") && Get(card, "file") == Get(e, "file")
                    && Get(card, "fileToken") == Get(e, "fileToken"))
  {
    if ArtifactPayload(name, o).Some? {
      var e := o.envelope.value;
      ThreeFields("kind", Str("flow"), "flowKey", Get(e, "flow"), "seed", OrEmpty(Get(e, "seed")));
      ThreeFields("kind", Str("ticket"), "ticketId", Get(e, "ticketId"), "status", Get(e, "status"));
      FourFields(Str("file"), Get(e, "file"), Get(e, "fileToken"), FileFlowKey(name));
      hide Get, Update, WithoutKey, FileFlowKey, Keys;
    }
  }

  /** What Python's `or` keeps. */
  predicate Truthy(j: Json) {
    j !in {Null, Bool(false), Int(0), Real(0.0), Str(""), Arr([]), Obj([])}
  }

  lemma ThreeFields(a: string, x: Json, b: string, y: Json, c: string, z: Json)
    requires a != b && a != c && b != c
    ensures var d: Dict := [(a, x), (b, y), (c, z)]; Get(d, a) == x && Get(d, b) == y && Get(d, c) == z
  {
    var d: Dict := [(a, x), (b, y), (c, z)];
    assert Get(d, b) == Get(d[1..], b) == y;
    assert Get(d, c) == Get(d[1..], c) == Get(d[1..][1..], c) == z;
  }

  lemma FourFields(kind: Json, file: Json, token: Json, flow: Json)
    ensures var d: Dict := [("kind", kind), ("file", file), ("fileToken", token), ("flowKey", flow)];
            Get(d, "kind") == kind && Get(d, "file") == file && Get(d, "fileToken") == token
  {
    var d: Dict := [("kind", kind), ("file", file), ("fileToken", token), ("flowKey", flow)];
    assert "kind"[0] != "file"[0] && |"file"| != |"fileToken"| && "kind"[0] != "fileToken"[0];
    assert Get(d, "file") == Get(d[1..], "file") == file;
    assert Get(d, "fileToken") == Get(d[1..], "fileToken") == Get(d[1..][1..], "fileToken") == token;
  }
}
