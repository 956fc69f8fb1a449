/**
 Every tool call answered: the exact condition under which the history of every model call is one
 the Messages API accepts.
 */
module LegalWire {
  import opened Json
  import opened Sorting
  import opened Transcript
  import opened Conversation
  import opened TurnInvariants
  import opened RunTurns

  // --- debts of an array -----------------------------------------------------------------------------

  /** All tool calls but those of the last assistant message are answered, and nothing is answered before the first. */
  predicate Settled(ms: seq<Message>) {
    && (ms != [] ==> ResultIds(ms[0].content) == [])
    && forall i | 0 <= i < |ms| - 2 && ms[i].role == Assistant :: UseIds(ms[i].content) == ResultIds(ms[i + 1].content)
  }

  /** The calls of the last assistant message that are still unanswered are exactly `owed`. */
  predicate Owes(ms: seq<Message>, owed: seq<Json>) {
    if ms == [] then owed == []
    else if ms[|ms| - 1].role == Assistant then UseIds(ms[|ms| - 1].content) == owed
    else if |ms| == 1 then owed == []
    else UseIds(ms[|ms| - 2].content) == ResultIds(ms[|ms| - 1].content) + owed
  }

  lemma ResultsFirstIds(a: seq<Block>, b: seq<Block>)
    ensures ResultIds(ResultsFirst(a + b)) == ResultIds(a) + ResultIds(b)
  {
    ResultIdsOf(a + b);
    ResultIdsConcat(Results(a + b), Others(a + b));
    ResultIdsConcat(a, b);
  }

  /** What one user part does to the debts: it settles the first ones when it carries results. */
  lemma UserSettles(ms: seq<Message>, next: Message, owed: seq<Json>)
    requires Alternates(ms) && Settled(ms) && Owes(ms, owed) && next.role == User
    requires ResultIds(next.content) <= owed
    ensures Alternates(Extend(ms, next)) && Settled(Extend(ms, next))
    ensures Owes(Extend(ms, next), owed[|ResultIds(next.content)|..])
  {
    var r := Extend(ms, next);
    if ms != [] && ms[|ms| - 1].role == User {
      ResultsFirstIds(ms[|ms| - 1].content, next.content);
      assert forall i | 0 <= i < |ms| - 1 :: r[i] == ms[i];
    }
    assert owed == ResultIds(next.content) + owed[|ResultIds(next.content)|..];
  }

  lemma AssistantSettles(ms: seq<Message>, next: Message)
    requires Alternates(ms) && Settled(ms) && Owes(ms, []) && next.role == Assistant
    requires ms != [] && ms[|ms| - 1].role == User
    ensures Alternates(Extend(ms, next)) && Settled(Extend(ms, next)) && Owes(Extend(ms, next), UseIds(next.content))
  {
  }

  lemma AnswersAtIff(ms: seq<Message>, i: nat)
    requires Alternates(ms) && Partitioned(ms) && i < |ms| - 1 && ms[i].role == Assistant
    ensures Answers(ms[i].content, ms[i + 1].content) <==> UseIds(ms[i].content) == ResultIds(ms[i + 1].content)
  {
    assert ms[i + 1].role == User;
    AnswersIffSameIds(ms[i].content, ms[i + 1].content);
  }

  /**
   With results in front and the user last, an array is legal exactly when it owes nothing, has no empty message and
   repeats no id.
   */
  lemma LegalIffSettled(ms: seq<Message>)
    requires Alternates(ms) && Partitioned(ms) && ms != [] && ms[|ms| - 1].role == User
    ensures Legal(ms) <==> Settled(ms) && Owes(ms, []) && NoneEmpty(ms) && Distinct(CallIds(ms))
  {
    forall i | 0 <= i < |ms| - 1 && ms[i].role == Assistant
      ensures Answers(ms[i].content, ms[i + 1].content) <==> UseIds(ms[i].content) == ResultIds(ms[i + 1].content)
    {
      AnswersAtIff(ms, i);
    }
    if |ms| > 1 {
      assert ms[|ms| - 2].role == Assistant;
    }
  }

  lemma LosslessAppend(turns: seq<Turn>, t: Turn)
    ensures Lossless(turns + [t]) == Extend(Lossless(turns), StoredPart(t))
  {
    assert StoredParts(turns + [t]) == StoredParts(turns) + [StoredPart(t)];
    MergeSnoc(StoredParts(turns), StoredPart(t));
  }

  // --- what a list of turns owes --------------------------------------------------------------------------------

  /**
   Read turn by turn: the tool calls that no result has answered yet, in order. None once the list cannot be
   continued to a legal history: an assistant turn out of its turn, or a result of no call that is waiting for one.
   */
  function Owed(turns: seq<Turn>): Option<seq<Json>> {
    if turns == [] then Some([])
    else
      var n := |turns| - 1;
      match Owed(turns[..n])
      case None => None
      case Some(owed) => OwedNext(owed, n > 0 && turns[n - 1].role == User, turns[n])
  }

  function OwedNext(owed: seq<Json>, afterUser: bool, t: Turn): Option<seq<Json>> {
    if t.role == Assistant then (if owed == [] && afterUser then Some(UseIds(t.content)) else None)
    else
      var ids := ResultIds(t.content);
      if ids <= owed then Some(owed[|ids|..]) else None
  }

  /** The array alternates and owes exactly these answers. */
  predicate Good(ms: seq<Message>, owed: seq<Json>) {
    Alternates(ms) && Settled(ms) && Owes(ms, owed)
  }

  /** The last message of the array is that of the last turn. */
  lemma {:induction false} LastRole(turns: seq<Turn>)
    requires turns != []
    ensures var ms := Lossless(turns); ms != [] && ms[|ms| - 1].role == turns[|turns| - 1].role
  {
    var n := |turns| - 1;
    assert turns == turns[..n] + [turns[n]];
    LosslessAppend(turns[..n], turns[n]);
  }

  /** What an array with a user message more owes tells what it owed before. */
  lemma GoodBeforeUser(ms: seq<Message>, next: Message, owed: seq<Json>)
    requires Good(Extend(ms, next), owed) && next.role == User
    ensures Good(ms, ResultIds(next.content) + owed)
  {
    var r, n := Extend(ms, next), |ms| - 1;
    if ms != [] && ms[n].role == User {
      ResultsFirstIds(ms[n].content, next.content);
      assert forall i | 0 <= i < n :: r[i] == ms[i];
    } else {
      assert forall i | 0 <= i < |ms| :: r[i] == ms[i];
    }
  }

  lemma GoodBeforeAssistant(ms: seq<Message>, next: Message, owed: seq<Json>)
    requires Good(Extend(ms, next), owed) && next.role == Assistant
    ensures Good(ms, []) && ms != [] && ms[|ms| - 1].role == User && owed == UseIds(next.content)
  {
    assert forall i | 0 <= i < |ms| :: Extend(ms, next)[i] == ms[i];
  }

  lemma OwedStep(ms: seq<Message>, t: Turn, afterUser: bool, before: Option<seq<Json>>, owed: seq<Json>)
    requires forall o :: Good(ms, o) <==> before == Some(o)
    requires afterUser <==> ms != [] && ms[|ms| - 1].role == User
    ensures Good(Extend(ms, StoredPart(t)), owed) <==>
            before.Some? && OwedNext(before.value, afterUser, t) == Some(owed)
  {
    hide Settled, Owes, Alternates;
    var next := StoredPart(t);
    var ids := ResultIds(t.content);
    if Good(Extend(ms, next), owed) {
      if t.role == Assistant {
        GoodBeforeAssistant(ms, next, owed);
        assert before == Some([]);
      } else {
        GoodBeforeUser(ms, next, owed);
        assert before == Some(ids + owed);
      }
    }
    if before.Some? && OwedNext(before.value, afterUser, t) == Some(owed) {
      assert Good(ms, before.value);
      if t.role == Assistant {
        AssistantSettles(ms, next);
      } else {
        UserSettles(ms, next, before.value);
      }
    }
  }

  /** Turn by turn is message by message: the merged array owes what the list of turns owes. */
  lemma {:induction false} OwedIsExact(turns: seq<Turn>, owed: seq<Json>)
    ensures Good(Lossless(turns), owed) <==> Owed(turns) == Some(owed)
    decreases |turns|
  {
    if turns == [] {
      assert Lossless(turns) == [];
    } else {
      var n := |turns| - 1;
      hide Good;
      assert turns == turns[..n] + [turns[n]];
      LosslessAppend(turns[..n], turns[n]);
      forall o ensures Good(Lossless(turns[..n]), o) <==> Owed(turns[..n]) == Some(o) {
        OwedIsExact(turns[..n], o);
      }
      if n > 0 {
        LastRole(turns[..n]);
      } else {
        assert turns[..n] == [] && Lossless([]) == [];
      }
      OwedStep(Lossless(turns[..n]), turns[n], n > 0 && turns[n - 1].role == User, Owed(turns[..n]), owed);
    }
  }

  lemma LegalIffGood(ms: seq<Message>)
    requires Partitioned(ms) && ms != [] && ms[|ms| - 1].role == User
    ensures Legal(ms) <==> Good(ms, []) && NoneEmpty(ms) && Distinct(CallIds(ms))
  {
    if Alternates(ms) {
      LegalIffSettled(ms);
    }
  }

  // --- debts of a run ------------------------------------------------------------------------------------

  /** Ids of calls as they are stored. */
  function StoredIds(uses: seq<Block>): (r: seq<Json>)
    ensures |r| == |uses|
  {
    seq(|uses|, i requires 0 <= i < |uses| => Canonical(Get(uses[i], "id")))
  }

  /** The calls that the current phase has still to answer. */
  function Pending(p: Phase): seq<Json> {
    match p
    case Gathering(uses) => StoredIds(uses)
    case Recording(uses, _, next) => if next <= |uses| then StoredIds(uses)[next..] else []
    case _ => []
  }

  lemma CanonicalUse(b: Block)
    requires RawBlockOk(b)
    ensures IsUse(CanonicalDict(b)) == IsUse(b) && Get(CanonicalDict(b), "id") == Canonical(Get(b, "id"))
  {
    CanonicalBlockOk(b);
  }

  lemma {:induction false} StoredUseIds(content: seq<Block>, stored: seq<Block>)
    requires |stored| == |content|
    requires forall i | 0 <= i < |content| ::
             IsUse(stored[i]) == IsUse(content[i]) && Get(stored[i], "id") == Canonical(Get(content[i], "id"))
    ensures UseIds(stored) == StoredIds(Uses(content))
  {
    if content != [] {
      StoredUseIds(content[1..], stored[1..]);
      if IsUse(content[0]) {
        assert ([content[0]] + Uses(content[1..]))[1..] == Uses(content[1..]);
        assert StoredIds(Uses(content)) == [Canonical(Get(content[0], "id"))] + StoredIds(Uses(content[1..]));
      }
    }
  }

  /**
   The steps that leave a stored tool call unanswered: a reply that holds tool calls but did not stop
   for them, and a stream that ends between the calls and the last of their results.
   */
  predicate PairedStep(s: State, a: Action) {
    match a
    case Reply(content, stop) => !Enabled(s, a) || Uses(Kept(content)) == [] || stop == "tool_use"
    case Crash => !s.phase.Gathering? && !s.phase.Recording?
    case Abandon => !s.phase.Gathering? && !s.phase.Recording?
    case _ => true
  }

  /** A clean run starts from turns that owe nothing, and no step of it leaves a call unanswered. */
  ghost predicate PairedRun(cfg: Config, acts: seq<Action>) {
    if acts == [] then Owed(cfg.found) == Some([])
    else PairedRun(cfg, acts[..|acts| - 1]) && PairedStep(Exec(cfg, acts[..|acts| - 1]), acts[|acts| - 1])
  }

  /** No continuation can be legal: a call or a result is out of place, or a call is owed that nothing will answer. */
  predicate Hopeless(owed: Option<seq<Json>>, p: Phase) {
    owed.None? || (owed.value != [] && !p.Gathering? && !p.Recording?)
  }

  /** The turns owe exactly what is pending, or they are beyond repair. */
  predicate Debts(turns: seq<Turn>, p: Phase, clean: bool) {
    && (p.Calling? ==> turns != [] && turns[|turns| - 1].role == User)
    && (if clean then Owed(turns) == Some(Pending(p)) else Hopeless(Owed(turns), p))
  }

  // --- each step ---------------------------------------------------------------------------------------------

  lemma OwedSnoc(turns: seq<Turn>, t: Turn)
    ensures Owed(turns + [t]) ==
            match Owed(turns)
            case None => None
            case Some(owed) => OwedNext(owed, turns != [] && turns[|turns| - 1].role == User, t)
  {
    assert (turns + [t])[..|turns|] == turns;
  }

  lemma TextTurnIds(text: string)
    ensures ResultIds(CanonicalBlocks([TextBlock(text)])) == []
  {
    TextBlockOk(text);
    CanonicalBlockOk(TextBlock(text));
    var c := CanonicalBlocks([TextBlock(text)]);
    assert c == [CanonicalDict(TextBlock(text))] && c[1..] == [];
  }

  /** A user's text pays nothing. */
  lemma TextOwes(turns: seq<Turn>, kind: Kind, text: string, meta: Dict)
    ensures Owed(Appended(turns, User, kind, [TextBlock(text)], meta)) == Owed(turns)
  {
    var t := Appended(turns, User, kind, [TextBlock(text)], meta)[|turns|];
    TextTurnIds(text);
    OwedSnoc(turns, t);
    if Owed(turns).Some? {
      assert Owed(turns).value[0..] == Owed(turns).value;
    }
  }

  lemma ResultTurnIds(id: Json, content: Json, isError: bool)
    requires WellFormed(id) && WellFormed(content)
    ensures ResultIds(CanonicalBlocks([ResultBlock(id, content, isError)])) == [Canonical(id)]
  {
    var b := ResultBlock(id, content, isError);
    ResultBlockOk(id, content, isError);
    CanonicalBlockOk(b);
    var c := CanonicalBlocks([b]);
    assert c == [CanonicalDict(b)] && c[1..] == [];
  }

  /** The calls of a stored reply are those of the reply. */
  lemma ReplyIds(content: seq<Block>, stored: seq<Block>)
    requires ReplyOk(content) && stored == CanonicalBlocks(Kept(content))
    ensures UseIds(stored) == StoredIds(Uses(Kept(content)))
  {
    var kept := Kept(content);
    KeptFrom(content);
    forall i | 0 <= i < |kept|
      ensures IsUse(stored[i]) == IsUse(kept[i]) && Get(stored[i], "id") == Canonical(Get(kept[i], "id"))
    {
      assert kept[i] in kept;
      CanonicalUse(kept[i]);
    }
    StoredUseIds(kept, stored);
  }

  /** A reply stores one assistant turn and either gathers its calls or ends the request. */
  lemma ReplyMoves(cfg: Config, s: State, content: seq<Block>, stop: string, r: State)
    requires r == ReplyStep(cfg, s, content, stop)
    ensures |r.turns| == |s.turns| + 1 && r.turns == s.turns + [r.turns[|s.turns|]]
    ensures r.turns[|s.turns|].role == Assistant && r.turns[|s.turns|].content == CanonicalBlocks(Kept(content))
    ensures if stop == "tool_use" && Uses(Kept(content)) != [] then r.phase == Gathering(Uses(Kept(content)))
            else r.phase == Closing
  {
  }

  lemma ReplyOwes(turns: seq<Turn>, t: Turn, content: seq<Block>)
    requires turns != [] && turns[|turns| - 1].role == User && ReplyOk(content)
    requires t.role == Assistant && t.content == CanonicalBlocks(Kept(content))
    ensures Owed(turns + [t]) == if Owed(turns) == Some([]) then Some(StoredIds(Uses(Kept(content)))) else None
  {
    hide Owed, StoredIds, CanonicalBlocks;
    ReplyIds(content, t.content);
    OwedSnoc(turns, t);
  }

  /** A reply owes its calls; they are pending if it stopped for them. */
  lemma DebtsReplied(a: seq<Turn>, b: seq<Turn>, uses: seq<Block>, q: Phase, clean: bool)
    requires Debts(a, Calling, clean)
    requires Owed(b) == if Owed(a) == Some([]) then Some(StoredIds(uses)) else None
    requires q == Closing || (uses != [] && q == Gathering(uses))
    ensures Debts(b, q, clean && (uses == [] || q.Gathering?))
  {
    hide Owed;
  }

  lemma DebtsReply(cfg: Config, s: State, content: seq<Block>, stop: string, clean: bool)
    requires s.phase.Calling? && ReplyOk(content) && Debts(s.turns, s.phase, clean)
    ensures var r := ReplyStep(cfg, s, content, stop);
            Debts(r.turns, r.phase, clean && (Uses(Kept(content)) == [] || stop == "tool_use"))
  {
    var r := ReplyStep(cfg, s, content, stop);
    CallingEndsWithUser(s.turns, clean);
    hide *;
    ReplyMoves(cfg, s, content, stop, r);
    ReplyOwes(s.turns, r.turns[|s.turns|], content);
    DebtsReplied(s.turns, r.turns, Uses(Kept(content)), r.phase, clean);
  }

  lemma CallingEndsWithUser(turns: seq<Turn>, clean: bool)
    requires Debts(turns, Calling, clean)
    ensures turns != [] && turns[|turns| - 1].role == User
  {
    hide Owed;
  }

  function WithResult(turns: seq<Turn>, use: Block, o: Outcome): seq<Turn> {
    Appended(turns, User, ToolResult, [ResultBlock(Get(use, "id"), o.content, o.isError)], ResultMeta(use, o))
  }

  /** A result pays the first debt. */
  lemma ResultOwes(turns: seq<Turn>, use: Block, o: Outcome, rest: seq<Json>)
    requires WellFormedDict(use) && WellFormed(o.content)
    ensures Owed(turns) == Some([Canonical(Get(use, "id"))] + rest) ==> Owed(WithResult(turns, use, o)) == Some(rest)
    ensures Owed(turns) == None ==> Owed(WithResult(turns, use, o)) == None
  {
    GetWellFormed(use, "id");
    ResultTurnIds(Get(use, "id"), o.content, o.isError);
    OwedSnoc(turns, WithResult(turns, use, o)[|turns|]);
    hide Owed, Canonical, CanonicalBlocks;
    var id := [Canonical(Get(use, "id"))];
    assert (id + rest)[|id|..] == rest;
  }

  function Memo(cfg: Config, use: Block, o: Outcome): string
    requires RaisedTicket(use, o)
  {
    cfg.ticketMemo(Get(o.envelope.value, "ticketId"), Get(use, "input"))
  }

  function WithMemo(turns: seq<Turn>, memo: string): seq<Turn> {
    Appended(turns, User, FlowEvent, [TextBlock(memo)], [("flow", Str("ticket"))])
  }

  lemma StoredTurnsAre(cfg: Config, s: State, use: Block, o: Outcome)
    ensures Stored(cfg, s, use, o).turns ==
            var first := WithResult(s.turns, use, o);
            if RaisedTicket(use, o) then WithMemo(first, Memo(cfg, use, o)) else first
  {
  }

  lemma StoredOwes(cfg: Config, s: State, use: Block, o: Outcome, rest: seq<Json>)
    requires WellFormedDict(use) && WellFormed(o.content)
    ensures var turns := Stored(cfg, s, use, o).turns;
            && (Owed(s.turns) == Some([Canonical(Get(use, "id"))] + rest) ==> Owed(turns) == Some(rest))
            && (Owed(s.turns) == None ==> Owed(turns) == None)
            && turns != [] && turns[|turns| - 1].role == User
  {
    StoredTurnsAre(cfg, s, use, o);
    hide Owed, Canonical, Stored;
    var first := WithResult(s.turns, use, o);
    ResultOwes(s.turns, use, o, rest);
    if RaisedTicket(use, o) {
      TextOwes(first, FlowEvent, Memo(cfg, use, o), [("flow", Str("ticket"))]);
    }
  }

  lemma PendingStep(uses: seq<Block>, outcomes: seq<Outcome>, k: nat, q: Phase)
    requires k < |uses|
    requires if k + 1 < |uses| then q == Recording(uses, outcomes, k + 1) else q.Closing? || q.Calling?
    ensures Pending(Recording(uses, outcomes, k)) == [Canonical(Get(uses[k], "id"))] + Pending(q)
  {
    hide Canonical, Get;
  }

  lemma RecordMoves(cfg: Config, s: State, r: State)
    requires Enabled(s, Record) && r == RecordStep(cfg, s)
    ensures r.turns == Stored(cfg, s, s.phase.uses[s.phase.next], s.phase.outcomes[s.phase.next]).turns
    ensures if s.phase.next + 1 < |s.phase.uses|
            then r.phase == Recording(s.phase.uses, s.phase.outcomes, s.phase.next + 1)
            else r.phase.Closing? || r.phase.Calling?
  {
  }

  /** One debt is paid, and one call fewer is pending. */
  lemma DebtsPaid(a: seq<Turn>, b: seq<Turn>, p: Phase, q: Phase, id: Json, clean: bool)
    requires Debts(a, p, clean) && p.Recording? && Pending(p) == [id] + Pending(q)
    requires Owed(a) == Some([id] + Pending(q)) ==> Owed(b) == Some(Pending(q))
    requires Owed(a) == None ==> Owed(b) == None
    requires b != [] && b[|b| - 1].role == User
    ensures Debts(b, q, clean)
  {
    hide Owed, Pending;
  }

  /** Storing a result pays the first of the debts that are pending. */
  lemma DebtsStored(cfg: Config, s: State, turns: seq<Turn>, uses: seq<Block>, outcomes: seq<Outcome>, k: nat, q: Phase,
                    clean: bool)
    requires k < |uses| == |outcomes| && s.phase == Recording(uses, outcomes, k) && Debts(s.turns, s.phase, clean)
    requires WellFormedDict(uses[k]) && WellFormed(outcomes[k].content)
    requires turns == Stored(cfg, s, uses[k], outcomes[k]).turns
    requires if k + 1 < |uses| then q == Recording(uses, outcomes, k + 1) else q.Closing? || q.Calling?
    ensures Debts(turns, q, clean)
  {
    hide *;
    PendingStep(uses, outcomes, k, q);
    StoredOwes(cfg, s, uses[k], outcomes[k], Pending(q));
    DebtsPaid(s.turns, turns, s.phase, q, Canonical(Get(uses[k], "id")), clean);
  }

  predicate StoresTurns(a: Action) {
    a.Begin? || a.Reply? || a.Record? || a.Flow?
  }

  /** The steps that neither store a turn nor end the stream. */
  lemma OtherStepFacts(cfg: Config, s: State, a: Action, t: State)
    requires Enabled(s, a) && t == Next(cfg, s, a) && !StoresTurns(a) && !a.Crash? && !a.Abandon?
    ensures t.turns == s.turns && Pending(t.phase) == Pending(s.phase)
    ensures t.phase.Calling? ==> s.phase.Calling?
    ensures t.phase.Gathering? || t.phase.Recording? ==> s.phase.Gathering? || s.phase.Recording?
  {
    if a.Gathered? {
      assert StoredIds(s.phase.uses)[0..] == StoredIds(s.phase.uses);
    }
  }

  /** A step that stores no turn keeps the debts, or is the one that leaves them unpaid. */
  lemma DebtsOtherStep(cfg: Config, s: State, a: Action, t: State, clean: bool)
    requires Debts(s.turns, s.phase, clean) && t == Next(cfg, s, a) && !StoresTurns(a)
    requires s.phase.Gathering? || s.phase.Recording? ==> Pending(s.phase) != []
    ensures Debts(t.turns, t.phase, clean && PairedStep(s, a))
  {
    if Enabled(s, a) {
      if a.Crash? || a.Abandon? {
        assert t.turns == s.turns && t.phase == Idle;
        hide Owed, Next;
      } else {
        OtherStepFacts(cfg, s, a, t);
        hide Owed, Pending, Next;
      }
    }
  }

  lemma DebtsTurnStep(cfg: Config, s: State, a: Action, t: State, clean: bool)
    requires Debts(s.turns, s.phase, clean) && t == Next(cfg, s, a) && StoresTurns(a) && Enabled(s, a)
    requires s.phase.Recording? ==>
               && s.phase.next < |s.phase.uses| == |s.phase.outcomes|
               && WellFormedDict(s.phase.uses[s.phase.next]) && WellFormed(s.phase.outcomes[s.phase.next].content)
    ensures Debts(t.turns, t.phase, clean && PairedStep(s, a))
  {
    hide Debts, BeginStep, ReplyStep, RecordStep, Stored, Appended, WellFormed, WellFormedDict, ReplyOk, Uses, Kept;
    match a {
      case Begin => DebtsBegin(cfg, s, clean);
      case Reply(content, stop) => DebtsReply(cfg, s, content, stop, clean);
      case Record =>
        RecordMoves(cfg, s, t);
        DebtsStored(cfg, s, t.turns, s.phase.uses, s.phase.outcomes, s.phase.next, t.phase, clean);
      case Flow(memo, meta) => DebtsFlow(s, memo, meta, clean);
    }
  }

  lemma DebtsBegin(cfg: Config, s: State, clean: bool)
    requires Debts(s.turns, s.phase, clean) && s.phase.Arrived?
    ensures Debts(BeginStep(cfg, s).turns, BeginStep(cfg, s).phase, clean)
  {
    var t := BeginStep(cfg, s);
    assert t.turns == Appended(s.turns, User, UserText, [TextBlock(s.phase.text)], []) && t.phase == Calling;
    TextOwes(s.turns, UserText, s.phase.text, []);
    hide Owed, BeginStep;
  }

  lemma DebtsFlow(s: State, memo: string, meta: Dict, clean: bool)
    requires Debts(s.turns, s.phase, clean)
    ensures Debts(Appended(s.turns, User, FlowEvent, [TextBlock(memo)], meta), s.phase, clean)
  {
    TextOwes(s.turns, FlowEvent, memo, meta);
    hide Owed, TextBlock, CanonicalBlocks;
  }

  lemma PhaseParts(cfg: Config, s: State)
    requires PhaseOk(cfg, s)
    ensures s.phase.Gathering? || s.phase.Recording? ==> Pending(s.phase) != []
    ensures s.phase.Recording? ==>
              && s.phase.next < |s.phase.uses| == |s.phase.outcomes|
              && WellFormedDict(s.phase.uses[s.phase.next]) && WellFormed(s.phase.outcomes[s.phase.next].content)
  {
    if s.phase.Recording? {
      assert s.phase.uses[s.phase.next] in s.phase.uses;
    }
  }

  /** On every run the stored turns owe exactly the results still to be recorded, or no request can be legal again. */
  lemma {:induction false} DebtsAlways(cfg: Config, acts: seq<Action>)
    requires TurnsOk(cfg.found)
    ensures Debts(Exec(cfg, acts).turns, Exec(cfg, acts).phase, PairedRun(cfg, acts))
    decreases |acts|
  {
    if acts != [] {
      var init := acts[..|acts| - 1];
      DebtsAlways(cfg, init);
      TurnInvAlways(cfg, init);
      PhaseParts(cfg, Exec(cfg, init));
      var s, a, t := Exec(cfg, init), acts[|acts| - 1], Exec(cfg, acts);
      hide Debts, PhaseOk, TurnsOk, Next, Enabled;
      if StoresTurns(a) && Enabled(s, a) {
        DebtsTurnStep(cfg, s, a, t, PairedRun(cfg, init));
      } else if !StoresTurns(a) {
        DebtsOtherStep(cfg, s, a, t, PairedRun(cfg, init));
      } else {
        NotEnabled(cfg, s, a);
      }
    }
  }

  lemma NotEnabled(cfg: Config, s: State, a: Action)
    requires !Enabled(s, a)
    ensures Next(cfg, s, a) == s && PairedStep(s, a)
  {
  }
}
