/**
 The stub renderers (backend/app/agent/curation.py): every template with its prose, the values it shows and the
 branch that writes it. `written` is the text of a stored string that parses as JSON; of any other string the text
 is known. A renderer that raises and one that returns None both end in the generic text, so both are None here.
 */
module Renderers {
  import opened Json
  import opened Text
  import opened Curation

  datatype Tool = Holdings | Money | Brokerage | Pnl | Ledger | Gains | Note | Search | Columns | Notes

  function ToolName(t: Tool): string {
    match t
    case Holdings => "get_holdings"
    case Money => "get_money_transactions"
    case Brokerage => "get_brokerage_rates"
    case Pnl => "get_pnl_report"
    case Ledger => "get_ledger_report"
    case Gains => "get_capital_gains_report"
    case Note => "download_contract_note"
    case Search => "search_knowledge_base"
    case Columns => "get_report_columns"
    case Notes => "list_contract_notes"
  }

  const FRAME := "[App note — generated by the app, not typed by the user]"

  const MAX_NOTE_IDS: nat := 40

  // --- the recovery clause ---------------------------------------------------------------------------------------

  /** A text whose last sentence goes on, after the name of the tool, with "again". */
  ghost predicate LastSentence(text: string, before: string, tool: string, more: string) {
    text == before + tool + more + "." && " again" <= more && '.' !in more
  }

  /** The text ends in a sentence that names the tool to call again. */
  ghost predicate Actionable(text: string, tool: string) {
    exists before, more :: LastSentence(text, before, tool, more)
  }

  lemma PrependKeeps(start: string, text: string, tool: string)
    requires Actionable(text, tool)
    ensures Actionable(start + text, tool)
  {
    var before, more :| LastSentence(text, before, tool, more);
    assert start + text == (start + before) + tool + more + ".";
    assert LastSentence(start + text, start + before, tool, more);
  }

  ghost predicate Split(text: string, before: string, part: string, after: string) {
    text == before + part + after
  }

  /** The text holds this part. */
  ghost predicate Shows(text: string, part: string) {
    exists before, after :: Split(text, before, part, after)
  }

  lemma ShowsAt(before: string, part: string, after: string)
    ensures Shows(before + part + after, part)
  {
    assert Split(before + part + after, before, part, after);
  }

  lemma ShowsOn(text: string, more: string, part: string)
    requires Shows(text, part)
    ensures Shows(text + more, part) && Shows(more + text, part)
  {
    var before, after :| Split(text, before, part, after);
    assert text + more == before + part + (after + more);
    assert more + text == (more + before) + part + after;
    assert Split(text + more, before, part, after + more);
    assert Split(more + text, more + before, part, after);
  }

  lemma ShowsWithin(text: string, whole: string, part: string)
    requires Shows(text, whole) && Shows(whole, part)
    ensures Shows(text, part)
  {
    var a, b :| Split(text, a, whole, b);
    var c, d :| Split(whole, c, part, d);
    assert text == (a + c) + part + (d + b);
    assert Split(text, a + c, part, d + b);
  }

  /** A text that shows two parts and ends in the recovery clause. */
  function Template(head: string, one: string, middle: string, two: string, tail: string, tool: string, rest: string):
    (text: string)
    requires '.' !in rest
    ensures Actionable(text, tool) && Shows(text, one) && Shows(text, two)
  {
    var more := " again" + rest;
    var text := head + one + middle + two + tail + tool + more + ".";
    assert LastSentence(text, head + one + middle + two + tail, tool, more);
    assert text == head + one + (middle + two + tail + tool + more + ".");
    assert Split(text, head, one, middle + two + tail + tool + more + ".");
    assert text == head + one + middle + two + (tail + tool + more + ".");
    assert Split(text, head + one + middle, two, tail + tool + more + ".");
    text
  }

  // --- what a template shows -------------------------------------------------------------------------------------

  function Digits(n: nat): string {
    if n < 10 then ['0' + n as char] else Digits(n / 10) + ['0' + (n % 10) as char]
  }

  /** A number as Python's format writes it. */
  function Decimal(n: int): string {
    if n < 0 then "-" + Digits(-n) else Digits(n)
  }

  /** What `isinstance(value, int)` lets through, written out; it lets booleans through. */
  function Written(value: Json): Option<string> {
    match value
    case Int(n) => Some(Decimal(n))
    case Bool(b) => Some(if b then "True" else "False")
    case _ => None
  }

  /** `_count` */
  function Count(value: Json): Option<nat> {
    if value.Arr? then Some(|value.items|) else None
  }

  /** `_label`: a string as one line, if there is anything in it. */
  function Label(written: Json -> string, value: Json): (r: Option<string>)
    ensures r.Some? ==> r.value != "" && BlanksOnly(r.value) && Collapse(r.value) == r.value
  {
    if value.Str? || value.Dumped? then
      var text := if value.Str? then value.s else written(value.doc);
      CollapseIsOneLine(text);
      if Collapse(text) == "" then None else Some(Collapse(text))
    else None
  }

  /** What Python's `or` passes over. */
  predicate Falsy(j: Json) {
    j == Null || j == Bool(false) || j == Int(0) || j == Real(0.0) || j == Str("") || j == Arr([]) || j == Obj([])
  }

  /** `(view.get(key) or {}).get(part)`, None where that raises. */
  function Part(view: Dict, key: string, part: string): Option<Json> {
    var j := Get(view, key);
    if Falsy(j) then Some(Null) else if j.Obj? then Some(Get(j.fields, part)) else None
  }

  /** The labels under `key`, of the items that are dicts and have one. */
  function Labels(written: Json -> string, items: seq<Json>, key: string): seq<string> {
    if items == [] then []
    else
      var text := if items[0].Obj? then Label(written, Get(items[0].fields, key)) else None;
      (if text.Some? then [text.value] else []) + Labels(written, items[1..], key)
  }

  /** `id = date segment`, for a note that has an id. */
  function NotePair(written: Json -> string, note: Json): Option<string> {
    if !note.Obj? then None
    else
      var id := Label(written, Get(note.fields, "id"));
      var date, segment := Label(written, Get(note.fields, "date")), Label(written, Get(note.fields, "segment"));
      var parts := (if date.Some? then [date.value] else []) + (if segment.Some? then [segment.value] else []);
      if id.None? || parts == [] then id else Some(id.value + " = " + Join(parts, " "))
  }

  function NotePairs(written: Json -> string, notes: seq<Json>): seq<string> {
    if notes == [] then []
    else
      var pair := NotePair(written, notes[0]);
      (if pair.Some? then [pair.value] else []) + NotePairs(written, notes[1..])
  }

  /** `notes[-40:]` */
  function Newest(notes: seq<Json>): seq<Json> {
    if |notes| > MAX_NOTE_IDS then notes[|notes| - MAX_NOTE_IDS..] else notes
  }

  // --- the templates ---------------------------------------------------------------------------------------------

  const CLEARED := " result cleared. "

  /** `_generic` */
  function Generic(tool: string): (text: string)
    ensures Actionable(text, tool)
  {
    Template(FRAME + " " + tool + CLEARED, "Its result was already delivered to the user", "; ",
             "the data is no longer in this transcript", " — call ", tool, " if you need it")
  }

  function HoldingsEmpty(): (text: string)
    ensures Actionable(text, "get_holdings") && Shows(text, "The user had no holdings")
  {
    Template(FRAME + " get_holdings" + CLEARED, "The user had no holdings", "; ",
             "the empty-state card rendered in the chat", ". Call ", "get_holdings",
             " to check whether that is still true")
  }

  function HoldingsCard(count: string): (text: string)
    ensures Actionable(text, "get_holdings") && Shows(text, count + " holdings")
  {
    Template(FRAME + " get_holdings" + CLEARED + "The holdings card rendered in the chat with ", count + " holdings",
             " (value, invested, P&L and day change shown to the user). ",
             "The figures are no longer in this transcript", " — call ", "get_holdings", " if you need them")
  }

  /** Placed before the recovery clause, so that the text still ends with that. */
  function PartialClause(partial: bool): string {
    if partial then " One direction was unavailable for that card." else ""
  }

  function MoneyEmpty(partial: bool): (text: string)
    ensures Actionable(text, "get_money_transactions")
    ensures Shows(text, "The user had no money movements") && Shows(text, PartialClause(partial))
  {
    Template(FRAME + " get_money_transactions" + CLEARED, "The user had no money movements",
             " this financial year; the empty-state card rendered in the chat.", PartialClause(partial), " Call ",
             "get_money_transactions", " if you need the current list")
  }

  function MoneyCard(count: nat, partial: bool): (text: string)
    ensures Actionable(text, "get_money_transactions")
    ensures Shows(text, Decimal(count) + " pay-in/pay-out transactions") && Shows(text, PartialClause(partial))
  {
    Template(FRAME + " get_money_transactions" + CLEARED + "The money-movements card rendered in the chat with ",
             Decimal(count) + " pay-in/pay-out transactions", " for the current financial year.",
             PartialClause(partial), " The figures are no longer in this transcript — call ",
             "get_money_transactions", " if you need them")
  }

  function BrokerageEmpty(): (text: string)
    ensures Actionable(text, "get_brokerage_rates") && Shows(text, "No rate card was available")
  {
    Template(FRAME + " get_brokerage_rates" + CLEARED, "No rate card was available", " for this client; ",
             "the empty-state card rendered in the chat", ". Call ", "get_brokerage_rates", " if you need it")
  }

  function BrokerageCard(count: nat): (text: string)
    ensures Actionable(text, "get_brokerage_rates") && Shows(text, Decimal(count) + " rate groups")
  {
    Template(FRAME + " get_brokerage_rates" + CLEARED + "The brokerage rate card rendered in the chat with ",
             Decimal(count) + " rate groups", ". ", "The rates are no longer in this transcript", " — call ",
             "get_brokerage_rates", " if you need them")
  }

  function FileEmailed(tool: string): (text: string)
    ensures Actionable(text, tool) && Shows(text, "sent to the user's registered email")
  {
    Template(FRAME + " " + tool + CLEARED + "The report was ", "sent to the user's registered email",
             ", as confirmed in the chat", "", ". Call ", tool, " if the user wants it re-sent")
  }

  /** How a delivered file is named. */
  function FileIs(name: Option<string>): string {
    if name.Some? then "The file " + name.value + " was" else "The file was"
  }

  function FileCard(tool: string, name: Option<string>): (text: string)
    ensures Actionable(text, tool)
    ensures Shows(text, FileIs(name)) && Shows(text, "delivered in the chat as a download card")
  {
    Template(FRAME + " " + tool + CLEARED, FileIs(name), " ", "delivered in the chat as a download card",
             ". The download link is no longer in this transcript — call ", tool,
             " if the user wants it re-sent")
  }

  function SearchEmpty(): (text: string)
    ensures Actionable(text, "search_knowledge_base") && Shows(text, "no usable support answers")
  {
    Template(FRAME + " search_knowledge_base" + CLEARED + "The search above returned ", "no usable support answers",
             ".", "", " Call ", "search_knowledge_base", " with a different query" + " if the user follows up")
  }

  function SearchHits(count: nat, questions: string): (text: string)
    ensures Actionable(text, "search_knowledge_base")
    ensures Shows(text, Decimal(count) + " support answers") && Shows(text, questions)
  {
    Template(FRAME + " search_knowledge_base result cleared, matched questions kept. The search above returned ",
             Decimal(count) + " support answers", ", which you already used in your reply — ", questions,
             ". The answer text is no longer in this transcript — call ", "search_knowledge_base",
             " if the user follows up on any of them")
  }

  function ColumnList(report: string, count: nat): (text: string)
    ensures Actionable(text, "get_report_columns")
    ensures Shows(text, "the " + report + " report") && Shows(text, Decimal(count) + " columns")
  {
    Template(FRAME + " get_report_columns" + CLEARED + "The column list for ", "the " + report + " report", " (",
             Decimal(count) + " columns", ") was returned and you already used it. "
             + "The labels are no longer in this transcript — call ", "get_report_columns",
             " before describing any report column")
  }

  function NotesEmpty(): (text: string)
    ensures Actionable(text, "list_contract_notes") && Shows(text, "No contract notes exist")
  {
    Template(FRAME + " list_contract_notes" + CLEARED, "No contract notes exist", " for the range in the call above",
             "", ". Call ", "list_contract_notes", " with a different range if the user asks")
  }

  function OlderDropped(): (text: string)
    ensures Actionable(text, "list_contract_notes") && Shows(text, "Older ids were dropped")
  {
    Template(" ", "Older ids were dropped", "", "", " — call ", "list_contract_notes",
             " with a narrower range if the" + " user asks for one of those")
  }

  function NotesKept(count: nat, pairs: string): (text: string)
    ensures Actionable(text, "list_contract_notes")
    ensures Shows(text, Decimal(count) + " contract notes") && Shows(text, pairs)
  {
    Template(FRAME + " list_contract_notes result cleared, ids kept. ", Decimal(count) + " contract notes",
             " were returned for the range in the call above and offered to the user. "
             + "Ids for download_contract_note — ", pairs,
             ". These ids expire about 10 minutes after they were issued; if a download bounces, call ",
             "list_contract_notes", "")
  }

  function NotesList(count: nat, pairs: string): (text: string)
    ensures Actionable(text, "list_contract_notes")
    ensures Shows(text, Decimal(count) + " contract notes") && Shows(text, pairs)
    ensures count > MAX_NOTE_IDS ==> Shows(text, "Older ids were dropped")
  {
    hide NotesKept, OlderDropped, Decimal, Actionable, Shows;
    var text := NotesKept(count, pairs);
    if count > MAX_NOTE_IDS then
      PrependKeeps(text, OlderDropped(), "list_contract_notes");
      ShowsOn(text, OlderDropped(), Decimal(count) + " contract notes");
      ShowsOn(text, OlderDropped(), pairs);
      ShowsOn(OlderDropped(), text, "Older ids were dropped");
      text + OlderDropped()
    else text
  }

  // --- the renderers ---------------------------------------------------------------------------------------------

  /** The template a renderer picks, with the values it fills in. */
  datatype Phrase =
    | NoHoldings
    | SomeHoldings(count: string)
    | NoMoney(partial: bool)
    | SomeMoney(n: nat, partial: bool)
    | NoRates
    | SomeRates(n: nat)
    | Emailed(tool: Tool)
    | Delivered(tool: Tool, name: Option<string>)
    | NoAnswers
    | SomeAnswers(n: nat, questions: string)
    | ColumnsOf(report: string, n: nat)
    | NoNotes
    | SomeNotes(n: nat, pairs: string)

  /** Whose template it is. */
  function PhraseTool(p: Phrase): Tool {
    match p
    case NoHoldings | SomeHoldings(_) => Holdings
    case NoMoney(_) | SomeMoney(_, _) => Money
    case NoRates | SomeRates(_) => Brokerage
    case Emailed(tool) => tool
    case Delivered(tool, _) => tool
    case NoAnswers | SomeAnswers(_, _) => Search
    case ColumnsOf(_, _) => Columns
    case NoNotes | SomeNotes(_, _) => Notes
  }

  function TextOf(p: Phrase): string {
    match p
    case NoHoldings => HoldingsEmpty()
    case SomeHoldings(count) => HoldingsCard(count)
    case NoMoney(partial) => MoneyEmpty(partial)
    case SomeMoney(n, partial) => MoneyCard(n, partial)
    case NoRates => BrokerageEmpty()
    case SomeRates(n) => BrokerageCard(n)
    case Emailed(tool) => FileEmailed(ToolName(tool))
    case Delivered(tool, name) => FileCard(ToolName(tool), name)
    case NoAnswers => SearchEmpty()
    case SomeAnswers(n, questions) => SearchHits(n, questions)
    case ColumnsOf(report, n) => ColumnList(report, n)
    case NoNotes => NotesEmpty()
    case SomeNotes(n, pairs) => NotesList(n, pairs)
  }

  function PickHoldings(view: Dict): Option<Phrase> {
    var kind, count := Get(view, "kind"), Part(view, "totals", "count");
    if kind == Str("empty") then Some(NoHoldings)
    else if kind != Str("ok") || count.None? then None
    else
      match Written(count.value)
      case Some(n) => Some(SomeHoldings(n))
      case None => None
  }

  function PickMoney(view: Dict): Option<Phrase> {
    var kind, partial, count := Get(view, "kind"), Get(view, "partial") == Bool(true), Count(Get(view, "txns"));
    if kind == Str("empty") then Some(NoMoney(partial))
    else if kind != Str("ok") || count.None? then None
    else Some(SomeMoney(count.value, partial))
  }

  function PickBrokerage(view: Dict): Option<Phrase> {
    var kind, count := Get(view, "kind"), Count(Get(view, "groups"));
    if kind == Str("empty") then Some(NoRates)
    else if kind != Str("ok") || count.None? then None
    else Some(SomeRates(count.value))
  }

  function PickFile(written: Json -> string, t: Tool, view: Dict): Option<Phrase> {
    var delivery, name := Get(view, "delivery"), Part(view, "file", "name");
    if delivery == Str("email") then Some(Emailed(t))
    else if delivery != Str("download") || name.None? then None
    else Some(Delivered(t, Label(written, name.value)))
  }

  function PickSearch(written: Json -> string, view: Dict): Option<Phrase> {
    var results := Get(view, "results");
    if Get(view, "kind") != Str("ok") || !results.Arr? then None
    else
      var questions := Labels(written, results.items, "question");
      if questions == [] then Some(NoAnswers) else Some(SomeAnswers(|results.items|, Join(questions, "; ")))
  }

  function PickColumns(written: Json -> string, view: Dict): Option<Phrase> {
    var count, report := Count(Get(view, "columns")), Label(written, Get(view, "report"));
    if count.None? then None
    else Some(ColumnsOf(if report.Some? then report.value else "requested", count.value))
  }

  function PickNotes(written: Json -> string, view: Dict): Option<Phrase> {
    var notes := Get(view, "notes");
    if !notes.Arr? then None
    else if notes.items == [] then Some(NoNotes)
    else
      var pairs := NotePairs(written, Newest(notes.items));
      if pairs == [] then None else Some(SomeNotes(|notes.items|, Join(pairs, "; ")))
  }

  function Pick(written: Json -> string, t: Tool, view: Dict): Option<Phrase> {
    match t
    case Holdings => PickHoldings(view)
    case Money => PickMoney(view)
    case Brokerage => PickBrokerage(view)
    case Search => PickSearch(written, view)
    case Columns => PickColumns(written, view)
    case Notes => PickNotes(written, view)
    case _ => PickFile(written, t, view)
  }

  /** The renderer of `t`. */
  function RenderTool(written: Json -> string, t: Tool, view: Dict): Option<string> {
    match Pick(written, t, view)
    case Some(p) => Some(TextOf(p))
    case None => None
  }

  /** `_ALLOWED_KEYS` */
  function Allowed(t: Tool): set<string> {
    match t
    case Holdings => {"kind", "totals", "count"}
    case Money => {"kind", "txns", "partial"}
    case Brokerage => {"kind", "groups"}
    case Search => {"kind", "results", "question"}
    case Columns => {"report", "columns"}
    case Notes => {"notes", "id", "date", "segment"}
    case _ => {"delivery", "file", "name"}
  }

  /** No two tools of the table share a name. */
  lemma SourceNamesDistinct(s: Tool, t: Tool)
    ensures ToolName(s) == ToolName(t) <==> s == t
  {
    if ToolName(s) == ToolName(t) {
      assert ToolName(s)[0] == ToolName(t)[0] && |ToolName(s)| == |ToolName(t)|;
      assert ToolName(s)[4] == ToolName(t)[4] && ToolName(s)[8] == ToolName(t)[8];
    }
  }

  ghost function Owner(name: string): (t: Tool)
    requires exists t: Tool :: ToolName(t) == name
    ensures ToolName(t) == name
  {
    var t: Tool :| ToolName(t) == name;
    t
  }

  /** A table by tool name. */
  ghost function Table<V>(of: Tool -> V): (table: map<string, V>)
    ensures forall t: Tool :: ToolName(t) in table && table[ToolName(t)] == of(t)
  {
    var names := set t: Tool | true :: ToolName(t);
    assert forall t: Tool :: ToolName(t) in names && Owner(ToolName(t)) == t by {
      forall t: Tool ensures Owner(ToolName(t)) == t {
        SourceNamesDistinct(Owner(ToolName(t)), t);
      }
    }
    map name | name in names :: of(Owner(name))
  }

  function RendererOf(written: Json -> string, t: Tool): (r: Dict -> Option<string>)
    ensures forall view :: r(view) == RenderTool(written, t, view)
  {
    view => RenderTool(written, t, view)
  }

  /** `_RENDERERS`, `_ALLOWED_KEYS`, `_KEEP_VERBATIM` and `_generic`. */
  ghost function Standard(written: Json -> string): Registry {
    Registry(Table(t => RendererOf(written, t)), Table(Allowed), {"open_report_form", "raise_support_ticket"}, Generic)
  }

  /** The stub of a stored result of tool `t`. */
  ghost function Stub(written: Json -> string, t: Tool, raw: Json): string {
    Render(Standard(written), ToolName(t), raw)
  }

  // --- every stub says how to recover ----------------------------------------------------------------------------

  lemma TextActionable(p: Phrase)
    ensures Actionable(TextOf(p), ToolName(PhraseTool(p)))
  {
    hide HoldingsEmpty, HoldingsCard, MoneyEmpty, MoneyCard, BrokerageEmpty, BrokerageCard, FileEmailed, FileCard,
      SearchEmpty, SearchHits, ColumnList, NotesEmpty, NotesList, Actionable;
  }

  /** Each renderer writes templates of its own tool. */
  lemma PicksOwn(written: Json -> string, t: Tool, view: Dict)
    ensures Pick(written, t, view).Some? ==> PhraseTool(Pick(written, t, view).value) == t
  {
  }

  /** The last sentence of every stub of every tool, whatever was stored, names the tool to call again. */
  lemma StubsActionable(written: Json -> string, t: Tool, raw: Json)
    ensures Actionable(Stub(written, t, raw), ToolName(t))
  {
    hide TextOf, ToolName, Generic, Actionable;
    var envelope := Envelope(raw);
    if envelope.Obj? {
      var view := Prune(envelope, Allowed(t)).fields;
      PicksOwn(written, t, view);
      if Pick(written, t, view).Some? {
        TextActionable(Pick(written, t, view).value);
      }
    }
  }

  // --- what a stub can show --------------------------------------------------------------------------------------

  lemma {:induction false} PruneGet(fields: Dict, allowed: set<string>, key: string)
    requires key in allowed
    ensures Get(Prune(Obj(fields), allowed).fields, key) == Prune(Get(fields, key), allowed)
  {
    if fields != [] {
      var first, rest := fields[0], Prune(Obj(fields[1..]), allowed).fields;
      PruneGet(fields[1..], allowed, key);
      if first.0 in allowed {
        assert Prune(Obj(fields), allowed).fields == [(first.0, Prune(first.1, allowed))] + rest;
        assert ([(first.0, Prune(first.1, allowed))] + rest)[1..] == rest;
      } else {
        assert Prune(Obj(fields), allowed).fields == rest;
      }
    }
  }

  /** Cutting the front off a list before or after pruning it. */
  lemma PruneDrop(items: seq<Json>, allowed: set<string>, n: nat)
    requires n <= |items|
    ensures Prune(Arr(items), allowed).items[n..] == Prune(Arr(items[n..]), allowed).items
  {
  }

  lemma PartPruned(fields: Dict, allowed: set<string>, key: string, part: string)
    requires key in allowed && part in allowed
    ensures var p, q := Part(fields, key, part), Part(Prune(Obj(fields), allowed).fields, key, part);
            p.Some? == q.Some? && (p.Some? ==> q.value == Prune(p.value, allowed))
  {
    PruneGet(fields, allowed, key);
    var j := Get(fields, key);
    if j.Obj? {
      PruneGet(j.fields, allowed, part);
    }
  }

  lemma LabelPruned(written: Json -> string, value: Json, allowed: set<string>)
    ensures Label(written, Prune(value, allowed)) == Label(written, value)
  {
  }

  lemma {:induction false} LabelsPruned(written: Json -> string, items: seq<Json>, allowed: set<string>, key: string)
    requires key in allowed
    ensures Labels(written, Prune(Arr(items), allowed).items, key) == Labels(written, items, key)
  {
    if items != [] {
      PruneDrop(items, allowed, 1);
      LabelsPruned(written, items[1..], allowed, key);
      if items[0].Obj? {
        PruneGet(items[0].fields, allowed, key);
        LabelPruned(written, Get(items[0].fields, key), allowed);
      }
    }
  }

  lemma NotePairPruned(written: Json -> string, note: Json, allowed: set<string>)
    requires {"id", "date", "segment"} <= allowed
    ensures NotePair(written, Prune(note, allowed)) == NotePair(written, note)
  {
    if note.Obj? {
      PruneGet(note.fields, allowed, "id");
      PruneGet(note.fields, allowed, "date");
      PruneGet(note.fields, allowed, "segment");
      LabelPruned(written, Get(note.fields, "id"), allowed);
      LabelPruned(written, Get(note.fields, "date"), allowed);
      LabelPruned(written, Get(note.fields, "segment"), allowed);
    }
  }

  lemma {:induction false} NotePairsPruned(written: Json -> string, notes: seq<Json>, allowed: set<string>)
    requires {"id", "date", "segment"} <= allowed
    ensures NotePairs(written, Prune(Arr(notes), allowed).items) == NotePairs(written, notes)
  {
    if notes != [] {
      PruneDrop(notes, allowed, 1);
      NotePairsPruned(written, notes[1..], allowed);
      NotePairPruned(written, notes[0], allowed);
    }
  }

  lemma NewestPruned(notes: seq<Json>, allowed: set<string>)
    ensures Newest(Prune(Arr(notes), allowed).items) == Prune(Arr(Newest(notes)), allowed).items
  {
    if |notes| > MAX_NOTE_IDS {
      PruneDrop(notes, allowed, |notes| - MAX_NOTE_IDS);
    }
  }

  lemma PickHoldingsPruned(fields: Dict, allowed: set<string>)
    requires {"kind", "totals", "count"} <= allowed
    ensures PickHoldings(Prune(Obj(fields), allowed).fields) == PickHoldings(fields)
  {
    PruneGet(fields, allowed, "kind");
    PartPruned(fields, allowed, "totals", "count");
  }

  lemma PickMoneyPruned(fields: Dict, allowed: set<string>)
    requires {"kind", "txns", "partial"} <= allowed
    ensures PickMoney(Prune(Obj(fields), allowed).fields) == PickMoney(fields)
  {
    PruneGet(fields, allowed, "kind");
    PruneGet(fields, allowed, "txns");
    PruneGet(fields, allowed, "partial");
  }

  lemma PickBrokeragePruned(fields: Dict, allowed: set<string>)
    requires {"kind", "groups"} <= allowed
    ensures PickBrokerage(Prune(Obj(fields), allowed).fields) == PickBrokerage(fields)
  {
    PruneGet(fields, allowed, "kind");
    PruneGet(fields, allowed, "groups");
  }

  lemma PickNotesPruned(written: Json -> string, fields: Dict, allowed: set<string>)
    requires {"notes", "id", "date", "segment"} <= allowed
    ensures PickNotes(written, Prune(Obj(fields), allowed).fields) == PickNotes(written, fields)
  {
    PruneGet(fields, allowed, "notes");
    var notes := Get(fields, "notes");
    if notes.Arr? {
      NewestPruned(notes.items, allowed);
      NotePairsPruned(written, Newest(notes.items), allowed);
    }
  }

  lemma PickSearchPruned(written: Json -> string, fields: Dict, allowed: set<string>)
    requires {"kind", "results", "question"} <= allowed
    ensures PickSearch(written, Prune(Obj(fields), allowed).fields) == PickSearch(written, fields)
  {
    PruneGet(fields, allowed, "kind");
    PruneGet(fields, allowed, "results");
    if Get(fields, "results").Arr? {
      LabelsPruned(written, Get(fields, "results").items, allowed, "question");
    }
  }

  lemma PickFilePruned(written: Json -> string, t: Tool, fields: Dict, allowed: set<string>)
    requires {"delivery", "file", "name"} <= allowed
    ensures PickFile(written, t, Prune(Obj(fields), allowed).fields) == PickFile(written, t, fields)
  {
    PruneGet(fields, allowed, "delivery");
    PartPruned(fields, allowed, "file", "name");
    if Part(fields, "file", "name").Some? {
      LabelPruned(written, Part(fields, "file", "name").value, allowed);
    }
  }

  lemma PickColumnsPruned(written: Json -> string, fields: Dict, allowed: set<string>)
    requires {"report", "columns"} <= allowed
    ensures PickColumns(written, Prune(Obj(fields), allowed).fields) == PickColumns(written, fields)
  {
    PruneGet(fields, allowed, "report");
    PruneGet(fields, allowed, "columns");
    LabelPruned(written, Get(fields, "report"), allowed);
  }

  /** The whitelist grants each renderer all it reads: pruning the envelope first does not change what it writes. */
  lemma WhitelistSuffices(written: Json -> string, t: Tool, fields: Dict)
    ensures Pick(written, t, Prune(Obj(fields), Allowed(t)).fields) == Pick(written, t, fields)
  {
    var allowed := Allowed(t);
    match t
    case Holdings => PickHoldingsPruned(fields, allowed);
    case Money => PickMoneyPruned(fields, allowed);
    case Brokerage => PickBrokeragePruned(fields, allowed);
    case Search => PickSearchPruned(written, fields, allowed);
    case Columns => PickColumnsPruned(written, fields, allowed);
    case Notes => PickNotesPruned(written, fields, allowed);
    case _ => PickFilePruned(written, t, fields, allowed);
  }

  /** Alike in all that a stub of `t` may show: kinds and flags, lengths of lists, and labels the customer has seen. */
  predicate SameShown(written: Json -> string, t: Tool, f: Dict, g: Dict) {
    match t
    case Holdings => SameValue(f, g, "kind") && Part(f, "totals", "count") == Part(g, "totals", "count")
    case Money => SameValue(f, g, "kind") && SameValue(f, g, "partial") && SameLength(f, g, "txns")
    case Brokerage => SameValue(f, g, "kind") && SameLength(f, g, "groups")
    case Search =>
      && SameValue(f, g, "kind") && SameLength(f, g, "results")
      && var p, q := Get(f, "results"), Get(g, "results");
         (p.Arr? ==> Labels(written, p.items, "question") == Labels(written, q.items, "question"))
    case Columns => SameLength(f, g, "columns") && Label(written, Get(f, "report")) == Label(written, Get(g, "report"))
    case Notes =>
      && SameLength(f, g, "notes")
      && var p, q := Get(f, "notes"), Get(g, "notes");
         (p.Arr? ==> NotePairs(written, Newest(p.items)) == NotePairs(written, Newest(q.items)))
    case _ =>
      && SameValue(f, g, "delivery")
      && var p, q := Part(f, "file", "name"), Part(g, "file", "name");
         (Get(f, "delivery") == Str("download") ==> SameFileName(written, p, q))
  }

  predicate SameValue(f: Dict, g: Dict, key: string) {
    Get(f, key) == Get(g, key)
  }

  predicate SameLength(f: Dict, g: Dict, key: string) {
    Count(Get(f, key)) == Count(Get(g, key))
  }

  predicate SameFileName(written: Json -> string, p: Option<Json>, q: Option<Json>) {
    p.Some? == q.Some? && (p.Some? ==> Label(written, p.value) == Label(written, q.value))
  }

  lemma SameShownSamePick(written: Json -> string, t: Tool, f: Dict, g: Dict)
    requires SameShown(written, t, f, g)
    ensures Pick(written, t, f) == Pick(written, t, g)
  {
  }

  /** Whatever else two envelopes hold, amounts, prices, scrip names, masked addresses, they leave the same stub. */
  lemma StubShowsOnly(written: Json -> string, t: Tool, f: Dict, g: Dict)
    requires SameShown(written, t, f, g)
    ensures Stub(written, t, Dumped(Obj(f))) == Stub(written, t, Dumped(Obj(g)))
  {
    hide TextOf, ToolName, Generic, Pick, Allowed, SameShown;
    WhitelistSuffices(written, t, f);
    WhitelistSuffices(written, t, g);
    SameShownSamePick(written, t, f, g);
  }

  // --- what a stub tells -----------------------------------------------------------------------------------------

  /** The number a text of digits stands for. */
  function Value(s: string): int {
    if s == "" then 0 else Value(s[..|s| - 1]) * 10 + (s[|s| - 1] as int - '0' as int)
  }

  /** A number is written in digits that read back as that number. */
  lemma {:induction false} DigitsRead(n: nat)
    ensures Value(Digits(n)) == n && Digits(n) != "" && forall i | 0 <= i < |Digits(n)| :: '0' <= Digits(n)[i] <= '9'
  {
    if n >= 10 {
      DigitsRead(n / 10);
      assert Digits(n)[..|Digits(n)| - 1] == Digits(n / 10);
    }
  }

  lemma {:induction false} JoinShows(ls: seq<string>, separator: string, i: nat)
    requires i < |ls|
    ensures Shows(Join(ls, separator), ls[i])
  {
    if |ls| == 1 {
      ShowsAt("", ls[0], "");
      assert "" + ls[0] + "" == ls[0];
    } else if i == 0 {
      var rest := separator + Join(ls[1..], separator);
      ShowsAt("", ls[0], rest);
      assert "" + ls[0] + rest == ls[0] + separator + Join(ls[1..], separator);
    } else {
      JoinShows(ls[1..], separator, i - 1);
      ShowsOn(Join(ls[1..], separator), ls[0] + separator, ls[i]);
    }
  }

  lemma JoinShowsAll(text: string, ls: seq<string>, separator: string)
    requires Shows(text, Join(ls, separator))
    ensures forall l | l in ls :: Shows(text, l)
  {
    hide Join, Shows;
    forall l | l in ls ensures Shows(text, l) {
      var i :| 0 <= i < |ls| && ls[i] == l;
      JoinShows(ls, separator, i);
      ShowsWithin(text, Join(ls, separator), l);
    }
  }

  /** The item is a dict with this label under `key`. */
  predicate Labelled(written: Json -> string, item: Json, key: string, l: string) {
    item.Obj? && Label(written, Get(item.fields, key)) == Some(l)
  }

  lemma {:induction false} LabelsAre(written: Json -> string, items: seq<Json>, key: string, l: string)
    ensures l in Labels(written, items, key) <==> exists item :: item in items && Labelled(written, item, key, l)
  {
    if items != [] {
      var first, rest := items[0], items[1..];
      LabelsAre(written, rest, key, l);
      assert items == [first] + rest;
      assert l in Labels(written, items, key) <==> Labelled(written, first, key, l) || l in Labels(written, rest, key);
      hide Labelled, Labels;
      assert first in items && forall item | item in rest :: item in items;
    }
  }

  lemma {:induction false} PairsShow(written: Json -> string, notes: seq<Json>, note: Json, id: string)
    requires note in notes && Labelled(written, note, "id", id)
    ensures exists pair :: pair in NotePairs(written, notes) && Shows(pair, id)
  {
    if notes[0] == note {
      hide Label, Get, Shows;
      var pair := NotePair(written, note);
      PairShows(written, note, id);
      assert pair.value in NotePairs(written, notes);
    } else {
      PairsShow(written, notes[1..], note, id);
    }
  }

  lemma PairShows(written: Json -> string, note: Json, id: string)
    requires Labelled(written, note, "id", id)
    ensures NotePair(written, note).Some? && Shows(NotePair(written, note).value, id)
  {
    hide Label, Get, Shows, Join;
    var rest := NotePair(written, note).value[|id|..];
    ShowsAt("", id, rest);
    assert "" + id + rest == NotePair(written, note).value;
  }

  /** What the stub that replaces an envelope tells of it, tool by tool; of any other envelope nothing is told. */
  ghost predicate Tells(written: Json -> string, t: Tool, f: Dict, text: string) {
    match t
    case Holdings =>
      if Get(f, "kind") == Str("empty") then Shows(text, "The user had no holdings")
      else if Get(f, "kind") == Str("ok") && Get(f, "totals").Obj? && Get(Get(f, "totals").fields, "count").Int? then
        Shows(text, Decimal(Get(Get(f, "totals").fields, "count").n) + " holdings")
      else Get(f, "kind") != Str("ok") ==> text == Generic(ToolName(t))
    case Money =>
      && (if Get(f, "kind") == Str("empty") then Shows(text, "The user had no money movements")
          else if Get(f, "kind") == Str("ok") && Get(f, "txns").Arr? then
            Shows(text, Decimal(|Get(f, "txns").items|) + " pay-in/pay-out transactions")
          else text == Generic(ToolName(t)))
      && (text != Generic(ToolName(t)) ==>
            (Get(f, "partial") == Bool(true) ==> Shows(text, " One direction was unavailable for that card.")))
    case Brokerage =>
      if Get(f, "kind") == Str("empty") then Shows(text, "No rate card was available")
      else if Get(f, "kind") == Str("ok") && Get(f, "groups").Arr? then
        Shows(text, Decimal(|Get(f, "groups").items|) + " rate groups")
      else text == Generic(ToolName(t))
    case Search =>
      if Get(f, "kind") != Str("ok") || !Get(f, "results").Arr? then text == Generic(ToolName(t))
      else SearchTells(written, Get(f, "results").items, text)
    case Columns =>
      if !Get(f, "columns").Arr? then text == Generic(ToolName(t))
      else
        && Shows(text, Decimal(|Get(f, "columns").items|) + " columns")
        && (forall l | Label(written, Get(f, "report")) == Some(l) :: Shows(text, "the " + l + " report"))
    case Notes =>
      if !Get(f, "notes").Arr? then text == Generic(ToolName(t))
      else NotesTell(written, Get(f, "notes").items, text)
    case _ => FileTells(written, t, f, text)
  }

  /** How a report was delivered and, of a download, the name of the file. */
  ghost predicate FileTells(written: Json -> string, t: Tool, f: Dict, text: string) {
    if Get(f, "delivery") == Str("email") then Shows(text, "sent to the user's registered email")
    else if Get(f, "delivery") != Str("download") then text == Generic(ToolName(t))
    else if Get(f, "file").Obj? then
      DownloadTells(Label(written, Get(Get(f, "file").fields, "name")), text)
    else true
  }

  ghost predicate DownloadTells(name: Option<string>, text: string) {
    && Shows(text, "delivered in the chat as a download card")
    && (name.Some? ==> Shows(text, "The file " + name.value + " was"))
  }

  /** The question of one of the answers. */
  ghost predicate Matched(written: Json -> string, items: seq<Json>, question: string) {
    exists item :: item in items && Labelled(written, item, "question", question)
  }

  /** The number of answers and every question that was matched. */
  ghost predicate SearchTells(written: Json -> string, items: seq<Json>, text: string) {
    if forall q :: !Matched(written, items, q) then Shows(text, "no usable support answers")
    else
      && Shows(text, Decimal(|items|) + " support answers")
      && (forall q | Matched(written, items, q) :: Shows(text, q))
  }

  /** The id of one of the newest forty notes. */
  ghost predicate IdIn(written: Json -> string, items: seq<Json>, id: string) {
    exists i :: 0 <= i && |items| - 40 <= i < |items| && Labelled(written, items[i], "id", id)
  }

  /** The number of notes and the id of each of the newest forty. */
  ghost predicate NotesTell(written: Json -> string, items: seq<Json>, text: string) {
    if items == [] then Shows(text, "No contract notes exist")
    else if forall id :: !IdIn(written, items, id) then text == Generic(ToolName(Notes))
    else
      && Shows(text, Decimal(|items|) + " contract notes") && (|items| > 40 ==> Shows(text, "Older ids were dropped"))
      && (forall id | IdIn(written, items, id) :: Shows(text, id))
  }

  /** What each template shows of the values it is filled with. */
  ghost predicate PhraseTells(p: Phrase, text: string) {
    match p
    case NoHoldings => Shows(text, "The user had no holdings")
    case SomeHoldings(count) => Shows(text, count + " holdings")
    case NoMoney(partial) => Shows(text, "The user had no money movements") && Shows(text, PartialClause(partial))
    case SomeMoney(n, partial) =>
      Shows(text, Decimal(n) + " pay-in/pay-out transactions") && Shows(text, PartialClause(partial))
    case NoRates => Shows(text, "No rate card was available")
    case SomeRates(n) => Shows(text, Decimal(n) + " rate groups")
    case Emailed(_) => Shows(text, "sent to the user's registered email")
    case Delivered(_, name) => Shows(text, FileIs(name)) && Shows(text, "delivered in the chat as a download card")
    case NoAnswers => Shows(text, "no usable support answers")
    case SomeAnswers(n, questions) => Shows(text, Decimal(n) + " support answers") && Shows(text, questions)
    case ColumnsOf(report, n) => Shows(text, "the " + report + " report") && Shows(text, Decimal(n) + " columns")
    case NoNotes => Shows(text, "No contract notes exist")
    case SomeNotes(n, pairs) =>
      && Shows(text, Decimal(n) + " contract notes") && Shows(text, pairs)
      && (n > 40 ==> Shows(text, "Older ids were dropped"))
  }

  lemma TextTells(p: Phrase)
    ensures PhraseTells(p, TextOf(p))
  {
    hide HoldingsEmpty, HoldingsCard, MoneyEmpty, MoneyCard, BrokerageEmpty, BrokerageCard, FileEmailed, FileCard,
      SearchEmpty, SearchHits, ColumnList, NotesEmpty, NotesList, Actionable, Shows, Decimal, PartialClause, FileIs;
  }

  /** A text of the picked template, or the generic one. */
  ghost predicate Phrased(p: Option<Phrase>, t: Tool, text: string) {
    match p
    case Some(phrase) => PhraseTells(phrase, text)
    case None => text == Generic(ToolName(t))
  }

  lemma StubIsPhrased(written: Json -> string, t: Tool, f: Dict)
    ensures Phrased(Pick(written, t, f), t, Stub(written, t, Dumped(Obj(f))))
  {
    hide TextOf, ToolName, Generic, Pick, Allowed, Actionable, PhraseTells;
    WhitelistSuffices(written, t, f);
    if Pick(written, t, f).Some? {
      TextTells(Pick(written, t, f).value);
      TextActionable(Pick(written, t, f).value);
      ActionableIsText(TextOf(Pick(written, t, f).value), ToolName(PhraseTool(Pick(written, t, f).value)));
    }
  }

  lemma ActionableIsText(text: string, tool: string)
    requires Actionable(text, tool)
    ensures text != ""
  {
    var before, more :| LastSentence(text, before, tool, more);
    assert |text| > 0;
  }

  lemma NothingIn(key: string)
    ensures Get([], key) == Null
  {
  }

  /** What a renderer finds inside a dict of the envelope. */
  lemma PartOf(f: Dict, key: string, part: string)
    requires Get(f, key).Obj?
    ensures Part(f, key, part) == Some(Get(Get(f, key).fields, part))
  {
    NothingIn(part);
    hide Get;
  }

  lemma HoldingsTold(written: Json -> string, f: Dict, text: string)
    requires Phrased(PickHoldings(f), Holdings, text)
    ensures Tells(written, Holdings, f, text)
  {
    hide Generic, Get, Decimal, Shows, Part, ToolName;
    if Get(f, "totals").Obj? {
      PartOf(f, "totals", "count");
    }
  }

  lemma MoneyTold(written: Json -> string, f: Dict, text: string)
    requires Phrased(PickMoney(f), Money, text)
    ensures Tells(written, Money, f, text)
  {
    hide Generic, Get, Decimal, Shows, ToolName;
  }

  lemma BrokerageTold(written: Json -> string, f: Dict, text: string)
    requires Phrased(PickBrokerage(f), Brokerage, text)
    ensures Tells(written, Brokerage, f, text)
  {
    hide Generic, Get, Decimal, Shows, ToolName;
  }

  lemma DownloadTold(t: Tool, name: Option<string>, text: string)
    requires PhraseTells(Delivered(t, name), text)
    ensures DownloadTells(name, text)
  {
    hide Shows;
  }

  lemma EmailTold(t: Tool, text: string)
    requires PhraseTells(Emailed(t), text)
    ensures Shows(text, "sent to the user's registered email")
  {
    hide Shows;
  }

  lemma FileTold(written: Json -> string, t: Tool, f: Dict, text: string)
    requires Phrased(PickFile(written, t, f), t, text)
    ensures FileTells(written, t, f, text)
  {
    hide Generic, Get, Shows, Label, Part, ToolName, FileIs, PhraseTells, DownloadTells;
    if Get(f, "delivery") == Str("email") {
      EmailTold(t, text);
    } else if Get(f, "delivery") == Str("download") && Get(f, "file").Obj? {
      PartOf(f, "file", "name");
      DownloadTold(t, Label(written, Get(Get(f, "file").fields, "name")), text);
    }
  }

  lemma ColumnsTold(written: Json -> string, f: Dict, text: string)
    requires Phrased(PickColumns(written, f), Columns, text)
    ensures Tells(written, Columns, f, text)
  {
    hide Generic, Get, Shows, Label, Decimal, ToolName;
  }

  lemma MatchedIff(written: Json -> string, items: seq<Json>)
    ensures forall q :: q in Labels(written, items, "question") <==> Matched(written, items, q)
  {
    forall q ensures q in Labels(written, items, "question") <==> Matched(written, items, q) {
      LabelsAre(written, items, "question", q);
    }
  }

  lemma AnswersTold(written: Json -> string, items: seq<Json>, questions: seq<string>, text: string)
    requires forall q :: q in questions <==> Matched(written, items, q)
    requires PhraseTells(if questions == [] then NoAnswers else SomeAnswers(|items|, Join(questions, "; ")), text)
    ensures SearchTells(written, items, text)
  {
    hide Decimal, Shows, Matched, Join;
    if questions != [] {
      assert questions[0] in questions;
      JoinShowsAll(text, questions, "; ");
    }
  }

  lemma SearchTold(written: Json -> string, f: Dict, text: string)
    requires Phrased(PickSearch(written, f), Search, text)
    ensures Tells(written, Search, f, text)
  {
    hide PhraseTells, SearchTells, Generic, Get, Labels, Matched, Join, ToolName;
    if Get(f, "kind") == Str("ok") && Get(f, "results").Arr? {
      var items := Get(f, "results").items;
      MatchedIff(written, items);
      AnswersTold(written, items, Labels(written, items, "question"), text);
    }
  }

  lemma {:induction false} PairsHaveIds(written: Json -> string, notes: seq<Json>)
    requires NotePairs(written, notes) != []
    ensures exists i, id :: 0 <= i < |notes| && Labelled(written, notes[i], "id", id)
  {
    hide Label, Get;
    if NotePair(written, notes[0]).Some? {
      var id := Label(written, Get(notes[0].fields, "id")).value;
      assert Labelled(written, notes[0], "id", id);
    } else {
      PairsHaveIds(written, notes[1..]);
      var i, id :| 0 <= i < |notes[1..]| && Labelled(written, notes[1..][i], "id", id);
      assert Labelled(written, notes[i + 1], "id", id);
    }
  }

  /** There are pairs exactly when one of the newest forty has an id, and its pair shows it. */
  lemma PairsIff(written: Json -> string, items: seq<Json>, pairs: seq<string>)
    requires pairs == NotePairs(written, Newest(items))
    ensures forall id | IdIn(written, items, id) :: exists pair :: pair in pairs && Shows(pair, id)
    ensures pairs != [] ==> exists id :: IdIn(written, items, id)
  {
    var kept := Newest(items);
    var skipped := |items| - |kept|;
    hide NotePairs, Labelled, Shows;
    forall id | IdIn(written, items, id) ensures exists pair :: pair in pairs && Shows(pair, id) {
      var i :| 0 <= i && |items| - 40 <= i < |items| && Labelled(written, items[i], "id", id);
      assert kept[i - skipped] == items[i];
      PairsShow(written, kept, items[i], id);
    }
    if pairs != [] {
      PairsHaveIds(written, kept);
      var i, id :| 0 <= i < |kept| && Labelled(written, kept[i], "id", id);
      assert kept[i] == items[i + skipped];
      assert IdIn(written, items, id);
    }
  }

  lemma PairsTold(written: Json -> string, items: seq<Json>, pairs: seq<string>, text: string)
    requires Shows(text, Join(pairs, "; "))
    requires forall id | IdIn(written, items, id) :: exists pair :: pair in pairs && Shows(pair, id)
    ensures forall id | IdIn(written, items, id) :: Shows(text, id)
  {
    hide Shows, IdIn, Join;
    JoinShowsAll(text, pairs, "; ");
    forall id | IdIn(written, items, id) ensures Shows(text, id) {
      var pair :| pair in pairs && Shows(pair, id);
      ShowsWithin(text, pair, id);
    }
  }

  lemma IdsTold(written: Json -> string, items: seq<Json>, pairs: seq<string>, text: string)
    requires items != [] && pairs == NotePairs(written, Newest(items))
    requires if pairs == [] then text == Generic(ToolName(Notes))
             else PhraseTells(SomeNotes(|items|, Join(pairs, "; ")), text)
    ensures NotesTell(written, items, text)
  {
    hide Generic, Decimal, Shows, NotePairs, Newest, IdIn, Join, ToolName;
    PairsIff(written, items, pairs);
    if pairs != [] {
      PairsTold(written, items, pairs, text);
    }
  }

  lemma NotesTold(written: Json -> string, f: Dict, text: string)
    requires Phrased(PickNotes(written, f), Notes, text)
    ensures Tells(written, Notes, f, text)
  {
    hide Generic, Get, NotePairs, Newest, Join, ToolName, Shows, Decimal, IdIn;
    if Get(f, "notes").Arr? && Get(f, "notes").items != [] {
      var items := Get(f, "notes").items;
      hide PhraseTells, NotesTell;
      IdsTold(written, items, NotePairs(written, Newest(items)), text);
    }
  }

  /** What every stub tells of the stored envelope it replaces. */
  lemma StubTells(written: Json -> string, t: Tool, f: Dict)
    ensures Tells(written, t, f, Stub(written, t, Dumped(Obj(f))))
  {
    var text := Stub(written, t, Dumped(Obj(f)));
    hide Stub, Phrased, PickHoldings, PickMoney, PickBrokerage, PickSearch, PickColumns, PickNotes, PickFile, FileTells,
      SearchTells, NotesTell, Shows, Get;
    StubIsPhrased(written, t, f);
    match t
    case Holdings => HoldingsTold(written, f, text);
    case Money => MoneyTold(written, f, text);
    case Brokerage => BrokerageTold(written, f, text);
    case Search => SearchTold(written, f, text);
    case Columns => ColumnsTold(written, f, text);
    case Notes => NotesTold(written, f, text);
    case _ => FileTold(written, t, f, text);
  }
}
