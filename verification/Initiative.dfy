/**
 The ticket guard on the words themselves (backend/app/agent/tickets.py): what it reads is what was typed and said,
 through the storing of a message and of a reply.
 */
module Initiative {
  import opened Json
  import opened Text
  import opened Transcript
  import opened Tickets
  import opened TurnInvariants
  import opened Conversation

  lemma TextBlockFields(text: string)
    ensures Get(TextBlock(text), "type") == Str("text") && Get(TextBlock(text), "text") == Str(text)
  {
    assert "type"[1] != "text"[1];
  }

  lemma TextReads(text: string)
    ensures Get(CanonicalDict(TextBlock(text)), "type") == Str("text")
    ensures Get(CanonicalDict(TextBlock(text)), "text") == Str(text)
  {
    hide *;
    TextBlockOk(text);
    CanonicalBlockOk(TextBlock(text));
    TextBlockFields(text);
    CanonicalIsText(Str(text), text);
    CanonicalIsText(Str("text"), "text");
  }

  function TextBlocks(texts: seq<string>): (r: seq<Block>)
    ensures |r| == |texts|
  {
    seq(|texts|, i requires 0 <= i < |texts| => TextBlock(texts[i]))
  }

  lemma TextsCons(b: Block, rest: seq<Block>)
    ensures CanonicalBlocks([b] + rest) == [CanonicalDict(b)] + CanonicalBlocks(rest)
    ensures TextsOf([b] + rest) == (if Get(b, "type") == Str("text") then [BlockText(b)] else []) + TextsOf(rest)
  {
    hide CanonicalDict, Get, BlockText;
    assert ([b] + rest)[1..] == rest;
  }

  lemma TextBlocksCons(texts: seq<string>)
    requires texts != []
    ensures TextBlocks(texts) == [TextBlock(texts[0])] + TextBlocks(texts[1..]) && texts == [texts[0]] + texts[1..]
  {
    hide TextBlock;
  }

  /** The texts of a turn are read back as they were stored. */
  lemma {:induction false} StoredTexts(texts: seq<string>)
    ensures TextsOf(CanonicalBlocks(TextBlocks(texts))) == texts
  {
    if texts == [] {
    } else {
      hide *;
      var b, rest := TextBlock(texts[0]), TextBlocks(texts[1..]);
      StoredTexts(texts[1..]);
      TextReads(texts[0]);
      TextBlocksCons(texts);
      TextsCons(b, rest);
      TextsCons(CanonicalDict(b), CanonicalBlocks(rest));
      BlockTextIs(CanonicalDict(b), texts[0]);
    }
  }

  lemma BlockTextIs(b: Block, text: string)
    requires Get(b, "text") == Str(text)
    ensures BlockText(b) == text
  {
    hide Get;
  }

  /** What is read of a turn of texts. */
  lemma TurnReads(t: Turn, texts: seq<string>)
    requires t.content == CanonicalBlocks(TextBlocks(texts))
    ensures TurnText(t) == Trim(Join(texts, "\n"), IsPythonSpace)
  {
    StoredTexts(texts);
    hide CanonicalDict, Get, Trim, Join, IsPythonSpace;
  }

  lemma CanonicalIsText(x: Json, text: string)
    ensures Canonical(x) == Str(text) <==> x == Str(text)
  {
    hide CanonicalDict;
  }

  lemma SameBlockText(a: Block, b: Block)
    requires Get(a, "text") == Canonical(Get(b, "text"))
    ensures BlockText(a) == BlockText(b)
  {
    hide Get, CanonicalDict;
  }

  lemma CanonicalText(b: Block)
    requires WellFormedDict(b)
    ensures Get(CanonicalDict(b), "type") == Str("text") <==> Get(b, "type") == Str("text")
    ensures BlockText(CanonicalDict(b)) == BlockText(b)
  {
    hide *;
    CanonicalLookups(b);
    CanonicalIsText(Get(b, "type"), "text");
    SameBlockText(CanonicalDict(b), b);
  }

  lemma KeptCons(b: Block, rest: seq<Block>)
    ensures Kept([b] + rest) == (if Thinks(b) then [] else [b]) + Kept(rest)
    ensures Thinks(b) ==> Get(b, "type") != Str("text")
  {
    hide Get;
    assert ([b] + rest)[1..] == rest;
    assert "text"[1] == 'e' && "thinking"[1] == 'h' && "redacted_thinking"[0] == 'r';
  }

  predicate Thinks(b: Block) {
    Get(b, "type") == Str("thinking") || Get(b, "type") == Str("redacted_thinking")
  }

  /** What a stored reply is read as is what the model said: its thinking aside, and no word is lost. */
  lemma {:induction false} StoredReplyTexts(content: seq<Block>)
    requires forall b | b in content :: WellFormedDict(b)
    ensures TextsOf(CanonicalBlocks(Kept(content))) == TextsOf(content)
  {
    if content == [] {
    } else {
      hide *;
      var b, rest := content[0], content[1..];
      assert content == [b] + rest;
      StoredReplyTexts(rest);
      CanonicalText(b);
      KeptCons(b, rest);
      TextsCons(b, rest);
      TextsCons(b, Kept(rest));
      TextsCons(CanonicalDict(b), CanonicalBlocks(Kept(rest)));
      assert [] + Kept(rest) == Kept(rest) && [] + TextsOf(rest) == TextsOf(rest);
    }
  }

  /** The assistant offered in a bubble that is not yet answered. */
  ghost predicate OfferStands(p: Phrases, turns: seq<Turn>) {
    exists i :: 0 <= i < |turns| && Bubble(turns[i]) && TurnText(turns[i]) != "" && p.offers(TurnText(turns[i]))
                && Unanswered(turns, i)
  }

  predicate Unanswered(turns: seq<Turn>, i: nat) {
    forall j | i < j < |turns| :: !FromUser(turns[j])
  }

  lemma OfferIsStanding(p: Phrases, turns: seq<Turn>, asked: Turn)
    ensures Offered(p, turns + [asked], |turns|) <==> OfferStands(p, turns)
  {
    hide TurnText;
    var all := turns + [asked];
    assert forall i | 0 <= i < |turns| :: all[i] == turns[i];
    if Offered(p, all, |turns|) {
      var i :| InExchange(p, all, |turns|, i) && p.offers(TurnText(all[i]));
      assert Bubble(turns[i]) && Unanswered(turns, i);
    }
    if OfferStands(p, turns) {
      var i :| 0 <= i < |turns| && Bubble(turns[i]) && TurnText(turns[i]) != "" && p.offers(TurnText(turns[i]))
               && Unanswered(turns, i);
      assert InExchange(p, all, |turns|, i);
    }
  }

  lemma VerdictOnNewest(p: Phrases, turns: seq<Turn>, asked: Turn)
    requires FromUser(asked)
    ensures UserInitiated(p, turns + [asked]) <==>
      && TurnText(asked) != ""
      && (p.asks(TurnText(asked)) || (p.affirms(TurnText(asked)) && OfferStands(p, turns)))
  {
    hide TurnText, OfferStands;
    var all := turns + [asked];
    OfferIsStanding(p, turns, asked);
    assert all[|turns|] == asked;
    assert IsNewest(all, |turns|);
    assert forall k | IsNewest(all, k) :: k == |turns|;
  }

  /**
   The verdict on a message is one on the words typed: they ask to escalate, or they affirm and an offer of the
   assistant stands.
   */
  lemma VerdictOnWords(cfg: Config, s: State)
    requires s.phase.Arrived?
    ensures var words := Trim(s.phase.text, IsPythonSpace);
            UserInitiated(cfg.phrases, Next(cfg, s, Begin).turns) <==>
            && words != ""
            && (cfg.phrases.asks(words) || (cfg.phrases.affirms(words) && OfferStands(cfg.phrases, s.turns)))
  {
    var asked := Turn(NextNo(s.turns), User, UserText, CanonicalBlocks([TextBlock(s.phase.text)]), CanonicalDict([]));
    assert Next(cfg, s, Begin).turns == s.turns + [asked];
    hide *;
    TypedText(asked, s.phase.text);
    VerdictOnNewest(cfg.phrases, s.turns, asked);
  }

  lemma TypedText(t: Turn, text: string)
    requires t.role == User && t.kind == UserText && t.content == CanonicalBlocks([TextBlock(text)])
    ensures FromUser(t) && TurnText(t) == Trim(text, IsPythonSpace)
  {
    hide CanonicalDict, Get, Trim, TurnText, IsPythonSpace;
    assert TextBlocks([text]) == [TextBlock(text)];
    TurnReads(t, [text]);
  }

  lemma ReplyAppends(cfg: Config, s: State, content: seq<Block>, stop: string)
    requires Enabled(s, Reply(content, stop))
    ensures var t := Next(cfg, s, Reply(content, stop)).turns;
            && |t| == |s.turns| + 1 && t[..|s.turns|] == s.turns && t[|s.turns|].role == Assistant
            && t[|s.turns|].content == CanonicalBlocks(Kept(content))
            && t[|s.turns|].kind == (if Uses(Kept(content)) != [] then AssistantToolUse else AssistantText)
            && forall b | b in content :: WellFormedDict(b)
  {
    hide CanonicalDict, CanonicalBlocks, Get, Kept, Uses;
  }

  lemma ReadsTexts(t: Turn, texts: seq<string>)
    requires TextsOf(t.content) == texts
    ensures TurnText(t) == Trim(Join(texts, "\n"), IsPythonSpace)
  {
    hide TextsOf, Trim, Join, IsPythonSpace;
  }

  /** A reply is read as its texts, and is a bubble exactly when it makes no call. */
  lemma ReplyIsRead(cfg: Config, s: State, content: seq<Block>, stop: string)
    requires Enabled(s, Reply(content, stop))
    ensures var t := Next(cfg, s, Reply(content, stop)).turns;
            && |t| == |s.turns| + 1 && t[..|s.turns|] == s.turns
            && TurnText(t[|s.turns|]) == Trim(Join(TextsOf(content), "\n"), IsPythonSpace)
            && (Bubble(t[|s.turns|]) <==> forall b | b in content :: !IsUse(b))
  {
    hide *;
    ReplyAppends(cfg, s, content, stop);
    var turn := Next(cfg, s, Reply(content, stop)).turns[|s.turns|];
    StoredReplyTexts(content);
    KeptUses(content);
    ReadsTexts(turn, TextsOf(content));
    BubbleIs(turn);
  }

  lemma BubbleIs(t: Turn)
    ensures Bubble(t) <==> t.role == Assistant && t.kind == AssistantText
  {
  }

  lemma {:induction false} KeptUses(content: seq<Block>)
    ensures Uses(Kept(content)) == [] <==> forall b | b in content :: !IsUse(b)
  {
    if content == [] {
    } else {
      KeptUses(content[1..]);
      assert content == [content[0]] + content[1..];
      assert "tool_use"[0] != "thinking"[1];
    }
  }
}
