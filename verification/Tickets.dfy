/** The ticket guard (backend/app/agent/tickets.py): tickets are raised on the user's initiative only. */
module Tickets {
  import opened Json
  import opened Text
  import opened Transcript

  /** The regexes and offer markers, as predicates on the text of a turn. */
  datatype Phrases = Phrases(asks: string -> bool, affirms: string -> bool, offers: string -> bool)

  function BlockText(b: Block): string {
    match Get(b, "text")
    case Str(s) => s
    case _ => ""
  }

  function TextsOf(bs: seq<Block>): seq<string> {
    if bs == [] then []
    else if Get(bs[0], "type") == Str("text") then [BlockText(bs[0])] + TextsOf(bs[1..])
    else TextsOf(bs[1..])
  }

  /** `_turn_text`. */
  function TurnText(t: Turn): string {
    Trim(Join(TextsOf(t.content), "\n"), IsPythonSpace)
  }

  predicate FromUser(t: Turn) {
    t.role == User && t.kind == UserText
  }

  predicate Bubble(t: Turn) {
    t.role == Assistant && t.kind == AssistantText
  }

  /** Position `k` holds the newest user text. */
  predicate IsNewest(turns: seq<Turn>, k: int) {
    0 <= k < |turns| && FromUser(turns[k]) && forall i | k < i < |turns| :: !FromUser(turns[i])
  }

  /** Bubble `i` belongs to the exchange just before user text `k`. */
  predicate InExchange(p: Phrases, turns: seq<Turn>, k: int, i: int) {
    && 0 <= i < k < |turns| && Bubble(turns[i]) && TurnText(turns[i]) != ""
    && forall j | i < j < k :: !FromUser(turns[j])
  }

  /**
   The rule: the newest user text asks to escalate, or it affirms and some assistant bubble between
   the user text before it and itself carries an offer.
   */
  ghost predicate UserInitiated(p: Phrases, turns: seq<Turn>) {
    exists k :: IsNewest(turns, k) && TurnText(turns[k]) != "" &&
                (p.asks(TurnText(turns[k])) || (p.affirms(TurnText(turns[k])) && Offered(p, turns, k)))
  }

  ghost predicate Offered(p: Phrases, turns: seq<Turn>, k: int) {
    exists i :: InExchange(p, turns, k, i) && p.offers(TurnText(turns[i]))
  }

  ghost predicate IsBubbleText(p: Phrases, turns: seq<Turn>, k: int, text: string) {
    exists i :: InExchange(p, turns, k, i) && TurnText(turns[i]) == text
  }

  /** The backward walk: the newest user text, and the bubbles since the user text before it. */
  method ScanBack(p: Phrases, turns: seq<Turn>) returns (lastUser: Option<string>, recent: seq<string>, ghost k: int)
    ensures lastUser.None? <==> forall i | 0 <= i < |turns| :: !FromUser(turns[i])
    ensures lastUser.Some? ==> IsNewest(turns, k) && lastUser.value == TurnText(turns[k])
    ensures lastUser.Some? ==> forall i | InExchange(p, turns, k, i) :: TurnText(turns[i]) in recent
    ensures lastUser.Some? ==> forall text | text in recent :: IsBubbleText(p, turns, k, text)
  {
    hide TurnText;
    lastUser, recent, k := None, [], |turns|;
    ghost var from: seq<int> := [];
    var n := |turns|;
    while n > 0
      invariant 0 <= n <= |turns|
      invariant |from| == |recent|
      invariant lastUser.None? ==> k == |turns| && recent == [] && forall i | n <= i < |turns| :: !FromUser(turns[i])
      invariant lastUser.Some? ==> n <= k && IsNewest(turns, k) && lastUser.value == TurnText(turns[k])
      invariant lastUser.Some? ==> forall i | n <= i < k :: !FromUser(turns[i])
      invariant forall j | 0 <= j < |recent| :: n <= from[j] && InExchange(p, turns, k, from[j])
      invariant forall j | 0 <= j < |recent| :: recent[j] == TurnText(turns[from[j]])
      invariant forall i | n <= i && InExchange(p, turns, k, i) :: i in from
    {
      var turn := turns[n - 1];
      if lastUser.None? {
        if turn.role == User && turn.kind == UserText {
          lastUser := Some(TurnText(turn));
          k := n - 1;
        }
      } else {
        if turn.role == User && turn.kind == UserText {
          break;
        }
        if turn.role == Assistant && turn.kind == AssistantText {
          var text := TurnText(turn);
          if text != "" {
            recent, from := recent + [text], from + [n - 1];
          }
        }
      }
      n := n - 1;
    }
    forall i | lastUser.Some? && InExchange(p, turns, k, i) ensures TurnText(turns[i]) in recent {
      assert n <= i && i in from;
      var j :| 0 <= j < |from| && from[j] == i;
      assert recent[j] == TurnText(turns[i]);
    }
    forall text | lastUser.Some? && text in recent
      ensures IsBubbleText(p, turns, k, text)
    {
      var j :| 0 <= j < |recent| && recent[j] == text;
      assert InExchange(p, turns, k, from[j]);
    }
  }

  /** `ticket_call_is_user_initiated`. */
  method TicketCallIsUserInitiated(p: Phrases, turns: seq<Turn>) returns (verdict: bool)
    ensures verdict <==> UserInitiated(p, turns)
  {
    hide TurnText;
    var lastUser, recent, k := ScanBack(p, turns);
    assert forall l :: IsNewest(turns, l) ==> l == k;
    if lastUser.None? || lastUser.value == "" {
      return false;
    }
    if p.asks(lastUser.value) {
      return true;
    }
    if p.affirms(lastUser.value) {
      for j := 0 to |recent|
        invariant forall i | 0 <= i < j :: !p.offers(recent[i])
      {
        if p.offers(recent[j]) {
          assert recent[j] in recent;
          ghost var i :| InExchange(p, turns, k, i) && TurnText(turns[i]) == recent[j];
          assert Offered(p, turns, k);
          return true;
        }
      }
    }
    verdict := false;
  }

  /** What follows the newest user text never changes the verdict: an agent run cannot talk itself into a ticket. */
  lemma VerdictFixedByUserText(p: Phrases, turns: seq<Turn>, more: seq<Turn>)
    requires forall i | 0 <= i < |more| :: !FromUser(more[i])
    ensures UserInitiated(p, turns + more) <==> UserInitiated(p, turns)
  {
    hide TurnText;
    var all := turns + more;
    assert forall i | 0 <= i < |turns| :: all[i] == turns[i];
    assert forall i | |turns| <= i < |all| :: all[i] == more[i - |turns|];
    forall k ensures IsNewest(all, k) <==> IsNewest(turns, k) {}
    forall k, i | IsNewest(turns, k) ensures InExchange(p, all, k, i) <==> InExchange(p, turns, k, i) {}
    forall k | IsNewest(turns, k) ensures Offered(p, all, k) <==> Offered(p, turns, k) {}
  }
}
