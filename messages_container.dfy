/** The chat column of a project: which fragment is selected on its own, which
    messages are drawn, which card is marked as showing the active fragment, and
    when the "thinking" indicator is shown. Messages are taken in the order the
    query returns them. */
module MessagesContainer {
  import opened Common
  import CoderModel

  /** A stored fragment as the client receives it. */
  datatype FragmentRecord = FragmentRecord(id: string, sandboxUrl: string, title: string)

  /** A stored message as the client receives it, with its fragment if any. */
  datatype ChatMessage = ChatMessage(
    id: string,
    role: CoderModel.Role,
    kind: CoderModel.MessageType,
    content: string,
    fragment: Option<FragmentRecord>)

  // ---------------------------------------------------------------------------
  // auto-selection of the latest fragment

  /** The last message written by the assistant, if any (`findLast`). */
  function LastAssistant(messages: seq<ChatMessage>): (r: Option<ChatMessage>)
    ensures r.None? <==> forall i :: 0 <= i < |messages| ==> messages[i].role != CoderModel.ASSISTANT
    ensures r.Some? ==> r.value.role == CoderModel.ASSISTANT
    ensures r.Some? ==>
      exists i :: 0 <= i < |messages| && messages[i] == r.value
        && forall j :: i < j < |messages| ==> messages[j].role != CoderModel.ASSISTANT
  {
    if |messages| == 0 then None
    else if Last(messages).role == CoderModel.ASSISTANT then Some(Last(messages))
    else
      var r := LastAssistant(messages[..|messages| - 1]);
      assert forall i :: 0 <= i < |messages| - 1 ==> messages[..|messages| - 1][i] == messages[i];
      r
  }

  /** The active fragment after the selection effect has run: an active fragment
      is kept; with none, the fragment of the last assistant message is taken. */
  function AutoSelect(active: Option<FragmentRecord>, messages: seq<ChatMessage>): (r: Option<FragmentRecord>)
    ensures active.Some? ==> r == active
    ensures active.None? && LastAssistant(messages).Some? ==> r == LastAssistant(messages).value.fragment
    ensures active.None? && LastAssistant(messages).None? ==> r.None?
  {
    var last := LastAssistant(messages);
    if active.None? && last.Some? && last.value.fragment.Some? then last.value.fragment else active
  }

  /** Running the effect again changes nothing. */
  lemma AutoSelectStable(active: Option<FragmentRecord>, messages: seq<ChatMessage>)
    ensures AutoSelect(AutoSelect(active, messages), messages) == AutoSelect(active, messages)
  {
  }

  /** A selected fragment stays selected whatever messages arrive. */
  lemma AutoSelectNeverOverrides(f: FragmentRecord, messages: seq<ChatMessage>, more: seq<ChatMessage>)
    ensures AutoSelect(Some(f), messages + more) == Some(f)
  {
  }

  /** When a new assistant message with a fragment arrives while nothing is
      selected, its fragment is selected. */
  lemma NewestFragmentIsSelected(messages: seq<ChatMessage>, reply: ChatMessage)
    requires reply.role == CoderModel.ASSISTANT && reply.fragment.Some?
    ensures AutoSelect(None, messages + [reply]) == reply.fragment
  {
  }

  // ---------------------------------------------------------------------------
  // the drawn messages

  /** The messages drawn: those whose trimmed content is not empty, in order. */
  function Visible(messages: seq<ChatMessage>): (r: seq<ChatMessage>)
    ensures |r| <= |messages|
    ensures forall k :: 0 <= k < |r| ==> !IsBlank(r[k].content)
  {
    if |messages| == 0 then []
    else (if IsBlank(messages[0].content) then [] else [messages[0]]) + Visible(messages[1..])
  }

  /** A message is drawn exactly when it is in the list and its trimmed content is not empty. */
  lemma {:induction false} VisibleMembers(messages: seq<ChatMessage>, m: ChatMessage)
    ensures m in Visible(messages) <==> m in messages && !IsBlank(m.content)
  {
    if |messages| > 0 {
      VisibleMembers(messages[1..], m);
      assert messages == [messages[0]] + messages[1..];
    }
  }

  /** Filtering distributes over concatenation, so the drawn messages keep their order. */
  lemma {:induction false} VisibleAppend(a: seq<ChatMessage>, b: seq<ChatMessage>)
    ensures Visible(a + b) == Visible(a) + Visible(b)
  {
    if |a| > 0 {
      VisibleAppend(a[1..], b);
      assert (a + b)[1..] == a[1..] + b;
    } else {
      assert a + b == b;
    }
  }

  /** Filtering twice is filtering once. */
  lemma {:induction false} VisibleIdempotent(messages: seq<ChatMessage>)
    ensures Visible(Visible(messages)) == Visible(messages)
  {
    if |messages| > 0 {
      VisibleIdempotent(messages[1..]);
      var head := if IsBlank(messages[0].content) then [] else [messages[0]];
      VisibleAppend(head, Visible(messages[1..]));
    }
  }

  /** The id of an optional fragment. */
  function FragmentId(f: Option<FragmentRecord>): Option<string>
  {
    match f
    case None => None
    case Some(r) => Some(r.id)
  }

  /** A card is marked active when its fragment's id equals the active fragment's
      id, both possibly missing: with no active fragment exactly the cards without
      a fragment are marked; with one, exactly the cards carrying a fragment of
      the same id. */
  predicate IsActiveFragment(active: Option<FragmentRecord>, message: ChatMessage): (r: bool)
    ensures active.None? ==> (r <==> message.fragment.None?)
    ensures active.Some? ==> (r <==> message.fragment.Some? && message.fragment.value.id == active.value.id)
  {
    FragmentId(active) == FragmentId(message.fragment)
  }

  /** One drawn card: the message and whether it shows the active fragment. */
  datatype Card = Card(message: ChatMessage, isActiveFragment: bool)

  function Cards(active: Option<FragmentRecord>, messages: seq<ChatMessage>): (r: seq<Card>)
    ensures |r| == |Visible(messages)|
    ensures forall k :: 0 <= k < |r| ==>
      r[k] == Card(Visible(messages)[k], IsActiveFragment(active, Visible(messages)[k]))
  {
    var shown := Visible(messages);
    seq(|shown|, k requires 0 <= k < |shown| => Card(shown[k], IsActiveFragment(active, shown[k])))
  }

  /** Clicking a card makes its message's fragment (possibly none) the active one. */
  function ClickCard(card: Card): (r: Option<FragmentRecord>)
    ensures r == card.message.fragment
  {
    card.message.fragment
  }

  /** After a click on a card with a fragment, that card is marked active, and the
      selection effect keeps the choice. */
  lemma ClickedCardIsActive(active: Option<FragmentRecord>, messages: seq<ChatMessage>, k: nat)
    requires k < |Cards(active, messages)|
    requires Cards(active, messages)[k].message.fragment.Some?
    ensures var chosen := ClickCard(Cards(active, messages)[k]);
      && Cards(chosen, messages)[k].isActiveFragment
      && AutoSelect(chosen, messages) == chosen
  {
  }

  /** A click on a card without a fragment clears the selection, and the effect
      then selects the fragment of the last assistant message again. */
  lemma ClickWithoutFragmentReselects(active: Option<FragmentRecord>, messages: seq<ChatMessage>, k: nat)
    requires k < |Cards(active, messages)|
    requires Cards(active, messages)[k].message.fragment.None?
    requires LastAssistant(messages).Some?
    ensures var chosen := ClickCard(Cards(active, messages)[k]);
      && chosen.None?
      && AutoSelect(chosen, messages) == LastAssistant(messages).value.fragment
  {
  }

  // ---------------------------------------------------------------------------
  // the loading indicator

  /** The indicator is shown when the last message is the user's and its trimmed
      content is not empty; that message is then the last one drawn. */
  predicate ShowLoading(messages: seq<ChatMessage>): (r: bool)
    ensures r ==>
      && |messages| > 0 && Last(messages).role == CoderModel.USER
      && |Visible(messages)| > 0 && Last(Visible(messages)) == Last(messages)
  {
    if |messages| > 0 && Last(messages).role == CoderModel.USER && !IsBlank(Last(messages).content) then
      LastNonBlankIsDrawn(messages);
      true
    else false
  }

  /** A new prompt brings up the indicator, the assistant's answer takes it away,
      and an empty list shows none. */
  lemma LoadingFollowsLastMessage(messages: seq<ChatMessage>, m: ChatMessage)
    ensures !ShowLoading([])
    ensures m.role == CoderModel.USER && !IsBlank(m.content) ==> ShowLoading(messages + [m])
    ensures m.role == CoderModel.ASSISTANT ==> !ShowLoading(messages + [m])
    ensures IsBlank(m.content) ==> !ShowLoading(messages + [m])
  {
  }

  /** A last message whose content is not blank is the last one drawn. */
  lemma LastNonBlankIsDrawn(messages: seq<ChatMessage>)
    requires |messages| > 0 && !IsBlank(Last(messages).content)
    ensures |Visible(messages)| > 0 && Last(Visible(messages)) == Last(messages)
  {
    var n := |messages|;
    VisibleAppend(messages[..n - 1], [Last(messages)]);
    assert messages[..n - 1] + [Last(messages)] == messages;
    assert Visible([Last(messages)]) == [Last(messages)] by {
      assert [Last(messages)][1..] == [];
    }
  }
}
