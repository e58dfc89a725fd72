/** The chat message that reports a finished edit: inserted once per turn, then updated in place. */
module EditCompletion {
  import opened WorkflowTypes
  import opened CsvLines

  datatype Role = User | Assistant

  datatype Summary = Summary(humanSummary: Option<string>, changes: string)

  /** `card` is the dashboard id of the message's dashboard card; `mentions` are the titles of its chart mentions. */
  datatype Message = Message(
    id: string,
    role: Role,
    content: string,
    card: Option<string>,
    mentions: seq<string>,
    isEditCompletion: bool,
    summary: Option<Summary>,
    provenance: Option<string>,
    editNote: Option<string>,
    rest: string)

  datatype Payload = Payload(
    dashboardId: Option<string>,
    dashboardTitle: Option<string>,
    summary: Option<Summary>,
    provenance: Option<string>,
    editNote: Option<string>)

  /** An absent, an empty and a blank text all count as missing. */
  function Said(text: Option<string>): Option<string> {
    if text.Some? && Trim(text.value) != "" then Some(Trim(text.value)) else None
  }

  // ---------------------------------------------------------------- the searches

  function LatestUser(messages: seq<Message>): (i: int)
    ensures -1 <= i < |messages|
    ensures i >= 0 ==> messages[i].role.User?
    ensures forall j :: i < j < |messages| ==> !messages[j].role.User?
  {
    if messages == [] then -1
    else if messages[|messages| - 1].role.User? then |messages| - 1
    else LatestUser(messages[..|messages| - 1])
  }

  method LatestUserMessageIndex(messages: seq<Message>) returns (index: int)
    ensures index == LatestUser(messages)
  {
    var i := |messages| - 1;
    while i >= 0
      invariant -1 <= i < |messages|
      invariant forall j :: i < j < |messages| ==> !messages[j].role.User?
    {
      if messages[i].role.User? {
        return i;
      }
      i := i - 1;
    }
    return -1;
  }

  /** The message is, or carries the card of, the edited dashboard. */
  predicate Completes(m: Message, dashboardId: Option<string>) {
    m.role.Assistant? &&
    (m.isEditCompletion || (dashboardId.Some? && dashboardId.value != "" && m.card == dashboardId))
  }

  predicate Carries(m: Message) {
    m.role.Assistant? && m.card.Some?
  }

  /** The last index after `low` of a message that completes the edit, or -1. */
  function LastCompleting(messages: seq<Message>, low: int, dashboardId: Option<string>): (i: int)
    requires -1 <= low
    ensures i == -1 || (low < i < |messages| && Completes(messages[i], dashboardId))
    ensures forall j :: low < j < |messages| && i < j ==> !Completes(messages[j], dashboardId)
  {
    if |messages| <= low + 1 then -1
    else if Completes(messages[|messages| - 1], dashboardId) then |messages| - 1
    else LastCompleting(messages[..|messages| - 1], low, dashboardId)
  }

  /** The last index after `low` of a message with any dashboard card, or -1. */
  function LastCard(messages: seq<Message>, low: int): (i: int)
    requires -1 <= low
    ensures i == -1 || (low < i < |messages| && Carries(messages[i]))
    ensures forall j :: low < j < |messages| && i < j ==> !Carries(messages[j])
  {
    if |messages| <= low + 1 then -1
    else if Carries(messages[|messages| - 1]) then |messages| - 1
    else LastCard(messages[..|messages| - 1], low)
  }

  function TargetOf(messages: seq<Message>, dashboardId: Option<string>): (i: int)
    ensures i == -1 || LatestUser(messages) < i < |messages|
  {
    var completing := LastCompleting(messages, LatestUser(messages), dashboardId);
    if completing >= 0 then completing else LastCard(messages, LatestUser(messages))
  }

  // ---------------------------------------------------------------- the text

  function NonEmpty(titles: seq<string>): seq<string> {
    if titles == [] then [] else (if titles[0] == "" then [] else [titles[0]]) + NonEmpty(titles[1..])
  }

  /** The chart titles of the last user message that mentions any chart. */
  function MentionNames(messages: seq<Message>): seq<string> {
    if messages == [] then []
    else
      var last := messages[|messages| - 1];
      if last.role.User? && last.mentions != [] then NonEmpty(last.mentions)
      else MentionNames(messages[..|messages| - 1])
  }

  method LatestChartMentionNames(messages: seq<Message>) returns (names: seq<string>)
    ensures names == MentionNames(messages)
  {
    var i := |messages| - 1;
    assert messages[..|messages|] == messages;
    while i >= 0
      invariant -1 <= i < |messages|
      invariant MentionNames(messages[..i + 1]) == MentionNames(messages)
    {
      assert messages[..i + 1][..i] == messages[..i];
      if messages[i].role.User? && messages[i].mentions != [] {
        return NonEmpty(messages[i].mentions);
      }
      i := i - 1;
    }
    return [];
  }

  function JoinNames(names: seq<string>): string {
    if names == [] then "" else if |names| == 1 then names[0] else names[0] + ", " + JoinNames(names[1..])
  }

  function Edited(messages: seq<Message>, payload: Payload): string {
    var names := MentionNames(messages);
    if names != [] then JoinNames(names)
    else if payload.dashboardTitle.Some? && payload.dashboardTitle.value != "" then payload.dashboardTitle.value
    else "the selected chart or table"
  }

  const DONE := "Done! I've updated "
  const REFRESHED := ". The dashboard has been refreshed with your changes."

  function Content(messages: seq<Message>, payload: Payload, existing: Option<string>): string {
    var human := if payload.summary.Some? then payload.summary.value.humanSummary else None;
    if Said(payload.editNote).Some? then Said(payload.editNote).value
    else if Said(human).Some? then Said(human).value
    else if Said(existing).Some? then Said(existing).value
    else DONE + Edited(messages, payload) + REFRESHED
  }

  function Updated(messages: seq<Message>, payload: Payload, m: Message): Message {
    m.(content := Content(messages, payload, Some(m.content)), isEditCompletion := true, summary := payload.summary,
       provenance := payload.provenance, editNote := payload.editNote, card := None)
  }

  /** `id` and `stamp` are the identity and the time a new message is given. */
  function NewMessage(messages: seq<Message>, payload: Payload, id: string, stamp: string): Message {
    Message.Message(id, Assistant, Content(messages, payload, None), None, [], true, payload.summary, payload.provenance,
            payload.editNote, stamp)
  }

  function Upserted(messages: seq<Message>, payload: Payload, id: string, stamp: string): seq<Message> {
    var i := TargetOf(messages, payload.dashboardId);
    if i >= 0 then messages[i := Updated(messages, payload, messages[i])]
    else messages + [NewMessage(messages, payload, id, stamp)]
  }

  /** The reverse search loop with its fallback, and the update or the append. */
  method Upsert(messages: seq<Message>, payload: Payload, id: string, stamp: string) returns (next: seq<Message>)
    ensures next == Upserted(messages, payload, id, stamp)
  {
    var userIndex := LatestUserMessageIndex(messages);
    var targetIndex, fallbackIndex := -1, -1;
    var i := |messages| - 1;
    while i > userIndex
      invariant userIndex <= i < |messages|
      invariant forall j :: i < j < |messages| ==> !Completes(messages[j], payload.dashboardId)
      invariant fallbackIndex == -1 || (i < fallbackIndex < |messages| && Carries(messages[fallbackIndex]))
      invariant forall j :: i < j < |messages| && fallbackIndex < j ==> !Carries(messages[j])
    {
      var message := messages[i];
      if message.role.Assistant? {
        if Completes(message, payload.dashboardId) {
          targetIndex := i;
          break;
        }
        if fallbackIndex < 0 && message.card.Some? {
          fallbackIndex := i;
        }
      }
      i := i - 1;
    }
    if targetIndex < 0 {
      targetIndex := fallbackIndex;
    }
    assert targetIndex == TargetOf(messages, payload.dashboardId);
    if targetIndex >= 0 {
      return messages[targetIndex := Updated(messages, payload, messages[targetIndex])];
    }
    return messages + [NewMessage(messages, payload, id, stamp)];
  }

  // ---------------------------------------------------------------- what upserts preserve

  lemma TrimKeeps(s: string)
    requires Trimmed(s)
    ensures Trim(s) == s
  {
  }

  lemma DoneIsTrimmed(middle: string)
    ensures Trimmed(DONE + middle + REFRESHED) && DONE + middle + REFRESHED != ""
  {
    var s := DONE + middle + REFRESHED;
    assert s[0] == DONE[0] && s[|s| - 1] == REFRESHED[|REFRESHED| - 1];
  }

  /** The text is never blank and already trimmed. */
  lemma ContentIsTrimmed(messages: seq<Message>, payload: Payload, existing: Option<string>)
    ensures Trimmed(Content(messages, payload, existing)) && Content(messages, payload, existing) != ""
  {
    DoneIsTrimmed(Edited(messages, payload));
    var human := if payload.summary.Some? then payload.summary.value.humanSummary else None;
    forall t: string
      ensures Trimmed(Trim(t))
    {
      TrimIsExact(t);
    }
  }

  /** Writing the same payload over a text it produced gives the same text. */
  lemma ContentIsStable(messages: seq<Message>, others: seq<Message>, payload: Payload, existing: Option<string>)
    ensures Content(others, payload, Some(Content(messages, payload, existing))) == Content(messages, payload, existing)
  {
    ContentIsTrimmed(messages, payload, existing);
    TrimKeeps(Content(messages, payload, existing));
  }

  /** The latest user message depends only on the roles, and not on what follows it. */
  lemma LatestUserStays(messages: seq<Message>, next: seq<Message>)
    requires |messages| <= |next|
    requires forall i :: 0 <= i < |messages| ==> next[i].role == messages[i].role
    requires forall i :: |messages| <= i < |next| ==> !next[i].role.User?
    ensures LatestUser(next) == LatestUser(messages)
  {
  }

  /** Nothing up to and including the latest user message is touched, and at most one message is added. */
  lemma UpsertKeepsHistory(messages: seq<Message>, payload: Payload, id: string, stamp: string)
    ensures var next := Upserted(messages, payload, id, stamp);
            && |messages| <= |next| <= |messages| + 1
            && LatestUser(next) == LatestUser(messages)
            && next[..LatestUser(messages) + 1] == messages[..LatestUser(messages) + 1]
  {
    var next := Upserted(messages, payload, id, stamp);
    LatestUserStays(messages, next);
  }

  /** After the latest user message there is an edit completion. */
  ghost predicate Reported(messages: seq<Message>) {
    exists i :: LatestUser(messages) < i < |messages| && messages[i].role.Assistant? && messages[i].isEditCompletion
  }

  lemma UpsertReports(messages: seq<Message>, payload: Payload, id: string, stamp: string)
    ensures Reported(Upserted(messages, payload, id, stamp))
    ensures Reported(messages) ==> |Upserted(messages, payload, id, stamp)| == |messages|
  {
    var next := Upserted(messages, payload, id, stamp);
    var i := TargetOf(messages, payload.dashboardId);
    UpsertKeepsHistory(messages, payload, id, stamp);
    var at := if i >= 0 then i else |messages|;
    assert next[at].role.Assistant? && next[at].isEditCompletion;
    if Reported(messages) {
      var j :| LatestUser(messages) < j < |messages| && messages[j].role.Assistant? && messages[j].isEditCompletion;
      assert Completes(messages[j], payload.dashboardId);
    }
  }

  /** The upsert that a repeated report finds is the one it made. */
  lemma SameTarget(messages: seq<Message>, payload: Payload, id: string, stamp: string)
    ensures var i := TargetOf(messages, payload.dashboardId);
            TargetOf(Upserted(messages, payload, id, stamp), payload.dashboardId) == if i >= 0 then i else |messages|
  {
    var next := Upserted(messages, payload, id, stamp);
    var i := TargetOf(messages, payload.dashboardId);
    var at := if i >= 0 then i else |messages|;
    UpsertKeepsHistory(messages, payload, id, stamp);
    assert Completes(next[at], payload.dashboardId);
    forall j | at < j < |next|
      ensures !Completes(next[j], payload.dashboardId)
    {
      assert next[j] == messages[j];
    }
  }

  /** Reporting the same edit a second time changes nothing, whatever id and time a new message would get. */
  lemma SecondUpsertIsNoOp(messages: seq<Message>, payload: Payload, id: string, stamp: string, id2: string, stamp2: string)
    ensures Upserted(Upserted(messages, payload, id, stamp), payload, id2, stamp2) == Upserted(messages, payload, id, stamp)
  {
    hide TargetOf, LatestUser, Content;
    var next := Upserted(messages, payload, id, stamp);
    var i := TargetOf(messages, payload.dashboardId);
    SameTarget(messages, payload, id, stamp);
    ContentIsStable(messages, next, payload, if i >= 0 then Some(messages[i].content) else None);
    var at := TargetOf(next, payload.dashboardId);
    assert Updated(next, payload, next[at]) == next[at];
  }

  datatype Report = Report(payload: Payload, id: string, stamp: string)

  function UpsertedAll(messages: seq<Message>, reports: seq<Report>): seq<Message> {
    if reports == [] then messages
    else
      var last := reports[|reports| - 1];
      Upserted(UpsertedAll(messages, reports[..|reports| - 1]), last.payload, last.id, last.stamp)
  }

  /** However many edits are reported within one turn, one message at most is added and the history stays as it is. */
  lemma {:induction false} OneMessagePerTurn(messages: seq<Message>, reports: seq<Report>)
    ensures var next := UpsertedAll(messages, reports);
            && |messages| <= |next| <= |messages| + 1
            && (reports != [] ==> Reported(next))
            && LatestUser(next) == LatestUser(messages)
            && next[..LatestUser(messages) + 1] == messages[..LatestUser(messages) + 1]
  {
    hide Upserted, LatestUser, Reported;
    if reports == [] {
    } else {
      var n := |reports| - 1;
      var last, before := reports[n], UpsertedAll(messages, reports[..n]);
      OneMessagePerTurn(messages, reports[..n]);
      UpsertKeepsHistory(before, last.payload, last.id, last.stamp);
      UpsertReports(before, last.payload, last.id, last.stamp);
    }
  }

  // ---------------------------------------------------------------- what the report says

  /** There is nothing to read in the text. */
  ghost predicate Missing(text: Option<string>) {
    text.None? || AllBlank(text.value)
  }

  lemma MissingIsUnsaid(text: Option<string>)
    ensures Said(text) == if Missing(text) then None else Some(Trim(text.value))
  {
    if text.Some? {
      BlankIsTrimmedAway(text.value);
    }
  }

  /** The note of the edit comes first, then the summary, then what the message said before, then the stock text. */
  lemma ContentOrder(messages: seq<Message>, payload: Payload, existing: Option<string>)
    ensures var human := if payload.summary.Some? then payload.summary.value.humanSummary else None;
            Content(messages, payload, existing) ==
            if !Missing(payload.editNote) then Trim(payload.editNote.value)
            else if !Missing(human) then Trim(human.value)
            else if !Missing(existing) then Trim(existing.value)
            else "Done! I've updated " + Edited(messages, payload) + ". The dashboard has been refreshed with your changes."
  {
    MissingIsUnsaid(payload.editNote);
    MissingIsUnsaid(existing);
    if payload.summary.Some? {
      MissingIsUnsaid(payload.summary.value.humanSummary);
    }
  }

  predicate MentionsChart(m: Message) {
    m.role.User? && m.mentions != []
  }

  /** Only the last user message that mentions a chart is asked for names. */
  lemma {:induction false} NamesOfLastMention(messages: seq<Message>, i: int)
    requires -1 <= i < |messages| && (i >= 0 ==> MentionsChart(messages[i]))
    requires forall j :: i < j < |messages| ==> !MentionsChart(messages[j])
    ensures MentionNames(messages) == if i >= 0 then NonEmpty(messages[i].mentions) else []
  {
    if messages == [] || i == |messages| - 1 {
    } else {
      NamesOfLastMention(messages[..|messages| - 1], i);
    }
  }

  /** Empty titles are left out and all others stay, in order. */
  lemma {:induction false} NonEmptyConcatenates(a: seq<string>, b: seq<string>)
    ensures NonEmpty(a + b) == NonEmpty(a) + NonEmpty(b)
    ensures |a| == 1 ==> NonEmpty(a) == if a[0] == "" then [] else a
  {
    if a == [] {
      assert a + b == b;
    } else {
      assert (a + b)[1..] == a[1..] + b;
      NonEmptyConcatenates(a[1..], b);
    }
  }

  /** Names are joined with commas. */
  lemma {:induction false} JoinConcatenates(a: seq<string>, b: seq<string>)
    requires a != [] && b != []
    ensures JoinNames(a + b) == JoinNames(a) + ", " + JoinNames(b)
    ensures |a| == 1 ==> JoinNames(a) == a[0]
  {
    assert (a + b)[1..] == a[1..] + b;
    if |a| == 1 {
      assert a[1..] + b == b;
    } else {
      JoinConcatenates(a[1..], b);
    }
  }

  /** The message reports the payload and is no card any more. */
  predicate Reports(m: Message, payload: Payload) {
    && m.role.Assistant? && m.isEditCompletion && m.card.None?
    && m.summary == payload.summary && m.provenance == payload.provenance && m.editNote == payload.editNote
  }

  /**
   * One message reports the edit: one that was there keeps its identity, a new one stands at the end with the given
   * one, and no other message changes.
   */
  lemma OneMessageReports(messages: seq<Message>, payload: Payload, id: string, stamp: string)
    ensures var next := Upserted(messages, payload, id, stamp);
            exists at :: 0 <= at < |next| && Reports(next[at], payload)
              && (forall j :: 0 <= j < |messages| && j != at ==> next[j] == messages[j])
              && (at < |messages| ==>
                    && |next| == |messages| && next[at].id == messages[at].id && next[at].rest == messages[at].rest
                    && next[at].mentions == messages[at].mentions && messages[at].role.Assistant?)
              && (at == |messages| ==> |next| == |messages| + 1 && next[at].id == id && next[at].rest == stamp)
  {
    hide Content, LastCompleting, LastCard, LatestUser;
    var next := Upserted(messages, payload, id, stamp);
    var i := TargetOf(messages, payload.dashboardId);
    TargetIsAssistant(messages, payload.dashboardId);
    var at := if i >= 0 then i else |messages|;
    assert Reports(next[at], payload);
  }

  lemma TargetIsAssistant(messages: seq<Message>, dashboardId: Option<string>)
    ensures TargetOf(messages, dashboardId) >= 0 ==> messages[TargetOf(messages, dashboardId)].role.Assistant?
  {
  }

  /** A finished report, or the card of the edited dashboard. */
  predicate IsReport(m: Message, dashboardId: Option<string>) {
    m.role == Assistant && (m.isEditCompletion || (m.card.Some? && m.card == dashboardId && m.card != Some("")))
  }

  /**
   * Since the latest user message, the last report of an edit or card of the edited dashboard is updated, else the last
   * card of any other dashboard, else nothing.
   */
  lemma TargetIsLast(messages: seq<Message>, dashboardId: Option<string>, i: int)
    requires LatestUser(messages) < i < |messages|
    requires IsReport(messages[i], dashboardId) ||
             (messages[i].role == Assistant && messages[i].card.Some? &&
              forall j :: LatestUser(messages) < j < i ==> !IsReport(messages[j], dashboardId))
    requires forall j :: i < j < |messages| ==> !IsReport(messages[j], dashboardId)
    requires IsReport(messages[i], dashboardId) ||
             forall j :: i < j < |messages| ==> !(messages[j].role == Assistant && messages[j].card.Some?)
    ensures TargetOf(messages, dashboardId) == i
  {
    hide LatestUser;
    assert forall j :: 0 <= j < |messages| ==> (IsReport(messages[j], dashboardId) <==> Completes(messages[j], dashboardId));
    if IsReport(messages[i], dashboardId) {
      assert Completes(messages[i], dashboardId);
    } else {
      assert Carries(messages[i]);
    }
  }
}
