/** The two decisions `view` takes from the application state: the style of
    the submit button, and whether the history panel shows the empty
    placeholder or one row per past search. */
module View {
  import opened Strings
  import opened Styles
  import opened App

  /** Grey used for history row text and the remove icon. */
  const RowColor := Custom(160.0, 160.0, 160.0)
  /** Colour of the empty-history placeholder text. */
  const EmptyColor := Custom(82.0, 81.0, 90.0)
  const EmptyText := "You didn't searched anything yet..."

  /** One history row: the trimmed query and a remove button that emits
      `onPress`. */
  datatype HistoryRow = HistoryRow(text: string, textStyle: ModernColor, buttonStyle: ModernButton, onPress: Message)

  /** Both panels are drawn in a `Historial` container. */
  datatype HistoryPanel =
    | EmptyMessage(message: string, color: ModernColor)
    | HistoryList(rows: seq<HistoryRow>)

  /** The style of the submit button: Secondary while the trimmed query is
      empty, Principal otherwise. */
  function SubmitStyle(s: State): (b: ModernButton)
    ensures b == Secondary <==> IsBlank(s.inputs.query)
    ensures b == Principal <==> !IsBlank(s.inputs.query)
  {
    if Trim(s.inputs.query) == [] then Secondary else Principal
  }

  /** `historial_text` over `queries.iter().enumerate()`, the enumeration
      starting at `offset`: row `i` shows the trimmed entry `i` and removes
      index `offset + i`. */
  function Rows(queries: seq<string>, offset: nat): (rows: seq<HistoryRow>)
    ensures |rows| == |queries|
    ensures forall i :: 0 <= i < |rows| ==>
      && rows[i].text == Trim(queries[i])
      && rows[i].onPress.RemoveSearch? && rows[i].onPress.id == offset + i
      && rows[i].textStyle == RowColor
      && rows[i].buttonStyle == Text
    decreases |queries|
  {
    if queries == [] then []
    else [HistoryRow(Trim(queries[0]), RowColor, Text, RemoveSearch(offset))] + Rows(queries[1..], offset + 1)
  }

  /** The history panel of `view`: the placeholder message in its dark grey
      when nothing was searched yet, otherwise one row per history entry. */
  function Panel(s: State): (p: HistoryPanel)
    ensures p.EmptyMessage? <==> s.searches == []
    ensures p.EmptyMessage? ==> p.message == EmptyText && p.color == EmptyColor
    ensures p.HistoryList? ==> |p.rows| == |s.searches|
  {
    if |s.searches| == 0 then EmptyMessage(EmptyText, EmptyColor) else HistoryList(Rows(s.searches, 0))
  }

  /** The placeholder is shown exactly when the history is empty; otherwise
      there is one row per entry, in history order, and in a valid state
      each row shows its entry unchanged. */
  lemma {:induction false} PanelShowsHistory(s: State)
    ensures Panel(s).EmptyMessage? <==> s.searches == []
    ensures Panel(s).HistoryList? ==>
      && |Panel(s).rows| == |s.searches|
      && forall i :: 0 <= i < |s.searches| ==>
        Panel(s).rows[i].text == Trim(s.searches[i]) && Panel(s).rows[i].onPress == RemoveSearch(i)
    ensures Panel(s).HistoryList? && Valid(s) ==>
      forall i :: 0 <= i < |s.searches| ==> Panel(s).rows[i].text == s.searches[i]
  {
    if Panel(s).HistoryList? && Valid(s) {
      forall i | 0 <= i < |s.searches|
        ensures Panel(s).rows[i].text == s.searches[i]
      {
        TrimOfTrimmed(s.searches[i]);
      }
    }
  }

  /** Every remove button of the panel emits a message `update` accepts, and
      pressing row `i` removes exactly entry `i`. */
  lemma {:induction false} RowMessagesAreAccepted(s: State, i: nat)
    requires Panel(s).HistoryList? && i < |Panel(s).rows|
    ensures Accepts(s, Panel(s).rows[i].onPress)
    ensures Update(s, Panel(s).rows[i].onPress).searches == s.searches[..i] + s.searches[i + 1..]
  {
    var rows := Rows(s.searches, 0);
    assert Panel(s).rows == rows;
    assert i < |s.searches|;
    assert rows[i].onPress.id == i;
    assert rows[i].onPress == RemoveSearch(i);
    RemoveDeletesOneEntry(s, i);
  }

  /** The submit button looks active exactly when pressing it changes the
      state. */
  lemma SubmitStyleMatchesEffect(s: State)
    ensures SubmitStyle(s) == Principal <==> Update(s, OnPressing) != s
  {
    if SubmitStyle(s) == Principal {
      assert |Update(s, OnPressing).searches| == |s.searches| + 1;
    }
  }
}
