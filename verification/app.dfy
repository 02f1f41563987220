/** The launcher's application state and its `update` transition. */
module App {
  import opened Wrappers
  import opened Strings
  import opened Palette

  datatype Inputs = Inputs(query: string, enabled: bool)

  /** The application record; `searches` is the history, most recent first. */
  datatype State = State(theme: Theme, toggler: bool, inputs: Inputs, searches: seq<string>)

  /** The closed set of events; `RemoveSearch` carries a `usize` index. */
  datatype Message =
    | OnPressing
    | TagSelected(tag: string)
    | QueryChange(text: string)
    | OnChangingTheme(state: bool)
    | SetSearch(text: string)
    | RemoveSearch(id: nat)

  /** A history entry as stored: non-empty and already trimmed. */
  predicate IsStoredQuery(q: string) {
    q != [] && IsTrimmed(q)
  }

  /** What every reachable state satisfies: no history entry is blank or
      carries surrounding whitespace, and the theme is Light exactly when
      the toggler is on. */
  predicate Valid(s: State) {
    && (forall i :: 0 <= i < |s.searches| ==> IsStoredQuery(s.searches[i]))
    && (s.toggler <==> s.theme == Light)
  }

  /** `update` indexes the history for `RemoveSearch` and panics when the
      index is out of range; every other message is always accepted. */
  predicate Accepts(s: State, m: Message) {
    m.RemoveSearch? ==> m.id < |s.searches|
  }

  /** `App::new`: Dark theme, toggler off, empty and enabled input, no
      history. */
  function Init(): (s: State)
    ensures Valid(s)
    ensures s.theme == Dark && !s.toggler
    ensures s.inputs.query == [] && s.inputs.enabled
    ensures s.searches == []
  {
    State(Dark, false, Inputs([], true), [])
  }

  /** `App::update`. It never touches `inputs.enabled` and changes the
      history length by at most one. */
  function Update(s: State, m: Message): (r: State)
    requires Accepts(s, m)
    ensures r.inputs.enabled == s.inputs.enabled
    ensures |s.searches| - 1 <= |r.searches| <= |s.searches| + 1
  {
    match m
    case OnPressing =>
      var t := Trim(s.inputs.query);
      if t != [] then s.(searches := [t] + s.searches) else s
    case OnChangingTheme(state) =>
      s.(toggler := state, theme := if state then Light else Dark)
    case QueryChange(q) => s.(inputs := s.inputs.(query := q))
    case SetSearch(q) => s.(inputs := s.inputs.(query := q))
    case TagSelected(_) => s
    case RemoveSearch(id) => s.(searches := s.searches[..id] + s.searches[id + 1..])
  }

  /** Every accepted message keeps `Valid`: a submitted entry is stored
      trimmed and non-empty, a removal only drops entries, and the theme
      follows the toggler. */
  lemma {:induction false} UpdateKeepsValid(s: State, m: Message)
    requires Accepts(s, m)
    ensures Valid(s) ==> Valid(Update(s, m))
  {
    if !Valid(s) {
      return;
    }
    var r := Update(s, m);
    match m
    case OnPressing =>
      var t := Trim(s.inputs.query);
      if t != [] {
        assert r.searches == [t] + s.searches;
        forall i | 0 <= i < |r.searches|
          ensures IsStoredQuery(r.searches[i])
        {
          if i > 0 {
            assert r.searches[i] == s.searches[i - 1];
          }
        }
      }
    case RemoveSearch(id) =>
      forall i | 0 <= i < |r.searches|
        ensures IsStoredQuery(r.searches[i])
      {
        if i < id {
          assert r.searches[i] == s.searches[i];
        } else {
          assert r.searches[i] == s.searches[i + 1];
        }
      }
    case _ =>
  }

  /** In a valid state every history entry is its own trim and is not blank. */
  lemma {:induction false} EntriesAreOwnTrim(s: State)
    requires Valid(s)
    ensures forall i :: 0 <= i < |s.searches| ==>
      Trim(s.searches[i]) == s.searches[i] && !IsBlank(s.searches[i])
  {
    forall i | 0 <= i < |s.searches|
      ensures Trim(s.searches[i]) == s.searches[i] && !IsBlank(s.searches[i])
    {
      TrimOfTrimmed(s.searches[i]);
    }
  }

  /** Messages applied in order, as the event loop delivers them. `None`
      stands for the process aborting on a message `update` does not
      accept. A run that completes keeps `Valid` and grows the history by at
      most one entry per message. */
  function Run(s: State, msgs: seq<Message>): (r: Option<State>)
    ensures r.Some? && Valid(s) ==> Valid(r.value)
    ensures r.Some? ==> |r.value.searches| <= |s.searches| + |msgs|
    ensures r.None? ==> exists k :: 0 <= k < |msgs| && msgs[k].RemoveSearch?
    decreases |msgs|
  {
    if msgs == [] then Some(s)
    else if !Accepts(s, msgs[0]) then None
    else
      UpdateKeepsValid(s, msgs[0]);
      Run(Update(s, msgs[0]), msgs[1..])
  }

  /** Every state the event loop can reach from start-up is `Valid`. */
  lemma ReachableIsValid(msgs: seq<Message>)
    ensures Run(Init(), msgs).Some? ==> Valid(Run(Init(), msgs).value)
  {
  }

  /** Submitting a query that is not blank puts its trimmed copy in front of
      the history, keeps every older entry in order, and leaves the query
      text, the theme and the toggler alone. */
  lemma {:induction false} PressingStoresTrimmedQuery(s: State)
    requires !IsBlank(s.inputs.query)
    ensures var r := Update(s, OnPressing);
      && r.searches == [Trim(s.inputs.query)] + s.searches
      && |r.searches| == |s.searches| + 1
      && IsStoredQuery(r.searches[0])
      && (forall i :: 0 <= i < |s.searches| ==> r.searches[i + 1] == s.searches[i])
      && r.inputs == s.inputs && r.theme == s.theme && r.toggler == s.toggler
  {
  }

  /** Submitting an empty or all-whitespace query changes nothing at all. */
  lemma PressingBlankIsNoOp(s: State)
    requires IsBlank(s.inputs.query)
    ensures Update(s, OnPressing) == s
  {
  }

  /** No de-duplication: submitting the same query twice stores it twice. */
  lemma PressingTwiceStoresTwice(s: State)
    requires !IsBlank(s.inputs.query)
    ensures var t := Trim(s.inputs.query);
      Update(Update(s, OnPressing), OnPressing).searches == [t, t] + s.searches
  {
  }

  /** The start-up state with "a" typed and submitted twice holds ["a", "a"]. */
  lemma SubmitATwice()
    ensures var typed := Update(Init(), QueryChange("a"));
      Update(Update(typed, OnPressing), OnPressing).searches == ["a", "a"]
  {
    var typed := Update(Init(), QueryChange("a"));
    TrimOfTrimmed("a");
    PressingTwiceStoresTwice(typed);
  }

  /** "  hello  " submitted on an empty history is stored as "hello"; the
      typed text stays in the input. */
  lemma SubmitHello()
    ensures var typed := Update(Init(), QueryChange("  hello  "));
      && Update(typed, OnPressing).searches == ["hello"]
      && Update(typed, OnPressing).inputs.query == "  hello  "
  {
    TrimExample();
  }

  /** Changing theme sets the toggler to the flag and the theme to Light
      exactly when the flag is on, and nothing else. */
  lemma ThemeFollowsToggler(s: State, b: bool)
    ensures var r := Update(s, OnChangingTheme(b));
      && r.toggler == b
      && (r.theme == Light <==> b)
      && r.inputs == s.inputs && r.searches == s.searches
  {
  }

  /** Toggling and then toggling back restores a valid state exactly; from
      any state, on-then-off lands on the Dark palette. */
  lemma {:induction false} ToggleRoundTrip(s: State, b: bool)
    requires Valid(s)
    ensures Update(Update(s, OnChangingTheme(b)), OnChangingTheme(s.toggler)) == s
    ensures Lookup(Update(Update(s, OnChangingTheme(true)), OnChangingTheme(false)).theme) == DARK
  {
    if s.toggler {
      assert s.theme == Light;
    } else {
      assert s.theme == Dark;
    }
  }

  /** Both text messages replace the query verbatim and change nothing
      else; selecting a tag changes nothing. */
  lemma TextMessagesSetQuery(s: State, q: string, tag: string)
    ensures Update(s, QueryChange(q)) == Update(s, SetSearch(q))
    ensures Update(s, QueryChange(q)).inputs.query == q
    ensures Update(s, QueryChange(q)).(inputs := s.inputs) == s
    ensures Update(s, TagSelected(tag)) == s
  {
  }

  /** Removing entry `id` changes nothing but the history, and there it
      deletes that entry only: the ones before keep their index, the ones
      after move up by one, and the multiset loses exactly that entry. */
  lemma {:induction false} RemoveDeletesOneEntry(s: State, id: nat)
    requires id < |s.searches|
    ensures var h := s.searches;
      var r := Update(s, RemoveSearch(id)).searches;
      && Update(s, RemoveSearch(id)) == s.(searches := h[..id] + h[id + 1..])
      && r == h[..id] + h[id + 1..]
      && |r| == |h| - 1
      && (forall j :: 0 <= j < id ==> r[j] == h[j])
      && (forall j :: id <= j < |r| ==> r[j] == h[j + 1])
      && multiset(r) + multiset{h[id]} == multiset(h)
  {
    var h := s.searches;
    assert h == h[..id] + [h[id]] + h[id + 1..];
  }

  /** Removing index 0 of ["a", "b"] leaves ["b"]. */
  lemma RemoveFirstExample(s: State)
    requires s.searches == ["a", "b"]
    ensures Update(s, RemoveSearch(0)).searches == ["b"]
  {
  }

  /** Removing the entry just submitted undoes the submission. */
  lemma {:induction false} RemoveUndoesPress(s: State)
    requires !IsBlank(s.inputs.query)
    ensures Update(Update(s, OnPressing), RemoveSearch(0)) == s
  {
    var r := Update(s, OnPressing);
    assert r.searches[1..] == s.searches;
  }
}
