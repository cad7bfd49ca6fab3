/** The collector with its own filters plugged in: what is forwarded is what the documentation says. */
module EndToEnd {
  import opened Prelude
  import opened TgMessage
  import opened Filters
  import FilterToml
  import TomlRoundTrip
  import ChatCmd
  import ChatTheorems
  import opened Collector
  import opened CollLog
  import opened CollTheorems

  /** The real filters and edit commands; `dispatch` says which command a chat text is. */
  function Program(re: Regex, dispatch: string -> ChatCmd.Command): Env {
    Env((text, m) => FilterToml.NeedCollect(re, text, m),
        (text, stored) => ChatTheorems.NextText(re, stored, dispatch(text)),
        true)
  }

  /** A filter of the stored text matches the message without rejecting it, and no earlier one did either. */
  ghost predicate Wanted(re: Regex, text: string, m: TgMsg) {
    exists k :: DecidedAt(re, FilterToml.Load(text), m, k)
  }

  /** The chat is one that tg-focus writes to. */
  ghost predicate OwnTitle(title: string) { exists a: string, b: string :: title == a + "TG-FOCUS" + b }

  ghost predicate RightFate(re: Regex, h: Handled) {
    match h.fate
    case Forwarded(_) => !OwnTitle(h.msg.body.title) && Wanted(re, h.under, h.msg.body)
    case Filtered => !OwnTitle(h.msg.body.title) && !Wanted(re, h.under, h.msg.body)
    case Own => OwnTitle(h.msg.body.title)
    case Discarded => true
  }

  lemma FateIsRight(re: Regex, dispatch: string -> ChatCmd.Command, h: Handled)
    requires FateOk(Program(re, dispatch), h)
    ensures RightFate(re, h)
  {
    GroupMeans(re, FilterToml.Load(h.under), h.msg.body);
    OwnIs(h.msg.body);
  }

  lemma OwnIs(m: TgMsg)
    ensures IsFromTgfocus(m) <==> OwnTitle(m.title)
  {
    var t := m.title;
    if a: string, b: string :| t == a + "TG-FOCUS" + b {
      assert OccursAt(t, OWN_TITLE, |a|);
    }
    if i :| 0 <= i <= |t| - |OWN_TITLE| && OccursAt(t, OWN_TITLE, i) {
      assert t == t[..i] + "TG-FOCUS" + t[i + 8..];
    }
  }

  /**
    In every reachable state of the whole program, a message was forwarded only if the filters stored
    when it was decided wanted it, in the sense of the documentation, and filtered out only if they did not.
  */
  lemma ForwardedAsDocumented(re: Regex, dispatch: string -> ChatCmd.Command, s: State)
    requires Reachable(Program(re, dispatch), s)
    ensures forall b, h | b in AllBatches(s.log) && h in b :: RightFate(re, h)
    ensures forall h | h in s.log.cur :: RightFate(re, h)
  {
    var env := Program(re, dispatch);
    SessionOutbox(env, s);
    forall b, h | b in AllBatches(s.log) && h in b
      ensures RightFate(re, h)
    {
      FateIsRight(re, dispatch, h);
    }
    forall h | h in s.log.cur
      ensures RightFate(re, h)
    {
      FateIsRight(re, dispatch, h);
    }
  }

  // ---- the stored filters in a run of the whole program ----

  /** The schedule brings no command that adds an unclean value. */
  predicate CleanAct(re: Regex, dispatch: string -> ChatCmd.Command, a: Act) {
    a.Producer? && a.got.NewMessage? ==> CleanChat(re, dispatch, a.got.cmd)
  }

  predicate CleanChat(re: Regex, dispatch: string -> ChatCmd.Command, cmd: ChatCommand) {
    cmd.EditFilters? ==> ChatTheorems.CleanCommand(re, dispatch(cmd.text))
  }

  predicate CleanPc(re: Regex, dispatch: string -> ChatCmd.Command, pc: PPc) {
    pc.PCommand? ==> CleanChat(re, dispatch, pc.cmd)
  }

  predicate RunsEdit(s: State, a: Act) { a.Producer? && s.p.PCommand? && s.p.cmd.EditFilters? }

  /** The edit commands that a schedule has run, in order. */
  function EditsRun(env: Env, dispatch: string -> ChatCmd.Command, s0: State, acts: seq<Act>): seq<ChatCmd.Command> {
    if acts == [] then []
    else
      var n := |acts| - 1;
      var before := Exec(env, s0, acts[..n]);
      EditsRun(env, dispatch, s0, acts[..n]) +
      if before.Some? && RunsEdit(before.value, acts[n]) then [dispatch(before.value.p.cmd.text)] else []
  }

  /** Only a chat command of the producer changes the stored text, and it is one that was received. */
  predicate FiltersFollow(env: Env, s: State, a: Act, r: State) {
    && r.filters == (if RunsEdit(s, a) then env.edit(s.p.cmd.text, s.filters) else s.filters)
    && (r.p.PCommand? ==> r.p == s.p || (a.Producer? && a.got.NewMessage? && r.p.cmd == a.got.cmd))
  }

  lemma FiltersFollowProducer(env: Env, s: State, got: Fetched, r: State)
    requires StepP(env, s, got) == Some(r)
    ensures FiltersFollow(env, s, Producer(got), r)
  {
    match s.p
    case PDone =>
    case PLoop =>
    case PAwait =>
    case PFetch =>
    case PLock(_) =>
    case PInsert(_) =>
    case PTotal =>
    case PUnlock =>
    case PCommand(_) =>
    case PReply =>
    case PCall(_, _) =>
    case PForget(_) =>
    case PErase(_) =>
    case PCount =>
    case PSucc =>
  }

  lemma OthersKeepFilters(env: Env, s: State, a: Act, r: State)
    requires !a.Producer? && Do(env, s, a) == Some(r)
    ensures FiltersFollow(env, s, a, r)
  {
    match a
    case Consumer =>
    case Switcher =>
    case Initer =>
    case Handler(_) =>
    case Hint(_) =>
  }

  lemma NoCommands(re: Regex, text: string)
    ensures ChatTheorems.RunText(re, text, []) == text
  {}

  lemma RunTextMore(re: Regex, text: string, cs: seq<ChatCmd.Command>, c: ChatCmd.Command)
    ensures ChatTheorems.RunText(re, text, cs + [c]) == ChatTheorems.NextText(re, ChatTheorems.RunText(re, text, cs), c)
  {
    assert (cs + [c])[..|cs|] == cs;
  }

  /** The stored text at any point of a run is the text after the edit commands run so far. */
  lemma {:induction false} StoredTextOfRun(re: Regex, dispatch: string -> ChatCmd.Command, s0: State, acts: seq<Act>, s: State)
    requires Exec(Program(re, dispatch), s0, acts) == Some(s) && CleanPc(re, dispatch, s0.p)
    requires forall i | 0 <= i < |acts| :: CleanAct(re, dispatch, acts[i])
    ensures var cs := EditsRun(Program(re, dispatch), dispatch, s0, acts);
      && s.filters == ChatTheorems.RunText(re, s0.filters, cs)
      && forall i | 0 <= i < |cs| :: ChatTheorems.CleanCommand(re, cs[i])
    ensures CleanPc(re, dispatch, s.p)
    decreases |acts|
  {
    hide Do, ChatTheorems.NextText, ChatTheorems.RunText, ChatTheorems.CleanCommand;
    assert ChatTheorems.RunText(re, s0.filters, []) == s0.filters by { NoCommands(re, s0.filters); }
    if acts != [] {
      var n := |acts| - 1;
      var env := Program(re, dispatch);
      var before := Exec(env, s0, acts[..n]).value;
      StoredTextOfRun(re, dispatch, s0, acts[..n], before);
      FiltersFollowStep(env, before, acts[n], s);
      var cs := EditsRun(env, dispatch, s0, acts[..n]);
      if RunsEdit(before, acts[n]) {
        RunTextMore(re, s0.filters, cs, dispatch(before.p.cmd.text));
      } else {
        assert cs + [] == cs;
      }
    }
  }

  lemma FiltersFollowStep(env: Env, s: State, a: Act, r: State)
    requires Do(env, s, a) == Some(r)
    ensures FiltersFollow(env, s, a, r)
  {
    hide FiltersFollow, StepP;
    if a.Producer? {
      FiltersFollowProducer(env, s, a.got, r);
    } else {
      OthersKeepFilters(env, s, a, r);
    }
  }

  /**
    In every run of the whole program from a clean stored text, as long as no command adds an unclean
    value, the stored text always stands for the list that the edit commands run so far make of the
    first one.
  */
  lemma StoredFiltersFollowCommands(re: Regex, dispatch: string -> ChatCmd.Command, hint: Bit, filters: string, tgfid: int,
                                    acts: seq<Act>, s: State)
    requires Exec(Program(re, dispatch), Init(hint, filters, tgfid), acts) == Some(s)
    requires forall i | 0 <= i < |acts| :: CleanAct(re, dispatch, acts[i])
    requires TomlRoundTrip.CleanGroup(FilterToml.Load(filters))
    ensures FilterToml.Load(s.filters) ==
      ChatTheorems.RunGroup(re, FilterToml.Load(filters), EditsRun(Program(re, dispatch), dispatch, Init(hint, filters, tgfid), acts))
    ensures TomlRoundTrip.CleanGroup(FilterToml.Load(s.filters))
  {
    hide ChatTheorems.CleanCommand;
    StoredTextOfRun(re, dispatch, Init(hint, filters, tgfid), acts, s);
    ChatTheorems.StoredTextRefines(re, filters, EditsRun(Program(re, dispatch), dispatch, Init(hint, filters, tgfid), acts));
  }
}
