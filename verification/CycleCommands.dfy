// What a poll cycle asks, told from what it asked, what was stored and nothing else.
module CycleCommands {
  import opened Prelude
  import opened PollCycle
  import opened Replay

  // The commands a part of the cycle issued and the answers it stored.
  ghost predicate Adds(s: State, t: State, cs: seq<Command>, es: seq<Entry>) {
    t.issued == s.issued + cs && t.db.writes == s.db.writes + es
  }

  lemma AddsJoins(a: State, b: State, c: State, cs: seq<Command>, es: seq<Entry>, cs': seq<Command>, es': seq<Entry>)
    requires Adds(a, b, cs, es) && Adds(b, c, cs', es')
    ensures Adds(a, c, cs + cs', es + es')
  {
  }

  // ---- the pages of one project ----

  function Offset(w: World, first: nat, k: nat): nat { if k == 0 then first else Offset(w, first, k - 1) + w.pageLimit }

  // One request per page, each a page further, and each answer is stored.
  ghost predicate PagesOf(w: World, project: Id, first: nat, pages: seq<Entry>) {
    forall k :: 0 <= k < |pages| ==> pages[k].command == IssueList(project, Offset(w, first, k))
  }

  // The server said that there are more after each of them.
  ghost predicate MoreAfter(w: World, pages: seq<Entry>) { forall k :: 0 <= k < |pages| ==> w.hasMore(pages[k].reply) }

  // The next page is missing, or its answer cannot be used.
  ghost predicate PageMissing(w: World, s: State, t: State, pages: seq<Entry>, c: Command) {
    || t.recorded == s.recorded + pages
    || (exists v :: t.recorded == s.recorded + pages + [Entry(c, v)] && !w.parses(t.db, c, v))
  }

  // A finished listing stored every page up to the first without more; a broken one every page before
  // the one that is missing, and asks for nothing after it.
  ghost predicate ListedPages(w: World, s: State, project: Id, first: nat, r: (bool, State), pages: seq<Entry>) {
    var (ok, t) := r;
    && PagesOf(w, project, first, pages)
    && (ok ==>
          && Adds(s, t, Commands(pages), pages) && t.recorded == s.recorded + pages
          && pages != [] && MoreAfter(w, pages[..|pages| - 1]) && !w.hasMore(pages[|pages| - 1].reply))
    && (!ok ==>
          && Adds(s, t, Commands(pages) + [IssueList(project, Offset(w, first, |pages|))], pages) && MoreAfter(w, pages)
          && PageMissing(w, s, t, pages, IssueList(project, Offset(w, first, |pages|))))
  }

  lemma {:induction false} CommandsCons(e: Entry, entries: seq<Entry>)
    ensures Commands([e] + entries) == [e.command] + Commands(entries)
  {
    if entries == [] {
      CommandsNext([], e);
      assert [e] + entries == [] + [e];
    } else {
      var n := |entries| - 1;
      CommandsCons(e, entries[..n]);
      assert ([e] + entries)[..n + 1] == [e] + entries[..n];
    }
  }

  lemma {:induction false} OffsetShifts(w: World, first: nat, k: nat)
    ensures Offset(w, first + w.pageLimit, k) == Offset(w, first, k + 1)
  {
    if k > 0 { OffsetShifts(w, first, k - 1); }
  }

  lemma PagesShift(w: World, project: Id, first: nat, e: Entry, rest: seq<Entry>)
    requires e.command == IssueList(project, first) && PagesOf(w, project, first + w.pageLimit, rest)
    ensures PagesOf(w, project, first, [e] + rest)
  {
    forall k | 0 <= k < |rest| + 1 ensures ([e] + rest)[k].command == IssueList(project, Offset(w, first, k)) {
      if k > 0 {
        OffsetShifts(w, first, k - 1);
        assert ([e] + rest)[k] == rest[k - 1];
      }
    }
  }

  lemma MoreShifts(w: World, e: Entry, rest: seq<Entry>)
    requires w.hasMore(e.reply) && MoreAfter(w, rest)
    ensures MoreAfter(w, [e] + rest)
  {
    forall k | 0 <= k < |rest| + 1 ensures w.hasMore(([e] + rest)[k].reply) {
      if k > 0 { assert ([e] + rest)[k] == rest[k - 1]; }
    }
  }

  // The page before an already described listing.
  lemma OnePageMore(w: World, s: State, s1: State, project: Id, first: nat, r: (bool, State), e: Entry, rest: seq<Entry>)
    requires e.command == IssueList(project, first) && w.hasMore(e.reply)
    requires Adds(s, s1, [e.command], [e]) && s1.recorded == s.recorded + [e]
    requires ListedPages(w, s1, project, first + w.pageLimit, r, rest)
    ensures ListedPages(w, s, project, first, r, [e] + rest)
  {
    var t := r.1;
    PagesShift(w, project, first, e, rest);
    CommandsCons(e, rest);
    OffsetShifts(w, first, |rest|);
    if r.0 {
      MoreShifts(w, e, rest[..|rest| - 1]);
      assert ([e] + rest)[..|rest|] == [e] + rest[..|rest| - 1];
      AddsJoins(s, s1, t, [e.command], [e], Commands(rest), rest);
      assert s.recorded + ([e] + rest) == s.recorded + [e] + rest;
    } else {
      MoreShifts(w, e, rest);
      var c := IssueList(project, Offset(w, first, |rest| + 1));
      AddsJoins(s, s1, t, [e.command], [e], Commands(rest) + [c], rest);
      assert Commands([e] + rest) + [c] == [e.command] + (Commands(rest) + [c]);
      MissingShifts(w, s, s1, t, e, rest, c);
    }
  }

  lemma MissingShifts(w: World, s: State, s1: State, t: State, e: Entry, rest: seq<Entry>, c: Command)
    requires s1.recorded == s.recorded + [e] && PageMissing(w, s1, t, rest, c)
    ensures PageMissing(w, s, t, [e] + rest, c)
  {
    assert s.recorded + ([e] + rest) == s1.recorded + rest;
  }

  lemma OnePage(w: World, s: State, project: Id, first: nat)
    ensures var c := IssueList(project, first);
      var (end, s1) := Page(w, s, c);
      && (end.Broken? ==> Adds(s, s1, [c], []) && PageMissing(w, s, s1, [], c))
      && (!end.Broken? ==> exists v :: && Adds(s, s1, [c], [Entry(c, v)]) && s1.recorded == s.recorded + [Entry(c, v)]
                                       && (end.More? <==> w.hasMore(v)))
  {
    var c := IssueList(project, first);
    var (answer, s1) := Ask(s, c);
    if answer.Some? {
      var v := answer.value;
      assert s1.recorded == s.recorded + [Entry(c, v)] == s.recorded + [] + [Entry(c, v)];
      assert Page(w, s, c).0.Broken? <==> !w.parses(s1.db, c, v);
      if w.parses(s1.db, c, v) { assert Adds(s, Page(w, s, c).1, [c], [Entry(c, v)]); }
    }
  }

  lemma {:induction false} PagesAreListed(w: World, s: State, project: Id, first: nat) returns (pages: seq<Entry>)
    ensures ListedPages(w, s, project, first, Pages(w, s, project, first), pages)
    decreases Remaining(s.tape)
  {
    hide Page, Adds, PageMissing, Commands;
    var c := IssueList(project, first);
    var (end, s1) := Page(w, s, c);
    OnePage(w, s, project, first);
    PagesAre(w, s, project, first);
    if end.Broken? {
      pages := [];
      NoPage(w, s, s1, project, first);
    } else {
      var v :| Adds(s, s1, [c], [Entry(c, v)]) && s1.recorded == s.recorded + [Entry(c, v)] && (end.More? <==> w.hasMore(v));
      if end.Last? {
        pages := [Entry(c, v)];
        LastPage(w, s, s1, project, first, v);
      } else {
        var rest := PagesAreListed(w, s1, project, first + w.pageLimit);
        pages := [Entry(c, v)] + rest;
        OnePageMore(w, s, s1, project, first, Pages(w, s1, project, first + w.pageLimit), Entry(c, v), rest);
      }
    }
  }

  lemma NoPage(w: World, s: State, t: State, project: Id, first: nat)
    requires Adds(s, t, [IssueList(project, first)], []) && PageMissing(w, s, t, [], IssueList(project, first))
    ensures ListedPages(w, s, project, first, (false, t), [])
  {
    assert Commands([]) + [IssueList(project, first)] == [IssueList(project, first)];
  }

  lemma LastPage(w: World, s: State, t: State, project: Id, first: nat, v: Json)
    requires var c := IssueList(project, first);
      Adds(s, t, [c], [Entry(c, v)]) && t.recorded == s.recorded + [Entry(c, v)] && !w.hasMore(v)
    ensures ListedPages(w, s, project, first, (true, t), [Entry(IssueList(project, first), v)])
  {
    var e := Entry(IssueList(project, first), v);
    CommandsNext([], e);
    assert [] + [e] == [e];
  }

  // ---- the parts of a cycle ----

  predicate IsList(c: Command) { c.RuntimeList? || c.AgentList? || c.ProjectList? }

  ghost predicate NoLists(es: seq<Entry>) { forall e :: e in es ==> !IsList(e.command) }

  // Every stored answer is the answer to one of the commands.
  ghost predicate Answers(es: seq<Entry>, cs: seq<Command>) { forall e :: e in es ==> e.command in cs }

  // The commands whose answers the snapshot waits for, and how many of them there are.
  predicate Awaited(c: Command) { c.IssueList? || c.AgentTasks? }

  function Gathers(cs: seq<Command>): nat {
    if cs == [] then 0 else Gathers(cs[..|cs| - 1]) + if Awaited(cs[|cs| - 1]) then 1 else 0
  }

  lemma {:induction false} GathersJoin(a: seq<Command>, b: seq<Command>)
    ensures Gathers(a + b) == Gathers(a) + Gathers(b)
  {
    if b == [] {
      assert a + b == a;
    } else {
      GathersJoin(a, b[..|b| - 1]);
      assert (a + b)[..|a + b| - 1] == a + b[..|b| - 1];
    }
  }

  lemma {:induction false} CommandsJoin(a: seq<Entry>, b: seq<Entry>)
    ensures Commands(a + b) == Commands(a) + Commands(b)
  {
    if b == [] {
      assert a + b == a;
    } else {
      CommandsJoin(a, b[..|b| - 1]);
      assert (a + b)[..|a + b| - 1] == a + b[..|b| - 1];
    }
  }

  lemma {:induction false} AllOrNoneGathers(cs: seq<Command>)
    ensures (forall c :: c in cs ==> Awaited(c)) ==> Gathers(cs) == |cs|
    ensures (forall c :: c in cs ==> !Awaited(c)) ==> Gathers(cs) == 0
  {
    if cs != [] {
      AllOrNoneGathers(cs[..|cs| - 1]);
      assert cs == cs[..|cs| - 1] + [cs[|cs| - 1]];
    }
  }

  // How many awaited answers a part has stored.
  lemma AnswersGather(es: seq<Entry>, cs: seq<Command>)
    requires Answers(es, cs)
    ensures (forall c :: c in cs ==> Awaited(c)) ==> Gathers(cs) == |cs| && Gathers(Commands(es)) == |es|
    ensures (forall c :: c in cs ==> !Awaited(c)) ==> Gathers(cs) == 0 && Gathers(Commands(es)) == 0
  {
    AllOrNoneGathers(cs);
    AllOrNoneGathers(Commands(es));
    CommandsOf(es);
    forall c | c in Commands(es) ensures c in cs {
      var k :| 0 <= k < |es| && c == Commands(es)[k];
      assert es[k] in es;
    }
  }

  // A part fails exactly when it did not get, or could not store, one of its answers.
  ghost predicate Counts(s: State, t: State, cs: seq<Command>, es: seq<Entry>) {
    s.failed <= t.failed && |es| <= |cs| && (t.failed == s.failed <==> |es| == |cs|)
  }

  lemma CountsJoin(a: State, b: State, c: State, cs: seq<Command>, es: seq<Entry>, cs': seq<Command>, es': seq<Entry>)
    requires Counts(a, b, cs, es) && Counts(b, c, cs', es')
    ensures Counts(a, c, cs + cs', es + es')
  {
  }

  lemma SourceAsks(w: World, s: State, c: Command) returns (es: seq<Entry>)
    ensures var (answer, t) := Source(w, s, c);
      && Adds(s, t, [c], es)
      && Counts(s, t, [c], es)
      && es == if answer.Some? then [Entry(c, answer.value)] else []
  {
    var (answer, s1) := Ask(s, c);
    es := if answer.Some? && w.parses(s1.db, c, answer.value) then [Entry(c, answer.value)] else [];
    assert s.db.writes == s.db.writes + [];
  }

  predicate AboutRuntime(c: Command) { c.RuntimeUsage? || c.RuntimeActivity? }

  function RuntimeCommands(ids: seq<Id>): seq<Command> {
    if ids == [] then [] else [RuntimeUsage(ids[0]), RuntimeActivity(ids[0])] + RuntimeCommands(ids[1..])
  }

  function TaskCommands(ids: seq<Id>): seq<Command> {
    if ids == [] then [] else [AgentTasks(ids[0])] + TaskCommands(ids[1..])
  }

  lemma {:induction false} RuntimesAsk(w: World, s: State, ids: seq<Id>) returns (es: seq<Entry>)
    ensures Adds(s, Runtimes(w, s, ids), RuntimeCommands(ids), es) && NoLists(es) && Answers(es, RuntimeCommands(ids))
    ensures Counts(s, Runtimes(w, s, ids), RuntimeCommands(ids), es)
    ensures forall e :: e in es ==> AboutRuntime(e.command)
    decreases |ids|
  {
    hide Source;
    if ids == [] {
      es := [];
    } else {
      var usage, activity := RuntimeUsage(ids[0]), RuntimeActivity(ids[0]);
      var first := SourceAsks(w, s, usage);
      var s1 := Source(w, s, usage).1;
      var second := SourceAsks(w, s1, activity);
      var s2 := Source(w, s1, activity).1;
      var rest := RuntimesAsk(w, s2, ids[1..]);
      CountsJoin(s, s1, s2, [usage], first, [activity], second);
      CountsJoin(s, s2, Runtimes(w, s, ids), [usage] + [activity], first + second, RuntimeCommands(ids[1..]), rest);
      AddsJoins(s, s1, s2, [usage], first, [activity], second);
      AddsJoins(s, s2, Runtimes(w, s, ids), [usage] + [activity], first + second, RuntimeCommands(ids[1..]), rest);
      assert [usage] + [activity] + RuntimeCommands(ids[1..]) == RuntimeCommands(ids);
      es := first + second + rest;
    }
  }

  lemma {:induction false} AgentsAsk(w: World, s: State, ids: seq<Id>, ok: bool) returns (es: seq<Entry>)
    ensures Adds(s, Agents(w, s, ids, ok).1, TaskCommands(ids), es) && NoLists(es) && Answers(es, TaskCommands(ids))
    ensures Counts(s, Agents(w, s, ids, ok).1, TaskCommands(ids), es) && (Agents(w, s, ids, ok).0 <==> ok && |es| == |TaskCommands(ids)|)
    decreases |ids|
  {
    hide Source;
    if ids == [] {
      es := [];
    } else {
      var c := AgentTasks(ids[0]);
      var first := SourceAsks(w, s, c);
      var (answer, s1) := Source(w, s, c);
      var rest := AgentsAsk(w, s1, ids[1..], ok && answer.Some?);
      CountsJoin(s, s1, Agents(w, s, ids, ok).1, [c], first, TaskCommands(ids[1..]), rest);
      AddsJoins(s, s1, Agents(w, s, ids, ok).1, [c], first, TaskCommands(ids[1..]), rest);
      es := first + rest;
    }
  }

  lemma {:induction false} TaskOf(ids: seq<Id>, c: Command)
    ensures c in TaskCommands(ids) <==> c.AgentTasks? && c.id in ids
  {
    if ids != [] {
      TaskOf(ids[1..], c);
      assert ids == [ids[0]] + ids[1..];
    }
  }

  lemma {:induction false} RuntimeOf(ids: seq<Id>, c: Command)
    ensures c in RuntimeCommands(ids) <==> (c.RuntimeUsage? || c.RuntimeActivity?) && c.id in ids
  {
    if ids != [] {
      RuntimeOf(ids[1..], c);
      assert ids == [ids[0]] + ids[1..];
    }
  }

  // Every listed project is asked for its first page, and no other project for anything.
  ghost predicate ProjectCommands(ids: seq<Id>, cs: seq<Command>) {
    && (forall id :: id in ids ==> IssueList(id, 0) in cs)
    && (forall c :: c in cs ==> c.IssueList? && c.project in ids)
  }

  lemma CommandsOf(entries: seq<Entry>)
    ensures |Commands(entries)| == |entries| && forall k :: 0 <= k < |entries| ==> Commands(entries)[k] == entries[k].command
  {
  }

  lemma {:induction false} PagesCountNothing(w: World, s: State, project: Id, first: nat)
    ensures Pages(w, s, project, first).1.failed == s.failed
    decreases Remaining(s.tape)
  {
    hide Pages;
    PagesAre(w, s, project, first);
    var (end, s1) := Page(w, s, IssueList(project, first));
    if end.More? { PagesCountNothing(w, s1, project, first + w.pageLimit); }
  }

  lemma ProjectAsks(w: World, s: State, project: Id) returns (cs: seq<Command>, es: seq<Entry>)
    ensures Adds(s, Project(w, s, project).1, cs, es) && NoLists(es) && ProjectCommands([project], cs) && Answers(es, cs)
    ensures Counts(s, Project(w, s, project).1, cs, es) && (Project(w, s, project).0 <==> |es| == |cs|)
  {
    hide Pages;
    es := PagesAreListed(w, s, project, 0);
    PagesCountNothing(w, s, project, 0);
    cs := Commands(es) + if Pages(w, s, project, 0).0 then [] else [IssueList(project, Offset(w, 0, |es|))];
    CommandsOf(es);
    assert Commands(es) == Commands(es) + [];
    assert cs[0] == IssueList(project, Offset(w, 0, 0));
    assert project in [project];
  }

  lemma {:induction false} ProjectsAsk(w: World, s: State, ids: seq<Id>, ok: bool) returns (cs: seq<Command>, es: seq<Entry>)
    ensures Adds(s, Projects(w, s, ids, ok).1, cs, es) && NoLists(es) && ProjectCommands(ids, cs) && Answers(es, cs)
    ensures Counts(s, Projects(w, s, ids, ok).1, cs, es) && (Projects(w, s, ids, ok).0 <==> ok && |es| == |cs|)
    decreases |ids|
  {
    hide Project;
    if ids == [] {
      cs, es := [], [];
    } else {
      var cs1, es1 := ProjectAsks(w, s, ids[0]);
      var (fine, s1) := Project(w, s, ids[0]);
      var cs2, es2 := ProjectsAsk(w, s1, ids[1..], ok && fine);
      CountsJoin(s, s1, Projects(w, s, ids, ok).1, cs1, es1, cs2, es2);
      AddsJoins(s, s1, Projects(w, s, ids, ok).1, cs1, es1, cs2, es2);
      assert ids == [ids[0]] + ids[1..];
      assert ids[0] in [ids[0]];
      cs, es := cs1 + cs2, es1 + es2;
    }
  }

  // Every pending issue is asked for its usage, and no other issue for anything.
  ghost predicate DetailCommands(ids: seq<Id>, cs: seq<Command>) {
    && (forall id :: id in ids ==> IssueUsage(id) in cs)
    && (forall c :: c in cs ==> (c.IssueUsage? || c.IssueRuns?) && c.id in ids)
  }

  // One issue: its runs are asked for exactly when its usage was answered, and nothing is stored
  // before both answers are there.
  lemma DetailAsks(w: World, s: State, id: Id) returns (cs: seq<Command>, es: seq<Entry>)
    ensures Adds(s, Detail(w, s, id).1, cs, es) && NoLists(es) && DetailCommands([id], cs) && Answers(es, cs)
    ensures IssueRuns(id) in cs <==> Ask(s, IssueUsage(id)).0.Some?
    ensures es != [] ==> Ask(Ask(s, IssueUsage(id)).1, IssueRuns(id)).0.Some?
    ensures |es| <= |cs| && (Detail(w, s, id).0 <==> |es| == |cs|) && Detail(w, s, id).1.failed == s.failed
    ensures Detail(w, s, id).0 ==> exists u, v :: es == [Entry(IssueUsage(id), u), Entry(IssueRuns(id), v)]
  {
    hide Answer;
    var t := Detail(w, s, id).1;
    var (usage, s1) := Ask(s, IssueUsage(id));
    es := [];
    if usage.None? {
      cs := [IssueUsage(id)];
    } else {
      cs := [IssueUsage(id), IssueRuns(id)];
      var (runs, s2) := Ask(s1, IssueRuns(id));
      assert s2.issued == s.issued + cs;
      if runs.Some? && w.parses(s2.db, IssueUsage(id), usage.value) {
        var s3 := Write(s2, IssueUsage(id), usage.value);
        es := [Entry(IssueUsage(id), usage.value)];
        if w.parses(s3.db, IssueRuns(id), runs.value) { es := [Entry(IssueUsage(id), usage.value), Entry(IssueRuns(id), runs.value)]; }
      }
    }
    assert t.issued == s.issued + cs;
    assert t.db.writes == s.db.writes + es;
  }

  lemma {:induction false} DetailsAsk(w: World, s: State, ids: seq<Id>, clean: bool) returns (cs: seq<Command>, es: seq<Entry>)
    ensures Adds(s, Details(w, s, ids, clean).1, cs, es) && NoLists(es) && DetailCommands(ids, cs) && Answers(es, cs)
    ensures |es| <= |cs| && (Details(w, s, ids, clean).0 <==> clean && |es| == |cs|) && Details(w, s, ids, clean).1.failed == s.failed
    decreases |ids|
  {
    hide Detail;
    if ids == [] {
      cs, es := [], [];
    } else {
      var cs1, es1 := DetailAsks(w, s, ids[0]);
      var (fine, s1) := Detail(w, s, ids[0]);
      var cs2, es2 := DetailsAsk(w, s1, ids[1..], clean && fine);
      AddsJoins(s, s1, Details(w, s, ids, clean).1, cs1, es1, cs2, es2);
      assert ids == [ids[0]] + ids[1..];
      assert ids[0] in [ids[0]];
      cs, es := cs1 + cs2, es1 + es2;
    }
  }

  // ---- the cycle ----

  ghost predicate Stored(es: seq<Entry>, c: Command, id: Id, w: World) {
    exists v :: Entry(c, v) in es && id in w.ids(v)
  }

  // What a cycle asks, from what it stored: three lists first, then every listed runtime (or every
  // known one when none is listed), project and agent, and nothing about any other; the workspace exactly
  // when agents and projects were listed and every page and task list asked for was stored; and of
  // the issues the pending ones.
  ghost predicate CycleCommanded(w: World, s: State, cs: seq<Command>, es: seq<Entry>, known: seq<Id>, pending: seq<Id>) {
    && |cs| >= 3 && cs[..3] == [RuntimeList, AgentList, ProjectList]
    && (forall i :: 3 <= i < |cs| ==> !IsList(cs[i]))
    && (forall id :: AgentTasks(id) in cs <==> Stored(es, AgentList, id, w))
    && (forall id :: IssueList(id, 0) in cs <==> Stored(es, ProjectList, id, w))
    && (forall id, offset :: IssueList(id, offset) in cs ==> Stored(es, ProjectList, id, w))
    && (forall id :: RuntimeUsage(id) in cs <==> RuntimeActivity(id) in cs)
    && (forall id :: RuntimeUsage(id) in cs <==>
          Stored(es, RuntimeList, id, w) || ((forall other :: !Stored(es, RuntimeList, other, w)) && id in known))
    && (WorkspaceGet in cs <==>
          && (exists id :: AgentTasks(id) in cs) && (exists id :: IssueList(id, 0) in cs)
          && Gathers(Commands(es)) == Gathers(cs))
    && (forall id :: IssueUsage(id) in cs <==> id in pending)
    && (forall id :: IssueRuns(id) in cs ==> id in pending)
  }

  lemma OneList(w: World, c: Command, answer: Option<Json>, id: Id, before: seq<Entry>, mine: seq<Entry>, after: seq<Entry>)
    requires mine == if answer.Some? then [Entry(c, answer.value)] else []
    requires forall e :: e in before + after ==> e.command != c
    ensures Stored(before + mine + after, c, id, w) <==> id in Listed(w, answer)
  {
    var es := before + mine + after;
    if answer.Some? {
      assert Entry(c, answer.value) in mine;
      assert Entry(c, answer.value) in es;
    }
    if Stored(es, c, id, w) {
      var v :| Entry(c, v) in es && id in w.ids(v);
      assert Entry(c, v) !in before + after;
      assert Entry(c, v) in mine;
    }
  }

  // The three lists.
  lemma ListsAsk(w: World, s: State) returns (er: seq<Entry>, ea: seq<Entry>, ep: seq<Entry>)
    ensures var (runtimes, agents, projects, t) := ThreeLists(w, s);
      && Adds(s, t, [RuntimeList, AgentList, ProjectList], er + ea + ep) && OnlyLists(er + ea + ep)
      && Counts(s, t, [RuntimeList, AgentList, ProjectList], er + ea + ep)
      && er == (if runtimes.Some? then [Entry(RuntimeList, runtimes.value)] else [])
      && ea == (if agents.Some? then [Entry(AgentList, agents.value)] else [])
      && ep == (if projects.Some? then [Entry(ProjectList, projects.value)] else [])
  {
    hide Source;
    er := SourceAsks(w, s, RuntimeList);
    var s1 := Source(w, s, RuntimeList).1;
    ea := SourceAsks(w, s1, AgentList);
    var s2 := Source(w, s1, AgentList).1;
    ep := SourceAsks(w, s2, ProjectList);
    var s3 := Source(w, s2, ProjectList).1;
    CountsJoin(s, s1, s2, [RuntimeList], er, [AgentList], ea);
    CountsJoin(s, s2, s3, [RuntimeList] + [AgentList], er + ea, [ProjectList], ep);
    AddsJoins(s, s1, s2, [RuntimeList], er, [AgentList], ea);
    AddsJoins(s, s2, s3, [RuntimeList] + [AgentList], er + ea, [ProjectList], ep);
    assert [RuntimeList] + [AgentList] + [ProjectList] == [RuntimeList, AgentList, ProjectList];
  }

  lemma SnapshotAsks(w: World, s: State, complete: bool) returns (es: seq<Entry>)
    ensures Adds(s, SnapshotPhase(w, s, complete), if complete then [WorkspaceGet] else [], es) && NoLists(es)
    ensures Answers(es, if complete then [WorkspaceGet] else [])
    ensures var t, cs := SnapshotPhase(w, s, complete), if complete then [WorkspaceGet] else [];
      && s.failed <= t.failed && |es| <= |cs|
      && (t.failed == s.failed <==> |es| == |cs| && (complete ==> w.snapshots(t.db)))
  {
    hide Source;
    es := [];
    if complete { es := SourceAsks(w, s, WorkspaceGet); }
  }

  // What follows the three lists, part by part: es are the answers stored before the issue details.
  lemma RestAsks(w: World, s: State, runtimes: seq<Id>, agents: seq<Id>, projects: seq<Id>, first: bool)
    returns (ps: seq<Command>, ds: seq<Command>, usage: seq<Entry>, es: seq<Entry>, details: seq<Entry>, complete: bool)
    requires first == (projects != [])
    ensures var s1 := Priced(w, s, runtimes);
      var (issuesOk, s2) := Projects(w, s1, projects, first);
      var (tasksOk, s3) := Agents(w, s2, agents, true);
      var s4 := SnapshotPhase(w, s3, agents != [] && issuesOk && tasksOk);
      && Adds(s, DetailPhase(w, s4),
              RuntimeCommands(runtimes) + ps + TaskCommands(agents) + (if complete then [WorkspaceGet] else []) + ds, es + details)
      && DetailCommands(w.pending(Db(s.db.writes + es)), ds)
    ensures complete <==>
      && agents != [] && projects != []
      && Gathers(Commands(es + details))
         == Gathers(RuntimeCommands(runtimes) + ps + TaskCommands(agents) + (if complete then [WorkspaceGet] else []) + ds)
    ensures NoLists(es) && NoLists(details) && ProjectCommands(projects, ps)
    ensures UsageFirst(usage, es)
    ensures var s1 := Priced(w, s, runtimes);
      var (issuesOk, s2) := Projects(w, s1, projects, first);
      var (tasksOk, s3) := Agents(w, s2, agents, true);
      var s5 := DetailPhase(w, SnapshotPhase(w, s3, agents != [] && issuesOk && tasksOk));
      var cs := RuntimeCommands(runtimes) + ps + TaskCommands(agents) + (if complete then [WorkspaceGet] else []) + ds;
      && s.failed <= s5.failed && |es + details| <= |cs|
      && (s5.failed == s.failed <==>
            |es + details| == |cs| && w.prices(Db(s.db.writes + usage)) && (complete ==> w.snapshots(Db(s.db.writes + es))))
  {
    hide Runtimes, Projects, Agents, SnapshotPhase, Details, NoLists, ProjectCommands, DetailCommands, Answers, Gathers, Commands,
         TaskCommands, RuntimeCommands;
    var e1 := RuntimesAsk(w, s, runtimes);
    var s1 := Priced(w, s, runtimes);
    usage := e1;
    assert s1.db == Db(s.db.writes + usage);
    var e2, e3, e4;
    ps, e2 := ProjectsAsk(w, s1, projects, first);
    var (issuesOk, s2) := Projects(w, s1, projects, first);
    e3 := AgentsAsk(w, s2, agents, true);
    var (tasksOk, s3) := Agents(w, s2, agents, true);
    complete := agents != [] && issuesOk && tasksOk;
    e4 := SnapshotAsks(w, s3, complete);
    var s4 := SnapshotPhase(w, s3, complete);
    ds, details := DetailsAsk(w, s4, w.pending(s4.db), true);
    var s5 := DetailPhase(w, s4);
    var snapshot: seq<Command> := if complete then [WorkspaceGet] else [];
    AddsJoins(s, s1, s2, RuntimeCommands(runtimes), e1, ps, e2);
    AddsJoins(s, s2, s3, RuntimeCommands(runtimes) + ps, e1 + e2, TaskCommands(agents), e3);
    AddsJoins(s, s3, s4, RuntimeCommands(runtimes) + ps + TaskCommands(agents), e1 + e2 + e3, snapshot, e4);
    es := e1 + e2 + e3 + e4;
    assert s4.db == Db(s.db.writes + es);
    AddsJoins(s, s4, s5, RuntimeCommands(runtimes) + ps + TaskCommands(agents) + snapshot, es, ds, details);
    NoListsJoin(e1, e2, e3, e4);
    UsageIsFirst(e1, e2, e3, e4, ps, TaskCommands(agents), snapshot, projects, agents);
    AllGathered(runtimes, agents, projects, w.pending(s4.db), ps, ds, snapshot, e1, e2, e3, e4, details);
  }

  // What is stored about the runtimes comes before everything else.
  ghost predicate UsageFirst(usage: seq<Entry>, es: seq<Entry>) {
    && |usage| <= |es| && es[..|usage|] == usage
    && forall i :: 0 <= i < |es| ==> (AboutRuntime(es[i].command) <==> i < |usage|)
  }

  lemma UsageIsFirst(e1: seq<Entry>, e2: seq<Entry>, e3: seq<Entry>, e4: seq<Entry>, ps: seq<Command>, ts: seq<Command>,
                     snapshot: seq<Command>, projects: seq<Id>, agents: seq<Id>)
    requires (forall e :: e in e1 ==> AboutRuntime(e.command)) && Answers(e2, ps) && Answers(e3, ts) && Answers(e4, snapshot)
    requires ProjectCommands(projects, ps) && ts == TaskCommands(agents) && (snapshot == [] || snapshot == [WorkspaceGet])
    ensures UsageFirst(e1, e1 + e2 + e3 + e4)
  {
    var rest := e2 + e3 + e4;
    forall e | e in rest ensures !AboutRuntime(e.command) { TaskOf(agents, e.command); }
    var es := e1 + e2 + e3 + e4;
    forall i | 0 <= i < |es| ensures AboutRuntime(es[i].command) <==> i < |e1| {
      if i < |e1| { assert es[i] == e1[i] && e1[i] in e1; } else { assert es[i] == rest[i - |e1|] && es[i] in rest; }
    }
  }

  // The awaited commands of the parts are those of the projects and of the agents.
  lemma AllGathered(runtimes: seq<Id>, agents: seq<Id>, projects: seq<Id>, pending: seq<Id>, ps: seq<Command>, ds: seq<Command>,
                    snapshot: seq<Command>, e1: seq<Entry>, e2: seq<Entry>, e3: seq<Entry>, e4: seq<Entry>, details: seq<Entry>)
    requires ProjectCommands(projects, ps) && DetailCommands(pending, ds) && (snapshot == [] || snapshot == [WorkspaceGet])
    requires Answers(e1, RuntimeCommands(runtimes)) && Answers(e2, ps) && Answers(e3, TaskCommands(agents))
    requires Answers(e4, snapshot) && Answers(details, ds)
    ensures Gathers(Commands(e1 + e2 + e3 + e4 + details)) == |e2| + |e3|
    ensures Gathers(RuntimeCommands(runtimes) + ps + TaskCommands(agents) + snapshot + ds) == |ps| + |TaskCommands(agents)|
  {
    hide Answers, Gathers, Commands;
    forall c ensures (c in RuntimeCommands(runtimes) ==> !Awaited(c)) && (c in TaskCommands(agents) ==> Awaited(c)) {
      RuntimeOf(runtimes, c);
      TaskOf(agents, c);
    }
    AnswersGather(e1, RuntimeCommands(runtimes));
    AnswersGather(e2, ps);
    AnswersGather(e3, TaskCommands(agents));
    AnswersGather(e4, snapshot);
    AnswersGather(details, ds);
    GathersJoinFive(RuntimeCommands(runtimes), ps, TaskCommands(agents), snapshot, ds);
    GathersJoinFive(Commands(e1), Commands(e2), Commands(e3), Commands(e4), Commands(details));
    CommandsJoin(e1, e2);
    CommandsJoin(e1 + e2, e3);
    CommandsJoin(e1 + e2 + e3, e4);
    CommandsJoin(e1 + e2 + e3 + e4, details);
  }

  lemma GathersJoinFive(a: seq<Command>, b: seq<Command>, c: seq<Command>, d: seq<Command>, e: seq<Command>)
    ensures Gathers(a + b + c + d + e) == Gathers(a) + Gathers(b) + Gathers(c) + Gathers(d) + Gathers(e)
  {
    hide Gathers;
    GathersJoin(a, b);
    GathersJoin(a + b, c);
    GathersJoin(a + b + c, d);
    GathersJoin(a + b + c + d, e);
  }

  lemma NoListsJoin(a: seq<Entry>, b: seq<Entry>, c: seq<Entry>, d: seq<Entry>)
    requires NoLists(a) && NoLists(b) && NoLists(c) && NoLists(d)
    ensures NoLists(a + b + c + d)
  {
  }

  // The commands of a cycle, and the answers it stored: of the lists, of everything up to the issue
  // details, and of those. It counts no failure exactly when every one of its answers came and was
  // stored, pricing what had been read of the runtimes worked, and so did the snapshot, if there was one.
  lemma CycleAsks(w: World, s: State)
    returns (cs: seq<Command>, lists: seq<Entry>, usage: seq<Entry>, middle: seq<Entry>, details: seq<Entry>)
    ensures Adds(s, Cycle(w, s), cs, lists + middle + details)
    ensures CycleCommanded(w, s, cs, lists + middle + details, w.known(Db(s.db.writes + lists)),
                           w.pending(Db(s.db.writes + lists + middle)))
    ensures UsageFirst(usage, middle)
    ensures Cycle(w, s).failed == s.failed <==>
      && |lists + middle + details| == |cs| && w.prices(Db(s.db.writes + lists + usage))
      && (WorkspaceGet in cs ==> w.snapshots(Db(s.db.writes + lists + middle)))
  {
    hide Runtimes, Projects, Agents, SnapshotPhase, Details, ThreeLists, Priced, CycleCommanded, ProjectCommands, DetailCommands, Stored,
         Gathers, Commands, Answers, TaskCommands, RuntimeCommands;
    var (runtimes, agents, projects, t) := ThreeLists(w, s);
    var er, ea, ep := ListsAsk(w, s);
    lists := er + ea + ep;
    assert t.db == Db(s.db.writes + lists);
    var ids := RuntimeIds(w, t.db, runtimes);
    var ps, ds, complete;
    ps, ds, usage, middle, details, complete := RestAsks(w, t, ids, Listed(w, agents), Listed(w, projects), Listed(w, projects) != []);
    var snapshot: seq<Command> := if complete then [WorkspaceGet] else [];
    var rest := RuntimeCommands(ids) + ps + TaskCommands(Listed(w, agents)) + snapshot + ds;
    cs := [RuntimeList, AgentList, ProjectList] + rest;
    AddsJoins(s, t, Cycle(w, s), [RuntimeList, AgentList, ProjectList], lists, rest, middle + details);
    assert lists + (middle + details) == lists + middle + details;
    StoredLists(w, runtimes, agents, projects, er, ea, ep, middle + details);
    ListsGatherNothing(lists, middle + details, rest);
    Commanded(w, s, t, runtimes, agents, projects, ids, ps, ds, complete, lists + middle + details, w.pending(Db(s.db.writes + lists + middle)));
    assert WorkspaceGet in cs <==> complete;
  }

  ghost predicate OnlyLists(es: seq<Entry>) { forall e :: e in es ==> IsList(e.command) }

  lemma ListsGatherNothing(lists: seq<Entry>, stored: seq<Entry>, rest: seq<Command>)
    requires OnlyLists(lists)
    ensures Gathers(Commands(lists + stored)) == Gathers(Commands(stored))
    ensures Gathers([RuntimeList, AgentList, ProjectList] + rest) == Gathers(rest)
  {
    hide Gathers, Commands;
    var heads := [RuntimeList, AgentList, ProjectList];
    GathersJoin(heads, rest);
    forall c | c in heads ensures !Awaited(c) { }
    AllOrNoneGathers(heads);
    CommandsJoin(lists, stored);
    GathersJoin(Commands(lists), Commands(stored));
    CommandsOf(lists);
    forall c | c in Commands(lists) ensures !Awaited(c) {
      var k :| 0 <= k < |lists| && c == Commands(lists)[k];
      assert lists[k] in lists;
    }
    AllOrNoneGathers(Commands(lists));
  }

  // Every stored list is the answer to its command.
  lemma StoredLists(w: World, runtimes: Option<Json>, agents: Option<Json>, projects: Option<Json>,
                    er: seq<Entry>, ea: seq<Entry>, ep: seq<Entry>, rest: seq<Entry>)
    requires er == if runtimes.Some? then [Entry(RuntimeList, runtimes.value)] else []
    requires ea == if agents.Some? then [Entry(AgentList, agents.value)] else []
    requires ep == if projects.Some? then [Entry(ProjectList, projects.value)] else []
    requires NoLists(rest)
    ensures var es := er + ea + ep + rest;
      forall id ::
        && (Stored(es, RuntimeList, id, w) <==> id in Listed(w, runtimes))
        && (Stored(es, AgentList, id, w) <==> id in Listed(w, agents))
        && (Stored(es, ProjectList, id, w) <==> id in Listed(w, projects))
  {
    hide Stored, Listed, NoLists;
    ListStored(w, RuntimeList, runtimes, [], er, ea, ep, rest);
    ListStored(w, AgentList, agents, er, ea, ep, [], rest);
    ListStored(w, ProjectList, projects, er + ea, ep, [], [], rest);
    assert [] + er + ea + ep + rest == er + ea + ep + rest;
    assert er + ea + ep + [] + rest == er + ea + ep + rest;
    assert er + ea + ep + [] + [] + rest == er + ea + ep + rest;
  }

  lemma ListStored(w: World, c: Command, answer: Option<Json>, before: seq<Entry>, mine: seq<Entry>,
                   next: seq<Entry>, last: seq<Entry>, rest: seq<Entry>)
    requires mine == (if answer.Some? then [Entry(c, answer.value)] else []) && IsList(c) && NoLists(rest)
    requires forall e :: e in before || e in next || e in last ==> e.command != c
    ensures forall id :: Stored(before + mine + next + last + rest, c, id, w) <==> id in Listed(w, answer)
  {
    hide Listed, Stored;
    forall id ensures Stored(before + mine + next + last + rest, c, id, w) <==> id in Listed(w, answer) {
      OneList(w, c, answer, id, before, mine, next + last + rest);
      assert before + mine + (next + last + rest) == before + mine + next + last + rest;
    }
  }

  predicate Asked(c: Command, ids: seq<Id>, agents: seq<Id>, complete: bool, ps: seq<Command>, ds: seq<Command>) {
    match c
    case RuntimeUsage(id) => id in ids
    case RuntimeActivity(id) => id in ids
    case AgentTasks(id) => id in agents
    case IssueList(_, _) => c in ps
    case WorkspaceGet => complete
    case IssueUsage(_) => c in ds
    case IssueRuns(_) => c in ds
    case _ => false
  }

  lemma RestIs(ids: seq<Id>, agents: seq<Id>, projects: seq<Id>, pending: seq<Id>, complete: bool, ps: seq<Command>, ds: seq<Command>, c: Command)
    requires ProjectCommands(projects, ps) && DetailCommands(pending, ds)
    ensures c in RuntimeCommands(ids) + ps + TaskCommands(agents) + (if complete then [WorkspaceGet] else []) + ds
       <==> Asked(c, ids, agents, complete, ps, ds)
  {
    TaskOf(agents, c);
    RuntimeOf(ids, c);
  }

  lemma AfterHeads(heads: seq<Command>, rest: seq<Command>, c: Command)
    requires heads == [RuntimeList, AgentList, ProjectList]
    ensures c in heads + rest <==> IsList(c) || c in rest
    ensures (heads + rest)[..3] == heads
  {
    assert heads[0] == RuntimeList && heads[1] == AgentList && heads[2] == ProjectList;
    assert c in heads + rest <==> c in heads || c in rest;
  }

  lemma Commanded(w: World, s: State, t: State, runtimes: Option<Json>, agents: Option<Json>, projects: Option<Json>,
                  ids: seq<Id>, ps: seq<Command>, ds: seq<Command>, complete: bool, es: seq<Entry>, pending: seq<Id>)
    requires ids == if Listed(w, runtimes) != [] then Listed(w, runtimes) else w.known(t.db)
    requires ProjectCommands(Listed(w, projects), ps) && DetailCommands(pending, ds)
    requires var rest := RuntimeCommands(ids) + ps + TaskCommands(Listed(w, agents)) + (if complete then [WorkspaceGet] else []) + ds;
      complete <==>
        && Listed(w, agents) != [] && Listed(w, projects) != []
        && Gathers(Commands(es)) == Gathers([RuntimeList, AgentList, ProjectList] + rest)
    requires forall id ::
      && (Stored(es, RuntimeList, id, w) <==> id in Listed(w, runtimes))
      && (Stored(es, AgentList, id, w) <==> id in Listed(w, agents))
      && (Stored(es, ProjectList, id, w) <==> id in Listed(w, projects))
    ensures var rest := RuntimeCommands(ids) + ps + TaskCommands(Listed(w, agents)) + (if complete then [WorkspaceGet] else []) + ds;
      && CycleCommanded(w, s, [RuntimeList, AgentList, ProjectList] + rest, es, w.known(t.db), pending)
      && (WorkspaceGet in [RuntimeList, AgentList, ProjectList] + rest <==> complete)
  {
    hide Stored, Listed, RuntimeCommands, TaskCommands, ProjectCommands, DetailCommands, Asked, CycleCommanded, Gathers, Commands;
    var heads := [RuntimeList, AgentList, ProjectList];
    var rest := RuntimeCommands(ids) + ps + TaskCommands(Listed(w, agents)) + (if complete then [WorkspaceGet] else []) + ds;
    forall c ensures c in heads + rest <==> IsList(c) || Asked(c, ids, Listed(w, agents), complete, ps, ds) {
      AfterHeads(heads, rest, c);
      RestIs(ids, Listed(w, agents), Listed(w, projects), pending, complete, ps, ds, c);
    }
    forall i | 3 <= i < |heads + rest| ensures !IsList((heads + rest)[i]) {
      var c := (heads + rest)[i];
      assert c == rest[i - 3] && c in rest;
      RestIs(ids, Listed(w, agents), Listed(w, projects), pending, complete, ps, ds, c);
      NoListIsAsked(c, ids, Listed(w, agents), complete, ps, ds);
    }
    AfterHeads(heads, rest, RuntimeList);
    assert Asked(WorkspaceGet, ids, Listed(w, agents), complete, ps, ds) <==> complete by { OnlySnapshot(ids, Listed(w, agents), complete, ps, ds); }
    CommandedBy(w, s, heads + rest, es, Listed(w, runtimes), Listed(w, agents), Listed(w, projects), w.known(t.db), pending, ids, complete, ps, ds);
  }

  lemma OnlySnapshot(ids: seq<Id>, agents: seq<Id>, complete: bool, ps: seq<Command>, ds: seq<Command>)
    ensures Asked(WorkspaceGet, ids, agents, complete, ps, ds) <==> complete
  {
  }

  lemma NoListIsAsked(c: Command, ids: seq<Id>, agents: seq<Id>, complete: bool, ps: seq<Command>, ds: seq<Command>)
    ensures Asked(c, ids, agents, complete, ps, ds) ==> !IsList(c)
  {
  }

  lemma CommandedBy(w: World, s: State, cs: seq<Command>, es: seq<Entry>, runtimes: seq<Id>, agents: seq<Id>, projects: seq<Id>,
                    known: seq<Id>, pending: seq<Id>, ids: seq<Id>, complete: bool, ps: seq<Command>, ds: seq<Command>)
    requires ids == if runtimes != [] then runtimes else known
    requires ProjectCommands(projects, ps) && DetailCommands(pending, ds)
    requires complete <==> agents != [] && projects != [] && Gathers(Commands(es)) == Gathers(cs)
    requires forall id ::
      && (Stored(es, RuntimeList, id, w) <==> id in runtimes)
      && (Stored(es, AgentList, id, w) <==> id in agents)
      && (Stored(es, ProjectList, id, w) <==> id in projects)
    requires |cs| >= 3 && cs[..3] == [RuntimeList, AgentList, ProjectList] && forall i :: 3 <= i < |cs| ==> !IsList(cs[i])
    requires forall c :: c in cs <==> IsList(c) || Asked(c, ids, agents, complete, ps, ds)
    ensures CycleCommanded(w, s, cs, es, known, pending)
  {
    hide Stored, Gathers, Commands;
    assert forall id :: RuntimeUsage(id) in cs <==> id in ids;
    assert forall id :: RuntimeActivity(id) in cs <==> id in ids;
    assert forall id :: AgentTasks(id) in cs <==> id in agents;
    assert forall id, offset :: IssueList(id, offset) in cs <==> IssueList(id, offset) in ps;
    assert forall id :: IssueUsage(id) in cs <==> IssueUsage(id) in ds;
    assert forall id :: IssueRuns(id) in cs <==> IssueRuns(id) in ds;
    assert forall id :: IssueUsage(id) in ds <==> id in pending;
    assert forall id :: IssueList(id, 0) in ps <==> id in projects;
    assert WorkspaceGet in cs <==> complete;
    RuntimesFor(w, es, runtimes, known, ids);
    if agents != [] { assert AgentTasks(agents[0]) in cs; }
    if projects != [] { assert IssueList(projects[0], 0) in cs; }
    forall id, offset | IssueList(id, offset) in cs ensures Stored(es, ProjectList, id, w) {
      assert IssueList(id, offset) in ps;
    }
    forall id | IssueRuns(id) in cs ensures id in pending { assert IssueRuns(id) in ds; }
  }

  // The listed runtimes, or the known ones when nothing is listed.
  lemma RuntimesFor(w: World, es: seq<Entry>, runtimes: seq<Id>, known: seq<Id>, ids: seq<Id>)
    requires ids == if runtimes != [] then runtimes else known
    requires forall id :: Stored(es, RuntimeList, id, w) <==> id in runtimes
    ensures forall id :: id in ids <==>
      Stored(es, RuntimeList, id, w) || ((forall other :: !Stored(es, RuntimeList, other, w)) && id in known)
  {
    hide Stored;
    if runtimes != [] { assert runtimes[0] in runtimes; }
  }
}
