/**
 * The task registry of src/services/taskService.ts: tasks keyed by id,
 * the listeners told about every change, the creation of a task from the
 * backend's reply, the processing run that drives a task from pending to
 * completed or failed, partial article writes and the export of a task's
 * articles.
 *
 * The backend (`invoke`) is an oracle: its replies are parameters, and the
 * calls whose replies are ignored are recorded in `backendLog`. Listeners
 * are identified by numbers; what each one is handed is recorded in
 * `inbox`.
 */
module Tasks {
  import opened Js
  import opened Gemini
  import Backend

  datatype Status = Pending | Processing | Completed | Failed

  function StatusText(s: Status): string
  {
    match s
    case Pending => "pending"
    case Processing => "processing"
    case Completed => "completed"
    case Failed => "failed"
  }

  /** An entry of a task's article array, which partial writes can leave with holes. */
  datatype Slot = Hole | Filled(article: Article)

  /** A task as the front end keeps it; times are milliseconds since the epoch. */
  datatype Task = Task(
    id: string,
    companyInfo: string,
    productInfo: string,
    articleCount: int,
    targetWordCount: Option<int>,
    status: Status,
    progress: int,
    createdAt: int,
    completedAt: Option<int>,
    articles: Option<seq<Slot>>)

  /** What each status promises about the other fields. */
  predicate WellFormed(t: Task)
  {
    && 0 <= t.progress <= 100
    && (t.status == Pending ==> t.progress == 0 && t.completedAt.None?)
    && (t.status == Completed ==> t.progress == 100 && t.completedAt.Some? && t.articles.Some?)
    && (t.status == Status.Failed ==> t.completedAt.Some?)
  }

  // ---------------------------------------------------------------------
  // The snapshot: all tasks, newest first

  predicate NewestFirst(ts: seq<Task>)
  {
    forall i, j :: 0 <= i < j < |ts| ==> ts[i].createdAt >= ts[j].createdAt
  }

  /** Puts `t` before the first task that is not newer than it. */
  function InsertNewest(t: Task, ts: seq<Task>): seq<Task>
  {
    if ts == [] || ts[0].createdAt <= t.createdAt then [t] + ts
    else [ts[0]] + InsertNewest(t, ts[1..])
  }

  /** Inserting adds `t` to the tasks, once. */
  lemma {:induction false} InsertNewestCount(t: Task, ts: seq<Task>)
    ensures multiset(InsertNewest(t, ts)) == multiset(ts) + multiset{t}
  {
    if !(ts == [] || ts[0].createdAt <= t.createdAt) {
      InsertNewestCount(t, ts[1..]);
      assert ts == [ts[0]] + ts[1..];
    }
  }

  /** Inserting into tasks no newer than `c` a task no newer than `c` gives tasks no newer than `c`. */
  lemma {:induction false} InsertNewestBound(t: Task, ts: seq<Task>, c: int)
    requires t.createdAt <= c
    requires forall k :: 0 <= k < |ts| ==> ts[k].createdAt <= c
    ensures forall k :: 0 <= k < |InsertNewest(t, ts)| ==> InsertNewest(t, ts)[k].createdAt <= c
  {
    if !(ts == [] || ts[0].createdAt <= t.createdAt) {
      InsertNewestBound(t, ts[1..], c);
    }
  }

  /** Inserting keeps tasks newest first. */
  lemma {:induction false} InsertNewestOrdered(t: Task, ts: seq<Task>)
    requires NewestFirst(ts)
    ensures NewestFirst(InsertNewest(t, ts))
  {
    var r := InsertNewest(t, ts);
    if ts == [] || ts[0].createdAt <= t.createdAt {
      assert forall j :: 0 < j < |r| ==> r[j] == ts[j - 1];
    } else {
      var rest := InsertNewest(t, ts[1..]);
      InsertNewestOrdered(t, ts[1..]);
      InsertNewestBound(t, ts[1..], ts[0].createdAt);
      assert forall j :: 0 < j < |r| ==> r[j] == rest[j - 1];
    }
  }

  /** `tasks.sort((a, b) => b.createdAt - a.createdAt)`, a stable sort, newest first. */
  function SortNewest(ts: seq<Task>): (r: seq<Task>)
    ensures multiset(r) == multiset(ts)
    ensures NewestFirst(r)
  {
    if ts == [] then []
    else
      assert ts == [ts[0]] + ts[1..];
      var sorted := SortNewest(ts[1..]);
      InsertNewestCount(ts[0], sorted);
      InsertNewestOrdered(ts[0], sorted);
      InsertNewest(ts[0], sorted)
  }

  /** The tasks stored under `ids`, in that order. */
  function ValuesInOrder(ids: seq<string>, m: map<string, Task>): seq<Task>
  {
    if ids == [] then []
    else
      var id := ids[|ids| - 1];
      ValuesInOrder(ids[..|ids| - 1], m) + (if id in m then [m[id]] else [])
  }

  /** The listed tasks are exactly the tasks stored under the listed ids; one each when every id is stored. */
  lemma {:induction false} ValuesInOrderMembers(ids: seq<string>, m: map<string, Task>)
    ensures forall t :: t in ValuesInOrder(ids, m) <==> exists id :: id in ids && id in m && m[id] == t
    ensures (forall id :: id in ids ==> id in m) ==> |ValuesInOrder(ids, m)| == |ids|
  {
    if ids != [] {
      var init := ids[..|ids| - 1];
      var id := ids[|ids| - 1];
      ValuesInOrderMembers(init, m);
      assert ids == init + [id];
      forall t | t in ValuesInOrder(ids, m)
        ensures exists id' :: id' in ids && id' in m && m[id'] == t
      {
        if t in ValuesInOrder(init, m) {
          var id' :| id' in init && id' in m && m[id'] == t;
          assert id' in ids;
        } else {
          assert id in ids && id in m && m[id] == t;
        }
      }
      forall t | exists id' :: id' in ids && id' in m && m[id'] == t
        ensures t in ValuesInOrder(ids, m)
      {
        var id' :| id' in ids && id' in m && m[id'] == t;
        if id' in init {
          assert t in ValuesInOrder(init, m);
        } else {
          assert id' == id;
        }
      }
    }
  }

  // ---------------------------------------------------------------------
  // Listeners

  /** One call of a listener with the snapshot it was handed. */
  datatype Delivery = Delivery(listener: nat, tasks: seq<Task>)

  /** One delivery of `snap` to each listener of `ls`, in order. */
  function Deliveries(ls: seq<nat>, snap: seq<Task>): (ds: seq<Delivery>)
    ensures |ds| == |ls|
    ensures forall k :: 0 <= k < |ls| ==> ds[k] == Delivery(ls[k], snap)
  {
    seq(|ls|, k requires 0 <= k < |ls| => Delivery(ls[k], snap))
  }

  /** A listener that is not registered gets nothing; a registered one gets the snapshot. */
  lemma DeliveriesReach(ls: seq<nat>, snap: seq<Task>, l: nat)
    ensures l !in ls ==> forall d :: d in Deliveries(ls, snap) ==> d.listener != l
    ensures l in ls ==> Delivery(l, snap) in Deliveries(ls, snap)
  {
    var ds := Deliveries(ls, snap);
    if l in ls {
      var k :| 0 <= k < |ls| && ls[k] == l;
      assert ds[k] == Delivery(l, snap);
    }
  }

  predicate NoDuplicates<T(==)>(s: seq<T>)
  {
    forall i, j :: 0 <= i < j < |s| ==> s[i] != s[j]
  }

  /** `listeners.delete(l)`: the set in insertion order, without `l`. */
  function Without(ls: seq<nat>, l: nat): (r: seq<nat>)
    ensures l !in r
    ensures forall x :: x != l ==> (x in r <==> x in ls)
    ensures NoDuplicates(ls) ==> NoDuplicates(r)
  {
    if ls == [] then []
    else
      var rest := Without(ls[1..], l);
      assert forall x :: x in ls[1..] ==> x in ls;
      assert NoDuplicates(ls) ==> NoDuplicates(ls[1..]) && ls[0] !in ls[1..];
      if ls[0] == l then rest else [ls[0]] + rest
  }

  // ---------------------------------------------------------------------
  // Creating a task from the backend's reply

  /** What `invoke("create_generation_task", ..)` did: threw, or resolved to a value that may be missing. */
  datatype CreateReply = Threw(error: Thrown) | Replied(task: Option<Backend.GenerationTask>)

  const CreatePrefix: string := "创建任务失败: "

  const InvalidResponse: string := "Invalid response from backend"

  /** The front-end task built from a valid reply: pending, at 0, seconds turned into milliseconds. */
  function FromReply(rt: Backend.GenerationTask, targetWordCount: Option<int>): (t: Task)
    ensures WellFormed(t)
    ensures t.id == rt.id && t.companyInfo == rt.companyInfo && t.productInfo == rt.productInfo
    ensures t.articleCount == rt.articleCount && t.targetWordCount == targetWordCount
    ensures t.status == Pending && t.progress == 0 && t.createdAt == rt.createdAt * 1000
    ensures t.completedAt.None? && t.articles.None?
  {
    Task(rt.id, rt.companyInfo, rt.productInfo, rt.articleCount, targetWordCount,
         Pending, 0, rt.createdAt * 1000, None, None)
  }

  /** A task the backend builds comes back with the caller's inputs, pending, at 0, created when the backend says. */
  lemma CreateRoundTrip(companyInfo: string, productInfo: string, n: Backend.U32, id: Backend.UuidText,
                        now: Backend.U64, targetWordCount: Option<int>)
    ensures var t := FromReply(Backend.CreateGenerationTask(companyInfo, productInfo, n, id, now), targetWordCount);
            && t.id == id && t.id != []
            && t.companyInfo == companyInfo && t.productInfo == productInfo && t.articleCount == n
            && t.status == Pending && t.progress == 0 && t.createdAt == now * 1000
            && t.completedAt.None? && t.articles.None?
  {
  }

  // ---------------------------------------------------------------------
  // Processing

  /** A call to the backend whose outcome the service ignores. */
  datatype BackendCall =
    | SyncProgress(taskId: string, status: string, progress: int)
    | SyncArticles(taskId: string, articles: seq<WireArticle>)

  /** An article as `update_task_articles` receives it, with snake_case keys. */
  datatype WireArticle = WireArticle(title: string, content: string, word_count: nat)

  function ToWire(articles: seq<Article>): seq<WireArticle>
  {
    if articles == [] then []
    else
      var a := articles[|articles| - 1];
      ToWire(articles[..|articles| - 1]) + [WireArticle(a.title, a.content, a.wordCount)]
  }

  function FromWire(ws: seq<WireArticle>): seq<Article>
  {
    if ws == [] then []
    else
      var w := ws[|ws| - 1];
      FromWire(ws[..|ws| - 1]) + [Article(w.title, w.content, w.word_count)]
  }

  /** The snake_case mapping keeps the length and the order, field for field, and loses nothing. */
  lemma {:induction false} ToWireSpec(articles: seq<Article>)
    ensures |ToWire(articles)| == |articles|
    ensures forall i :: 0 <= i < |articles| ==>
      var w := ToWire(articles)[i];
      w.title == articles[i].title && w.content == articles[i].content && w.word_count == articles[i].wordCount
    ensures FromWire(ToWire(articles)) == articles
  {
    if articles != [] {
      var init := articles[..|articles| - 1];
      ToWireSpec(init);
      var ws := ToWire(articles);
      assert ws[..|ws| - 1] == ToWire(init);
      assert articles == init + [articles[|articles| - 1]];
    }
  }

  /** The articles of a finished run as the task's article array. */
  function FilledSlots(articles: seq<Article>): (slots: seq<Slot>)
    ensures |slots| == |articles|
    ensures forall i :: 0 <= i < |articles| ==> slots[i] == Slot.Filled(articles[i])
  {
    seq(|articles|, i requires 0 <= i < |articles| => Slot.Filled(articles[i]))
  }

  /** How generation went for one task. */
  datatype Run = Aborted | Done(articles: seq<Article>, reports: seq<int>)

  /**
   * The run for `t`: it aborts when the template cannot be fetched, when no
   * service can be had, or when the article count is out of range;
   * otherwise it yields the articles and progress reports of
   * `generateArticles`.
   */
  function RunOf(t: Task, template: Result<string, Thrown>, serviceFound: bool, model: (string, nat) -> Reply): Run
  {
    if template.Err? || !serviceFound || t.articleCount <= 0 || t.articleCount > 100 then Aborted
    else
      var rs := Replies(model, FillPrompt(template.value, t.companyInfo, t.productInfo), t.articleCount);
      Done(ItemArticles(rs), ProgressReports(rs, t.articleCount))
  }

  /** A run depends on the task's inputs only, not on its status or progress. */
  lemma RunOfInputs(t: Task, u: Task, template: Result<string, Thrown>, serviceFound: bool, model: (string, nat) -> Reply)
    requires t.companyInfo == u.companyInfo && t.productInfo == u.productInfo && t.articleCount == u.articleCount
    ensures RunOf(t, template, serviceFound, model) == RunOf(u, template, serviceFound, model)
  {
  }

  /** Every progress report of a run is a percentage. */
  lemma RunReportsBounded(t: Task, template: Result<string, Thrown>, serviceFound: bool, model: (string, nat) -> Reply)
    ensures var run := RunOf(t, template, serviceFound, model);
            run.Done? ==> forall k :: 0 <= k < |run.reports| ==> 0 <= run.reports[k] <= 100
  {
    var run := RunOf(t, template, serviceFound, model);
    if run.Done? {
      ProgressReportsShape(Replies(model, FillPrompt(template.value, t.companyInfo, t.productInfo), t.articleCount), t.articleCount);
    }
  }

  /** Appending in two steps. */
  lemma AppendAssoc<T>(a: seq<T>, b: seq<T>, c: seq<T>)
    ensures a + b + c == a + (b + c)
  {
  }

  /** Both parts can be sliced back out of a concatenation. */
  lemma AppendSlices<T>(a: seq<T>, b: seq<T>)
    ensures (a + b)[..|a|] == a && (a + b)[|a + b| - |b|..] == b
  {
  }

  /** A prefix of a prefix. */
  lemma PrefixChain<T>(a: seq<T>, b: seq<T>, c: seq<T>)
    requires |a| <= |b| && b[..|a|] == a
    requires |b| <= |c| && c[..|b|] == b
    ensures |a| <= |c| && c[..|a|] == a
  {
    assert c[..|a|] == c[..|b|][..|a|];
  }

  /** Storing twice under one key keeps the second value. */
  lemma MapOverwrite(m: map<string, Task>, k: string, a: Task, b: Task)
    ensures m[k := a][k := b] == m[k := b]
  {
  }

  /** The task at the end of processing. */
  function Finished(t: Task, run: Run, now: int): Task
  {
    match run
    case Aborted => t.(status := Status.Failed, progress := 0, completedAt := Some(now))
    case Done(articles, _) =>
      t.(status := Completed, progress := 100, completedAt := Some(now), articles := Some(FilledSlots(articles)))
  }

  /** One progress sync per reported value. */
  function ReportSyncs(taskId: string, reports: seq<int>): (cs: seq<BackendCall>)
    ensures |cs| == |reports|
    ensures forall k :: 0 <= k < |reports| ==> cs[k] == SyncProgress(taskId, "processing", reports[k])
  {
    seq(|reports|, k requires 0 <= k < |reports| => SyncProgress(taskId, "processing", reports[k]))
  }

  /** One more report adds one more sync. */
  lemma ReportSyncsSnoc(taskId: string, reports: seq<int>, k: nat)
    requires k < |reports|
    ensures ReportSyncs(taskId, reports[..k + 1]) == ReportSyncs(taskId, reports[..k]) + [SyncProgress(taskId, "processing", reports[k])]
  {
  }

  /** The backend calls a processing run makes, in order. */
  function ProcessCalls(taskId: string, run: Run): seq<BackendCall>
  {
    [SyncProgress(taskId, "processing", 0)] + OutcomeCalls(taskId, run)
  }

  /** The backend calls after the start of a run: the progress reports and the final state. */
  function OutcomeCalls(taskId: string, run: Run): seq<BackendCall>
  {
    match run
    case Aborted => [SyncProgress(taskId, "failed", 0)]
    case Done(articles, reports) =>
      ReportSyncs(taskId, reports)
      + [SyncProgress(taskId, "completed", 100), SyncArticles(taskId, ToWire(articles))]
  }

  /**
   * The deliveries made while `reports` are replayed on `task`, stored in
   * `tasks`: after each report every listener of `ls` is handed the
   * snapshot with the task at that progress.
   */
  function ProgressRounds(ls: seq<nat>, order: seq<string>, tasks: map<string, Task>, task: Task, reports: seq<int>): seq<Delivery>
  {
    if reports == [] then []
    else
      var k := |reports| - 1;
      ProgressRounds(ls, order, tasks, task, reports[..k]) + ProgressRound(ls, order, tasks, task, reports[k])
  }

  /** The round after report `r`: every listener handed the snapshot with the task at progress `r`. */
  function ProgressRound(ls: seq<nat>, order: seq<string>, tasks: map<string, Task>, task: Task, r: int): seq<Delivery>
  {
    Deliveries(ls, SortNewest(ValuesInOrder(order, tasks[task.id := task.(progress := r)])))
  }

  /** One more block of `n`. */
  lemma MulStep(k: nat, n: nat)
    ensures (k + 1) * n == k * n + n
  {
  }

  /** The replay hands each listener one snapshot per report. */
  lemma {:induction false} ProgressRoundsLength(ls: seq<nat>, order: seq<string>, tasks: map<string, Task>, task: Task, reports: seq<int>)
    ensures |ProgressRounds(ls, order, tasks, task, reports)| == |reports| * |ls|
  {
    if reports != [] {
      var k := |reports| - 1;
      ProgressRoundsLength(ls, order, tasks, task, reports[..k]);
      MulStep(k, |ls|);
    }
  }

  /** Fewer blocks of `n` take no more room. */
  lemma MulMono(a: nat, b: nat, n: nat)
    requires a <= b
    ensures a * n <= b * n
  {
  }

  /** One more report adds one more round. */
  lemma ProgressRoundsSnoc(ls: seq<nat>, order: seq<string>, tasks: map<string, Task>, task: Task, reports: seq<int>, k: nat)
    requires k < |reports|
    ensures ProgressRounds(ls, order, tasks, task, reports[..k + 1])
         == ProgressRounds(ls, order, tasks, task, reports[..k])
            + Deliveries(ls, SortNewest(ValuesInOrder(order, tasks[task.id := task.(progress := reports[k])])))
  {
    assert reports[..k + 1][..k] == reports[..k];
  }

  /**
   * Round `k` of the replay is the `k`-th block of `|ls|` deliveries: each
   * listener, in order, handed the snapshot with the task at report `k`.
   */
  lemma {:induction false} ProgressRoundAt(ls: seq<nat>, order: seq<string>, tasks: map<string, Task>, task: Task, reports: seq<int>, k: nat)
    requires k < |reports|
    ensures (k + 1) * |ls| <= |ProgressRounds(ls, order, tasks, task, reports)|
    ensures ProgressRounds(ls, order, tasks, task, reports)[k * |ls|..(k + 1) * |ls|]
         == ProgressRound(ls, order, tasks, task, reports[k])
  {
    var n := |reports| - 1;
    var init := ProgressRounds(ls, order, tasks, task, reports[..n]);
    var round := ProgressRound(ls, order, tasks, task, reports[n]);
    assert ProgressRounds(ls, order, tasks, task, reports) == init + round;
    ProgressRoundsLength(ls, order, tasks, task, reports[..n]);
    BlockOfConcat(init, round, n, |ls|, k);
    if k < n {
      ProgressRoundAt(ls, order, tasks, task, reports[..n], k);
      assert reports[..n][k] == reports[k];
    }
  }


  /** Block `k` of `n + 1` blocks of `size` is the last part or lies within the first `n`. */
  lemma BlockOfConcat<T>(init: seq<T>, last: seq<T>, n: nat, size: nat, k: nat)
    requires |init| == n * size && |last| == size && k <= n
    ensures (k + 1) * size <= |init + last|
    ensures k == n ==> (init + last)[k * size..(k + 1) * size] == last
    ensures k < n ==> (k + 1) * size <= |init| && (init + last)[k * size..(k + 1) * size] == init[k * size..(k + 1) * size]
  {
    MulStep(n, size);
    if k < n {
      MulMono(k + 1, n, size);
    }
  }

  /** The deliveries a run makes between its start and its end: the replay's rounds, or none when it aborted. */
  function RunRounds(ls: seq<nat>, order: seq<string>, tasks: map<string, Task>, task: Task, run: Run): seq<Delivery>
  {
    match run
    case Aborted => []
    case Done(_, reports) => ProgressRounds(ls, order, tasks, task, reports)
  }

  /**
   * A finished task is completed at 100 with the generated articles, one
   * per item, or failed with its progress still at the 0 it was reset to;
   * either way it is well formed and carries its completion time.
   */
  lemma FinishedSpec(t: Task, template: Result<string, Thrown>, serviceFound: bool, model: (string, nat) -> Reply, now: int)
    ensures var run := RunOf(t, template, serviceFound, model);
            var f := Finished(t, run, now);
            && WellFormed(f)
            && f.id == t.id && f.createdAt == t.createdAt && f.completedAt == Some(now)
            && (run.Done? <==> template.Ok? && serviceFound && 0 < t.articleCount <= 100)
            && (run.Done? ==>
                  && f.status == Completed && f.progress == 100
                  && f.articles == Some(FilledSlots(run.articles)) && |run.articles| == t.articleCount)
            && (run.Aborted? ==> f.status == Status.Failed && f.progress == 0 && f.articles == t.articles)
  {
    var run := RunOf(t, template, serviceFound, model);
    if run.Done? {
      ItemArticlesAt(Replies(model, FillPrompt(template.value, t.companyInfo, t.productInfo), t.articleCount));
    }
  }

  /**
   * The progress the backend is told during a run never goes back: 0, then
   * the reports, each in 1..100, then 100 on completion.
   */
  lemma ProgressTrail(t: Task, template: Result<string, Thrown>, serviceFound: bool, model: (string, nat) -> Reply)
    ensures var run := RunOf(t, template, serviceFound, model);
            run.Done? ==>
              var trail := [0] + run.reports + [100];
              && (forall k :: 0 <= k < |trail| ==> 0 <= trail[k] <= 100)
              && (forall k, l :: 0 <= k <= l < |trail| ==> trail[k] <= trail[l])
  {
    var run := RunOf(t, template, serviceFound, model);
    if run.Done? {
      var rs := Replies(model, FillPrompt(template.value, t.companyInfo, t.productInfo), t.articleCount);
      ProgressReportsShape(rs, t.articleCount);
      Bracketed(run.reports);
    }
  }

  /** Percentages in non-decreasing order stay so between a leading 0 and a trailing 100. */
  lemma Bracketed(ps: seq<int>)
    requires forall k :: 0 <= k < |ps| ==> 0 <= ps[k] <= 100
    requires forall k, l :: 0 <= k <= l < |ps| ==> ps[k] <= ps[l]
    ensures var trail := [0] + ps + [100];
            && (forall k :: 0 <= k < |trail| ==> 0 <= trail[k] <= 100)
            && (forall k, l :: 0 <= k <= l < |trail| ==> trail[k] <= trail[l])
  {
    var trail := [0] + ps + [100];
    assert forall k :: 0 < k < |trail| - 1 ==> trail[k] == ps[k - 1];
  }

  // ---------------------------------------------------------------------
  // Partial writes

  function Holes(n: nat): (r: seq<Slot>)
    ensures |r| == n && forall k :: 0 <= k < n ==> r[k] == Hole
  {
    seq(n, _ => Hole)
  }

  /** `articles[index] = a`: the array grows with holes when `index` is past its end. */
  function WriteSlot(slots: seq<Slot>, index: nat, a: Article): (r: seq<Slot>)
    ensures |r| == if index < |slots| then |slots| else index + 1
    ensures r[index] == Slot.Filled(a)
    ensures forall k :: 0 <= k < |slots| && k != index ==> r[k] == slots[k]
    ensures forall k :: |slots| <= k < index ==> r[k] == Hole
  {
    if index < |slots| then slots[index := Slot.Filled(a)]
    else slots + Holes(index - |slots|) + [Slot.Filled(a)]
  }

  /** The article a partial write stores: the default title and the usual word count. */
  function PartialArticle(index: nat, partial: string): Article
  {
    Article(DefaultTitle(index), partial, WordCount(partial))
  }

  // ---------------------------------------------------------------------
  // Export

  /** `# {title}\n\n{content}\n\n---\n\n` for an article; a hole contributes nothing. */
  function Section(slot: Slot): string
  {
    match slot
    case Hole => ""
    case Filled(a) => "# " + a.title + "\n\n" + a.content + "\n\n---\n\n"
  }

  function Sections(slots: seq<Slot>): (r: seq<string>)
    ensures |r| == |slots| && forall k :: 0 <= k < |slots| ==> r[k] == Section(slots[k])
  {
    seq(|slots|, k requires 0 <= k < |slots| => Section(slots[k]))
  }

  /** The combined text of a task's articles. */
  function ExportText(slots: seq<Slot>): string
  {
    Concat(Sections(slots))
  }

  /** The combined text is the articles' sections one after another, in order. */
  lemma ExportTextSpec(a: seq<Slot>, b: seq<Slot>, s: Slot)
    ensures ExportText([]) == ""
    ensures ExportText([s]) == Section(s)
    ensures ExportText(a + b) == ExportText(a) + ExportText(b)
  {
    SectionsAppend(a, b);
    ConcatAppend(Sections(a), Sections(b));
    assert Sections([s]) == [] + [Section(s)];
  }

  lemma SectionsAppend(a: seq<Slot>, b: seq<Slot>)
    ensures Sections(a + b) == Sections(a) + Sections(b)
  {
    var l, r := Sections(a + b), Sections(a) + Sections(b);
    assert |l| == |r|;
    forall k | 0 <= k < |l|
      ensures l[k] == r[k]
    {
      if k < |a| {
        assert (a + b)[k] == a[k];
      } else {
        assert (a + b)[k] == b[k - |a|];
      }
    }
  }

  /** The formats `exportTaskResults` accepts. */
  datatype ExportFormat = Markdown | Txt | Html

  function FormatText(f: ExportFormat): string
  {
    match f
    case Markdown => "markdown"
    case Txt => "txt"
    case Html => "html"
  }

  /** `task_{id}_articles.{format}`. */
  function TaskExportFilename(taskId: string, format: ExportFormat): string
  {
    "task_" + taskId + "_articles." + FormatText(format)
  }

  /** The export request for a task's articles. */
  function TaskExportPlan(taskId: string, slots: seq<Slot>, format: ExportFormat, now: nat): Backend.ExportPlan
  {
    Backend.PlanExport(ExportText(slots), Backend.ExportOptions(FormatText(format), Some(TaskExportFilename(taskId, format))), now)
  }

  /** The path `exportTaskResults` reports: the written file's path, or nothing when the export failed. */
  function ReportedPath(out: Result<Backend.ExportResult, string>): Option<string>
  {
    match out
    case Ok(result) => if result.success then result.filePath else None
    case Err(_) => None
  }

  /**
   * Every format the service offers is one the backend writes, to
   * `./exports/task_{id}_articles.{format}`; the path is reported unless
   * that write fails.
   */
  lemma TaskExportWrites(taskId: string, slots: seq<Slot>, format: ExportFormat, now: nat, failures: map<string, string>)
    ensures FormatText(format) in Backend.ExportableFormats
    ensures var plan := TaskExportPlan(taskId, slots, format, now);
            && plan.WriteFile?
            && plan.path == Backend.ExportPath(TaskExportFilename(taskId, format))
            && plan.path == "./exports/" + TaskExportFilename(taskId, format)
            && (plan.path !in failures <==> ReportedPath(Backend.ExportOutcome(plan, failures)) == Some(plan.path))
            && (plan.path in failures <==> ReportedPath(Backend.ExportOutcome(plan, failures)).None?)
  {
    assert TaskExportFilename(taskId, format)[0] == 't';
  }

  /**
   * The generation step of `processTask`: fetching the template, getting
   * the service and generating the articles; any of them failing aborts.
   */
  method Generate(cache: ServiceCache, task: Task, template: Result<string, Thrown>,
                  savedKey: Option<string>, envKey: Option<string>, model: (string, nat) -> Reply)
    returns (run: Run)
    modifies cache
    ensures run == RunOf(task, template, old(cache.instance) != null || ResolveKey(None, savedKey, envKey).Some?, model)
    ensures template.Err? || old(cache.instance) != null ==> cache.instance == old(cache.instance)
    ensures template.Ok? && old(cache.instance) == null ==>
      && (ResolveKey(None, savedKey, envKey).Some? ==>
            cache.instance != null && fresh(cache.instance) && cache.instance.apiKey == ResolveKey(None, savedKey, envKey).value)
      && (ResolveKey(None, savedKey, envKey).None? ==> cache.instance == null)
  {
    if template.Err? {
      return Aborted;
    }
    var service := cache.GetGeminiService(None, savedKey, envKey);
    if service.Err? {
      return Aborted;
    }
    var result, reports := service.value.GenerateArticles(task.companyInfo, task.productInfo, task.articleCount, template.value, model);
    if result.Err? {
      return Aborted;
    }
    run := Done(result.value, reports);
  }

  /** The snapshot of a registry holds exactly its stored tasks. */
  lemma SnapshotMembers(order: seq<string>, tasks: map<string, Task>)
    requires forall id :: id in tasks <==> id in order
    ensures forall t :: t in SortNewest(ValuesInOrder(order, tasks)) <==> exists id :: id in tasks && tasks[id] == t
    ensures |SortNewest(ValuesInOrder(order, tasks))| == |ValuesInOrder(order, tasks)|
  {
    var vs := ValuesInOrder(order, tasks);
    var ss := SortNewest(vs);
    assert |multiset(ss)| == |multiset(vs)|;
    ValuesInOrderMembers(order, tasks);
    forall t
      ensures t in ss <==> exists id :: id in tasks && tasks[id] == t
    {
      assert t in ss <==> t in multiset(ss);
      assert t in vs <==> t in multiset(vs);
      if t in vs {
        var id :| id in order && id in tasks && tasks[id] == t;
      }
      if exists id :: id in tasks && tasks[id] == t {
        var id :| id in tasks && tasks[id] == t;
        assert id in order;
      }
    }
  }

  // ---------------------------------------------------------------------
  // The service

  class TaskService {
    /** `tasks`: the map, and its keys in insertion order (the order `Map.values()` follows). */
    var tasks: map<string, Task>
    var order: seq<string>
    /** `listeners`, in insertion order. */
    var listeners: seq<nat>
    var inbox: seq<Delivery>
    var backendLog: seq<BackendCall>

    ghost predicate Valid()
      reads this`tasks, this`order, this`listeners
    {
      && (forall id :: id in tasks <==> id in order)
      && NoDuplicates(order)
      && (forall id :: id in tasks ==> tasks[id].id == id && WellFormed(tasks[id]))
      && NoDuplicates(listeners)
    }

    constructor()
      ensures Valid()
      ensures tasks == map[] && order == [] && listeners == [] && inbox == [] && backendLog == []
    {
      tasks := map[];
      order := [];
      listeners := [];
      inbox := [];
      backendLog := [];
    }

    /** `snapshot()`, which `getAllTasks()` also returns. */
    function Snapshot(): seq<Task>
      reads this`tasks, this`order
    {
      SortNewest(ValuesInOrder(order, tasks))
    }

    /** The snapshot holds each stored task once, newest first, and nothing else. */
    lemma SnapshotSpec()
      requires Valid()
      ensures NewestFirst(Snapshot())
      ensures |Snapshot()| == |order| == |tasks|
      ensures forall t :: t in Snapshot() <==> exists id :: id in tasks && tasks[id] == t
    {
      ValuesInOrderMembers(order, tasks);
      SnapshotMembers(order, tasks);
      KeysMatchOrder(tasks, order);
    }

    /**
     * The inbox holds `before` followed by further deliveries, the last of
     * which hand every listener the current snapshot.
     */
    ghost predicate Told(before: seq<Delivery>)
      reads this
    {
      && |before| + |listeners| <= |inbox|
      && inbox[..|before|] == before
      && inbox[|inbox| - |listeners|..] == Deliveries(listeners, Snapshot())
    }

    /** Told since `b` is told since any prefix `a` of `b`. */
    lemma ToldSince(a: seq<Delivery>, b: seq<Delivery>)
      requires |a| <= |b| && b[..|a|] == a && Told(b)
      ensures Told(a)
    {
      assert inbox[..|a|] == inbox[..|b|][..|a|];
    }

    /** `getTask(id)`. */
    function GetTask(id: string): (r: Option<Task>)
      reads this`tasks
      ensures r.Some? <==> id in tasks
      ensures r.Some? ==> r.value == tasks[id]
    {
      if id in tasks then Some(tasks[id]) else None
    }

    /** `notify()`: every listener, in order, is handed the current snapshot. */
    method Notify()
      modifies this
      ensures tasks == old(tasks) && order == old(order) && listeners == old(listeners) && backendLog == old(backendLog)
      ensures inbox == old(inbox) + Deliveries(listeners, Snapshot())
    {
      var current := Snapshot();
      for k := 0 to |listeners|
        invariant tasks == old(tasks) && order == old(order) && listeners == old(listeners) && backendLog == old(backendLog)
        invariant inbox == old(inbox) + Deliveries(listeners[..k], current)
      {
        assert Deliveries(listeners[..k + 1], current) == Deliveries(listeners[..k], current) + [Delivery(listeners[k], current)];
        inbox := inbox + [Delivery(listeners[k], current)];
      }
      assert listeners[..|listeners|] == listeners;
    }

    /** `subscribe(l)`: `l` joins the listeners (once) and is handed the current snapshot at once. */
    method Subscribe(l: nat)
      requires Valid()
      modifies this
      ensures Valid()
      ensures tasks == old(tasks) && order == old(order) && backendLog == old(backendLog)
      ensures listeners == if l in old(listeners) then old(listeners) else old(listeners) + [l]
      ensures inbox == old(inbox) + [Delivery(l, Snapshot())]
    {
      if l !in listeners {
        listeners := listeners + [l];
      }
      inbox := inbox + [Delivery(l, Snapshot())];
    }

    /** The function `subscribe` returns: `l` leaves the listeners. */
    method Unsubscribe(l: nat)
      requires Valid()
      modifies this
      ensures Valid()
      ensures tasks == old(tasks) && order == old(order) && backendLog == old(backendLog) && inbox == old(inbox)
      ensures listeners == Without(old(listeners), l)
    {
      listeners := Without(listeners, l);
    }

    /**
     * `createTask(..)`: a reply that throws, is missing or has no id is an
     * error and changes nothing; otherwise the task is stored under its id,
     * pending at 0, and the listeners are told.
     */
    method CreateTask(targetWordCount: Option<int>, reply: CreateReply) returns (r: Result<Task, string>)
      requires Valid()
      modifies this
      ensures Valid()
      ensures reply.Threw? ==> r == Err(CreatePrefix + MessageOf(reply.error))
      ensures reply.Replied? && (reply.task.None? || reply.task.value.id == []) ==> r == Err(CreatePrefix + InvalidResponse)
      ensures r.Err? ==> tasks == old(tasks) && order == old(order) && inbox == old(inbox)
      ensures r.Ok? <==> reply.Replied? && reply.task.Some? && reply.task.value.id != []
      ensures r.Ok? ==>
        && r.value == FromReply(reply.task.value, targetWordCount)
        && tasks == old(tasks)[r.value.id := r.value]
        && order == (if r.value.id in old(tasks) then old(order) else old(order) + [r.value.id])
        && inbox == old(inbox) + Deliveries(listeners, Snapshot())
      ensures listeners == old(listeners) && backendLog == old(backendLog)
    {
      match reply {
        case Threw(e) =>
          return Err(CreatePrefix + MessageOf(e));
        case Replied(rt) =>
          if rt.None? || rt.value.id == [] {
            return Err(CreatePrefix + InvalidResponse);
          }
          var task := FromReply(rt.value, targetWordCount);
          Put(task);
          r := Ok(task);
      }
    }

    /** `tasks.set(t.id, t)` followed by `notify()`. */
    method Put(t: Task)
      requires Valid() && WellFormed(t)
      modifies this
      ensures Valid()
      ensures tasks == old(tasks)[t.id := t]
      ensures order == if t.id in old(tasks) then old(order) else old(order) + [t.id]
      ensures listeners == old(listeners) && backendLog == old(backendLog)
      ensures inbox == old(inbox) + Deliveries(listeners, Snapshot())
      ensures Told(old(inbox))
    {
      Store(t);
      Notify();
      AppendSlices(old(inbox), Deliveries(listeners, Snapshot()));
    }

    /** `tasks.set(t.id, t)`: a new id goes to the end of the insertion order. */
    method Store(t: Task)
      requires Valid() && WellFormed(t)
      modifies this`tasks, this`order
      ensures Valid()
      ensures tasks == old(tasks)[t.id := t]
      ensures order == if t.id in old(tasks) then old(order) else old(order) + [t.id]
    {
      if t.id !in tasks {
        order := order + [t.id];
      }
      tasks := tasks[t.id := t];
    }

    /** The progress callback: the task's progress is set, synced to the backend and the listeners are told. */
    method OnProgress(task: Task, p: int) returns (next: Task)
      requires Valid() && task.id in tasks && tasks[task.id] == task && task.status == Processing
      requires 0 <= p <= 100
      modifies this
      ensures Valid() && order == old(order) && listeners == old(listeners)
      ensures next == task.(progress := p) && tasks == old(tasks)[task.id := next]
      ensures backendLog == old(backendLog) + [SyncProgress(task.id, "processing", p)]
      ensures |old(inbox)| <= |inbox| && inbox[..|old(inbox)|] == old(inbox)
      ensures inbox == old(inbox) + Deliveries(listeners, Snapshot())
    {
      next := task.(progress := p);
      Commit(next, [SyncProgress(task.id, "processing", p)]);
      AppendSlices(old(inbox), Deliveries(listeners, Snapshot()));
    }

    /** The progress callback once per report, in order. */
    method ReportProgress(task: Task, reports: seq<int>) returns (last: Task)
      requires Valid() && task.id in tasks && tasks[task.id] == task && task.status == Processing
      requires forall k :: 0 <= k < |reports| ==> 0 <= reports[k] <= 100
      modifies this
      ensures Valid() && order == old(order) && listeners == old(listeners)
      ensures last == task.(progress := if reports == [] then task.progress else reports[|reports| - 1])
      ensures tasks == old(tasks)[task.id := last]
      ensures backendLog == old(backendLog) + ReportSyncs(task.id, reports)
      ensures |old(inbox)| <= |inbox| && inbox[..|old(inbox)|] == old(inbox)
      ensures inbox == old(inbox) + ProgressRounds(listeners, order, old(tasks), task, reports)
    {
      last := task;
      for k := 0 to |reports|
        invariant Valid() && order == old(order) && listeners == old(listeners)
        invariant last == task.(progress := if k == 0 then task.progress else reports[k - 1])
        invariant tasks == old(tasks)[task.id := last]
        invariant backendLog == old(backendLog) + ReportSyncs(task.id, reports[..k])
        invariant inbox == old(inbox) + ProgressRounds(listeners, order, old(tasks), task, reports[..k])
      {
        ghost var rounds := ProgressRounds(listeners, order, old(tasks), task, reports[..k]);
        ghost var prev := last;
        last := OnProgress(last, reports[k]);
        ReportSyncsSnoc(task.id, reports, k);
        AppendAssoc(old(backendLog), ReportSyncs(task.id, reports[..k]), [SyncProgress(task.id, "processing", reports[k])]);
        MapOverwrite(old(tasks), task.id, prev, last);
        ProgressRoundsSnoc(listeners, order, old(tasks), task, reports, k);
        AppendAssoc(old(inbox), rounds, Deliveries(listeners, Snapshot()));
      }
      assert reports[..|reports|] == reports;
      AppendSlices(old(inbox), ProgressRounds(listeners, order, old(tasks), task, reports));
    }

    /** The start of a run: the task is set processing at 0, synced and stored. */
    method Begin(start: Task) returns (task: Task)
      requires Valid() && start.id in tasks && tasks[start.id] == start
      modifies this
      ensures Valid() && order == old(order) && listeners == old(listeners)
      ensures task == start.(status := Processing, progress := 0) && tasks == old(tasks)[start.id := task]
      ensures backendLog == old(backendLog) + [SyncProgress(start.id, "processing", 0)]
      ensures |old(inbox)| <= |inbox| && inbox[..|old(inbox)|] == old(inbox)
      ensures inbox == old(inbox) + Deliveries(listeners, Snapshot())
    {
      task := start.(status := Processing, progress := 0);
      Commit(task, [SyncProgress(start.id, "processing", 0)]);
      AppendSlices(old(inbox), Deliveries(listeners, Snapshot()));
    }

    /** A run that generated: the reports are replayed and the task completed with the articles. */
    method Complete(task: Task, articles: seq<Article>, reports: seq<int>, now: int)
      requires Valid() && task.id in tasks && tasks[task.id] == task && task.status == Processing
      requires forall k :: 0 <= k < |reports| ==> 0 <= reports[k] <= 100
      modifies this
      ensures Valid() && order == old(order) && listeners == old(listeners)
      ensures tasks == old(tasks)[task.id := Finished(task, Done(articles, reports), now)]
      ensures backendLog == old(backendLog) + OutcomeCalls(task.id, Done(articles, reports))
      ensures Told(old(inbox))
      ensures inbox == old(inbox) + ProgressRounds(listeners, order, old(tasks), task, reports) + Deliveries(listeners, Snapshot())
    {
      var reported := ReportProgress(task, reports);
      var last := reported.(status := Completed, progress := 100, completedAt := Some(now), articles := Some(FilledSlots(articles)));
      assert last == Finished(task, Done(articles, reports), now);
      var tail := [SyncProgress(task.id, "completed", 100), SyncArticles(task.id, ToWire(articles))];
      ghost var before := inbox;
      Commit(last, tail);
      AppendAssoc(old(backendLog), ReportSyncs(task.id, reports), tail);
      MapOverwrite(old(tasks), task.id, reported, last);
      ToldSince(old(inbox), before);
    }

    /** The backend calls for a stored task's new state are made, then the task is stored and the listeners told. */
    method Commit(next: Task, calls: seq<BackendCall>)
      requires Valid() && next.id in tasks && WellFormed(next)
      modifies this
      ensures Valid() && order == old(order) && listeners == old(listeners)
      ensures tasks == old(tasks)[next.id := next]
      ensures backendLog == old(backendLog) + calls
      ensures inbox == old(inbox) + Deliveries(listeners, Snapshot())
      ensures Told(old(inbox))
    {
      backendLog := backendLog + calls;
      Put(next);
    }

    /** A run that aborted: the task is marked failed at the progress it had. */
    method Fail(task: Task, now: int)
      requires Valid() && task.id in tasks && tasks[task.id] == task && task.progress == 0
      modifies this
      ensures Valid() && order == old(order) && listeners == old(listeners)
      ensures tasks == old(tasks)[task.id := Finished(task, Aborted, now)]
      ensures backendLog == old(backendLog) + OutcomeCalls(task.id, Aborted)
      ensures Told(old(inbox))
      ensures inbox == old(inbox) + Deliveries(listeners, Snapshot())
    {
      var last := task.(status := Status.Failed, completedAt := Some(now));
      Commit(last, [SyncProgress(task.id, "failed", task.progress)]);
    }

    /**
     * The end of a run: the progress reports are replayed, then the task is
     * completed with the articles or marked failed, synced and stored.
     */
    method Finish(task: Task, run: Run, now: int)
      requires Valid() && task.id in tasks && tasks[task.id] == task
      requires task.status == Processing && task.progress == 0
      requires run.Done? ==> forall k :: 0 <= k < |run.reports| ==> 0 <= run.reports[k] <= 100
      modifies this
      ensures Valid() && order == old(order) && listeners == old(listeners)
      ensures tasks == old(tasks)[task.id := Finished(task, run, now)]
      ensures backendLog == old(backendLog) + OutcomeCalls(task.id, run)
      ensures Told(old(inbox))
      ensures inbox == old(inbox) + RunRounds(listeners, order, old(tasks), task, run) + Deliveries(listeners, Snapshot())
    {
      if run.Done? {
        Complete(task, run.articles, run.reports, now);
      } else {
        Fail(task, now);
      }
    }

    /**
     * `processTask(taskId)`, run to its end: the task is set processing at
     * 0, the template fetched, the service obtained and the articles
     * generated; each progress report is stored and synced, and the task
     * ends completed with the articles or failed. An unknown id changes
     * nothing. `savedKey`/`envKey` are the keys `getGeminiService()` falls
     * back on, `model` the text generator, `now` the clock.
     */
    method ProcessTask(taskId: string, template: Result<string, Thrown>, cache: ServiceCache,
                       savedKey: Option<string>, envKey: Option<string>, model: (string, nat) -> Reply, now: int)
      requires Valid()
      modifies this, cache
      ensures Valid()
      ensures taskId in old(tasks) ==>
        var serviceFound := old(cache.instance) != null || ResolveKey(None, savedKey, envKey).Some?;
        var run := RunOf(old(tasks)[taskId], template, serviceFound, model);
        && tasks == old(tasks)[taskId := Finished(old(tasks)[taskId], run, now)]
        && backendLog == old(backendLog) + ProcessCalls(taskId, run)
      ensures taskId in old(tasks) ==> Told(old(inbox))
      ensures taskId in old(tasks) ==>
        var serviceFound := old(cache.instance) != null || ResolveKey(None, savedKey, envKey).Some?;
        var run := RunOf(old(tasks)[taskId], template, serviceFound, model);
        var begun := old(tasks)[taskId := old(tasks)[taskId].(status := Processing, progress := 0)];
        inbox == old(inbox) + Deliveries(listeners, SortNewest(ValuesInOrder(order, begun)))
                 + RunRounds(listeners, order, begun, begun[taskId], run) + Deliveries(listeners, Snapshot())
      ensures taskId in old(tasks) && template.Ok? && old(cache.instance) == null ==>
        && (ResolveKey(None, savedKey, envKey).Some? ==>
              cache.instance != null && fresh(cache.instance) && cache.instance.apiKey == ResolveKey(None, savedKey, envKey).value)
        && (ResolveKey(None, savedKey, envKey).None? ==> cache.instance == null)
      ensures order == old(order) && listeners == old(listeners)
      ensures taskId !in old(tasks) ==>
        tasks == old(tasks) && inbox == old(inbox) && backendLog == old(backendLog) && cache.instance == old(cache.instance)
      ensures template.Err? || old(cache.instance) != null ==> cache.instance == old(cache.instance)
    {
      if taskId in tasks {
        var start := tasks[taskId];
        var task := Begin(start);
        ghost var begun := inbox;
        var run := Generate(cache, task, template, savedKey, envKey, model);
        RunOfInputs(task, start, template, old(cache.instance) != null || ResolveKey(None, savedKey, envKey).Some?, model);
        RunReportsBounded(start, template, old(cache.instance) != null || ResolveKey(None, savedKey, envKey).Some?, model);
        ghost var t1 := tasks;
        Finish(task, run, now);
        AppendAssoc(old(backendLog), [SyncProgress(taskId, "processing", 0)], OutcomeCalls(taskId, run));
        ToldSince(old(inbox), begun);
        ghost var last := Finished(start, run, now);
        assert Finished(task, run, now) == last;
        assert tasks == t1[taskId := last];
        assert tasks == old(tasks)[taskId := last] by {
          MapOverwrite(old(tasks), taskId, task, last);
        }
      }
    }

    /**
     * The partial-article callback: the task's article array is created if
     * absent and slot `index` alone is written, with the default title and
     * the usual word count; a missing task is left alone.
     */
    method OnPartialArticle(taskId: string, index: nat, partial: string)
      requires Valid()
      modifies this
      ensures Valid()
      ensures order == old(order) && listeners == old(listeners) && backendLog == old(backendLog)
      ensures taskId !in old(tasks) ==> tasks == old(tasks) && inbox == old(inbox)
      ensures taskId in old(tasks) ==>
        var t := old(tasks)[taskId];
        var slots := if t.articles.Some? then t.articles.value else [];
        && tasks == old(tasks)[taskId := t.(articles := Some(WriteSlot(slots, index, PartialArticle(index, partial))))]
        && inbox == old(inbox) + Deliveries(listeners, Snapshot())
    {
      if taskId !in tasks {
        return;
      }
      var t := tasks[taskId];
      var slots := if t.articles.Some? then t.articles.value else [];
      Put(t.(articles := Some(WriteSlot(slots, index, PartialArticle(index, partial)))));
    }

    /**
     * `exportTaskResults(taskId, format)`: nothing for a missing task or one
     * without articles; otherwise the combined text is exported and the
     * written file's path returned, or nothing when the export failed.
     */
    method ExportTaskResults(fs: Backend.FileSystem, taskId: string, format: ExportFormat, now: nat)
      returns (r: Option<string>)
      modifies fs
      ensures taskId !in tasks || tasks[taskId].articles.None? ==> r.None? && fs.files == old(fs.files)
      ensures taskId in tasks && tasks[taskId].articles.Some? ==>
        var plan := TaskExportPlan(taskId, tasks[taskId].articles.value, format, now);
        && r == ReportedPath(Backend.ExportOutcome(plan, fs.failures))
        && fs.files == Backend.AfterExport(old(fs.files), plan, fs.failures)
    {
      if taskId !in tasks || tasks[taskId].articles.None? {
        return None;
      }
      var combined := ExportText(tasks[taskId].articles.value);
      var options := Backend.ExportOptions(FormatText(format), Some(TaskExportFilename(taskId, format)));
      var out := Backend.ExportContent(fs, combined, options, now);
      r := ReportedPath(out);
    }

    /** `exportTaskResults(taskId)`: the format defaults to Markdown. */
    method ExportTaskResultsDefault(fs: Backend.FileSystem, taskId: string, now: nat)
      returns (r: Option<string>)
      modifies fs
      ensures taskId !in tasks || tasks[taskId].articles.None? ==> r.None? && fs.files == old(fs.files)
      ensures taskId in tasks && tasks[taskId].articles.Some? ==>
        var plan := TaskExportPlan(taskId, tasks[taskId].articles.value, Markdown, now);
        && r == ReportedPath(Backend.ExportOutcome(plan, fs.failures))
        && fs.files == Backend.AfterExport(old(fs.files), plan, fs.failures)
    {
      r := ExportTaskResults(fs, taskId, Markdown, now);
    }
  }

  /** A map whose keys are exactly the distinct ids of `order` has as many entries as `order`. */
  lemma KeysMatchOrder(m: map<string, Task>, order: seq<string>)
    requires forall id :: id in m <==> id in order
    requires NoDuplicates(order)
    ensures |m| == |order|
  {
    DistinctCard(order);
    assert m.Keys == set id | id in order;
  }

  /** Distinct elements: as many as the set they form. */
  lemma {:induction false} DistinctCard(ids: seq<string>)
    requires NoDuplicates(ids)
    ensures |set id | id in ids| == |ids|
  {
    if ids != [] {
      var init := ids[..|ids| - 1];
      var last := ids[|ids| - 1];
      DistinctCard(init);
      assert last !in init;
      assert (set id | id in ids) == (set id | id in init) + {last};
    }
  }

  /** The module-level `taskServiceInstance` and `getTaskService()`. */
  class ServiceHolder {
    var instance: TaskService?

    constructor()
      ensures instance == null
    {
      instance := null;
    }

    method GetTaskService() returns (s: TaskService)
      modifies this
      ensures old(instance) != null ==> s == old(instance)
      ensures old(instance) == null ==> fresh(s) && s.Valid() && s.tasks == map[] && s.listeners == []
      ensures instance == s
    {
      if instance == null {
        instance := new TaskService();
      }
      s := instance;
    }
  }
}
