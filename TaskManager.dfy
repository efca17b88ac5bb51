/**
 * The task panel of src/components/tasks/TaskManager.tsx: the set of
 * selected task ids, the export of the selected completed tasks' articles
 * as one Markdown text, the test that keeps the panel refreshing, and the
 * word-count total shown for a completed task.
 */
module TaskManager {
  import opened Js
  import opened Gemini
  import opened Tasks

  // ---------------------------------------------------------------------
  // Selection

  /** The selection after `toggleTaskSelection(id)`. */
  function Toggled(selected: set<string>, id: string): set<string>
  {
    if id in selected then selected - {id} else selected + {id}
  }

  /**
   * Toggling adds the id exactly when it was absent, leaves every other id
   * as it was, and toggling twice restores the selection.
   */
  lemma ToggledSpec(selected: set<string>, id: string)
    ensures id in Toggled(selected, id) <==> id !in selected
    ensures forall other :: other != id ==> (other in Toggled(selected, id) <==> other in selected)
    ensures Toggled(Toggled(selected, id), id) == selected
  {
  }

  /** The panel's `selectedTasks` state. */
  class Selection {
    var selectedTasks: set<string>

    constructor()
      ensures selectedTasks == {}
    {
      selectedTasks := {};
    }

    /** `toggleTaskSelection(taskId)`: a copy of the set with the id deleted if present, added otherwise. */
    method ToggleTaskSelection(taskId: string)
      modifies this
      ensures selectedTasks == Toggled(old(selectedTasks), taskId)
    {
      var next := selectedTasks;
      if taskId in next {
        next := next - {taskId};
      } else {
        next := next + {taskId};
      }
      selectedTasks := next;
    }
  }

  // ---------------------------------------------------------------------
  // Export of the selected tasks

  /** The filter of `exportSelectedTasks`: selected, completed, and with an article array (an empty one counts). */
  predicate Exportable(t: Task, selected: set<string>)
  {
    t.id in selected && t.status == Completed && t.articles.Some?
  }

  /** `tasks.filter(..)` with that predicate. */
  function ExportedTasks(tasks: seq<Task>, selected: set<string>): seq<Task>
  {
    if tasks == [] then []
    else
      var t := tasks[|tasks| - 1];
      ExportedTasks(tasks[..|tasks| - 1], selected) + (if Exportable(t, selected) then [t] else [])
  }

  /** The exported tasks are exactly the exportable ones, and the filter keeps the task order. */
  lemma {:induction false} ExportedTasksSpec(tasks: seq<Task>, more: seq<Task>, selected: set<string>)
    ensures forall t :: t in ExportedTasks(tasks, selected) <==> t in tasks && Exportable(t, selected)
    ensures ExportedTasks(tasks + more, selected) == ExportedTasks(tasks, selected) + ExportedTasks(more, selected)
    decreases |more|
  {
    ExportedTasksMembers(tasks, selected);
    if more != [] {
      var init := more[..|more| - 1];
      ExportedTasksSpec(tasks, init, selected);
      assert (tasks + more)[..|tasks + more| - 1] == tasks + init;
    } else {
      assert tasks + more == tasks;
    }
  }

  lemma {:induction false} ExportedTasksMembers(tasks: seq<Task>, selected: set<string>)
    ensures forall t :: t in ExportedTasks(tasks, selected) <==> t in tasks && Exportable(t, selected)
  {
    if tasks != [] {
      var init := tasks[..|tasks| - 1];
      ExportedTasksMembers(init, selected);
      assert tasks == init + [tasks[|tasks| - 1]];
    }
  }

  /** The articles of an article array, holes skipped, as `flatMap` and `map` do. */
  function Present(slots: seq<Slot>): seq<Article>
  {
    if slots == [] then []
    else
      Present(slots[..|slots| - 1]) + match slots[|slots| - 1] { case Hole => [] case Filled(a) => [a] }
  }

  /** The present articles of an array are those of its parts in turn. */
  lemma {:induction false} PresentAppend(slots: seq<Slot>, more: seq<Slot>)
    ensures Present(slots + more) == Present(slots) + Present(more)
    decreases |more|
  {
    if more != [] {
      var init := more[..|more| - 1];
      PresentAppend(slots, init);
      assert (slots + more)[..|slots + more| - 1] == slots + init;
    } else {
      assert slots + more == slots;
    }
  }

  /** The present articles are exactly the filled slots' articles. */
  lemma {:induction false} PresentMembers(slots: seq<Slot>)
    ensures forall b :: b in Present(slots) <==> Slot.Filled(b) in slots
  {
    if slots != [] {
      var init := slots[..|slots| - 1];
      PresentMembers(init);
      assert slots == init + [slots[|slots| - 1]];
    }
  }

  /** `tasksToExport.flatMap((task) => task.articles || [])`. */
  function AllArticles(tasks: seq<Task>): seq<Article>
  {
    if tasks == [] then []
    else
      var t := tasks[|tasks| - 1];
      AllArticles(tasks[..|tasks| - 1]) + (if t.articles.Some? then Present(t.articles.value) else [])
  }

  /** The articles of several tasks are those of each task in turn. */
  lemma {:induction false} AllArticlesAppend(tasks: seq<Task>, more: seq<Task>)
    ensures AllArticles(tasks + more) == AllArticles(tasks) + AllArticles(more)
    decreases |more|
  {
    if more != [] {
      var init := more[..|more| - 1];
      AllArticlesAppend(tasks, init);
      assert (tasks + more)[..|tasks + more| - 1] == tasks + init;
    } else {
      assert tasks + more == tasks;
    }
  }

  const EntrySeparator: string := "\n\n---\n\n"

  /** `${article.content}\n\n---\n\n`. */
  function Entry(a: Article): string
  {
    a.content + EntrySeparator
  }

  /** `.map(..).join("")`: every article's entry, in order. */
  function Markdown(articles: seq<Article>): string
  {
    if articles == [] then []
    else Markdown(articles[..|articles| - 1]) + Entry(articles[|articles| - 1])
  }

  /** The text of one article is its content and the separator. */
  lemma MarkdownOne(a: Article)
    ensures Markdown([a]) == a.content + EntrySeparator
  {
    assert [a][..0] == [];
  }

  /** The text is the articles' entries one after another. */
  lemma {:induction false} MarkdownAppend(articles: seq<Article>, more: seq<Article>)
    ensures Markdown(articles + more) == Markdown(articles) + Markdown(more)
    decreases |more|
  {
    if more != [] {
      var init := more[..|more| - 1];
      MarkdownAppend(articles, init);
      assert (articles + more)[..|articles + more| - 1] == articles + init;
    } else {
      assert articles + more == articles;
    }
  }

  /**
   * `exportSelectedTasks()`: nothing when no task passes the filter;
   * otherwise the text of the download.
   */
  function ExportSelected(tasks: seq<Task>, selected: set<string>): Option<string>
  {
    var chosen := ExportedTasks(tasks, selected);
    if chosen == [] then None else Some(Markdown(AllArticles(chosen)))
  }

  /**
   * Nothing is exported exactly when no task is exportable; what is
   * exported for two runs of tasks is the text for the first followed by
   * the text for the second.
   */
  lemma ExportSelectedSpec(tasks: seq<Task>, more: seq<Task>, selected: set<string>)
    ensures ExportSelected(tasks, selected).None? <==> forall t :: t in tasks ==> !Exportable(t, selected)
    ensures ExportSelected(tasks, selected).Some? && ExportSelected(more, selected).Some? ==>
      ExportSelected(tasks + more, selected) == Some(ExportSelected(tasks, selected).value + ExportSelected(more, selected).value)
  {
    ExportedTasksSpec(tasks, more, selected);
    var a := ExportedTasks(tasks, selected);
    var b := ExportedTasks(more, selected);
    if a == [] {
      forall t | t in tasks
        ensures !Exportable(t, selected)
      {
        assert t !in a;
      }
    } else {
      assert a[0] in a;
    }
    if a != [] && b != [] {
      AllArticlesAppend(a, b);
      MarkdownAppend(AllArticles(a), AllArticles(b));
    }
  }

  /** One completed task's export: each present article's content and separator, in slot order. */
  lemma ExportOneTask(t: Task, selected: set<string>)
    requires Exportable(t, selected)
    ensures ExportSelected([t], selected) == Some(Markdown(Present(t.articles.value)))
  {
    assert [t][..0] == [];
    assert ExportedTasks([t], selected) == [t];
    assert AllArticles([t]) == [] + Present(t.articles.value) == Present(t.articles.value);
  }

  // ---------------------------------------------------------------------
  // Auto-refresh

  /** `tasks.some((task) => task.status === "pending" || task.status === "processing")`. */
  function NeedsRefresh(tasks: seq<Task>): bool
  {
    if tasks == [] then false
    else
      var t := tasks[|tasks| - 1];
      NeedsRefresh(tasks[..|tasks| - 1]) || t.status == Pending || t.status == Processing
  }

  /** The panel refreshes exactly when some task is pending or processing. */
  lemma {:induction false} NeedsRefreshSpec(tasks: seq<Task>)
    ensures NeedsRefresh(tasks) <==> exists k :: 0 <= k < |tasks| && (tasks[k].status == Pending || tasks[k].status == Processing)
  {
    if tasks != [] {
      var init := tasks[..|tasks| - 1];
      NeedsRefreshSpec(init);
      if NeedsRefresh(init) {
        var k :| 0 <= k < |init| && (init[k].status == Pending || init[k].status == Processing);
        assert tasks[k] == init[k];
      }
      if exists k :: 0 <= k < |tasks| && (tasks[k].status == Pending || tasks[k].status == Processing) {
        var k :| 0 <= k < |tasks| && (tasks[k].status == Pending || tasks[k].status == Processing);
        if k < |init| {
          assert init[k] == tasks[k];
        }
      }
    }
  }

  // ---------------------------------------------------------------------
  // Word-count total

  /** `task.articles.reduce((sum, a) => sum + a.wordCount, 0)`; `reduce` skips holes. */
  function WordTotal(slots: seq<Slot>): nat
  {
    if slots == [] then 0
    else
      WordTotal(slots[..|slots| - 1]) + match slots[|slots| - 1] { case Hole => 0 case Filled(a) => a.wordCount }
  }

  /** The sum of the articles' word counts, in the order of a sequence of articles. */
  function WordSum(articles: seq<Article>): nat
  {
    if articles == [] then 0 else articles[0].wordCount + WordSum(articles[1..])
  }

  lemma {:induction false} WordSumAppend(a: seq<Article>, b: seq<Article>)
    ensures WordSum(a + b) == WordSum(a) + WordSum(b)
    decreases |a|
  {
    if a != [] {
      WordSumAppend(a[1..], b);
      assert (a + b)[1..] == a[1..] + b;
    } else {
      assert a + b == b;
    }
  }

  /** The total is the sum of the word counts of the articles present, holes counting nothing. */
  lemma {:induction false} WordTotalSpec(slots: seq<Slot>)
    ensures WordTotal(slots) == WordSum(Present(slots))
  {
    if slots != [] {
      var init := slots[..|slots| - 1];
      WordTotalSpec(init);
      var last := match slots[|slots| - 1] { case Hole => [] case Filled(a) => [a] };
      WordSumAppend(Present(init), last);
    }
  }

  /** For a completed run the total is the sum over the generated articles. */
  lemma WordTotalOfRun(articles: seq<Article>)
    ensures WordTotal(FilledSlots(articles)) == WordSum(articles)
  {
    WordTotalSpec(FilledSlots(articles));
    PresentOfFilled(articles);
  }

  lemma {:induction false} PresentOfFilled(articles: seq<Article>)
    ensures Present(FilledSlots(articles)) == articles
  {
    if articles != [] {
      var init := articles[..|articles| - 1];
      PresentOfFilled(init);
      assert FilledSlots(articles)[..|articles| - 1] == FilledSlots(init);
    }
  }
}
