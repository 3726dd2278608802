/**
 * The social store: the list of social-platform tasks, the actions that
 * add, complete, delete and execute them, and the per-platform and
 * completion selectors. The generated id and the clock are parameters.
 */
module SocialTasks {
  import opened Wrappers
  import opened Seqs
  import opened Social

  /** What `addSocialTask` is given: a task without id and completion flag. */
  datatype SocialTaskDraft = SocialTaskDraft(
    platform: SocialPlatform,
    kind: SocialTaskType,
    title: string,
    description: Option<string>,
    targetUrl: Option<string>,
    prefilledContent: Option<string>,
    deadline: Option<int>,
    deepLink: Option<string>,
    webFallback: Option<string>)

  function NewSocialTask(draft: SocialTaskDraft, id: string): (t: SocialTask)
    ensures t.id == id && !t.completed
    ensures t.platform == draft.platform && t.kind == draft.kind && t.title == draft.title
    ensures t.description == draft.description && t.targetUrl == draft.targetUrl
    ensures t.prefilledContent == draft.prefilledContent && t.deadline == draft.deadline
    ensures t.deepLink == draft.deepLink && t.webFallback == draft.webFallback
  {
    SocialTask(id, draft.platform, draft.kind, draft.title, draft.description, draft.targetUrl,
               draft.prefilledContent, draft.deadline, false, draft.deepLink, draft.webFallback)
  }

  function MarkDone(t: SocialTask): (r: SocialTask)
    ensures r.completed && r.(completed := t.completed) == t
  {
    t.(completed := true)
  }

  predicate IsPending(t: SocialTask) {
    !t.completed
  }

  function HasId(id: string): SocialTask -> bool {
    (t: SocialTask) => t.id == id
  }

  /** Completing is idempotent and leaves a task neither pending nor otherwise changed. */
  lemma MarkDoneLaws(t: SocialTask)
    ensures MarkDone(MarkDone(t)) == MarkDone(t)
    ensures !IsPending(MarkDone(t)) && IsCompleted(MarkDone(t))
  {
  }

  /** Each task is either pending or completed: the two lists share out the tasks. */
  lemma {:induction false} PendingCompletedPartition(s: seq<SocialTask>)
    ensures |Filter(s, IsPending)| + |Filter(s, IsCompleted)| == |s|
    decreases |s|
  {
    if s != [] {
      PendingCompletedPartition(s[1..]);
    }
  }

  /** `i` is the position of the first task with this id. */
  predicate FirstWithId(s: seq<SocialTask>, id: string, i: int) {
    0 <= i < |s| && s[i].id == id && forall j :: 0 <= j < i ==> s[j].id != id
  }

  class SocialStore {
    var tasks: seq<SocialTask>

    constructor()
      ensures tasks == []
    {
      tasks := [];
    }

    method AddSocialTask(draft: SocialTaskDraft, id: string)
      modifies this
      ensures tasks == old(tasks) + [NewSocialTask(draft, id)]
    {
      tasks := tasks + [NewSocialTask(draft, id)];
    }

    /** Marks every task with this id completed; the others are unchanged. */
    method CompleteSocialTask(id: string)
      modifies this
      ensures |tasks| == |old(tasks)|
      ensures forall i :: 0 <= i < |tasks| ==>
        tasks[i] == if old(tasks)[i].id == id then MarkDone(old(tasks)[i]) else old(tasks)[i]
      ensures forall t :: t in GetPendingTasks() ==> t.id != id
    {
      tasks := MapWhere(tasks, HasId(id), MarkDone);
      FilterSpec(tasks, IsPending);
    }

    method DeleteSocialTask(id: string)
      modifies this
      ensures forall t :: t in tasks <==> t in old(tasks) && t.id != id
      ensures forall t :: multiset(tasks)[t] == if t.id != id then multiset(old(tasks))[t] else 0
      ensures IsSubsequence(tasks, old(tasks))
    {
      FilterSpec(tasks, (t: SocialTask) => t.id != id);
      tasks := Filter(tasks, (t: SocialTask) => t.id != id);
    }

    /**
     * `executeTask`: what executing the first task with this id launches,
     * or nothing when there is none. Nothing in the store changes; a task
     * is completed only when the user confirms it.
     */
    function ExecuteTask(id: string): (r: Option<Launch>)
      reads this
      ensures r.None? <==> forall i :: 0 <= i < |tasks| ==> tasks[i].id != id
      ensures r.Some? ==> exists i :: FirstWithId(tasks, id, i) && r.value == ExecuteSocialTask(tasks[i])
    {
      match FindIndex(tasks, HasId(id))
      case None => None
      case Some(i) => Some(ExecuteSocialTask(tasks[i]))
    }

    /** Replaces the whole list by the five sample tasks. */
    method LoadSampleTasks(now: int)
      modifies this
      ensures tasks == CreateSampleSocialTasks(now)
      ensures GetCompletedCount() == 0 && |GetPendingTasks()| == 5
    {
      tasks := CreateSampleSocialTasks(now);
      CountAllNone(tasks, IsCompleted);
      NoneCompletedAllPending(tasks);
    }

    function GetTasksByPlatform(platform: SocialPlatform): (r: seq<SocialTask>)
      reads this
      ensures forall t :: t in r <==> t in tasks && t.platform == platform
      ensures forall t :: multiset(r)[t] == if t.platform == platform then multiset(tasks)[t] else 0
      ensures IsSubsequence(r, tasks)
    {
      FilterSpec(tasks, OnPlatform(platform));
      Filter(tasks, OnPlatform(platform))
    }

    function GetPendingTasks(): (r: seq<SocialTask>)
      reads this
      ensures forall t :: t in r <==> t in tasks && !t.completed
      ensures forall t :: multiset(r)[t] == if !t.completed then multiset(tasks)[t] else 0
      ensures IsSubsequence(r, tasks)
    {
      FilterSpec(tasks, IsPending);
      Filter(tasks, IsPending)
    }

    function GetCompletedCount(): (r: nat)
      reads this
      ensures r <= |tasks|
      ensures r == 0 <==> forall i :: 0 <= i < |tasks| ==> !tasks[i].completed
      ensures r == |tasks| <==> forall i :: 0 <= i < |tasks| ==> tasks[i].completed
    {
      CountAllNone(tasks, IsCompleted);
      Count(tasks, IsCompleted)
    }
  }

  /** With nothing completed, every task is pending. */
  lemma {:induction false} NoneCompletedAllPending(s: seq<SocialTask>)
    requires forall i :: 0 <= i < |s| ==> !s[i].completed
    ensures |Filter(s, IsPending)| == |s|
  {
    PendingCompletedPartition(s);
    CountAllNone(s, IsCompleted);
  }

  /** The pending list and the completed count of a store add up to all of its tasks. */
  lemma PendingPlusCompleted(store: SocialStore)
    ensures |store.GetPendingTasks()| + store.GetCompletedCount() == |store.tasks|
  {
    PendingCompletedPartition(store.tasks);
  }

  /** The completed count of a store is what the platform metrics add up to. */
  lemma CompletedCountIsMetricsTotal(store: SocialStore, now: int)
    ensures MetricsFor(store.tasks, Twitter, now).tasksCompleted + MetricsFor(store.tasks, Discord, now).tasksCompleted
          + MetricsFor(store.tasks, GitHub, now).tasksCompleted + MetricsFor(store.tasks, LinkedIn, now).tasksCompleted
          + MetricsFor(store.tasks, Telegram, now).tasksCompleted == store.GetCompletedCount()
  {
    CompletedCountsAddUp(store.tasks, now);
  }
}
