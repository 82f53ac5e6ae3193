/** The dashboard's summary figures over all projects and all their tasks. */
module ProjectStats {
  import opened Common
  import opened Entities
  import opened TaskStats

  datatype Summary = Summary(
    totalProjects: nat,
    totalTasks: nat,
    completedTasks: nat,
    completionRate: nat,
    teamMembers: string)

  /** `totalProjects`, `totalTasks`, `completedTasks`, `completionRate` and
      the fixed "Team Members" figure: the counts of projects, of tasks and
      of positions holding a done task, and the rounded percentage of the
      last over the second. */
  function SummaryOf(projects: seq<Project>, allTasks: seq<Task>): (s: Summary)
    ensures s.totalProjects == |projects| && s.totalTasks == |allTasks|
    ensures s.completedTasks == |set i | 0 <= i < |allTasks| && allTasks[i].status == Done|
    ensures s.completionRate == CompletionRate(s.completedTasks, s.totalTasks)
    ensures s.completedTasks <= s.totalTasks
    ensures s.completedTasks > 0 <==> exists t :: t in allTasks && t.status == Done
    ensures s.completedTasks == s.totalTasks <==> forall t :: t in allTasks ==> t.status == Done
    ensures s.completionRate <= 100
    ensures s.totalTasks == 0 ==> s.completionRate == 0
    ensures s.teamMembers == "0"
  {
    var completed := |OfStatus(allTasks, Done)|;
    OfStatusSomeOrAll(allTasks, Done);
    RateBounds(completed, |allTasks|);
    Summary(|projects|, |allTasks|, completed, CompletionRate(completed, |allTasks|), "0")
  }

  /** The overall-completion panel is drawn only when there are tasks. */
  predicate ShowsCompletionPanel(s: Summary) {
    s.totalTasks > 0
  }

  /** The panel shows exactly when some project has a task; when it is
      hidden the rate would read 0. */
  lemma CompletionPanelShown(projects: seq<Project>, allTasks: seq<Task>)
    ensures ShowsCompletionPanel(SummaryOf(projects, allTasks)) <==> allTasks != []
    ensures !ShowsCompletionPanel(SummaryOf(projects, allTasks)) ==> SummaryOf(projects, allTasks).completionRate == 0
  {
  }
}
