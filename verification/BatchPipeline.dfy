/** From a research batch to its work queue. */
module BatchPipeline {
  import opened TaskGraph
  import opened ResearchPlan
  import opened WorkQueueRuns
  import WorkQueue

  /** The two checks on a batch decide the fate of its queue. With no cycle and no missing dependency to be found,
      every run that stops has finished all tasks, whatever they report, and completed them all when they report
      success; with one, neither holds. */
  lemma BatchCompletesIffChecked(specs: seq<ResearchTaskSpec>)
    ensures AlwaysCompletes(ToWorkQueueTasks(specs)) <==> Acyclic(GraphOf(specs)) && NoMissing(GraphOf(specs))
    ensures SuccessCompletes(ToWorkQueueTasks(specs)) <==> Acyclic(GraphOf(specs)) && NoMissing(GraphOf(specs))
  {
    QueueKeepsGraph(specs);
    CompletesIffWellFormed(ToWorkQueueTasks(specs));
  }
}
