/** What the engine does to the world outside its own memory, in the order it does it. */
module Effects {
  import opened Profile
  import opened Step

  datatype Effect =
    | Write(req: Request)
    | AskAgent
    | TakeToken
    | PutHint(key: string, podName: string, target: string)
    | DropHint(key: string)
    | Evict(podName: string)
    | DeletePod(podName: string)
    | SetReplicas(count: int)
    | SetResources(container: string, cpu: int, memory: int)
    | ResizePod(podName: string)
  {
    /** Writes to pods or to the workload object. */
    predicate TouchesCluster() {
      Evict? || DeletePod? || SetReplicas? || SetResources? || ResizePod?
    }
  }

  /** An enactor either reports an outcome or fails before it did anything lasting. */
  datatype EnactorResult = EnactorError | Reported(outcome: Outcome)
}
