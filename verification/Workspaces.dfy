/** A workspace row and the single-statement updates that the control plane applies to it. */
module Workspaces {

  datatype Desired = Running | Stopped | Terminated
  datatype Observed = ObservedPending | ObservedRunning | ObservedStopped | ObservedTerminated | ObservedUnknown
  datatype Provisioning = ProvisioningPending | InProgress | Succeeded | Failed

  datatype Workspace = Workspace(
    project: string,
    gpuCount: int,
    desired: Desired,
    observed: Observed,
    provisioning: Provisioning,
    generation: nat,
    observedGeneration: nat)

  function ObservedFor(desired: Desired): Observed {
    match desired
    case Running => ObservedRunning
    case Stopped => ObservedStopped
    case Terminated => ObservedTerminated
  }

  predicate ObservedMatchesDesired(w: Workspace) {
    w.observed == ObservedFor(w.desired)
  }

  function Created(project: string, gpuCount: int): Workspace {
    Workspace(project, gpuCount, Running, ObservedPending, ProvisioningPending, 1, 0)
  }

  /** A new desired state always opens a new generation, even when it repeats the old state. */
  function WithDesired(w: Workspace, desired: Desired): Workspace {
    w.(desired := desired, generation := w.generation + 1)
  }

  /** UPDATE ... WHERE generation = $3: the row is touched only at the caller's generation. */
  function Started(w: Workspace, generation: int): Workspace {
    if w.generation == generation then w.(provisioning := InProgress, observed := ObservedUnknown) else w
  }

  function Completed(w: Workspace, generation: int): Workspace {
    if w.generation == generation
    then w.(observed := ObservedFor(w.desired), provisioning := Succeeded, observedGeneration := w.generation)
    else w
  }

  function MarkedFailed(w: Workspace, generation: int, terminal: bool): Workspace {
    if w.generation == generation then w.(provisioning := if terminal then Failed else InProgress) else w
  }

  /** The observed state is the one that is desired. */
  predicate Shows(w: Workspace) {
    && (w.observed == ObservedRunning <==> w.desired == Running)
    && (w.observed == ObservedStopped <==> w.desired == Stopped)
    && (w.observed == ObservedTerminated <==> w.desired == Terminated)
  }

  lemma MatchesIsShows(w: Workspace)
    ensures ObservedMatchesDesired(w) <==> Shows(w)
  {
  }

  /** A completion reports the desired state as reached, at the caller's generation only. */
  lemma CompletionShows(w: Workspace, generation: int)
    ensures var w' := Completed(w, generation);
      && (w.generation != generation ==> w' == w)
      && (w.generation == generation ==>
            Shows(w') && w'.provisioning == Succeeded && w'.observedGeneration == w'.generation)
      && w'.desired == w.desired && w'.generation == w.generation
      && w'.project == w.project && w'.gpuCount == w.gpuCount
  {
  }
}
