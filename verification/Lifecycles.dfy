/** worker/src/artifacts.ts: the transition tables of revisions, deletions and uploads. */
module Lifecycles {

  datatype ArtifactState = Staging | Sealed | Published | Abandoned

  predicate ArtifactAllows(current: ArtifactState, target: ArtifactState) {
    match current
    case Staging => target in {Sealed, Abandoned}
    case Sealed => target in {Published, Abandoned}
    case Published => false
    case Abandoned => false
  }

  datatype RetentionState = Retained | DeletionRequested | Deleting | DeleteFailed | Deleted

  predicate RetentionAllows(current: RetentionState, target: RetentionState) {
    match current
    case Retained => target == DeletionRequested
    case DeletionRequested => target == Deleting
    case Deleting => target in {Deleted, DeleteFailed, Deleting}
    case DeleteFailed => target == Deleting
    case Deleted => false
  }

  datatype UploadState = Receiving | Stored | Admitted | Dropped

  predicate UploadAllows(current: UploadState, target: UploadState) {
    match current
    case Receiving => target in {Stored, Dropped}
    case Stored => target in {Admitted, Dropped}
    case Admitted => false
    case Dropped => false
  }
}
