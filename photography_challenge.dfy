/** The photography challenge (src/components/game/challenges/PhotographyChallenge.tsx): three
    targets, each photographed before the player may move on. */
module PhotographyChallenge {

  /** The targets' names, in order; descriptions, hints and images are presentation. */
  const photographyTargets: seq<string> := ["Historical Building", "Local Food", "River View"]

  /** The challenge's state cells. */
  class Challenge {
    var currentStep: int
    var completed: bool
    var photoTaken: bool
    /** Photo-then-next rounds finished so far (not a cell of the component). */
    ghost var rounds: nat

    /** The invariant: the step stays on a target, one round has been finished per target passed,
        and completion comes only with the last target's photo taken. */
    ghost predicate Valid()
      reads this
    {
      && 0 <= currentStep < |photographyTargets|
      && rounds == currentStep + (if completed then 1 else 0)
      && (completed ==> currentStep == |photographyTargets| - 1 && photoTaken)
    }

    constructor ()
      ensures Valid()
      ensures currentStep == 0 && !completed && !photoTaken
    {
      currentStep := 0;
      completed := false;
      photoTaken := false;
      rounds := 0;
    }

    /** The Take Photo button: the photo is taken and nothing else changes, so a second press
        (which the disabled button prevents anyway) changes nothing. */
    method TakePhoto()
      requires Valid()
      modifies this
      ensures Valid()
      ensures photoTaken
      ensures currentStep == old(currentStep) && completed == old(completed) && rounds == old(rounds)
    {
      photoTaken := true;
    }

    /** The Next button, on screen only once the photo is taken and before completion. It moves to
        the next target with a fresh camera, or completes the challenge on the last one. */
    method Next()
      requires Valid()
      modifies this
      ensures Valid()
      ensures !old(photoTaken) || old(completed) ==>
        currentStep == old(currentStep) && completed == old(completed) && photoTaken == old(photoTaken) &&
        rounds == old(rounds)
      ensures old(photoTaken) && !old(completed) ==> rounds == old(rounds) + 1
      ensures old(photoTaken) && !old(completed) && old(currentStep) < |photographyTargets| - 1 ==>
        currentStep == old(currentStep) + 1 && !photoTaken && !completed
      ensures old(photoTaken) && !old(completed) && old(currentStep) == |photographyTargets| - 1 ==>
        currentStep == old(currentStep) && completed && photoTaken
    {
      if !photoTaken || completed {
        return;
      }
      rounds := rounds + 1;
      if currentStep < |photographyTargets| - 1 {
        currentStep := currentStep + 1;
        photoTaken := false;
      } else {
        completed := true;
      }
    }

    /** Completion takes one photo-then-next round per target. */
    lemma CompletionTakesEveryRound()
      requires Valid() && completed
      ensures rounds == |photographyTargets|
    {
    }
  }
}
