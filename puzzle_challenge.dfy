/** The puzzle challenge (src/components/game/challenges/PuzzleChallenge.tsx): a riddle whose
    answer is compared after trimming and lowering, with a hint list walked one step at a time. */
module PuzzleChallenge {
  import opened Resources
  import opened Text

  /** The riddle's answer and hints; title, riddle text and facts are presentation. */
  datatype Puzzle = Puzzle(solution: string, hints: seq<string>)

  /** The puzzle the load effect installs, whatever the destination. */
  const lostArtifact: Puzzle := Puzzle("deutsches eck", [
    "I'm a famous landmark in Koblenz.",
    "My name translates to 'German Corner' in English.",
    "I'm located at the confluence of two rivers."
  ])

  datatype FeedbackType = Success | Error

  /** `s.trim().toLowerCase()`. */
  function Normalize(s: string): (r: string)
    ensures |r| <= |s|
    ensures r != [] ==> !IsSpace(r[0]) && !IsSpace(r[|r| - 1])
    ensures forall i :: 0 <= i < |r| ==> !('A' <= r[i] <= 'Z')
  {
    var t := Trim(s);
    assert t != [] ==> Lower(t)[0] == LowerChar(t[0]) && Lower(t)[|t| - 1] == LowerChar(t[|t| - 1]);
    Lower(t)
  }

  /** The answer is accepted when both sides normalise to the same string. */
  predicate Accepts(answer: string, solution: string)
  {
    Normalize(answer) == Normalize(solution)
  }

  /** Surrounding whitespace never matters: padding the answer with any run of whitespace on
      either side leaves the verdict as it was. */
  lemma PaddingIgnored(pre: string, answer: string, post: string, solution: string)
    requires forall k :: 0 <= k < |pre| ==> IsSpace(pre[k])
    requires forall k :: 0 <= k < |post| ==> IsSpace(post[k])
    ensures Accepts(pre + answer + post, solution) <==> Accepts(answer, solution)
  {
    TrimPadded(pre, answer, post);
  }

  /** Trimming a string padded with whitespace on both sides gives the trim of the string. */
  lemma TrimPadded(pre: string, s: string, post: string)
    requires forall k :: 0 <= k < |pre| ==> IsSpace(pre[k])
    requires forall k :: 0 <= k < |post| ==> IsSpace(post[k])
    ensures Trim(pre + s + post) == Trim(s)
  {
    if Trim(s) == [] {
      PaddedBlank(pre, s, post);
    } else {
      PaddedNonBlank(pre, s, post);
    }
  }

  /** Where a character of the padded string comes from. */
  lemma PaddedAt(pre: string, s: string, post: string, k: int)
    requires 0 <= k < |pre| + |s| + |post|
    ensures k < |pre| ==> (pre + s + post)[k] == pre[k]
    ensures |pre| <= k < |pre| + |s| ==> (pre + s + post)[k] == s[k - |pre|]
    ensures |pre| + |s| <= k ==> (pre + s + post)[k] == post[k - |pre| - |s|]
  {
  }

  /** A blank string stays blank when padded. */
  lemma PaddedBlank(pre: string, s: string, post: string)
    requires forall k :: 0 <= k < |pre| ==> IsSpace(pre[k])
    requires forall k :: 0 <= k < |post| ==> IsSpace(post[k])
    requires Trim(s) == []
    ensures Trim(pre + s + post) == []
  {
    var p := pre + s + post;
    TrimEmptyIffBlank(s);
    forall k | 0 <= k < |p| ensures IsSpace(p[k]) {
      PaddedAt(pre, s, post, k);
    }
    TrimEmptyIffBlank(p);
  }

  /** The trim of a non-blank string sits |pre| places to the right inside the padded string. */
  lemma PaddedNonBlank(pre: string, s: string, post: string)
    requires forall k :: 0 <= k < |pre| ==> IsSpace(pre[k])
    requires forall k :: 0 <= k < |post| ==> IsSpace(post[k])
    requires Trim(s) != []
    ensures Trim(pre + s + post) == Trim(s)
  {
    var p := pre + s + post;
    var a := LeadingSpaces(s);
    var r := Trim(s);
    var start := |pre| + a;
    PaddedRuns(pre, s, post);
    PaddedSlice(pre, s, post, a, a + |r|);
    assert p[start] == r[0] && p[start + |r| - 1] == r[|r| - 1];
    SliceTrimUnique(p, start, |r|);
  }

  /** Whitespace before and after the trim of the string stays whitespace once padded. */
  lemma PaddedRuns(pre: string, s: string, post: string)
    requires forall k :: 0 <= k < |pre| ==> IsSpace(pre[k])
    requires forall k :: 0 <= k < |post| ==> IsSpace(post[k])
    ensures forall k :: 0 <= k < |pre| + LeadingSpaces(s) ==> IsSpace((pre + s + post)[k])
    ensures forall k :: |pre| + LeadingSpaces(s) + |Trim(s)| <= k < |pre + s + post| ==> IsSpace((pre + s + post)[k])
  {
    var p := pre + s + post;
    var a := LeadingSpaces(s);
    var r := Trim(s);
    forall k | 0 <= k < |pre| + a ensures IsSpace(p[k]) {
      PaddedAt(pre, s, post, k);
    }
    forall k | |pre| + a + |r| <= k < |p| ensures IsSpace(p[k]) {
      PaddedAt(pre, s, post, k);
    }
  }

  /** A slice of the string is the same slice of the padded string, shifted by |pre|. */
  lemma PaddedSlice(pre: string, s: string, post: string, i: nat, j: nat)
    requires i <= j <= |s|
    ensures (pre + s + post)[|pre| + i..|pre| + j] == s[i..j]
  {
    var p := pre + s + post;
    forall k | 0 <= k < j - i ensures p[|pre| + i..|pre| + j][k] == s[i..j][k] {
      PaddedAt(pre, s, post, |pre| + i + k);
    }
  }

  /** A non-empty slice with no whitespace at either end and only whitespace around it is the trim. */
  lemma SliceTrimUnique(p: string, start: nat, len: nat)
    requires 0 < len && start + len <= |p|
    requires forall k :: 0 <= k < start ==> IsSpace(p[k])
    requires forall k :: start + len <= k < |p| ==> IsSpace(p[k])
    requires !IsSpace(p[start]) && !IsSpace(p[start + len - 1])
    ensures Trim(p) == p[start..start + len]
  {
    var a := LeadingSpaces(p);
    assert a == start;
  }

  /** The intended answer typed with stray capitals and spaces is accepted. */
  lemma PaddedCapitalisedAnswerAccepted()
    ensures Accepts("  Deutsches ECK ", lostArtifact.solution)
  {
    TrimmedAnswer();
    TrimmedSolution();
    LoweredAnswer();
  }

  /** The padded answer trims to its two words. */
  lemma TrimmedAnswer()
    ensures Trim("  Deutsches ECK ") == "Deutsches ECK"
  {
    var s := "  Deutsches ECK ";
    assert !IsSpace(s[2]) && !IsSpace(s[14]);
    SliceTrimUnique(s, 2, 13);
    assert s[2..15] == "Deutsches ECK";
  }

  /** The solution has nothing to trim. */
  lemma TrimmedSolution()
    ensures Trim(lostArtifact.solution) == "deutsches eck"
  {
    var s := lostArtifact.solution;
    assert !IsSpace(s[0]) && !IsSpace(s[12]);
    SliceTrimUnique(s, 0, 13);
    assert s[0..13] == s;
  }

  /** Lowering the trimmed answer gives the solution. */
  lemma LoweredAnswer()
    ensures Lower("Deutsches ECK") == "deutsches eck"
  {
  }

  /** The challenge's state cells. */
  class Challenge {
    var puzzle: Option<Puzzle>
    var userSolution: string
    var feedbackType: Option<FeedbackType>
    var hints: seq<string>
    var hintIndex: int
    var showingHint: bool
    /** How many times the delayed `onComplete` has fired. */
    var completions: nat

    /** The hint invariant: the index stays on a hint when there is one. */
    predicate Valid()
      reads this
    {
      0 <= hintIndex && (hints != [] ==> hintIndex < |hints|) && (hints == [] ==> hintIndex == 0)
    }

    /** The first render: nothing loaded yet. */
    constructor ()
      ensures Valid()
      ensures puzzle == None && userSolution == [] && feedbackType == None
      ensures hints == [] && hintIndex == 0 && !showingHint && completions == 0
    {
      puzzle := None;
      userSolution := [];
      feedbackType := None;
      hints := [];
      hintIndex := 0;
      showingHint := false;
      completions := 0;
    }

    /** The load effect, run once after the first render: the puzzle and its hints are installed. */
    method Load()
      requires Valid() && puzzle == None && hints == []
      modifies this
      ensures Valid()
      ensures puzzle == Some(lostArtifact) && hints == lostArtifact.hints
      ensures userSolution == old(userSolution) && feedbackType == old(feedbackType)
      ensures hintIndex == old(hintIndex) && showingHint == old(showingHint) && completions == old(completions)
    {
      puzzle := Some(lostArtifact);
      hints := lostArtifact.hints;
    }

    /** The input's change handler. */
    method Type(text: string)
      modifies this
      ensures userSolution == text
      ensures puzzle == old(puzzle) && feedbackType == old(feedbackType) && hints == old(hints)
      ensures hintIndex == old(hintIndex) && showingHint == old(showingHint) && completions == old(completions)
    {
      userSolution := text;
    }

    /** `handleSolutionSubmit`: nothing before the puzzle is loaded; otherwise success, and the
        delayed completion taken as immediate, exactly when the answer is accepted, an error
        otherwise. */
    method Submit()
      requires Valid()
      modifies this
      ensures Valid()
      ensures puzzle == old(puzzle) && userSolution == old(userSolution) && hints == old(hints)
      ensures hintIndex == old(hintIndex) && showingHint == old(showingHint)
      ensures puzzle == None ==> feedbackType == old(feedbackType) && completions == old(completions)
      ensures puzzle.Some? && Accepts(userSolution, puzzle.value.solution) ==>
        feedbackType == Some(Success) && completions == old(completions) + 1
      ensures puzzle.Some? && !Accepts(userSolution, puzzle.value.solution) ==>
        feedbackType == Some(Error) && completions == old(completions)
    {
      if puzzle == None {
        return;
      }
      var normalizedSolution := Normalize(userSolution);
      var normalizedCorrect := Normalize(puzzle.value.solution);
      if normalizedSolution == normalizedCorrect {
        feedbackType := Some(Success);
        completions := completions + 1;
      } else {
        feedbackType := Some(Error);
      }
    }

    /** `showHint`: the hint box opens only while the index is on a hint. */
    method ShowHint()
      requires Valid()
      modifies this
      ensures Valid()
      ensures showingHint == (old(showingHint) || hintIndex < |hints|)
      ensures puzzle == old(puzzle) && userSolution == old(userSolution) && feedbackType == old(feedbackType)
      ensures hints == old(hints) && hintIndex == old(hintIndex) && completions == old(completions)
    {
      if hintIndex < |hints| {
        showingHint := true;
      }
    }

    /** `getNextHint`: the index moves on only while a later hint exists. */
    method NextHint()
      requires Valid()
      modifies this
      ensures Valid()
      ensures old(hintIndex) < |hints| - 1 ==> hintIndex == old(hintIndex) + 1
      ensures old(hintIndex) >= |hints| - 1 ==> hintIndex == old(hintIndex)
      ensures puzzle == old(puzzle) && userSolution == old(userSolution) && feedbackType == old(feedbackType)
      ensures hints == old(hints) && showingHint == old(showingHint) && completions == old(completions)
    {
      if hintIndex < |hints| - 1 {
        hintIndex := hintIndex + 1;
      }
    }
  }
}
