/**
 * Properties of the per-file Git status that relate several of its queries:
 * how the axis queries partition the states, an outcome-by-outcome
 * characterisation of the classifier, the case-insensitive matching of the
 * history lookups, how the classifier agrees with the
 * capability predicates, the deletion check as written against its corrected
 * form, and the sharing of icons and texts between states.
 */
module GitSourceControlProperties {
  import opened Wrappers
  import opened GitSourceControl

  // ---------------------------------------------------------------------------
  // Axis queries
  // ---------------------------------------------------------------------------

  /** The tree-state queries: tracked, addable, ignored and unknown files. */
  lemma TreeStateQueries(s: SourceControlState)
    ensures s.IsModified() ==> s.IsSourceControlled()
    ensures !s.IsSourceControlled() <==>
      s.CanAdd() || s.IsIgnored() || s.status.treeState == TreeState.NotInRepo
    ensures !(s.CanAdd() && s.IsIgnored())
    ensures s.IsUnknown() ==>
      !s.IsSourceControlled() && !s.IsAdded() && !s.IsDeleted() && !s.IsConflicted()
  {
  }

  // ---------------------------------------------------------------------------
  // The classifier, outcome by outcome
  // ---------------------------------------------------------------------------

  /** The remote and lock outcomes, and the recorded changes, in both directions. */
  lemma ClassifierUpperRules(s: SourceControlState)
    ensures s.GetGitState() == GitState.NotAtHead <==> s.status.remoteState == RemoteState.NotAtHead
    ensures s.GetGitState() == GitState.LockedOther <==>
      s.status.remoteState != RemoteState.NotAtHead && s.status.lockState == LockState.LockedOther
    ensures s.GetGitState() == GitState.NotLatest <==>
      s.status.remoteState == RemoteState.NotLatest && s.status.lockState != LockState.LockedOther
    ensures s.GetGitState() == GitState.Unmerged <==>
      s.IsCurrent() && s.status.lockState != LockState.LockedOther && s.status.fileState == FileState.Unmerged
    ensures s.GetGitState() == GitState.Added <==>
      s.IsCurrent() && s.status.lockState != LockState.LockedOther && s.status.fileState == FileState.Added
    ensures s.GetGitState() == GitState.Deleted <==>
      s.IsCurrent() && s.status.lockState != LockState.LockedOther && s.status.fileState == FileState.Deleted
    ensures s.GetGitState() == GitState.Modified <==>
      s.IsCurrent() && s.status.lockState != LockState.LockedOther && s.status.fileState == FileState.Modified
  {
  }

  /**
   * The outcomes for a current file with no recorded change. The checkout test
   * folds into the lock: such a tracked file is lockable exactly when it is not
   * locked, and shows unmodified exactly when its lock state is unknown or it
   * cannot be locked.
   */
  lemma ClassifierLowerRules(s: SourceControlState)
    ensures s.GetGitState() == GitState.Untracked <==>
      s.IsCurrent() && s.status.lockState != LockState.LockedOther && !IsChange(s.status.fileState)
      && s.status.treeState == TreeState.Untracked
    ensures s.GetGitState() == GitState.CheckedOut <==>
      s.IsCurrent() && s.status.lockState == LockState.Locked && !IsChange(s.status.fileState)
      && s.status.treeState != TreeState.Untracked
    ensures s.GetGitState() == GitState.Lockable <==>
      s.IsCurrent() && s.status.lockState == LockState.NotLocked && !IsChange(s.status.fileState)
      && s.IsSourceControlled()
    ensures s.GetGitState() == GitState.Unmodified <==>
      s.IsCurrent() && (s.status.lockState == LockState.Unknown || s.status.lockState == LockState.Unlockable)
      && !IsChange(s.status.fileState) && s.IsSourceControlled()
    ensures s.GetGitState() == GitState.None <==>
      s.IsCurrent() && s.status.lockState != LockState.Locked && s.status.lockState != LockState.LockedOther
      && !IsChange(s.status.fileState)
      && (s.status.treeState == TreeState.Ignored || s.status.treeState == TreeState.NotInRepo)
  {
  }

  /** A stale file shows one of the three remote or lock states, and only those show it. */
  lemma CurrencyAndClassifier(s: SourceControlState)
    ensures !s.IsCurrent() ==>
      s.GetGitState() == GitState.NotAtHead || s.GetGitState() == GitState.LockedOther
      || s.GetGitState() == GitState.NotLatest
    ensures s.GetGitState() == GitState.NotAtHead || s.GetGitState() == GitState.NotLatest ==> !s.IsCurrent()
    ensures s.IsModifiedInOtherBranch("") && s.status.lockState != LockState.LockedOther ==>
      s.GetGitState() == GitState.NotLatest
  {
  }

  // ---------------------------------------------------------------------------
  // String matching in the history lookups
  // ---------------------------------------------------------------------------

  /**
   * The comparison used by the revision and merge-base lookups is an
   * equivalence that extends equality and ignores the case of ASCII letters.
   */
  lemma IgnoreCaseEquivalence(a: string, b: string, c: string)
    ensures a == b ==> EqualsIgnoreCase(a, b)
    ensures EqualsIgnoreCase(a, b) ==> EqualsIgnoreCase(b, a)
    ensures EqualsIgnoreCase(a, b) && EqualsIgnoreCase(b, c) ==> EqualsIgnoreCase(a, c)
    ensures EqualsIgnoreCase(a, b) ==> |a| == |b|
  {
  }

  /** A commit id or hash written in upper case matches its lower-case form; other digits do not. */
  lemma IgnoreCaseCases()
    ensures EqualsIgnoreCase("abc123", "ABC123")
    ensures EqualsIgnoreCase("h1", "H1")
    ensures !EqualsIgnoreCase("h1", "h2")
  {
    assert !(ToLowerAscii("h1"[1]) == ToLowerAscii("h2"[1]));
  }

  // ---------------------------------------------------------------------------
  // Classifier and capabilities
  // ---------------------------------------------------------------------------

  /** What each shown state allows the user to do. */
  lemma ClassifierAndCapabilities(s: SourceControlState)
    ensures s.GetGitState() == GitState.Lockable ==> s.CanCheckout() && !s.IsCheckedOut() && !s.CanEdit()
    ensures s.GetGitState() == GitState.CheckedOut ==>
      s.IsCheckedOut() && s.CanEdit() && s.CanCheckIn() && !s.CanCheckout()
    ensures s.GetGitState() == GitState.Added ==> s.CanCheckIn() && s.CanEdit() && s.CanRevert()
    ensures s.GetGitState() == GitState.Unmerged ==> !s.CanCheckIn() && !s.CanRevert()
    ensures s.GetGitState() == GitState.NotAtHead || s.GetGitState() == GitState.NotLatest
            || s.GetGitState() == GitState.LockedOther ==>
      !s.CanCheckout() && (s.CanCheckIn() <==> s.IsAdded())
    ensures s.GetGitState() == GitState.Untracked ==> s.CanAdd() && !s.IsSourceControlled() && !s.CanDelete()
    // checkout does not ask whether the file is tracked: an unlocked ignored file passes it
    ensures s.GetGitState() == GitState.None ==>
      !s.CanDelete() && !s.CanAdd() && (s.CanCheckout() <==> s.status.lockState == LockState.NotLocked)
  {
  }

  /** Revert eligibility is check-in eligibility on every input. */
  lemma RevertMatchesCheckIn(s: SourceControlState)
    ensures s.CanRevert() <==> s.CanCheckIn()
  {
  }

  /**
   * Check-in in closed form. The source-control test of the fourth rule adds
   * nothing: only tracked files are modified.
   */
  lemma CanCheckInClosedForm(s: SourceControlState)
    ensures s.CanCheckIn() <==>
      s.IsAdded()
      || (s.IsCurrent() && !s.IsConflicted()
          && (s.status.lockState == LockState.Locked
              || (s.status.lockState != LockState.LockedOther && s.IsModified())))
  {
  }

  // ---------------------------------------------------------------------------
  // Another user's lock: as written and as intended
  // ---------------------------------------------------------------------------

  /** Without an out-slot the lock query as written never answers true. */
  lemma CheckedOutOtherWithoutSlot(s: SourceControlState)
    ensures !s.IsCheckedOutOther(Option.None).result
    ensures s.IsCheckedOutOther(Option.None).who == Option.None
  {
  }

  /** The written and corrected lock queries agree whenever an out-slot is supplied. */
  lemma CheckedOutOtherAgreesWithSlot(s: SourceControlState, who: Option<string>)
    requires who.Some?
    ensures s.IsCheckedOutOther(who) == s.IsCheckedOutOtherIntended(who)
  {
  }

  /**
   * As written, deletion ignores another user's lock; the corrected check
   * refuses exactly the files so locked.
   */
  lemma CanDeleteAgainstIntended(s: SourceControlState)
    ensures s.CanDeleteIntended() ==> s.CanDelete()
    ensures s.CanDelete() && !s.CanDeleteIntended() <==>
      s.CanDelete() && s.status.lockState == LockState.LockedOther
  {
  }

  /** A current, tracked file locked by another user that the code lets be deleted. */
  lemma CanDeleteLockedByOther()
    ensures var s := SourceControlState(
              FileStatus(FileState.Unknown, TreeState.Unmodified, LockState.LockedOther, RemoteState.UpToDate, "alice"),
              [], "", "", "", "");
            s.GetGitState() == GitState.LockedOther && s.CanDelete() && !s.CanDeleteIntended()
  {
  }

  // ---------------------------------------------------------------------------
  // Presentation
  // ---------------------------------------------------------------------------

  /** Icons are shared only by modified and checked-out, and by untracked and ignored. */
  lemma IconsShared(g: GitState, h: GitState)
    ensures IconFor(GitState.Modified) == IconFor(GitState.CheckedOut)
    ensures IconFor(GitState.Untracked) == IconFor(GitState.Ignored)
    ensures g != h && IconFor(g) == IconFor(h) && IconFor(g) != NoIcon ==>
      ({g, h} == {GitState.Modified, GitState.CheckedOut} || {g, h} == {GitState.Untracked, GitState.Ignored})
  {
  }

  /** Label and tooltip are shared only by modified and checked-out states. */
  lemma TextsShared(s: SourceControlState, t: SourceControlState)
    ensures s.GetGitState() == GitState.Modified && t.GetGitState() == GitState.CheckedOut ==>
      s.GetDisplayName() == t.GetDisplayName() && s.GetDisplayTooltip() == t.GetDisplayTooltip()
    ensures s.GetDisplayName() == t.GetDisplayName() && s.GetDisplayName() != EmptyText ==>
      s.GetGitState() == t.GetGitState()
      || ({s.GetGitState(), t.GetGitState()} == {GitState.Modified, GitState.CheckedOut})
    ensures s.GetDisplayTooltip() == t.GetDisplayTooltip() && s.GetDisplayTooltip() != EmptyText ==>
      s.GetGitState() == t.GetGitState()
      || ({s.GetGitState(), t.GetGitState()} == {GitState.Modified, GitState.CheckedOut})
  {
  }

  /** The entries written for the ignored state are never shown. */
  lemma IgnoredTextsUnreachable(s: SourceControlState)
    ensures s.GetDisplayName() != LocText("Ignore", [])
    ensures s.GetDisplayTooltip() != LocText("Ignored_Tooltip", [])
  {
  }

  // ---------------------------------------------------------------------------
  // Worked cases
  // ---------------------------------------------------------------------------

  /** A new, untracked file. */
  lemma UntrackedFileCase()
    ensures var s := SourceControlState(
              FileStatus(FileState.Unknown, TreeState.Untracked, LockState.NotLocked, RemoteState.UpToDate, ""),
              [], "", "", "", "");
            s.GetGitState() == GitState.Untracked && s.CanAdd() && !s.CanCheckIn()
  {
  }

  /** A staged modification of a locked file shows as modified, not checked out. */
  lemma StagedLockedFileCase()
    ensures var s := SourceControlState(
              FileStatus(FileState.Modified, TreeState.Staged, LockState.Locked, RemoteState.UpToDate, ""),
              [], "", "", "", "");
            s.GetGitState() == GitState.Modified && s.CanCheckIn()
  {
  }

  /** A file locked by another user, queried with an out-slot. */
  lemma LockedByOtherCase()
    ensures var s := SourceControlState(
              FileStatus(FileState.Unknown, TreeState.Unmodified, LockState.LockedOther, RemoteState.UpToDate, "alice"),
              [], "", "", "", "");
            s.GetGitState() == GitState.LockedOther
            && s.IsCheckedOutOther(Option.Some("")) == CheckedOutOtherResult(true, Option.Some("alice"))
            && s.GetDisplayName() == LocText("CheckedOutOther", ["alice"])
  {
  }

  /**
   * A three-entry history whose middle revision carries the merge base's
   * file hash, in a different case: the base revision found is that entry,
   * and a revision name absent from the history is not found.
   */
  method HistoryLookupCase()
  {
    var s := SourceControlState(
      FileStatus(FileState.Unmerged, TreeState.Working, LockState.NotLocked, RemoteState.UpToDate, ""),
      [Revision("a1", 1, "h1"), Revision("b2", 2, "h2"), Revision("c3", 3, "h3")],
      "", "", "", "H2");
    assert !EqualsIgnoreCase(s.GetHistoryItem(0).fileHash, "H2") by {
      assert ToLowerAscii("h1"[1]) != ToLowerAscii("H2"[1]);
    }
    assert EqualsIgnoreCase(s.GetHistoryItem(1).fileHash, "H2");
    var b := s.GetBaseRevForMerge();
    assert b == Option.Some(Revision("b2", 2, "h2"));

    assert forall k :: 0 <= k < s.GetHistorySize() ==> !EqualsIgnoreCase(s.GetHistoryItem(k).revision, "zzz");
    var z := s.FindHistoryRevision("zzz");
    assert z.None?;
  }
}
