/**
 * Per-file Git status of the editor's source-control plugin: the four status
 * axes of a file, the single prioritised state shown to the user, the
 * capability predicates that gate editor commands, and the lookups in the
 * file's revision history.
 *
 * The status object is a read-only snapshot (every member of the plugin's C++
 * class is `const`), so it is a datatype and its queries are member functions.
 * The history lookups are loops in the plugin's C++ code and stay methods with
 * loops here.
 * Out-parameters are modelled by returning the value the out-slot holds after
 * the call; a null pointer for an optional out-slot is `Option.None`.
 */
module GitSourceControl {
  import opened Wrappers

  // ---------------------------------------------------------------------------
  // The status axes. Each enumeration holds every value the code names, plus
  // at least one value it does not name, standing for the remaining values of
  // the enumeration (TreeState.Unmodified, FileState.Other, RemoteState.Unknown
  // and RemoteState.UpToDate, LockState.Unknown).
  // ---------------------------------------------------------------------------

  /** Working-copy state of the file relative to its tracked baseline. */
  datatype TreeState = Unmodified | Working | Staged | Untracked | Ignored | NotInRepo

  /** The change recorded for the file. */
  datatype FileState = Unknown | Added | Deleted | Modified | Unmerged | Other

  /** The local snapshot relative to the remote head. */
  datatype RemoteState = Unknown | UpToDate | NotAtHead | NotLatest

  /** The exclusive-edit (LFS) lock on the file. */
  datatype LockState = Unknown | NotLocked | Locked | LockedOther | Unlockable

  /** The single prioritised state that the editor presents. */
  datatype GitState =
    | NotAtHead | LockedOther | NotLatest
    | Unmerged | Added | Deleted | Modified
    | Untracked | CheckedOut | Ignored
    | Lockable | Unmodified | None

  /** The four axes together with the holder of another user's lock. */
  datatype FileStatus = FileStatus(
    fileState: FileState,
    treeState: TreeState,
    lockState: LockState,
    remoteState: RemoteState,
    lockUser: string)

  /** One entry of a file's history: commit id, revision number, blob hash. */
  datatype Revision = Revision(revision: string, revisionNumber: int, fileHash: string)

  /** An editor icon: a named brush of the application style, or no icon. */
  datatype Icon = NoIcon | AppStyleIcon(styleName: string)

  /** Localised text: a text key with its format arguments, or the empty text. */
  datatype Text = EmptyText | LocText(key: string, args: seq<string>)

  /** What `IsCheckedOutOther` returns, and what its out-slot holds afterwards. */
  datatype CheckedOutOtherResult = CheckedOutOtherResult(result: bool, who: Option<string>)

  /** What `GetOtherBranchHeadModification` returns, and its three out-references afterwards. */
  datatype HeadModification = HeadModification(
    result: bool, headBranch: string, action: string, headChangeList: int)

  /** True for the file states that the classifier reports as their own UI state. */
  predicate IsChange(f: FileState)
  {
    f == FileState.Unmerged || f == FileState.Added || f == FileState.Deleted || f == FileState.Modified
  }

  /** The status of one file, as the plugin holds it. */
  datatype SourceControlState = SourceControlState(
    status: FileStatus,
    history: seq<Revision>,
    headBranch: string,
    headAction: string,
    headCommit: string,
    pendingMergeBaseFileHash: string)
  {
    // -------------------------------------------------------------------------
    // Basic queries on one axis
    // -------------------------------------------------------------------------

    /** Neither behind the remote head nor modified in another branch. */
    predicate IsCurrent()
      ensures IsCurrent() <==>
        status.remoteState == RemoteState.Unknown || status.remoteState == RemoteState.UpToDate
    {
      status.remoteState != RemoteState.NotAtHead && status.remoteState != RemoteState.NotLatest
    }

    predicate IsSourceControlled()
      ensures IsSourceControlled() <==>
        status.treeState == TreeState.Unmodified || status.treeState == TreeState.Working
        || status.treeState == TreeState.Staged
    {
      status.treeState != TreeState.Untracked && status.treeState != TreeState.Ignored
      && status.treeState != TreeState.NotInRepo
    }

    /** An added file shows as added unless a remote or lock state wins. */
    predicate IsAdded()
      ensures IsAdded() ==> GetGitState() == GitState.Added || !IsCurrent()
                            || status.lockState == LockState.LockedOther
    {
      status.fileState == FileState.Added
    }

    /** A deleted file shows as deleted unless a remote or lock state wins. */
    predicate IsDeleted()
      ensures IsDeleted() ==> GetGitState() == GitState.Deleted || !IsCurrent()
                              || status.lockState == LockState.LockedOther
    {
      status.fileState == FileState.Deleted
    }

    /**
     * An ignored file is not under version control; when nothing above the
     * tree-state rules applies it shows as `None`, never as `Ignored`.
     */
    predicate IsIgnored()
      ensures IsIgnored() ==> !IsSourceControlled()
      ensures IsIgnored() && IsCurrent() && !IsChange(status.fileState)
              && status.lockState != LockState.Locked && status.lockState != LockState.LockedOther
              ==> GetGitState() == GitState.None
    {
      status.treeState == TreeState.Ignored
    }

    /** An unknown file is outside the repository with no recorded change. */
    predicate IsUnknown()
      ensures IsUnknown() ==> !IsSourceControlled() && !IsChange(status.fileState)
      ensures IsUnknown() && IsCurrent()
              && status.lockState != LockState.Locked && status.lockState != LockState.LockedOther
              ==> GetGitState() == GitState.None
    {
      status.fileState == FileState.Unknown && status.treeState == TreeState.NotInRepo
    }

    /** Only files under version control count as modified. */
    predicate IsModified()
      ensures IsModified() ==> IsSourceControlled()
    {
      status.treeState == TreeState.Working || status.treeState == TreeState.Staged
    }

    /** Only untracked files can be added; with nothing above it they show as untracked. */
    predicate CanAdd()
      ensures CanAdd() ==> !IsSourceControlled() && !IsIgnored()
      ensures CanAdd() && IsCurrent() && !IsChange(status.fileState)
              && status.lockState != LockState.LockedOther
              ==> GetGitState() == GitState.Untracked
    {
      status.treeState == TreeState.Untracked
    }

    /** A conflicted file shows as unmerged unless a remote or lock state wins. */
    predicate IsConflicted()
      ensures IsConflicted() ==> GetGitState() == GitState.Unmerged || !IsCurrent()
                                 || status.lockState == LockState.LockedOther
    {
      status.fileState == FileState.Unmerged
    }

    /** Checking out is not tracked per branch. */
    predicate IsCheckedOutInOtherBranch(currentBranch: string)
      ensures !IsCheckedOutInOtherBranch(currentBranch)
    {
      false
    }

    /** The branch argument is ignored: any newer commit on the remote counts. */
    predicate IsModifiedInOtherBranch(currentBranch: string)
      ensures IsModifiedInOtherBranch(currentBranch) ==> !IsCurrent()
    {
      status.remoteState == RemoteState.NotLatest
    }

    // -------------------------------------------------------------------------
    // Capability predicates
    // -------------------------------------------------------------------------

    /** Whether the file may be submitted; the early returns give the priority. */
    function CanCheckIn(): (r: bool)
      // new content can always be submitted, current or not, locked by another or not
      ensures IsAdded() ==> r
      // otherwise stale or conflicted content never can
      ensures !IsAdded() && (!IsCurrent() || IsConflicted()) ==> !r
      // and a lock held by someone else stops it too
      ensures !IsAdded() && status.lockState == LockState.LockedOther ==> !r
      // a current, unconflicted file that this user has locked can be submitted
      ensures IsCurrent() && !IsConflicted() && status.lockState == LockState.Locked ==> r
      // apart from added and locked files, only modified files can be submitted
      ensures r && !IsAdded() && status.lockState != LockState.Locked ==> IsModified()
    {
      if IsAdded() then true
      else if !IsCurrent() || IsConflicted() then false
      else if status.lockState == LockState.Locked then true
      else if status.lockState != LockState.LockedOther && IsModified() && IsSourceControlled() then true
      else false
    }

    /** Whether the editor may take the lock; stale files are refused. */
    function CanCheckout(): (r: bool)
      ensures r ==> status.lockState == LockState.NotLocked && IsCurrent()
      ensures status.lockState == LockState.Unlockable ==> !r
      ensures status.lockState == LockState.NotLocked && IsCurrent() ==> r
    {
      if status.lockState == LockState.Unlockable then false
      else status.lockState == LockState.NotLocked && IsCurrent()
    }

    /** Unlockable files count as checked out once they are under version control. */
    function IsCheckedOut(): (r: bool)
      ensures status.lockState == LockState.Unlockable ==> (r <==> IsSourceControlled())
      ensures status.lockState != LockState.Unlockable ==> (r <==> status.lockState == LockState.Locked)
      ensures r ==> !CanCheckout()
    {
      if status.lockState == LockState.Unlockable then IsSourceControlled()
      else status.lockState == LockState.Locked
    }

    /**
     * Whether another user holds the lock, as the code is written: it answers
     * true only when the caller also supplies an out-slot `who`, into which it
     * then writes the lock holder; otherwise `who` is left as it was.
     */
    function IsCheckedOutOther(who: Option<string>): (r: CheckedOutOtherResult)
      ensures r.result ==> status.lockState == LockState.LockedOther && who.Some?
      ensures status.lockState == LockState.LockedOther && who.Some? ==> r.result
      ensures r.result ==> r.who == Some(status.lockUser)
      ensures !r.result ==> r.who == who
    {
      if status.lockState == LockState.LockedOther && who.Some? then
        CheckedOutOtherResult(true, Some(status.lockUser))
      else
        CheckedOutOtherResult(false, who)
    }

    /**
     * Corrected `IsCheckedOutOther`: the answer depends on the lock alone, and
     * the holder is written only when an out-slot is supplied.
     */
    function IsCheckedOutOtherIntended(who: Option<string>): (r: CheckedOutOtherResult)
      ensures r.result <==> status.lockState == LockState.LockedOther
      ensures r.who == if r.result && who.Some? then Some(status.lockUser) else who
    {
      var held := status.lockState == LockState.LockedOther;
      CheckedOutOtherResult(held, if held && who.Some? then Some(status.lockUser) else who)
    }

    /**
     * The branch and action of the newer remote commit, written into the
     * out-references only when the file is modified in another branch; the
     * change-list number is always written as 0.
     */
    function GetOtherBranchHeadModification(headBranchOut: string, actionOut: string, headChangeListOut: int)
      : (r: HeadModification)
      ensures r.result <==> IsModifiedInOtherBranch("")
      ensures r.result ==> r.headBranch == headBranch && r.action == headAction && r.headChangeList == 0
      ensures !r.result ==>
        r.headBranch == headBranchOut && r.action == actionOut && r.headChangeList == headChangeListOut
    {
      if !IsModifiedInOtherBranch("") then
        HeadModification(false, headBranchOut, actionOut, headChangeListOut)
      else
        HeadModification(true, headBranch, headAction, 0)
    }

    /** Editing needs the lock (or an unlockable tracked file), or new content. */
    function CanEdit(): (r: bool)
      ensures r <==> IsAdded() || status.lockState == LockState.Locked
                     || (status.lockState == LockState.Unlockable && IsSourceControlled())
      ensures r && !IsAdded() ==> !CanCheckout()
    {
      IsCheckedOut() || IsAdded()
    }

    /**
     * Deletion as the code is written. `IsCheckedOutOther` is called without an
     * out-slot, so that test never fires and the lock of another user is not
     * consulted: only currency and version control matter.
     */
    function CanDelete(): (r: bool)
      ensures r ==> IsCurrent() && IsSourceControlled()
      ensures IsCurrent() && IsSourceControlled() ==> r
    {
      if !IsCurrent() then false
      else !IsCheckedOutOther(Option.None).result && IsSourceControlled()
    }

    /** Corrected `CanDelete`: a file locked by another user cannot be deleted. */
    function CanDeleteIntended(): (r: bool)
      ensures r <==> IsCurrent() && IsSourceControlled() && status.lockState != LockState.LockedOther
    {
      if !IsCurrent() then false
      else !IsCheckedOutOtherIntended(Option.None).result && IsSourceControlled()
    }

    /** Reverting is allowed exactly where checking in is. */
    predicate CanRevert()
      ensures IsAdded() ==> CanRevert()
      ensures CanRevert() ==> IsAdded() || (IsCurrent() && !IsConflicted())
    {
      CanCheckIn()
    }

    // -------------------------------------------------------------------------
    // The classifier
    // -------------------------------------------------------------------------

    /**
     * The prioritised state: remote head first, then another user's lock, then
     * a newer remote commit, then the recorded change, then untracked, then
     * this user's lock, then lockable or unmodified for tracked files.
     */
    function GetGitState(): (r: GitState)
      // a file behind the remote head shows as such whatever else holds
      ensures r == GitState.NotAtHead <==> status.remoteState == RemoteState.NotAtHead
      // another user's lock comes next, ahead of a newer commit and every change
      ensures status.remoteState != RemoteState.NotAtHead && status.lockState == LockState.LockedOther
              ==> r == GitState.LockedOther
      ensures r == GitState.LockedOther ==> status.lockState == LockState.LockedOther
      // a newer remote commit beats every recorded change
      ensures status.remoteState == RemoteState.NotLatest && status.lockState != LockState.LockedOther
              ==> r == GitState.NotLatest
      ensures r == GitState.NotLatest ==> status.remoteState == RemoteState.NotLatest
      // below those, a recorded change shows as itself
      ensures IsCurrent() && status.lockState != LockState.LockedOther ==>
        (status.fileState == FileState.Unmerged ==> r == GitState.Unmerged)
        && (status.fileState == FileState.Added ==> r == GitState.Added)
        && (status.fileState == FileState.Deleted ==> r == GitState.Deleted)
        && (status.fileState == FileState.Modified ==> r == GitState.Modified)
      // untracked and checked-out only when nothing above applies
      ensures r == GitState.Untracked ==>
        IsCurrent() && !IsChange(status.fileState) && status.treeState == TreeState.Untracked
      ensures r == GitState.CheckedOut ==>
        IsCurrent() && !IsChange(status.fileState) && status.treeState != TreeState.Untracked
        && status.lockState == LockState.Locked
      // the classifier never reports a file as ignored
      ensures r != GitState.Ignored
      // the last rules: lockable, unmodified, none
      ensures r == GitState.Lockable ==> IsSourceControlled() && CanCheckout()
      ensures r == GitState.Unmodified ==> IsSourceControlled() && !CanCheckout()
      ensures r == GitState.None ==> !IsSourceControlled()
      ensures IsCurrent() && !IsChange(status.fileState) && status.treeState != TreeState.Untracked
              && status.lockState != LockState.Locked && status.lockState != LockState.LockedOther
              ==> r == (if !IsSourceControlled() then GitState.None
                        else if CanCheckout() then GitState.Lockable
                        else GitState.Unmodified)
    {
      if status.remoteState == RemoteState.NotAtHead then GitState.NotAtHead
      else if status.lockState == LockState.LockedOther then GitState.LockedOther
      else if status.remoteState == RemoteState.NotLatest then GitState.NotLatest
      else match status.fileState
        case Unmerged => GitState.Unmerged
        case Added => GitState.Added
        case Deleted => GitState.Deleted
        case Modified => GitState.Modified
        case _ =>
          if status.treeState == TreeState.Untracked then GitState.Untracked
          else if status.lockState == LockState.Locked then GitState.CheckedOut
          else if IsSourceControlled() then
            if CanCheckout() then GitState.Lockable else GitState.Unmodified
          else GitState.None
    }

    // -------------------------------------------------------------------------
    // Presentation, keyed on the classifier's state
    // -------------------------------------------------------------------------

    function GetIcon(): (r: Icon)
      ensures r == IconFor(GetGitState())
      ensures r == NoIcon <==>
        GetGitState() == GitState.Lockable || GetGitState() == GitState.Unmodified || GetGitState() == GitState.None
    {
      IconFor(GetGitState())
    }

    /** The label; its arguments are the lock holder or the other branch's name. */
    function GetDisplayName(): (r: Text)
      ensures r == EmptyText <==> GetGitState() == GitState.Unmodified
      ensures GetGitState() == GitState.LockedOther ==> r == LocText("CheckedOutOther", [status.lockUser])
      ensures GetGitState() == GitState.NotLatest ==> r == LocText("ModifiedOtherBranch", [headBranch])
      ensures r.LocText? && |r.args| > 0 ==>
        GetGitState() == GitState.LockedOther || GetGitState() == GitState.NotLatest
    {
      match GetGitState()
      case NotAtHead => LocText("NotCurrent", [])
      case LockedOther => LocText("CheckedOutOther", [status.lockUser])
      case NotLatest => LocText("ModifiedOtherBranch", [headBranch])
      case Unmerged => LocText("Conflicted", [])
      case Added => LocText("OpenedForAdd", [])
      case Untracked => LocText("NotInDepot", [])
      case Deleted => LocText("MarkedForDelete", [])
      case Modified => LocText("CheckedOut", [])
      case CheckedOut => LocText("CheckedOut", [])
      case Ignored => LocText("Ignore", [])
      case Lockable => LocText("ReadOnly", [])
      case None => LocText("Unknown", [])
      case _ => EmptyText
    }

    /** The tooltip; for a newer remote commit it names branch, commit and action. */
    function GetDisplayTooltip(): (r: Text)
      ensures r == EmptyText <==> GetGitState() == GitState.Unmodified
      ensures GetGitState() == GitState.LockedOther ==> r == LocText("CheckedOutOther_Tooltip", [status.lockUser])
      ensures GetGitState() == GitState.NotLatest ==>
        r == LocText("ModifiedOtherBranch_Tooltip", [headBranch, headCommit, headAction])
      ensures r.LocText? && |r.args| > 0 ==>
        GetGitState() == GitState.LockedOther || GetGitState() == GitState.NotLatest
    {
      match GetGitState()
      case NotAtHead => LocText("NotCurrent_Tooltip", [])
      case LockedOther => LocText("CheckedOutOther_Tooltip", [status.lockUser])
      case NotLatest => LocText("ModifiedOtherBranch_Tooltip", [headBranch, headCommit, headAction])
      case Unmerged => LocText("ContentsConflict_Tooltip", [])
      case Added => LocText("OpenedForAdd_Tooltip", [])
      case Untracked => LocText("NotControlled_Tooltip", [])
      case Deleted => LocText("MarkedForDelete_Tooltip", [])
      case Modified => LocText("CheckedOut_Tooltip", [])
      case CheckedOut => LocText("CheckedOut_Tooltip", [])
      case Ignored => LocText("Ignored_Tooltip", [])
      case Lockable => LocText("ReadOnly_Tooltip", [])
      case None => LocText("Unknown_Tooltip", [])
      case _ => EmptyText
    }

    // -------------------------------------------------------------------------
    // History
    // -------------------------------------------------------------------------

    function GetHistorySize(): (r: nat)
      ensures r == |history|
    {
      |history|
    }

    /** Positional access; an index outside the history is a caller's error. */
    function GetHistoryItem(historyIndex: int): (r: Revision)
      requires 0 <= historyIndex < GetHistorySize()
      ensures r == history[historyIndex]
    {
      history[historyIndex]
    }

    /** The earliest entry with the given revision number, if any. */
    method FindHistoryRevisionByNumber(revisionNumber: int) returns (r: Option<Revision>)
      ensures r.None? <==>
        forall k :: 0 <= k < GetHistorySize() ==> GetHistoryItem(k).revisionNumber != revisionNumber
      ensures r.Some? ==> exists k :: (0 <= k < GetHistorySize() && r.value == GetHistoryItem(k)
        && r.value.revisionNumber == revisionNumber
        && forall j :: 0 <= j < k ==> GetHistoryItem(j).revisionNumber != revisionNumber)
    {
      var i := 0;
      while i < GetHistorySize()
        invariant 0 <= i <= GetHistorySize()
        invariant forall j :: 0 <= j < i ==> GetHistoryItem(j).revisionNumber != revisionNumber
      {
        if GetHistoryItem(i).revisionNumber == revisionNumber {
          return Some(GetHistoryItem(i));
        }
        i := i + 1;
      }
      return Option.None;
    }

    /** The earliest entry whose revision (commit id) equals the given one, ignoring case. */
    method FindHistoryRevision(inRevision: string) returns (r: Option<Revision>)
      ensures r.None? <==>
        forall k :: 0 <= k < GetHistorySize() ==> !EqualsIgnoreCase(GetHistoryItem(k).revision, inRevision)
      ensures r.Some? ==> exists k :: (0 <= k < GetHistorySize() && r.value == GetHistoryItem(k)
        && EqualsIgnoreCase(r.value.revision, inRevision)
        && forall j :: 0 <= j < k ==> !EqualsIgnoreCase(GetHistoryItem(j).revision, inRevision))
    {
      var i := 0;
      while i < GetHistorySize()
        invariant 0 <= i <= GetHistorySize()
        invariant forall j :: 0 <= j < i ==> !EqualsIgnoreCase(GetHistoryItem(j).revision, inRevision)
      {
        if EqualsIgnoreCase(GetHistoryItem(i).revision, inRevision) {
          return Some(GetHistoryItem(i));
        }
        i := i + 1;
      }
      return Option.None;
    }

    /** The earliest entry whose blob hash equals the pending merge base's, ignoring case. */
    method GetBaseRevForMerge() returns (r: Option<Revision>)
      ensures r.None? <==>
        forall k :: 0 <= k < GetHistorySize() ==> !EqualsIgnoreCase(GetHistoryItem(k).fileHash, pendingMergeBaseFileHash)
      ensures r.Some? ==> exists k :: (0 <= k < GetHistorySize() && r.value == GetHistoryItem(k)
        && EqualsIgnoreCase(r.value.fileHash, pendingMergeBaseFileHash)
        && forall j :: 0 <= j < k ==> !EqualsIgnoreCase(GetHistoryItem(j).fileHash, pendingMergeBaseFileHash))
    {
      var i := 0;
      while i < GetHistorySize()
        invariant 0 <= i <= GetHistorySize()
        invariant forall j :: 0 <= j < i ==> !EqualsIgnoreCase(GetHistoryItem(j).fileHash, pendingMergeBaseFileHash)
      {
        if EqualsIgnoreCase(GetHistoryItem(i).fileHash, pendingMergeBaseFileHash) {
          return Some(GetHistoryItem(i));
        }
        i := i + 1;
      }
      return Option.None;
    }
  }

  /** ASCII letter lowering, the case folding of the engine's string comparison. */
  function ToLowerAscii(c: char): char
  {
    if 'A' <= c <= 'Z' then (c as int + ('a' as int - 'A' as int)) as char else c
  }

  /** The engine's string equality, which ignores letter case. */
  predicate EqualsIgnoreCase(a: string, b: string)
  {
    |a| == |b| && forall i :: 0 <= i < |a| ==> ToLowerAscii(a[i]) == ToLowerAscii(b[i])
  }

  /** The editor brush for each state; unlisted states have no icon. */
  function IconFor(g: GitState): (r: Icon)
    ensures r == NoIcon <==> g == GitState.Lockable || g == GitState.Unmodified || g == GitState.None
  {
    match g
    case NotAtHead => AppStyleIcon("Perforce.NotAtHeadRevision")
    case LockedOther => AppStyleIcon("Perforce.CheckedOutByOtherUser")
    case NotLatest => AppStyleIcon("Perforce.ModifiedOtherBranch")
    case Unmerged => AppStyleIcon("Perforce.Branched")
    case Added => AppStyleIcon("Perforce.OpenForAdd")
    case Untracked => AppStyleIcon("Perforce.NotInDepot")
    case Deleted => AppStyleIcon("Perforce.MarkedForDelete")
    case Modified => AppStyleIcon("Perforce.CheckedOut")
    case CheckedOut => AppStyleIcon("Perforce.CheckedOut")
    case Ignored => AppStyleIcon("Perforce.NotInDepot")
    case _ => NoIcon
  }
}
