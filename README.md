# Git file status of the editor source-control plugin

This project models the per-file status object of the Git source-control
plugin for the editor (`FGitSourceControlState`). It does no I/O of its own. A
file's status is four independent axes: tree state, file state, remote state
and lock state, plus the user holding the lock. From them the object derives:

- `GetGitState`: one prioritised state that the editor shows, chosen by a
  first-match cascade. The order is: behind the remote head; locked by another
  user; modified in another branch; the recorded change (conflicted, added,
  deleted, modified); untracked; checked out; then lockable or unmodified for
  tracked files; otherwise none.
- The capability predicates that enable or disable editor commands: check in,
  check out, edit, delete, revert and add.
- The icon, label and tooltip for each prioritised state.
- Three first-match lookups in the file's history: by revision number, by
  revision (commit id), and by the blob hash of the pending merge base. The
  two string lookups compare with the engine's string equality, which ignores
  letter case.

Files:

- `Wrappers.dfy`: the `Option` type. It stands for a pointer that may be null.
- `GitSourceControlState.dfy`: module `GitSourceControl`. It holds the status
  axes as datatypes and the status object as the datatype `SourceControlState`.
  The status queries of the plugin's C++ class are members of that datatype
  (the field getters listed under "Left out" are not). The history lookups are
  methods with loops, as in the plugin's C++ code.
- `GitSourceControlProperties.dfy`: module `GitSourceControlProperties`. It
  holds lemmas that relate several queries, and worked cases on concrete
  statuses. One of them, the method `HistoryLookupCase`, runs the history
  lookups on a three-entry history.

Modelling choices:

- The enumerations are declared in a header that is not part of this model.
  Each one has every value the code names, plus at least one value the code
  does not name, standing for the enumeration's remaining values:
  `TreeState.Unmodified`, `FileState.Other`, `RemoteState.Unknown` and
  `RemoteState.UpToDate`, and `LockState.Unknown`. The remote and file-state
  values reach the `default:` branches of `GetGitState` (lines 331 and 358).
- Out-parameters are modelled by returning the value the out-slot holds after
  the call. `IsCheckedOutOther(FString* Who)` takes an `Option<string>`: `None`
  is a null pointer, and `Some(v)` is a pointer to a string holding `v`.
  `GetOtherBranchHeadModification` takes the incoming values of its three
  reference parameters and returns their values afterwards.
- Default arguments from the header are written out. `CanDelete` calls
  `IsCheckedOutOther` with a null `Who`. `GetOtherBranchHeadModification`
  calls `IsModifiedInOtherBranch` with an empty branch name.
- `GetHistorySize` and `GetHistoryItem` are the positional accessors.
  `GetHistoryItem`'s `check` becomes the precondition
  `0 <= historyIndex < GetHistorySize()`. The three lookups' contracts are
  stated through these two accessors.
- Icons are the name of the application-style brush (`NoIcon` for the empty
  `FSlateIcon()`). Texts are the localisation key plus the format arguments
  (`EmptyText` for `FText()`).
- String equality (`FString ==`, lines 39 and 53) ignores case in the engine.
  It is modelled as `EqualsIgnoreCase`: equal length, and equal characters
  once ASCII letters are lowered.
- The comment at line 293 says that a file another user has checked out
  cannot be deleted. Line 222 defeats that when `Who` is null, which it is in
  the call at line 294. The model keeps the code as written and adds the
  corrected form (see Findings).

## Model

| member | source | states |
|---|---|---|
| `GitSourceControl.SourceControlState.GetGitState` | Source/GitSourceControl/Private/GitSourceControlState.cpp:324-382 | Behind the remote head wins over every other axis, in both directions. Next comes another user's lock, then a newer remote commit; both beat every recorded change. A recorded change beats untracked and checked out. The result is never `Ignored`. `Lockable` needs a tracked file that can be checked out, `Unmodified` a tracked file that cannot, and `None` a file not under version control. |
| `GitSourceControl.SourceControlState.CanCheckIn` | Source/GitSourceControl/Private/GitSourceControlState.cpp:165-192 | Every added file can be checked in, even a stale one or one locked by another user. Otherwise a stale, conflicted or otherwise-locked file cannot. A current, unconflicted file locked by this user can. Apart from added and locked files, only modified files can. |
| `GitSourceControl.SourceControlState.CanCheckout` | Source/GitSourceControl/Private/GitSourceControlState.cpp:194-206 | Checkout is allowed exactly when the file is not locked and is current. It is never allowed for unlockable files. |
| `GitSourceControl.SourceControlState.IsCheckedOut` | Source/GitSourceControl/Private/GitSourceControlState.cpp:208-218 | For unlockable files it equals being under version control. Otherwise it equals being locked by this user. A checked-out file can never be checked out again. |
| `GitSourceControl.SourceControlState.IsCheckedOutOther` | Source/GitSourceControl/Private/GitSourceControlState.cpp:220-228 | Answers true exactly when another user holds the lock and an out-slot is supplied. Then it writes the lock holder into the slot; otherwise it leaves the slot unchanged. |
| `GitSourceControl.SourceControlState.IsCheckedOutOtherIntended` | Source/GitSourceControl/Private/GitSourceControlState.cpp:220-228 | Corrected: answers true exactly when another user holds the lock. It writes the holder only into a supplied slot. |
| `GitSourceControl.SourceControlState.IsModifiedInOtherBranch` | Source/GitSourceControl/Private/GitSourceControlState.cpp:236-239 | Whatever branch is named, a file modified in another branch is not current. |
| `GitSourceControl.SourceControlState.GetOtherBranchHeadModification` | Source/GitSourceControl/Private/GitSourceControlState.cpp:241-252 | Answers true exactly when the file is modified in another branch. Then the outputs are head branch, head action and change list 0. Otherwise all three out-references keep their incoming values. |
| `GitSourceControl.SourceControlState.CanEdit` | Source/GitSourceControl/Private/GitSourceControlState.cpp:280-284 | Editing is allowed exactly for added files, files locked by this user, and tracked unlockable files. An editable file that is not newly added cannot be checked out. |
| `GitSourceControl.SourceControlState.CanDelete` | Source/GitSourceControl/Private/GitSourceControlState.cpp:286-295 | As written, deletion is allowed exactly for current tracked files. Another user's lock is not consulted. |
| `GitSourceControl.SourceControlState.CanDeleteIntended` | Source/GitSourceControl/Private/GitSourceControlState.cpp:286-295 | Corrected: deletion is allowed exactly for current tracked files that no other user has locked. |
| `GitSourceControl.SourceControlState.GetIcon` | Source/GitSourceControl/Private/GitSourceControlState.cpp:62-88 | The icon is the table entry for the prioritised state. There is no icon exactly for `Lockable`, `Unmodified` and `None`. |
| `GitSourceControl.IconFor` | Source/GitSourceControl/Private/GitSourceControlState.cpp:62-88 | The per-state icon table. It falls to the empty icon exactly for `Lockable`, `Unmodified` and `None`. |
| `GitSourceControl.SourceControlState.GetDisplayName` | Source/GitSourceControl/Private/GitSourceControlState.cpp:90-120 | The label is empty exactly for `Unmodified`. For another user's lock it carries the lock holder, and for a newer remote commit it carries the head branch. No other label has format arguments. |
| `GitSourceControl.SourceControlState.GetDisplayTooltip` | Source/GitSourceControl/Private/GitSourceControlState.cpp:122-152 | The tooltip is empty exactly for `Unmodified`. For another user's lock it carries the lock holder. For a newer remote commit it carries the head branch, head commit and head action, in that order. No other tooltip has format arguments. |
| `GitSourceControl.SourceControlState.FindHistoryRevisionByNumber` | Source/GitSourceControl/Private/GitSourceControlState.cpp:22-33 | Returns the entry with the given revision number that has the lowest index. Returns nothing exactly when no entry has that number. |
| `GitSourceControl.SourceControlState.FindHistoryRevision` | Source/GitSourceControl/Private/GitSourceControlState.cpp:35-46 | Returns the lowest-index entry whose revision (commit id) equals the given one, ignoring case. Returns nothing exactly when no entry matches. |
| `GitSourceControl.SourceControlState.GetBaseRevForMerge` | Source/GitSourceControl/Private/GitSourceControlState.cpp:48-60 | Returns the lowest-index entry whose blob hash equals the pending merge base's hash, ignoring case. Returns nothing exactly when no entry matches. |
| `GitSourceControl.SourceControlState.IsCurrent` | Source/GitSourceControl/Private/GitSourceControlState.cpp:254-257 | A file is current exactly when its remote state is neither behind the head nor modified in another branch, that is, unknown or up to date. |
| `GitSourceControl.SourceControlState.IsSourceControlled` | Source/GitSourceControl/Private/GitSourceControlState.cpp:259-262 | A file is under version control exactly when its tree state is unmodified, working or staged. |
| `GitSourceControl.SourceControlState.IsAdded` | Source/GitSourceControl/Private/GitSourceControlState.cpp:264-268 | An added file shows as added unless it is stale or another user holds the lock. |
| `GitSourceControl.SourceControlState.IsDeleted` | Source/GitSourceControl/Private/GitSourceControlState.cpp:270-273 | A deleted file shows as deleted unless it is stale or another user holds the lock. |
| `GitSourceControl.SourceControlState.IsIgnored` | Source/GitSourceControl/Private/GitSourceControlState.cpp:275-278 | An ignored file is not under version control. When it is current, unchanged and not locked, it shows as `None`, never as `Ignored`. |
| `GitSourceControl.SourceControlState.IsUnknown` | Source/GitSourceControl/Private/GitSourceControlState.cpp:297-300 | An unknown file is not under version control and has no recorded change. When it is current and not locked, it shows as `None`. |
| `GitSourceControl.SourceControlState.IsModified` | Source/GitSourceControl/Private/GitSourceControlState.cpp:302-306 | Only files under version control are modified. |
| `GitSourceControl.SourceControlState.CanAdd` | Source/GitSourceControl/Private/GitSourceControlState.cpp:309-312 | Only untracked files can be added; they are neither tracked nor ignored. When current, unchanged and not locked by another user, they show as untracked. |
| `GitSourceControl.SourceControlState.IsConflicted` | Source/GitSourceControl/Private/GitSourceControlState.cpp:314-317 | A conflicted file shows as unmerged unless it is stale or another user holds the lock. |
| `GitSourceControl.SourceControlState.IsCheckedOutInOtherBranch` | Source/GitSourceControl/Private/GitSourceControlState.cpp:230-234 | A file is never checked out in another branch, whatever branch is named. |
| `GitSourceControl.SourceControlState.CanRevert` | Source/GitSourceControl/Private/GitSourceControlState.cpp:319-322 | Every added file can be reverted. Otherwise only current, unconflicted files can (see `RevertMatchesCheckIn` for the identity with check-in). |
| `GitSourceControl.SourceControlState.GetHistorySize` | Source/GitSourceControl/Private/GitSourceControlState.cpp:11-14 | The number of history entries. |
| `GitSourceControl.SourceControlState.GetHistoryItem` | Source/GitSourceControl/Private/GitSourceControlState.cpp:16-20 | Requires an index inside the history, as the `check` does, and returns the entry at that position. |
| `GitSourceControlProperties.IgnoreCaseEquivalence` | Source/GitSourceControl/Private/GitSourceControlState.cpp:35-60 | The string comparison of the lookups is an equivalence that extends equality and only matches strings of equal length. |
| `GitSourceControlProperties.IgnoreCaseCases` | Source/GitSourceControl/Private/GitSourceControlState.cpp:35-60 | `"abc123"` matches `"ABC123"` and `"h1"` matches `"H1"`, so the lookups find mixed-case ids and hashes. `"h1"` does not match `"h2"`. |
| `GitSourceControlProperties.TreeStateQueries` | Source/GitSourceControl/Private/GitSourceControlState.cpp:259-312 | Modified files are tracked. A file is not under version control exactly when it can be added, is ignored, or is outside the repository. Addable and ignored exclude each other. An unknown file is not under version control and has no added, deleted or conflicted change. |
| `GitSourceControlProperties.ClassifierUpperRules` | Source/GitSourceControl/Private/GitSourceControlState.cpp:324-360 | The exact conditions, in both directions, for `NotAtHead`, `LockedOther`, `NotLatest` and each of the four recorded-change states. |
| `GitSourceControlProperties.ClassifierLowerRules` | Source/GitSourceControl/Private/GitSourceControlState.cpp:362-381 | The exact conditions for `Untracked`, `CheckedOut`, `Lockable`, `Unmodified` and `None`. A current, unchanged, tracked file is `Lockable` exactly when not locked. It is `Unmodified` exactly when its lock state is unknown or unlockable. |
| `GitSourceControlProperties.CurrencyAndClassifier` | Source/GitSourceControl/Private/GitSourceControlState.cpp:254-257 | A stale file shows as `NotAtHead`, `LockedOther` or `NotLatest`. `NotAtHead` and `NotLatest` are shown only for stale files. |
| `GitSourceControlProperties.ClassifierAndCapabilities` | Source/GitSourceControl/Private/GitSourceControlState.cpp:324-382 | What each shown state allows. `Lockable` can be checked out but not edited. `CheckedOut` can be edited and checked in. `Added` can be checked in and reverted. `Unmerged` can do neither. The stale and other-locked states allow check-in only for added files. `Untracked` can be added but not deleted. An unlocked `None` file (not under version control) passes `CanCheckout`. |
| `GitSourceControlProperties.RevertMatchesCheckIn` | Source/GitSourceControl/Private/GitSourceControlState.cpp:319-322 | Revert eligibility equals check-in eligibility on every input. |
| `GitSourceControlProperties.CanCheckInClosedForm` | Source/GitSourceControl/Private/GitSourceControlState.cpp:165-192 | Check-in in closed form. The source-control test of the fourth rule is implied by the modified test. |
| `GitSourceControlProperties.CheckedOutOtherWithoutSlot` | Source/GitSourceControl/Private/GitSourceControlState.cpp:220-228 | Called without an out-slot, the lock query as written is false on every input. |
| `GitSourceControlProperties.CheckedOutOtherAgreesWithSlot` | Source/GitSourceControl/Private/GitSourceControlState.cpp:220-228 | When an out-slot is supplied, the written and corrected lock queries agree. |
| `GitSourceControlProperties.CanDeleteAgainstIntended` | Source/GitSourceControl/Private/GitSourceControlState.cpp:286-295 | The corrected deletion check implies the written one. They differ exactly on deletable files that another user has locked. |
| `GitSourceControlProperties.CanDeleteLockedByOther` | Source/GitSourceControl/Private/GitSourceControlState.cpp:286-295 | A current, tracked file locked by another user: the written check allows deleting it, the corrected check does not. |
| `GitSourceControlProperties.IconsShared` | Source/GitSourceControl/Private/GitSourceControlState.cpp:62-88 | Two distinct states share a non-empty icon only if they are modified and checked out, or untracked and ignored. |
| `GitSourceControlProperties.TextsShared` | Source/GitSourceControl/Private/GitSourceControlState.cpp:90-152 | Modified and checked-out states share label and tooltip. A non-empty label or tooltip is shared by no other pair of states. |
| `GitSourceControlProperties.IgnoredTextsUnreachable` | Source/GitSourceControl/Private/GitSourceControlState.cpp:90-152 | The label and tooltip written for the ignored state are never shown. |
| `GitSourceControlProperties.UntrackedFileCase` | Source/GitSourceControl/Private/GitSourceControlState.cpp:362-365 | An untracked, unlocked, current file shows as untracked. It can be added and cannot be checked in. |
| `GitSourceControlProperties.StagedLockedFileCase` | Source/GitSourceControl/Private/GitSourceControlState.cpp:348-357 | A staged modification of a locked file shows as modified, not checked out, and can be checked in. |
| `GitSourceControlProperties.LockedByOtherCase` | Source/GitSourceControl/Private/GitSourceControlState.cpp:335-340 | A file locked by "alice" shows as locked by another user. With an out-slot the lock query answers true and yields "alice", and the label carries her name. |

## Left out

- `GetFilename` and `GetTimeStamp` are plain field getters. The time stamp is an engine date type.
- `GetIcon` looks brushes up in the application style registry. That belongs to the editor's UI, so the model keeps only the brush name.
- `GetDisplayName`, `GetDisplayTooltip`: the English wording of the localised texts and the string interpolation of `FText::Format` are not modelled. Only the text keys and the format arguments are.
- Shared-pointer ownership of revision objects is not modelled. History is a sequence of value records holding revision, revision number and blob hash. The revision objects' other fields are not modelled.
- `FindHistoryRevision`, `GetBaseRevForMerge`: case folding covers ASCII letters only, which is what the engine's case-insensitive comparison folds.
- `GetHistorySize` returns a `nat` rather than a 32-bit count. Revision numbers are unbounded integers. The code only compares them for equality.
- How the status is filled in (parsing Git and LFS output) is not part of this file, and not part of this model.
- The header that declares the enumerations and default arguments is not part of this model. Enumeration values and defaults are those the code uses.

## Findings

| source | as written | input that shows it | evidently intended | confidence | as-written member | corrected member |
|---|---|---|---|---|---|---|
| Source/GitSourceControl/Private/GitSourceControlState.cpp:220-228 | `IsCheckedOutOther` answers true only when `Who` is non-null. `CanDelete` (line 294) calls it without an argument, so its default null `Who` makes the test always false. Deletion then ignores another user's lock, although the comment at line 293 says it should not. | Lock `LockedOther`, remote `UpToDate`, tree `Unmodified`: `CanDelete()` is true. | Whether another user holds the lock depends on the lock alone, and `Who` is only an optional output. Deletion is refused for files another user has locked. | medium; not executed | `GitSourceControl.SourceControlState.CanDelete`, shown by `GitSourceControlProperties.CanDeleteLockedByOther` and `GitSourceControlProperties.CheckedOutOtherWithoutSlot` | `GitSourceControl.SourceControlState.CanDeleteIntended` via `GitSourceControl.SourceControlState.IsCheckedOutOtherIntended`, proved in `GitSourceControlProperties.CanDeleteAgainstIntended` |
