/** The dashboard of src/components/Dashboard.tsx: the fetched files sorted newest first in
    place, the choice between the file grid, loading skeletons and the empty state, and the
    id of the file being deleted. Dates are their millisecond timestamps. */
module Dashboard {
  import opened Wrappers

  datatype UserFile = UserFile(id: string, name: string, createdAt: int)

  /** Non-increasing `createdAt`: newest first. */
  ghost predicate NewestFirst(s: seq<UserFile>) {
    forall k, l :: 0 <= k < l < |s| ==> s[k].createdAt >= s[l].createdAt
  }

  /** `files.sort((a, b) => b.createdAt - a.createdAt)`, which reorders the fetched array
      itself; an insertion sort stands for the engine's algorithm. */
  method SortNewestFirst(files: array<UserFile>)
    modifies files
    ensures NewestFirst(files[..])
    ensures multiset(files[..]) == multiset(old(files[..]))
  {
    for i := 0 to files.Length
      invariant NewestFirst(files[..i])
      invariant multiset(files[..]) == multiset(old(files[..]))
    {
      Insert(files, i);
    }
    assert files[..files.Length] == files[..];
  }

  /** Sinks `files[i]` into the sorted prefix `files[..i]`. */
  method Insert(files: array<UserFile>, i: nat)
    requires i < files.Length && NewestFirst(files[..i])
    modifies files
    ensures NewestFirst(files[..i + 1])
    ensures multiset(files[..]) == multiset(old(files[..]))
  {
    var j := i;
    SinkStart(files[..], i);
    while j > 0 && files[j - 1].createdAt < files[j].createdAt
      invariant 0 <= j <= i < files.Length
      invariant multiset(files[..]) == multiset(old(files[..]))
      invariant Sinking(files[..], i, j)
    {
      ghost var s := files[..];
      files[j - 1], files[j] := files[j], files[j - 1];
      assert files[..] == Swap(s, j);
      SinkStep(s, i, j);
      j := j - 1;
    }
    SinkEnd(files[..], i, j);
  }

  function Swap<T>(s: seq<T>, j: nat): (r: seq<T>)
    requires 0 < j < |s|
    ensures |r| == |s| && r[j - 1] == s[j] && r[j] == s[j - 1]
    ensures forall k :: 0 <= k < |s| && k != j - 1 && k != j ==> r[k] == s[k]
    ensures multiset(r) == multiset(s)
  {
    s[j - 1 := s[j]][j := s[j - 1]]
  }

  /** While `s[i]`'s original value sinks to position `j`, `s[..i + 1]` is newest first
      except around `j`, and the neighbours of `j` are in order with each other. */
  ghost predicate Sinking(s: seq<UserFile>, i: nat, j: nat)
    requires j <= i < |s|
  {
    && (forall k, l :: 0 <= k < l <= i && l != j ==> s[k].createdAt >= s[l].createdAt)
    && (0 < j < i ==> s[j - 1].createdAt >= s[j + 1].createdAt)
  }

  lemma SinkStart(s: seq<UserFile>, i: nat)
    requires i < |s| && NewestFirst(s[..i])
    ensures Sinking(s, i, i)
  {
    assert forall k, l :: 0 <= k < l < i ==> s[..i][k] == s[k] && s[..i][l] == s[l];
  }

  lemma SinkStep(s: seq<UserFile>, i: nat, j: nat)
    requires 0 < j <= i < |s| && Sinking(s, i, j)
    requires s[j - 1].createdAt < s[j].createdAt
    ensures Sinking(Swap(s, j), i, j - 1)
  {
  }

  lemma SinkEnd(s: seq<UserFile>, i: nat, j: nat)
    requires j <= i < |s| && Sinking(s, i, j)
    requires j == 0 || s[j - 1].createdAt >= s[j].createdAt
    ensures NewestFirst(s[..i + 1])
  {
  }

  datatype View = FileGrid | Skeletons(count: nat) | EmptyState

  /** The three-way choice of the page body: a defined, non-empty list shows the grid;
      otherwise six skeletons while the query loads; otherwise the empty state. */
  function Body(files: Option<seq<UserFile>>, isLoading: bool): (v: View)
    ensures v.FileGrid? <==> files.Some? && |files.value| != 0
    ensures v.Skeletons? <==> (files.None? || |files.value| == 0) && isLoading
    ensures v.Skeletons? ==> v.count == 6
  {
    if files.Some? && |files.value| != 0 then FileGrid
    else if isLoading then Skeletons(6)
    else EmptyState
  }

  /** The list wins over the loading flag, and an empty list is shown as empty only once
      loading is over. */
  lemma BodyPrecedence(files: seq<UserFile>, isLoading: bool)
    ensures |files| > 0 ==> Body(Some(files), isLoading) == FileGrid
    ensures Body(Some([]), true) == Body(None, true) == Skeletons(6)
    ensures Body(Some([]), false) == Body(None, false) == EmptyState
  {
  }

  /** The `currentlyDeletingFile` state and the invalidations of the file list. */
  class DeleteTracker {
    var currentlyDeletingFile: Option<string>
    var invalidations: nat

    constructor ()
      ensures currentlyDeletingFile.None? && invalidations == 0
    {
      currentlyDeletingFile, invalidations := None, 0;
    }

    /** `onMutate`: remember which file is being deleted. */
    method OnMutate(id: string)
      modifies this
      ensures currentlyDeletingFile == Some(id) && invalidations == old(invalidations)
    {
      currentlyDeletingFile := Some(id);
    }

    /** `onSuccess`: refetch the file list. */
    method OnSuccess()
      modifies this
      ensures invalidations == old(invalidations) + 1
      ensures currentlyDeletingFile == old(currentlyDeletingFile)
    {
      invalidations := invalidations + 1;
    }

    /** `onSettled`: nothing is being deleted any more. */
    method OnSettled()
      modifies this
      ensures currentlyDeletingFile.None? && invalidations == old(invalidations)
    {
      currentlyDeletingFile := None;
    }

    /** One `deleteFile({id})` call: mutate, then success or failure, then settle. The id is
        marked while the request is in flight and cleared either way; only a success
        invalidates the list. */
    method DeleteFile(id: string, succeeded: bool) returns (inFlight: Option<string>)
      modifies this
      ensures inFlight == Some(id)
      ensures currentlyDeletingFile.None?
      ensures invalidations == old(invalidations) + (if succeeded then 1 else 0)
    {
      OnMutate(id);
      inFlight := currentlyDeletingFile;
      if succeeded {
        OnSuccess();
      }
      OnSettled();
    }
  }
}
