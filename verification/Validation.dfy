/** The receiver's checks on an offer header, on each manifest frame, and on the
    complete manifest. */
module Validation {
  import opened Names
  import opened Manifest

  datatype Header = Header(rootCount: int, fileCount: int, folderCount: int, totalBytes: Int64)

  predicate HeaderAcceptable(h: Header) {
    && 1 <= h.rootCount <= MAX_MANIFEST_ENTRIES
    && 0 <= h.fileCount
    && 0 <= h.folderCount
    && 1 <= h.fileCount + h.folderCount <= MAX_MANIFEST_ENTRIES
    && 0 <= h.totalBytes
  }

  /** Sixteen bytes in hexadecimal, and no offer under way has them. */
  predicate AcceptableIdentifier(id: string, pending: set<string>) {
    |id| == 32 && (forall i | 0 <= i < 32 :: IsHex(id[i])) && id !in pending
  }

  predicate EntryAcceptable(e: Entry) {
    && ValidManifestPath(e.path)
    && 0 <= e.size
    && (e.kind == FolderKind ==> e.size == 0 && e.digest == "")
    && (e.kind == FileKind ==> IsHexDigest(e.digest))
  }

  predicate OmissionAcceptable(o: Omission) {
    ValidManifestPath(o.path) && 0 < |o.reason| <= MAX_OMISSION_REASON
  }

  // ---- what a complete manifest must be ----

  function CountKind(kind: Kind, entries: seq<Entry>): nat {
    if entries == [] then 0
    else CountKind(kind, entries[..|entries| - 1]) + (if entries[|entries| - 1].kind == kind then 1 else 0)
  }

  /** Bytes of the files only. */
  function TotalSize(entries: seq<Entry>): int {
    if entries == [] then 0
    else
      var last := entries[|entries| - 1];
      TotalSize(entries[..|entries| - 1]) + (if last.kind == FileKind then last.size else 0)
  }

  /** The single-component paths, in manifest order. */
  function Roots(entries: seq<Entry>): seq<string> {
    if entries == [] then []
    else
      var last := entries[|entries| - 1];
      Roots(entries[..|entries| - 1]) + (if |last.path| == 1 then [last.path[0]] else [])
  }

  ghost predicate UniqueKeys(fold: Fold, entries: seq<Entry>) {
    forall i, j | 0 <= i < j < |entries| :: Key(fold, entries[i].path) != Key(fold, entries[j].path)
  }

  ghost predicate FolderAt(fold: Fold, entries: seq<Entry>, path: Path) {
    exists j | 0 <= j < |entries| :: Key(fold, entries[j].path) == Key(fold, path) && entries[j].kind == FolderKind
  }

  ghost predicate AncestorsAreIn(fold: Fold, entries: seq<Entry>, path: Path) {
    forall k | 1 <= k < |path| :: FolderAt(fold, entries, path[..k])
  }

  ghost predicate AncestorsPresent(fold: Fold, entries: seq<Entry>) {
    forall i {:trigger AncestorsAreIn(fold, entries, entries[i].path)} | 0 <= i < |entries| ::
      AncestorsAreIn(fold, entries, entries[i].path)
  }

  ghost predicate PathsValid(entries: seq<Entry>) {
    forall i | 0 <= i < |entries| :: ValidManifestPath(entries[i].path)
  }

  ghost predicate ValidReceived(fold: Fold, h: Header, entries: seq<Entry>) {
    && PathsValid(entries)
    && UniqueKeys(fold, entries)
    && AncestorsPresent(fold, entries)
    && CountKind(FileKind, entries) == h.fileCount
    && CountKind(FolderKind, entries) == h.folderCount
    && TotalSize(entries) == h.totalBytes
    && |Roots(entries)| == h.rootCount
  }

  lemma {:induction false} TotalSizeGrows(entries: seq<Entry>, i: nat)
    requires i <= |entries|
    requires forall j | 0 <= j < |entries| :: 0 <= entries[j].size
    ensures TotalSize(entries[..i]) <= TotalSize(entries)
    decreases |entries|
  {
    if i < |entries| {
      TotalSizeGrows(entries[..|entries| - 1], i);
      assert entries[..|entries| - 1][..i] == entries[..i];
    } else {
      assert entries[..i] == entries;
    }
  }

  ghost predicate SeenPrefix(fold: Fold, entries: seq<Entry>, n: nat, seen: map<Path, Entry>)
    requires n <= |entries|
  {
    && (forall j | 0 <= j < n :: Key(fold, entries[j].path) in seen && seen[Key(fold, entries[j].path)] == entries[j])
    && (forall key | key in seen :: exists j | 0 <= j < n :: Key(fold, entries[j].path) == key)
  }

  /** The walk of one entry's ancestors: true exactly when each of them is a folder
      of the manifest. */
  method AncestorsAreFolders(fold: Fold, entries: seq<Entry>, path: Path, seen: map<Path, Entry>) returns (ok: bool)
    requires path != []
    requires SeenPrefix(fold, entries, |entries|, seen)
    ensures ok <==> AncestorsAreIn(fold, entries, path)
  {
    var parent := path;
    while |parent| > 1
      invariant 1 <= |parent| <= |path| && parent == path[..|parent|]
      invariant forall k | |parent| <= k < |path| :: FolderAt(fold, entries, path[..k])
      decreases |parent|
    {
      parent := parent[..|parent| - 1];
      assert parent == path[..|parent|];
      var key := Key(fold, parent);
      if key !in seen {
        assert !FolderAt(fold, entries, path[..|parent|]);
        return false;
      }
      if seen[key].kind != FolderKind {
        assert !FolderAt(fold, entries, path[..|parent|]);
        return false;
      }
      assert FolderAt(fold, entries, parent);
    }
    return true;
  }

  lemma NonEmptyPaths(entries: seq<Entry>)
    requires PathsValid(entries)
    ensures forall i | 0 <= i < |entries| :: entries[i].path != []
  {
    hide ValidComponent;
  }

  method HierarchyIsSound(fold: Fold, entries: seq<Entry>, seen: map<Path, Entry>) returns (ok: bool)
    requires forall i | 0 <= i < |entries| :: entries[i].path != []
    requires SeenPrefix(fold, entries, |entries|, seen)
    ensures ok <==> AncestorsPresent(fold, entries)
  {
    hide SeenPrefix, AncestorsAreIn;
    for i := 0 to |entries|
      invariant forall j {:trigger AncestorsAreIn(fold, entries, entries[j].path)} | 0 <= j < i ::
                  AncestorsAreIn(fold, entries, entries[j].path)
    {
      ok := AncestorsAreFolders(fold, entries, entries[i].path, seen);
      if !ok {
        return;
      }
    }
    ok := true;
  }

  lemma UniqueKeysGrow(fold: Fold, entries: seq<Entry>, i: nat, seen: map<Path, Entry>)
    requires i < |entries|
    requires SeenPrefix(fold, entries, i, seen)
    requires UniqueKeys(fold, entries[..i])
    ensures UniqueKeys(fold, entries[..i + 1]) <==> Key(fold, entries[i].path) !in seen
    ensures Key(fold, entries[i].path) !in seen
        ==> SeenPrefix(fold, entries, i + 1, seen[Key(fold, entries[i].path) := entries[i]])
  {
    var key := Key(fold, entries[i].path);
    if key in seen {
      var j :| 0 <= j < i && Key(fold, entries[j].path) == key;
      assert entries[..i + 1][j] == entries[j] && entries[..i + 1][i] == entries[i];
    } else {
      var grown := entries[..i + 1];
      forall a, b | 0 <= a < b < |grown| ensures Key(fold, grown[a].path) != Key(fold, grown[b].path) {
        if b < i {
          assert entries[..i][a] == grown[a] && entries[..i][b] == grown[b];
        }
      }
    }
  }

  /** What the first pass establishes for every manifest it does not refuse. */
  ghost predicate Consistent(fold: Fold, total: Int64, entries: seq<Entry>) {
    PathsValid(entries) && UniqueKeys(fold, entries) && TotalSize(entries) <= total
  }

  /** How the running values of the pass change with one more entry. */
  lemma PrefixStep(entries: seq<Entry>, i: nat)
    requires i < |entries|
    ensures TotalSize(entries[..i + 1]) == TotalSize(entries[..i]) + (if entries[i].kind == FileKind then entries[i].size else 0)
    ensures CountKind(FileKind, entries[..i + 1]) == CountKind(FileKind, entries[..i]) + (if entries[i].kind == FileKind then 1 else 0)
    ensures CountKind(FolderKind, entries[..i + 1]) == CountKind(FolderKind, entries[..i]) + (if entries[i].kind == FolderKind then 1 else 0)
    ensures Roots(entries[..i + 1]) == Roots(entries[..i]) + (if |entries[i].path| == 1 then [entries[i].path[0]] else [])
    ensures PathsValid(entries[..i + 1]) <==> PathsValid(entries[..i]) && ValidManifestPath(entries[i].path)
  {
    hide ValidManifestPath;
    assert entries[..i + 1][..i] == entries[..i];
    assert forall j | 0 <= j < i :: entries[..i][j] == entries[..i + 1][j];
  }

  lemma ConsistentOfPrefix(fold: Fold, total: Int64, entries: seq<Entry>, i: nat)
    requires i <= |entries|
    requires forall j | 0 <= j < |entries| :: 0 <= entries[j].size
    requires Consistent(fold, total, entries)
    ensures Consistent(fold, total, entries[..i])
  {
    TotalSizeGrows(entries, i);
  }

  lemma NothingCollected(fold: Fold, entries: seq<Entry>)
    ensures CountKind(FileKind, entries[..0]) == 0 && CountKind(FolderKind, entries[..0]) == 0
    ensures TotalSize(entries[..0]) == 0 && Roots(entries[..0]) == []
    ensures PathsValid(entries[..0]) && UniqueKeys(fold, entries[..0]) && SeenPrefix(fold, entries, 0, map[])
  {
  }

  /** The pass over the entries that collects keys, counts, roots and the byte total.
      The byte counter never leaves the 64-bit range. */
  method CollectEntries(fold: Fold, total: Int64, entries: seq<Entry>)
    returns (ok: bool, files: nat, folders: nat, bytes: Int64, roots: seq<string>, seen: map<Path, Entry>)
    requires 0 <= total
    requires forall i | 0 <= i < |entries| :: 0 <= entries[i].size
    ensures ok <==> Consistent(fold, total, entries)
    ensures ok ==> files == CountKind(FileKind, entries) && folders == CountKind(FolderKind, entries)
    ensures ok ==> bytes == TotalSize(entries) && roots == Roots(entries) && SeenPrefix(fold, entries, |entries|, seen)
  {
    hide ValidManifestPath, CountKind, TotalSize, Roots, UniqueKeys, SeenPrefix;
    files, folders, bytes, roots, seen := 0, 0, 0, [], map[];
    NothingCollected(fold, entries);
    for i := 0 to |entries|
      invariant files == CountKind(FileKind, entries[..i]) && folders == CountKind(FolderKind, entries[..i])
      invariant bytes == TotalSize(entries[..i]) && 0 <= bytes <= total
      invariant roots == Roots(entries[..i])
      invariant PathsValid(entries[..i]) && UniqueKeys(fold, entries[..i]) && SeenPrefix(fold, entries, i, seen)
    {
      var entry := entries[i];
      PrefixStep(entries, i);
      if Consistent(fold, total, entries) {
        ConsistentOfPrefix(fold, total, entries, i + 1);
      }
      if !ValidManifestPath(entry.path) {
        return false, files, folders, bytes, roots, seen;
      }
      var key := Key(fold, entry.path);
      UniqueKeysGrow(fold, entries, i, seen);
      if key in seen {
        return false, files, folders, bytes, roots, seen;
      }
      seen := seen[key := entry];
      match entry.kind {
        case FileKind =>
          files := files + 1;
          if entry.size > total - bytes {
            return false, files, folders, bytes, roots, seen;
          }
          bytes := bytes + entry.size;
        case FolderKind =>
          folders := folders + 1;
      }
      if |entry.path| == 1 {
        roots := roots + [entry.path[0]];
      }
    }
    assert entries[..|entries|] == entries;
    ok := true;
  }

  /** The whole check: the pass above, then the hierarchy, then the header's counts. */
  method ValidateReceivedManifest(fold: Fold, h: Header, entries: seq<Entry>) returns (ok: bool, roots: seq<string>)
    requires 0 <= h.totalBytes
    requires forall i | 0 <= i < |entries| :: 0 <= entries[i].size
    ensures ok <==> ValidReceived(fold, h, entries)
    ensures ok ==> roots == Roots(entries)
  {
    hide ValidManifestPath;
    var files, folders, bytes, seen;
    ok, files, folders, bytes, roots, seen := CollectEntries(fold, h.totalBytes, entries);
    if !ok {
      return;
    }
    NonEmptyPaths(entries);
    ok := HierarchyIsSound(fold, entries, seen);
    if !ok {
      return;
    }
    ok := files == h.fileCount && folders == h.folderCount && bytes == h.totalBytes && |roots| == h.rootCount;
  }

  // ---- the offer as it arrives, frame by frame ----

  function Stored(e: Entry): Entry { e.(digest := LowerAscii(e.digest)) }

  /** The manifest the receiver keeps: digests in lower case, all else as sent. */
  function StoredAll(entries: seq<Entry>): (r: seq<Entry>)
    ensures |r| == |entries|
    ensures forall i | 0 <= i < |r| :: r[i] == Stored(entries[i])
  {
    seq(|entries|, i requires 0 <= i < |entries| => Stored(entries[i]))
  }

  /** The decision of the receiver on a whole offer. */
  ghost predicate ReceiverAccepts(fold: Fold, h: Header, entries: seq<Entry>, omissions: seq<Omission>) {
    && HeaderAcceptable(h)
    && |entries| <= MAX_MANIFEST_ENTRIES
    && |omissions| <= MAX_MANIFEST_OMISSIONS
    && (forall i | 0 <= i < |entries| :: EntryAcceptable(entries[i]))
    && (forall i | 0 <= i < |omissions| :: OmissionAcceptable(omissions[i]))
    && ValidReceived(fold, h, StoredAll(entries))
  }

  class PendingOffer {
    const header: Header
    var entries: seq<Entry>
    var omissions: seq<Omission>

    constructor (h: Header)
      ensures header == h && entries == [] && omissions == []
    {
      header, entries, omissions := h, [], [];
    }

    method HandleEntry(e: Entry) returns (ok: bool)
      modifies this
      ensures omissions == old(omissions)
      ensures ok <==> |old(entries)| < MAX_MANIFEST_ENTRIES && EntryAcceptable(e)
      ensures entries == if ok then old(entries) + [Stored(e)] else old(entries)
    {
      hide ValidManifestPath;
      if |entries| >= MAX_MANIFEST_ENTRIES || !ValidManifestPath(e.path) {
        return false;
      }
      if e.size < 0 || (e.kind == FolderKind && e.size != 0) {
        return false;
      }
      if (e.kind == FileKind && !IsHexDigest(e.digest)) || (e.kind == FolderKind && e.digest != "") {
        return false;
      }
      entries := entries + [Stored(e)];
      ok := true;
    }

    method HandleOmission(o: Omission) returns (ok: bool)
      modifies this
      ensures entries == old(entries)
      ensures ok <==> |old(omissions)| < MAX_MANIFEST_OMISSIONS && OmissionAcceptable(o)
      ensures omissions == if ok then old(omissions) + [o] else old(omissions)
    {
      hide ValidManifestPath;
      if |omissions| >= MAX_MANIFEST_OMISSIONS || !ValidManifestPath(o.path) {
        return false;
      }
      if o.reason == "" || |o.reason| > MAX_OMISSION_REASON {
        return false;
      }
      omissions := omissions + [o];
      ok := true;
    }
  }

  /** The dispatch of one whole offer: identifier and header, entries, omissions,
      completion. `pending` are the identifiers of the offers still being received. */
  method ReceiveOffer(fold: Fold, id: string, pending: set<string>, h: Header, entries: seq<Entry>, omissions: seq<Omission>)
    returns (accepted: bool, stored: seq<Entry>)
    ensures accepted <==> AcceptableIdentifier(id, pending) && ReceiverAccepts(fold, h, entries, omissions)
    ensures accepted ==> stored == StoredAll(entries)
  {
    hide ValidManifestPath, ValidReceived, IsHexDigest, LowerAscii;
    stored := [];
    if !HeaderAcceptable(h) || !AcceptableIdentifier(id, pending) {
      return false, stored;
    }
    var offer := new PendingOffer(h);
    for i := 0 to |entries|
      invariant offer.omissions == [] && offer.entries == StoredAll(entries[..i]) && i <= MAX_MANIFEST_ENTRIES
      invariant forall j | 0 <= j < i :: EntryAcceptable(entries[j])
    {
      assert StoredAll(entries[..i + 1]) == StoredAll(entries[..i]) + [Stored(entries[i])];
      var ok := offer.HandleEntry(entries[i]);
      if !ok {
        return false, stored;
      }
    }
    assert entries[..|entries|] == entries;
    for i := 0 to |omissions|
      invariant offer.entries == StoredAll(entries) && offer.omissions == omissions[..i] && i <= MAX_MANIFEST_OMISSIONS
      invariant forall j | 0 <= j < i :: OmissionAcceptable(omissions[j])
    {
      var ok := offer.HandleOmission(omissions[i]);
      if !ok {
        return false, stored;
      }
    }
    var roots;
    accepted, roots := ValidateReceivedManifest(fold, h, offer.entries);
    stored := offer.entries;
  }
}
