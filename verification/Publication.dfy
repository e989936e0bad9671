/** What an offer may do to the disk, for every sequence of peer frames and every
    answer of the operating system. */
module Publication {
  import opened Names
  import opened Manifest
  import opened Destinations
  import opened Disk
  import opened Staging
  import opened Receiver

  // ---- where an offer starts ----

  /** No root was given the staging folder's name. */
  ghost predicate NoRootNamedStaging(fold: Fold, o: Offer) {
    forall key | key in o.finalNames :: fold(o.finalNames[key]) != fold(STAGING_NAME)
  }

  /** The approved offer and the disk `base` it meets: root places free, no staging. */
  ghost predicate Setting(c: Config, o: Offer, listed: set<string>, base: Disk) {
    && Approved(c.fold, listed, o)
    && (forall i | 0 <= i < |o.entries| :: 0 <= o.entries[i].size)
    && NoRootNamedStaging(c.fold, o)
    && IsTree(base)
    && StagingPath(c.fold) !in base
    && forall i: nat | i < |o.entries| :: At(c.fold, o, i) !in base
  }

  predicate InStaging(c: Config, p: Path) { p != [] && p[0] == c.fold(STAGING_NAME) }

  lemma DestinationsAvoidStaging(c: Config, o: Offer, listed: set<string>, base: Disk, i: nat)
    requires Setting(c, o, listed, base) && i < |o.entries|
    ensures At(c.fold, o, i) != [] && !InStaging(c, At(c.fold, o, i))
  {
    hide Approved, IsTree;
    EveryEntryIsDefined(c.fold, listed, o, i);
  }

  lemma BaseAvoidsStaging(c: Config, o: Offer, listed: set<string>, base: Disk, p: Path)
    requires Setting(c, o, listed, base) && p in base
    ensures !InStaging(c, p)
  {
    hide Approved, IsTree, At;
    if InStaging(c, p) {
      assert StagingPath(c.fold) <= p;
      assert StagingPath(c.fold) != p;
      TreeHasAncestors(base, StagingPath(c.fold), p);
    }
  }

  // ---- the invariant ----

  /** A published file: approved size, approved digest. */
  predicate VerifiedFile(c: Config, o: Offer, i: nat, node: DiskNode) {
    && i < |o.entries| && o.entries[i].kind == FileKind
    && node.File?
    && |node.content| == o.entries[i].size
    && SameDigest(o.entries[i].digest, c.hash(node.content))
  }

  /** The digest is computed as lower-case hexadecimal. */
  ghost predicate YieldsDigests(c: Config) { forall bytes :: IsLowerHexDigest(c.hash(bytes)) }

  /** Where digests are in lower case, as a stored manifest has them, the content's digest
      is the approved one. */
  ghost predicate HasDigest(c: Config, entry: Entry, node: DiskNode) {
    YieldsDigests(c) && IsLowerHexDigest(entry.digest) ==> node.File? && c.hash(node.content) == entry.digest
  }

  lemma SameLowerDigest(a: string, b: string)
    requires IsLowerHexDigest(a) && IsLowerHexDigest(b) && SameDigest(a, b)
    ensures a == b
  {
  }

  lemma VerifiedHasDigest(c: Config, o: Offer, i: nat, node: DiskNode)
    requires VerifiedFile(c, o, i, node)
    ensures HasDigest(c, o.entries[i], node)
  {
    if YieldsDigests(c) && IsLowerHexDigest(o.entries[i].digest) {
      SameLowerDigest(o.entries[i].digest, c.hash(node.content));
    }
  }

  ghost predicate BaseKept(base: Disk, disk: Disk) {
    forall p | p in base :: p in disk && disk[p] == base[p]
  }

  ghost predicate FoldersKept(c: Config, o: Offer, disk: Disk, created: seq<Path>) {
    && Elements(created) == FolderDestinations(c.fold, o)
    && ParentsFirst(created)
    && forall k | 0 <= k < |created| :: created[k] in disk && disk[created[k]] == Folder
  }

  ghost predicate FilesVerified(c: Config, o: Offer, disk: Disk, published: map<Path, nat>) {
    forall p | p in published :: p in disk && VerifiedFile(c, o, published[p], disk[p]) && p == At(c.fold, o, published[p])
  }

  /** Outside the staging folder: the old disk, the offer's folders, verified files. */
  ghost predicate Outside(c: Config, o: Offer, base: Disk, disk: Disk, created: seq<Path>, published: map<Path, nat>) {
    && BaseKept(base, disk)
    && FoldersKept(c, o, disk, created)
    && FilesVerified(c, o, disk, published)
    && forall p | p in disk && !InStaging(c, p) :: p in base || p in Elements(created) || p in published
  }

  ghost predicate TempKept(c: Config, disk: Disk, stream: Stream) {
    stream.temp.Some? ==>
      var t := stream.temp.value;
      && t in disk && disk[t].File? && |t| == 2 && InStaging(c, t)
      && StagingPath(c.fold) in disk
      && (!stream.destinationFailed ==> disk[t].content == stream.data)
  }

  ghost predicate TempsDistinct(streams: map<Path, Stream>) {
    forall a, b | a in streams && b in streams && a != b && streams[a].temp.Some? :: streams[a].temp != streams[b].temp
  }

  /** Inside it: exactly the temporary files of open streams, each with the stream's
      bytes unless its destination has failed. */
  ghost predicate Inside(c: Config, disk: Disk, streams: map<Path, Stream>) {
    && (forall key | key in streams :: TempKept(c, disk, streams[key]))
    && TempsDistinct(streams)
    && (StagingPath(c.fold) in disk ==> disk[StagingPath(c.fold)] == Folder)
    && forall p | p in disk && InStaging(c, p) ::
         p == StagingPath(c.fold) || exists key | key in streams :: streams[key].temp == Some(p)
  }

  ghost predicate DiskInv(c: Config, o: Offer, base: Disk, s: State) {
    && Outside(c, o, base, s.disk, s.created, s.published)
    && Inside(c, s.disk, s.streams)
    && s.completed == |s.published|
  }

  // ---- changes inside the staging folder ----

  ghost predicate SameOutside(c: Config, disk: Disk, disk': Disk) {
    forall p | !InStaging(c, p) :: (p in disk <==> p in disk') && (p in disk ==> disk'[p] == disk[p])
  }

  lemma OutsideIsKept(c: Config, o: Offer, listed: set<string>, base: Disk, disk: Disk, disk': Disk, created: seq<Path>, published: map<Path, nat>)
    requires Setting(c, o, listed, base) && Outside(c, o, base, disk, created, published) && SameOutside(c, disk, disk')
    ensures Outside(c, o, base, disk', created, published)
  {
    hide Setting, At, VerifiedFile, ParentsFirst;
    forall p | p in base ensures !InStaging(c, p) {
      BaseAvoidsStaging(c, o, listed, base, p);
    }
    forall p | p in published ensures !InStaging(c, p) {
      assert published[p] < |o.entries| by {
        PublishedInRange(c, o, disk, published, p);
      }
      DestinationsAvoidStaging(c, o, listed, base, published[p]);
    }
    forall k | 0 <= k < |created| ensures !InStaging(c, created[k]) {
      assert created[k] in FolderDestinations(c.fold, o);
      FolderDestinationAvoidsStaging(c, o, listed, base, created[k]);
    }
  }

  lemma PublishedInRange(c: Config, o: Offer, disk: Disk, published: map<Path, nat>, p: Path)
    requires FilesVerified(c, o, disk, published) && p in published
    ensures published[p] < |o.entries|
  {
  }

  lemma FolderDestinationAvoidsStaging(c: Config, o: Offer, listed: set<string>, base: Disk, p: Path)
    requires Setting(c, o, listed, base) && p in FolderDestinations(c.fold, o)
    ensures !InStaging(c, p) && p != [] && p !in base
  {
    hide Approved, At, IsTree;
    var i: nat :| i < |o.entries| && IsFolderEntry(o, i) && At(c.fold, o, i) == p;
    DestinationsAvoidStaging(c, o, listed, base, i);
  }

  lemma StartInside(c: Config, s: State, key: Path, i: nat, e: Env)
    requires Inside(c, s.disk, s.streams) && key !in s.streams
    ensures var s' := StartStream(c, s, key, i, e);
            Inside(c, s'.disk, s'.streams) && SameOutside(c, s.disk, s'.disk)
  {
    var s' := StartStream(c, s, key, i, e);
    var temp := NewTemp(c, s.disk, e);
    assert temp.Some? ==> |temp.value| == 2 && InStaging(c, temp.value) && temp.value !in s.disk;
    forall k | k in s'.streams ensures TempKept(c, s'.disk, s'.streams[k]) {
      if k != key {
        assert TempKept(c, s.disk, s.streams[k]);
      }
    }
    forall p | p in s'.disk && InStaging(c, p)
      ensures p == StagingPath(c.fold) || exists k | k in s'.streams :: s'.streams[k].temp == Some(p)
    {
      if temp == Some(p) {
        assert s'.streams[key].temp == Some(p);
      } else if p != StagingPath(c.fold) {
        var k :| k in s.streams && s.streams[k].temp == Some(p);
        assert s'.streams[k].temp == Some(p);
      }
    }
    assert TempsDistinct(s'.streams) by {
      forall a | a in s.streams && s.streams[a].temp.Some? ensures s.streams[a].temp != temp {
        assert TempKept(c, s.disk, s.streams[a]);
      }
    }
  }

  /** A stream is replaced by one with the same temporary file, whose content may change. */
  lemma RestreamInside(c: Config, disk: Disk, streams: map<Path, Stream>, key: Path, stream: Stream, disk': Disk)
    requires Inside(c, disk, streams) && key in streams && stream.temp == streams[key].temp
    requires disk' == disk || (stream.temp.Some? && stream.temp.value in disk'
             && disk' == disk[stream.temp.value := disk'[stream.temp.value]])
    requires TempKept(c, disk', stream)
    ensures Inside(c, disk', streams[key := stream]) && SameOutside(c, disk, disk')
  {
    var streams' := streams[key := stream];
    assert TempKept(c, disk, streams[key]);
    forall k | k in streams' ensures TempKept(c, disk', streams'[k]) {
      assert TempKept(c, disk, streams[k]);
    }
    forall p | p in disk' && InStaging(c, p)
      ensures p == StagingPath(c.fold) || exists k | k in streams' :: streams'[k].temp == Some(p)
    {
      if p != StagingPath(c.fold) {
        assert p in disk;
        var k :| k in streams && streams[k].temp == Some(p);
        assert streams'[k].temp == Some(p);
      }
    }
  }

  lemma WriteInside(c: Config, s: State, key: Path, bytes: seq<Byte>, w: Written)
    requires Inside(c, s.disk, s.streams) && key in s.streams
    ensures var s' := WriteChunk(s, key, bytes, w);
            Inside(c, s'.disk, s'.streams) && SameOutside(c, s.disk, s'.disk)
  {
    hide TempsDistinct;
    var s' := WriteChunk(s, key, bytes, w);
    var stream := s.streams[key];
    assert TempKept(c, s.disk, stream);
    assert bytes[..|bytes|] == bytes;
    assert bytes == [] ==> stream.data + bytes == stream.data;
    assert s'.streams == s.streams[key := s'.streams[key]];
    RestreamInside(c, s.disk, s.streams, key, s'.streams[key], s'.disk);
  }

  lemma CloseInside(c: Config, s: State, key: Path, closed: Stream)
    requires Inside(c, s.disk, s.streams) && key in s.streams
    requires closed == s.streams[key].(writeFailure := closed.writeFailure)
    ensures Inside(c, s.disk, s.streams[key := closed])
  {
    hide TempsDistinct;
    assert TempKept(c, s.disk, s.streams[key]);
    RestreamInside(c, s.disk, s.streams, key, closed, s.disk);
  }

  /** One stream leaves, and its temporary file with it. */
  lemma TakeTempInside(c: Config, disk: Disk, streams: map<Path, Stream>, key: Path, disk': Disk)
    requires Inside(c, disk, streams) && key in streams
    requires disk' == if streams[key].temp.Some? then disk - {streams[key].temp.value} else disk
    ensures Inside(c, disk', streams - {key}) && SameOutside(c, disk, disk')
  {
    var streams' := streams - {key};
    assert TempKept(c, disk, streams[key]);
    forall k | k in streams' ensures TempKept(c, disk', streams'[k]) {
      assert TempKept(c, disk, streams[k]);
    }
    forall p | p in disk' && InStaging(c, p)
      ensures p == StagingPath(c.fold) || exists k | k in streams' :: streams'[k].temp == Some(p)
    {
      if p != StagingPath(c.fold) {
        var k :| k in streams && streams[k].temp == Some(p);
        assert streams'[k].temp == Some(p);
      }
    }
  }

  lemma RemoveStagingInside(c: Config, disk: Disk, streams: map<Path, Stream>)
    requires Inside(c, disk, streams)
    ensures Inside(c, RemoveStaging(c, disk), streams) && SameOutside(c, disk, RemoveStaging(c, disk))
  {
    var staging := StagingPath(c.fold);
    var disk' := RemoveStaging(c, disk);
    forall k | k in streams ensures TempKept(c, disk', streams[k]) {
      assert TempKept(c, disk, streams[k]);
      if streams[k].temp.Some? {
        var t := streams[k].temp.value;
        assert staging < t;
        assert !IsEmpty(disk, staging);
      }
    }
  }

  lemma DropInside(c: Config, s: State, key: Path)
    requires Inside(c, s.disk, s.streams)
    ensures var s' := DropStream(c, s, key);
            Inside(c, s'.disk, s'.streams) && SameOutside(c, s.disk, s'.disk)
  {
    hide TempsDistinct, IsEmpty;
    if key in s.streams {
      assert TempKept(c, s.disk, s.streams[key]);
      var temp := s.streams[key].temp;
      var disk := if temp.Some? then Remove(s.disk, temp.value) else s.disk;
      TakeTempInside(c, s.disk, s.streams, key, disk);
      RemoveStagingInside(c, disk, s.streams - {key});
    }
  }

  // ---- publication ----

  /** Every ancestor of a destination is already a folder, so making parents changes
      nothing. */
  lemma ParentsAreThere(c: Config, o: Offer, listed: set<string>, base: Disk, s: State, i: nat)
    requires Setting(c, o, listed, base) && DiskInv(c, o, base, s) && i < |o.entries|
    ensures MakeParents(s.disk, At(c.fold, o, i)) == Some(s.disk)
  {
    hide At, ParentsFirst, FilesVerified, Inside;
    var final := At(c.fold, o, i);
    DepthIsLength(c.fold, listed, o, i);
    forall k | 0 <= k < |final| ensures final[..k] in s.disk && s.disk[final[..k]] == Folder {
      if k == 0 {
        assert final[..0] == [];
      } else {
        var f := AncestorEntry(c.fold, listed, o, i, k);
        assert final[..k] in FolderDestinations(c.fold, o);
        var n :| 0 <= n < |s.created| && s.created[n] == final[..k];
      }
    }
    NoParentMissing(s.disk, final);
  }

  lemma NoParentMissing(disk: Disk, p: Path)
    requires forall k | 0 <= k < |p| :: p[..k] in disk && disk[p[..k]] == Folder
    ensures MakeParents(disk, p) == Some(disk)
  {
    assert MakeParents(disk, p).Some?;
    assert MakeParents(disk, p).value == disk;
  }

  lemma AddedFileOutside(
    c: Config, o: Offer, base: Disk, disk: Disk, created: seq<Path>, published: map<Path, nat>, i: nat, node: DiskNode)
    requires Outside(c, o, base, disk, created, published)
    requires At(c.fold, o, i) !in disk && VerifiedFile(c, o, i, node)
    ensures Outside(c, o, base, disk[At(c.fold, o, i) := node], created, published[At(c.fold, o, i) := i])
  {
    hide At, VerifiedFile, ParentsFirst;
    var final := At(c.fold, o, i);
    var disk' := disk[final := node];
    forall k | 0 <= k < |created| ensures created[k] in disk' && disk'[created[k]] == Folder {
      assert created[k] in disk;
    }
  }

  lemma AddedFileInside(c: Config, disk: Disk, streams: map<Path, Stream>, final: Path, node: DiskNode)
    requires Inside(c, disk, streams) && final !in disk && !InStaging(c, final)
    ensures Inside(c, disk[final := node], streams)
  {
    hide TempsDistinct;
    var disk' := disk[final := node];
    forall k | k in streams ensures TempKept(c, disk', streams[k]) {
      assert TempKept(c, disk, streams[k]);
    }
  }

  lemma PublishKeepsDisk(c: Config, o: Offer, listed: set<string>, base: Disk, s: State, key: Path, i: nat)
    requires Setting(c, o, listed, base) && DiskInv(c, o, base, s) && i < |o.entries|
    requires key in s.streams && s.streams[key].temp.Some? && s.streams[key].temp.value in s.disk
    requires At(c.fold, o, i) !in s.disk
    requires VerifiedFile(c, o, i, s.disk[s.streams[key].temp.value])
    ensures DiskInv(c, o, base, Publish(s, key, At(c.fold, o, i), i))
  {
    hide Setting, At, VerifiedFile, Outside, Inside;
    var final, temp := At(c.fold, o, i), s.streams[key].temp.value;
    var taken := s.disk - {temp};
    TakeTempInside(c, s.disk, s.streams, key, taken);
    OutsideIsKept(c, o, listed, base, s.disk, taken, s.created, s.published);
    DestinationsAvoidStaging(c, o, listed, base, i);
    AddedFileInside(c, taken, s.streams - {key}, final, s.disk[temp]);
    AddedFileOutside(c, o, base, taken, s.created, s.published, i, s.disk[temp]);
    PublishedAreThere(c, o, base, s);
    PublishedCount(s.published, final, i);
  }

  lemma PublishedAreThere(c: Config, o: Offer, base: Disk, s: State)
    requires DiskInv(c, o, base, s)
    ensures forall p | p in s.published :: p in s.disk
  {
  }

  lemma PublishedCount(published: map<Path, nat>, final: Path, i: nat)
    requires final !in published
    ensures |published[final := i]| == |published| + 1
  {
    assert published[final := i].Keys == published.Keys + {final};
    assert |published[final := i]| == |published[final := i].Keys|;
  }

  // ---- the folder of an abandoned offer ----

  function PublishedDisk(s: State): Disk { map p | p in s.published && p in s.disk :: s.disk[p] }

  /** The offer's folders that hold a published file. */
  ghost function UsedFolders(c: Config, o: Offer, published: Disk): set<Path> {
    set d | d in FolderDestinations(c.fold, o) && Holds(published, d)
  }

  /** The offer is over and cleaned up: the disk is the old disk, the published files,
      and exactly those created folders that hold a published file. */
  ghost predicate Settled(c: Config, o: Offer, base: Disk, s: State) {
    && s.streams == map[] && s.created == []
    && FilesVerified(c, o, s.disk, s.published)
    && s.disk == base + PublishedDisk(s) + Folders(UsedFolders(c, o, PublishedDisk(s)))
    && (forall p | p in s.published :: p !in base)
  }

  lemma EmptiedStaging(c: Config, s: State)
    requires Inside(c, s.disk, s.streams)
    ensures var disk := RemoveStaging(c, s.disk - Temps(s.streams));
            SameOutside(c, s.disk, disk) && forall p | p in disk :: !InStaging(c, p)
  {
    hide TempsDistinct;
    var staging := StagingPath(c.fold);
    var untemped := s.disk - Temps(s.streams);
    forall t | t in Temps(s.streams) ensures InStaging(c, t) && |t| == 2 {
      var k :| k in s.streams && s.streams[k].temp == Some(t);
      assert TempKept(c, s.disk, s.streams[k]);
    }
    forall p | p in s.disk && InStaging(c, p) ensures p == staging || p in Temps(s.streams) {
      if p != staging {
        var k :| k in s.streams && s.streams[k].temp == Some(p);
        assert s.streams[k].temp.value in Temps(s.streams);
      }
    }
    forall q | q in untemped ensures !(staging < q) {
      assert staging < q ==> InStaging(c, q);
    }
  }

  lemma DiskFromParts(disk: Disk, base: Disk, published: Disk, created: set<Path>)
    requires forall p | p in base :: p in disk && disk[p] == base[p]
    requires forall p | p in published :: p in disk && disk[p] == published[p] && p !in created
    requires forall p | p in created :: p in disk && disk[p] == Folder
    requires forall p | p in disk :: p in base || p in published || p in created
    ensures disk == base + published + Folders({}) + Folders(created)
  {
  }

  lemma CleanDiskIsLayered(c: Config, o: Offer, listed: set<string>, base: Disk, disk: Disk, s: State)
    requires Setting(c, o, listed, base) && Outside(c, o, base, disk, s.created, s.published)
    requires (forall p | p in disk :: !InStaging(c, p)) && forall p | p in s.published :: p !in base
    ensures Layered(disk, base, PublishedDisk(s.(disk := disk)), {}, s.created)
  {
    hide Setting, At, VerifiedFile, ParentsFirst, Holds;
    var published := PublishedDisk(s.(disk := disk));
    var created := Elements(s.created);
    forall p | p in created ensures p in disk && disk[p] == Folder && p !in base {
      var k :| 0 <= k < |s.created| && s.created[k] == p;
      FolderDestinationAvoidsStaging(c, o, listed, base, p);
    }
    forall p | p in s.published ensures p in published && p !in created {
      VerifiedIsFile(c, o, s.published[p], disk[p]);
    }
    DiskFromParts(disk, base, published, created);
    SettingIsTree(c, o, listed, base);
    NothingOldBelow(base, s.created);
  }

  lemma VerifiedIsFile(c: Config, o: Offer, i: nat, node: DiskNode)
    requires VerifiedFile(c, o, i, node)
    ensures node != Folder && i < |o.entries|
  {
  }

  lemma SettingIsTree(c: Config, o: Offer, listed: set<string>, base: Disk)
    requires Setting(c, o, listed, base)
    ensures IsTree(base)
  {
  }

  lemma PublishedAreNew(c: Config, o: Offer, listed: set<string>, base: Disk, s: State)
    requires Setting(c, o, listed, base) && FilesVerified(c, o, s.disk, s.published)
    ensures forall p | p in s.published :: p !in base
  {
    hide Approved, At, IsTree, EqualFold;
    forall p | p in s.published ensures p !in base {
      assert p == At(c.fold, o, s.published[p]) && s.published[p] < |o.entries|;
    }
  }

  /** Cleanup after a cancellation or a lost session. */
  lemma CleanupSettles(c: Config, o: Offer, listed: set<string>, base: Disk, s: State)
    requires Setting(c, o, listed, base) && DiskInv(c, o, base, s)
    ensures Settled(c, o, base, RemoveIncomingFiles(c, s))
  {
    hide Setting, At, VerifiedFile, Inside, FoldersKept, BaseKept, RemoveStaging, Layered, Settled, FilesVerified, RemoveCreated, UsedFolders, Temps, PublishedDisk;
    var disk := RemoveStaging(c, s.disk - Temps(s.streams));
    EmptiedStaging(c, s);
    OutsideIsKept(c, o, listed, base, s.disk, disk, s.created, s.published);
    PublishedAreNew(c, o, listed, base, s);
    CleanDiskIsLayered(c, o, listed, base, disk, s);
    RemovalKeepsUsed(c, o, base, disk, s);
    SettledFromParts(c, o, base, disk, s, RemoveIncomingFiles(c, s));
  }

  lemma RemovalKeepsUsed(c: Config, o: Offer, base: Disk, disk: Disk, s: State)
    requires Layered(disk, base, PublishedDisk(s.(disk := disk)), {}, s.created)
    requires FoldersKept(c, o, disk, s.created)
    ensures var published := PublishedDisk(s.(disk := disk));
            RemoveCreated(disk, s.created) == base + published + Folders(UsedFolders(c, o, published))
  {
    hide Layered, RemoveCreated, FoldersKept;
    var published := PublishedDisk(s.(disk := disk));
    RemovalKeepsExactlyTheUsed(disk, base, published, {}, s.created);
    CreatedAreFolders(c, o, disk, s.created);
    assert {} + (set d | d in s.created && Holds(published, d)) == UsedFolders(c, o, published);
  }

  lemma CreatedAreFolders(c: Config, o: Offer, disk: Disk, created: seq<Path>)
    requires FoldersKept(c, o, disk, created)
    ensures forall d :: d in created <==> d in FolderDestinations(c.fold, o)
  {
  }

  lemma SettledFromParts(c: Config, o: Offer, base: Disk, disk: Disk, s: State, s': State)
    requires FoldersKept(c, o, disk, s.created) && FilesVerified(c, o, disk, s.published)
    requires forall p | p in s.published :: p !in base
    requires s' == s.(disk := s'.disk, streams := map[], created := [])
    requires var published := PublishedDisk(s.(disk := disk));
             s'.disk == base + published + Folders(UsedFolders(c, o, published))
    ensures Settled(c, o, base, s')
  {
    hide At, VerifiedFile, Holds, ParentsFirst, FolderDestinations;
    var published := PublishedDisk(s.(disk := disk));
    var used := UsedFolders(c, o, published);
    forall d | d in Elements(s.created) ensures d in disk && disk[d] == Folder {
      var k :| 0 <= k < |s.created| && s.created[k] == d;
    }
    forall p | p in s.published ensures p in s'.disk && s'.disk[p] == disk[p] && p !in used {
      VerifiedIsFile(c, o, s.published[p], disk[p]);
    }
    assert PublishedDisk(s') == published;
  }
}
