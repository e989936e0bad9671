/** Whole receiving sessions: what every sequence of frames leaves on the disk. */
module Sessions {
  import opened Names
  import opened Manifest
  import opened Validation
  import opened Destinations
  import opened Disk
  import opened Staging
  import opened Receiver
  import opened Outcomes
  import opened Publication

  /** The offer ended with its batch: every folder and every published file stays, and
      the staging folder is gone. */
  ghost predicate Finished(c: Config, o: Offer, base: Disk, s: State) {
    && s.outcomes == FileKeys(c, o)
    && s.streams == map[]
    && FilesVerified(c, o, s.disk, s.published)
    && s.disk == base + PublishedDisk(s) + Folders(FolderDestinations(c.fold, o))
    && s.completed == |s.published|
    && (forall p | p in s.published :: p !in base)
  }

  ghost predicate Ended(c: Config, o: Offer, base: Disk, s: State) {
    Settled(c, o, base, s) || Finished(c, o, base, s)
  }

  ghost predicate Sound(c: Config, o: Offer, base: Disk, s: State) {
    if s.live then DiskInv(c, o, base, s) else Ended(c, o, base, s)
  }

  /** An error may also leave a cleaned offer that the session's end cleans again. */
  ghost predicate SoundAfter(c: Config, o: Offer, base: Disk, r: Outcome) {
    Sound(c, o, base, r.state) || (r.error && Settled(c, o, base, r.state))
  }

  // ---- single changes ----

  lemma InsideChange(c: Config, o: Offer, listed: set<string>, base: Disk, s: State, s': State)
    requires Setting(c, o, listed, base) && DiskInv(c, o, base, s)
    requires Inside(c, s'.disk, s'.streams) && SameOutside(c, s.disk, s'.disk)
    requires s'.created == s.created && s'.published == s.published && s'.completed == s.completed
    ensures DiskInv(c, o, base, s')
  {
    hide Setting, Outside, Inside, SameOutside;
    OutsideIsKept(c, o, listed, base, s.disk, s'.disk, s.created, s.published);
  }

  lemma FailKeepsDisk(c: Config, o: Offer, listed: set<string>, base: Disk, s: State, path: Path, e: Env)
    requires Setting(c, o, listed, base) && DiskInv(c, o, base, s)
    ensures DiskInv(c, o, base, FailFile(c, s, path, e).state)
    ensures FailFile(c, s, path, e).state.live == s.live
  {
    hide Setting, Outside, Inside, SameOutside, RemoveStaging;
    var key := Key(c.fold, path);
    DropInside(c, s, key);
    InsideChange(c, o, listed, base, s, DropStream(c, s, key));
    InsideChange(c, o, listed, base, s, FailFile(c, s, path, e).state);
  }

  lemma StartKeepsDisk(c: Config, o: Offer, listed: set<string>, base: Disk, s: State, key: Path, i: nat, e: Env)
    requires Setting(c, o, listed, base) && DiskInv(c, o, base, s) && key !in s.streams
    ensures DiskInv(c, o, base, StartStream(c, s, key, i, e)) && StartStream(c, s, key, i, e).live == s.live
    ensures key in StartStream(c, s, key, i, e).streams
  {
    hide Setting, Outside, Inside, SameOutside, NewTemp, NewTempDisk;
    StartInside(c, s, key, i, e);
    InsideChange(c, o, listed, base, s, StartStream(c, s, key, i, e));
  }

  lemma WriteKeepsDisk(c: Config, o: Offer, listed: set<string>, base: Disk, s: State, key: Path, bytes: seq<Byte>, w: Written)
    requires Setting(c, o, listed, base) && DiskInv(c, o, base, s) && key in s.streams
    ensures DiskInv(c, o, base, WriteChunk(s, key, bytes, w)) && WriteChunk(s, key, bytes, w).live == s.live
  {
    hide Setting, Outside, Inside, SameOutside;
    WriteInside(c, s, key, bytes, w);
    InsideChange(c, o, listed, base, s, WriteChunk(s, key, bytes, w));
  }

  lemma ClosedKeepsDisk(c: Config, o: Offer, listed: set<string>, base: Disk, s: State, key: Path, closed: Stream)
    requires Setting(c, o, listed, base) && DiskInv(c, o, base, s) && key in s.streams
    requires closed == s.streams[key].(writeFailure := closed.writeFailure)
    ensures DiskInv(c, o, base, s.(streams := s.streams[key := closed]))
  {
    hide Setting, Outside, Inside;
    CloseInside(c, s, key, closed);
    InsideChange(c, o, listed, base, s, s.(streams := s.streams[key := closed]));
  }

  lemma CleanupKeepsSettled(c: Config, o: Offer, base: Disk, s: State)
    requires Settled(c, o, base, s) && StagingPath(c.fold) !in s.disk
    ensures RemoveIncomingFiles(c, s) == s
  {
    hide FilesVerified, UsedFolders, PublishedDisk;
    assert Temps(s.streams) == {};
    assert s.disk - {} == s.disk;
  }

  lemma SettledHasNoStaging(c: Config, o: Offer, listed: set<string>, base: Disk, s: State)
    requires Setting(c, o, listed, base) && Settled(c, o, base, s)
    ensures StagingPath(c.fold) !in s.disk
  {
    hide Setting, At, EqualFold, Holds;
    BaseHasNoStaging(c, o, listed, base);
    if StagingPath(c.fold) in s.disk {
      if StagingPath(c.fold) in s.published {
        DestinationsAvoidStaging(c, o, listed, base, s.published[StagingPath(c.fold)]);
      } else {
        FolderDestinationAvoidsStaging(c, o, listed, base, StagingPath(c.fold));
      }
    }
  }

  lemma BaseHasNoStaging(c: Config, o: Offer, listed: set<string>, base: Disk)
    requires Setting(c, o, listed, base)
    ensures StagingPath(c.fold) !in base
  {
  }

  // ---- single frames ----

  lemma ContentKeepsDisk(c: Config, o: Offer, listed: set<string>, base: Disk, s: State, m: Message, e: Env)
    requires Setting(c, o, listed, base) && Sound(c, o, base, s) && m.Content?
    ensures SoundAfter(c, o, base, ReceiveContent(c, o, s, m, e))
  {
    hide Setting, DiskInv, Settled, Finished, StartStream, WriteChunk, RemoveIncomingFiles;
    var found := FindFile(o.entries, m.path);
    if Addressed(o, s, m.offer) && found.Some? {
      var key := Key(c.fold, o.entries[found.value].path);
      var current := s;
      if key !in s.streams {
        StartKeepsDisk(c, o, listed, base, s, key, found.value, e);
        current := StartStream(c, s, key, found.value, e);
      }
      CleanupSettles(c, o, listed, base, current);
      SettledIgnoresLiveness(c, o, base, RemoveIncomingFiles(c, current));
      if 0 <= m.size <= |m.payload| {
        WriteKeepsDisk(c, o, listed, base, current, key, m.payload[..m.size], e.write);
      }
    }
  }

  lemma SettledIgnoresLiveness(c: Config, o: Offer, base: Disk, s: State)
    requires Settled(c, o, base, s)
    ensures Settled(c, o, base, s.(live := false))
  {
    hide FilesVerified, UsedFolders;
    assert PublishedDisk(s.(live := false)) == PublishedDisk(s);
  }

  /** A file published is a file verified: what was hashed is what is on the disk. */
  lemma PublishedContentIsVerified(c: Config, o: Offer, base: Disk, s: State, key: Path, i: nat, m: Message)
    requires DiskInv(c, o, base, s) && Books(c, o, s) && key in s.streams && m.Complete?
    requires i < |o.entries| && o.entries[i].kind == FileKind
    requires !s.streams[key].writeFailure && |s.streams[key].data| == o.entries[i].size
    requires Verified(c, o.entries[i], s.streams[key], m)
    ensures s.streams[key].temp.Some? && s.streams[key].temp.value in s.disk
    ensures VerifiedFile(c, o, i, s.disk[s.streams[key].temp.value])
  {
    hide Outside, TempsDistinct, EqualFold, FileKeys;
    assert StreamBook(c, o, s, key, s.streams[key]);
    assert TempKept(c, s.disk, s.streams[key]);
  }

  lemma UnpublishKeepsDisk(c: Config, o: Offer, listed: set<string>, base: Disk, s: State, key: Path, i: nat)
    requires Setting(c, o, listed, base) && DiskInv(c, o, base, s) && i < |o.entries| && key in s.streams
    requires s.streams[key].temp.Some? && s.streams[key].temp.value in s.disk && s.disk[s.streams[key].temp.value].File?
    requires At(c.fold, o, i) !in s.disk
    ensures var moved := Publish(s, key, At(c.fold, o, i), i);
            DiskInv(c, o, base, s.(disk := Remove(moved.disk, At(c.fold, o, i)), streams := moved.streams))
  {
    hide Setting, At, Outside, Inside, SameOutside;
    var final, temp := At(c.fold, o, i), s.streams[key].temp.value;
    var moved := Publish(s, key, final, i);
    assert Remove(moved.disk, final) == s.disk - {temp};
    TakeTempInside(c, s.disk, s.streams, key, s.disk - {temp});
    InsideChange(c, o, listed, base, s, s.(disk := s.disk - {temp}, streams := moved.streams));
  }

  lemma FinishKeepsDisk(c: Config, o: Offer, listed: set<string>, base: Disk, s: State, key: Path, i: nat, e: Env)
    requires Setting(c, o, listed, base) && DiskInv(c, o, base, s) && s.live
    requires i < |o.entries| && o.entries[i].kind == FileKind && key in s.streams
    requires s.streams[key].temp.Some? && s.streams[key].temp.value in s.disk
    requires VerifiedFile(c, o, i, s.disk[s.streams[key].temp.value])
    ensures SoundAfter(c, o, base, FinishFile(c, o, s, key, i, e))
  {
    hide Setting, At, DiskInv, Settled, Finished, VerifiedFile, FailFile, RemoveIncomingFiles, MakeParents, Remove;
    var final := At(c.fold, o, i);
    var path := o.entries[i].path;
    CleanupSettles(c, o, listed, base, s);
    ParentsAreThere(c, o, listed, base, s, i);
    assert s.(disk := s.disk) == s;
    FailKeepsDisk(c, o, listed, base, s, path, e);
    if final !in s.disk {
      PublishKeepsDisk(c, o, listed, base, s, key, i);
      VerifiedIsFile(c, o, i, s.disk[s.streams[key].temp.value]);
      UnpublishKeepsDisk(c, o, listed, base, s, key, i);
      var moved := Publish(s, key, final, i);
      FailKeepsDisk(c, o, listed, base, s.(disk := Remove(moved.disk, final), streams := moved.streams), path, e);
    }
  }

  lemma CompleteKeepsDisk(c: Config, o: Offer, listed: set<string>, base: Disk, s: State, m: Message, e: Env)
    requires Setting(c, o, listed, base) && Sound(c, o, base, s) && Books(c, o, s) && m.Complete?
    ensures SoundAfter(c, o, base, CompleteFile(c, o, s, m, e))
  {
    hide Setting, DiskInv, Settled, Finished, FinishFile, FailFile, Verified, Books, VerifiedFile;
    var key := Key(c.fold, m.path);
    var found := FindFile(o.entries, m.path);
    if Addressed(o, s, m.offer) && found.Some? && key in s.streams && |s.streams[key].data| == o.entries[found.value].size {
      var i, stream := found.value, s.streams[key];
      var closed := stream.(writeFailure := stream.writeFailure || (stream.temp.Some? && !(e.syncOk && e.closeOk)));
      var s' := s.(streams := s.streams[key := closed]);
      CloseKeepsBooks(c, o, s, key, closed);
      ClosedKeepsDisk(c, o, listed, base, s, key, closed);
      FailKeepsDisk(c, o, listed, base, s', m.path, e);
      if !closed.writeFailure && Verified(c, o.entries[i], closed, m) {
        PublishedContentIsVerified(c, o, base, s', key, i, m);
        FinishKeepsDisk(c, o, listed, base, s', key, i, e);
      }
    }
  }

  lemma BatchFinishes(c: Config, o: Offer, listed: set<string>, base: Disk, s: State)
    requires Setting(c, o, listed, base) && DiskInv(c, o, base, s) && s.streams == map[] && s.outcomes == FileKeys(c, o)
    ensures Finished(c, o, base, s.(disk := RemoveStaging(c, s.disk), live := false))
  {
    hide Setting, At, VerifiedFile, FoldersKept, BaseKept, Remove, Layered, FileKeys;
    assert Temps(s.streams) == {};
    assert s.disk - {} == s.disk;
    EmptiedStaging(c, s);
    var disk := RemoveStaging(c, s.disk);
    OutsideIsKept(c, o, listed, base, s.disk, disk, s.created, s.published);
    PublishedAreNew(c, o, listed, base, s);
    CleanDiskIsLayered(c, o, listed, base, disk, s);
    var s' := s.(disk := disk, live := false);
    assert PublishedDisk(s') == PublishedDisk(s.(disk := disk));
    LayeredAll(c, o, base, disk, PublishedDisk(s'), s.created);
  }

  lemma LayeredAll(c: Config, o: Offer, base: Disk, disk: Disk, published: Disk, created: seq<Path>)
    requires Layered(disk, base, published, {}, created) && FoldersKept(c, o, disk, created)
    ensures disk == base + published + Folders(FolderDestinations(c.fold, o))
  {
    hide FolderDestinations, Holds, ParentsFirst;
    assert base + published + Folders({}) == base + published;
  }

  /** One frame, whatever it is and whatever the system answers. */
  lemma StepIsSound(c: Config, o: Offer, listed: set<string>, base: Disk, s: State, m: Message, e: Env)
    requires Setting(c, o, listed, base) && Sound(c, o, base, s) && Books(c, o, s)
    ensures SoundAfter(c, o, base, Step(c, o, s, m, e))
  {
    hide Setting, DiskInv, Settled, Finished, FailFile, RemoveIncomingFiles, Books, RemoveStaging;
    match m {
      case Content(_, _, _, _, _) => ContentKeepsDisk(c, o, listed, base, s, m, e);
      case Complete(_, _, _, _, _, _) => CompleteKeepsDisk(c, o, listed, base, s, m, e);
      case FileFailed(_, path, _) =>
        if s.live {
          FailKeepsDisk(c, o, listed, base, s, path, e);
        }
      case BatchComplete(offer) =>
        if Addressed(o, s, offer) && s.completed + s.failed == FileCount(o) {
          SettingIsUnique(c, o, listed, base);
          CountersMeetTheFileCount(c, o, s);
          BatchFinishes(c, o, listed, base, s);
          StagingRemovalKeepsDisk(c, o, listed, base, s);
        }
      case Cancel(_) =>
        if s.live {
          CleanupSettles(c, o, listed, base, s);
          SettledIgnoresLiveness(c, o, base, RemoveIncomingFiles(c, s));
        }
      case Abort(_) =>
        if s.live {
          CleanupSettles(c, o, listed, base, s);
          SettledIgnoresLiveness(c, o, base, RemoveIncomingFiles(c, s));
        }
    }
  }

  lemma SettingIsUnique(c: Config, o: Offer, listed: set<string>, base: Disk)
    requires Setting(c, o, listed, base)
    ensures UniqueKeys(c.fold, o.entries)
  {
  }

  lemma StagingRemovalKeepsDisk(c: Config, o: Offer, listed: set<string>, base: Disk, s: State)
    requires Setting(c, o, listed, base) && DiskInv(c, o, base, s)
    ensures DiskInv(c, o, base, s.(disk := RemoveStaging(c, s.disk)))
  {
    hide Setting, Outside, Inside, SameOutside, RemoveStaging;
    RemoveStagingInside(c, s.disk, s.streams);
    InsideChange(c, o, listed, base, s, s.(disk := RemoveStaging(c, s.disk)));
  }

  lemma EndSettles(c: Config, o: Offer, listed: set<string>, base: Disk, r: Outcome)
    requires Setting(c, o, listed, base) && SoundAfter(c, o, base, r)
    ensures Ended(c, o, base, EndSession(c, r.state)) && !EndSession(c, r.state).live
  {
    hide Setting, DiskInv, Settled, Finished, RemoveIncomingFiles;
    if r.state.live {
      if DiskInv(c, o, base, r.state) {
        CleanupSettles(c, o, listed, base, r.state);
        SettledIgnoresLiveness(c, o, base, RemoveIncomingFiles(c, r.state));
      } else {
        SettledHasNoStaging(c, o, listed, base, r.state);
        CleanupKeepsSettled(c, o, base, r.state);
        SettledIgnoresLiveness(c, o, base, r.state);
      }
    }
  }

  /** Every session, for every sequence of frames and every answer of the system, ends
      with the old disk, verified files, and folders of the offer: all of them after
      an accepted batch, and otherwise exactly those that hold a published file. */
  lemma {:induction false} EverySessionEndsClean(c: Config, o: Offer, listed: set<string>, base: Disk, s: State, frames: seq<(Message, Env)>)
    requires Setting(c, o, listed, base) && Sound(c, o, base, s) && Books(c, o, s)
    ensures Ended(c, o, base, Run(c, o, s, frames).state)
    decreases |frames|
  {
    hide Setting, Sound, Ended, Books, Step, EndSession;
    SettingIsUnique(c, o, listed, base);
    if frames == [] {
      EndSettles(c, o, listed, base, Outcome(s, [], false));
    } else {
      var r := Step(c, o, s, frames[0].0, frames[0].1);
      StepIsSound(c, o, listed, base, s, frames[0].0, frames[0].1);
      StepKeepsBooks(c, o, s, frames[0].0, frames[0].1);
      if r.error {
        EndSettles(c, o, listed, base, r);
      } else {
        EverySessionEndsClean(c, o, listed, base, r.state, frames[1..]);
      }
    }
  }

  /** While an offer is in progress its staging folder holds exactly the temporary
      files of its open streams. */
  lemma StagingHoldsOpenStreams(c: Config, o: Offer, base: Disk, s: State, p: Path)
    requires DiskInv(c, o, base, s)
    ensures p in s.disk && StagingPath(c.fold) < p <==> p in Temps(s.streams)
  {
    hide Outside, TempsDistinct;
    if p in s.disk && StagingPath(c.fold) < p {
      assert InStaging(c, p);
      var key :| key in s.streams && s.streams[key].temp == Some(p);
      assert s.streams[key].temp.value in Temps(s.streams);
    }
    if p in Temps(s.streams) {
      var key :| key in s.streams && s.streams[key].temp == Some(p);
      assert TempKept(c, s.disk, s.streams[key]);
    }
  }

  // ---- how a session starts ----

  function Accepted(disk: Disk, created: seq<Path>): State {
    State(true, true, disk, map[], {}, 0, 0, created, map[])
  }

  /** A prepared acceptance, as `PrepareIncoming` leaves it, is a sound start. */
  lemma PreparedIsSound(c: Config, o: Offer, listed: set<string>, base: Disk, disk: Disk, created: seq<Path>)
    requires Setting(c, o, listed, base)
    requires disk == base + Folders(FolderDestinations(c.fold, o)) + Folders({StagingPath(c.fold)})
    requires Elements(created) == FolderDestinations(c.fold, o) && ParentsFirst(created)
    ensures Sound(c, o, base, Accepted(disk, created)) && Books(c, o, Accepted(disk, created))
  {
    hide Setting, Inside, Outside, FolderDestinations, FileKeys;
    PreparedOutside(c, o, listed, base, disk, created);
    PreparedInside(c, o, listed, base, disk);
  }

  lemma PreparedOutside(c: Config, o: Offer, listed: set<string>, base: Disk, disk: Disk, created: seq<Path>)
    requires Setting(c, o, listed, base)
    requires disk == base + Folders(FolderDestinations(c.fold, o)) + Folders({StagingPath(c.fold)})
    requires Elements(created) == FolderDestinations(c.fold, o) && ParentsFirst(created)
    ensures Outside(c, o, base, disk, created, map[])
  {
    hide Setting, At, ParentsFirst, FolderDestinations;
    forall p | p in base ensures p in disk && disk[p] == base[p] {
      BaseAvoidsStaging(c, o, listed, base, p);
      if p in FolderDestinations(c.fold, o) {
        FolderDestinationAvoidsStaging(c, o, listed, base, p);
      }
    }
    forall k | 0 <= k < |created| ensures created[k] in disk && disk[created[k]] == Folder {
      assert created[k] in Elements(created);
    }
  }

  lemma PreparedInside(c: Config, o: Offer, listed: set<string>, base: Disk, disk: Disk)
    requires Setting(c, o, listed, base)
    requires disk == base + Folders(FolderDestinations(c.fold, o)) + Folders({StagingPath(c.fold)})
    ensures Inside(c, disk, map[])
  {
    hide Setting, FolderDestinations;
    forall p | p in disk && InStaging(c, p) ensures p == StagingPath(c.fold) {
      if p in base {
        BaseAvoidsStaging(c, o, listed, base, p);
      }
      if p in FolderDestinations(c.fold, o) {
        FolderDestinationAvoidsStaging(c, o, listed, base, p);
      }
    }
  }

  /** From approval to the first frame: an offer that can be prepared on a disk without
      staging leftovers meets every assumption made above. */
  lemma PreparationGivesSetting(c: Config, o: Offer, listed: set<string>, env: Permissions, base: Disk)
    requires Approved(c.fold, listed, o) && NoRootNamedStaging(c.fold, o)
    requires forall i | 0 <= i < |o.entries| :: 0 <= o.entries[i].size
    requires IsTree(base) && StagingPath(c.fold) !in base && CanPrepare(c.fold, o, env, base)
    ensures Setting(c, o, listed, base)
  {
    hide Approved, At, IsTree, RootsReady;
    forall i: nat | i < |o.entries| ensures At(c.fold, o, i) !in base {
      NestedPlaceIsFree(c.fold, listed, o, env, base, i);
    }
  }
  /** An offer just accepted and prepared on the disk `base`. */
  ghost predicate Begun(c: Config, o: Offer, listed: set<string>, base: Disk, r: State) {
    && Setting(c, o, listed, base)
    && r == Accepted(r.disk, r.created)
    && r.disk == base + Folders(FolderDestinations(c.fold, o)) + Folders({StagingPath(c.fold)})
    && Elements(r.created) == FolderDestinations(c.fold, o) && ParentsFirst(r.created)
  }

  /** Whatever the peer sends and whatever the system answers, an accepted offer ends
      with the disk as it was, the verified files, and the folders that hold them. */
  lemma AcceptedOfferEndsClean(c: Config, o: Offer, listed: set<string>, base: Disk, s: State, frames: seq<(Message, Env)>)
    requires Begun(c, o, listed, base, s)
    ensures Ended(c, o, base, Run(c, o, s, frames).state) && Books(c, o, Run(c, o, s, frames).state)
  {
    hide Setting, Sound, Ended, Books, Run, FolderDestinations, ParentsFirst;
    PreparedIsSound(c, o, listed, base, s.disk, s.created);
    EverySessionEndsClean(c, o, listed, base, s, frames);
    SettingIsUnique(c, o, listed, base);
    RunKeepsBooks(c, o, s, frames);
  }

  /** Integrity of what is left: nothing old is replaced or removed, and everything new
      is a folder of the offer or a file with the approved size and digest. */
  lemma PublicationIntegrity(c: Config, o: Offer, listed: set<string>, base: Disk, s: State, frames: seq<(Message, Env)>, p: Path)
    requires Begun(c, o, listed, base, s)
    ensures var disk := Run(c, o, s, frames).state.disk;
            && (p in base ==> p in disk && disk[p] == base[p])
            && (p in disk && p !in base ==>
                  || (disk[p] == Folder && p in FolderDestinations(c.fold, o))
                  || exists i: nat ::
                       i < |o.entries| && p == At(c.fold, o, i) && VerifiedFile(c, o, i, disk[p]) && HasDigest(c, o.entries[i], disk[p]))
  {
    hide HasDigest, Sound, Books, Run, At, VerifiedFile, FolderDestinations, Approved, ParentsFirst;
    AcceptedOfferEndsClean(c, o, listed, base, s, frames);
    var final := Run(c, o, s, frames).state;
    if p in base {
      assert p !in FolderDestinations(c.fold, o) by {
        if p in FolderDestinations(c.fold, o) {
          FolderDestinationAvoidsStaging(c, o, listed, base, p);
        }
      }
    }
    if p in final.disk && p !in base && p in final.published {
      var i := final.published[p];
      VerifiedIsFile(c, o, i, final.disk[p]);
      VerifiedHasDigest(c, o, i, final.disk[p]);
    }
  }

  lemma BegunIsUnique(c: Config, o: Offer, listed: set<string>, base: Disk, r: State)
    requires Begun(c, o, listed, base, r)
    ensures UniqueKeys(c.fold, o.entries)
  {
  }

  lemma BegunHasSetting(c: Config, o: Offer, listed: set<string>, base: Disk, r: State)
    requires Begun(c, o, listed, base, r)
    ensures Setting(c, o, listed, base)
  {
  }
}
