/** The stages in a row: a selection on one computer, the manifest, its validation and
    resolution, the prepared folders, and a transfer that reports success. */
module Pipeline {
  import opened Names
  import opened Manifest
  import opened Validation
  import opened Agreement
  import opened ConflictNames
  import opened Destinations
  import opened Disk
  import opened Staging
  import opened Receiver
  import opened Publication
  import opened Sessions
  import opened Transfer
  import opened Deliveries
  import Tree

  /** The offer the receiver holds after the sender's manifest for `selection` has been
      accepted and its roots have been given final names. */
  ghost predicate Offers(fold: Fold, selection: Selection, listed: set<string>, o: Offer) {
    && Build(fold, selection).Ok?
    && OmittedRoots(selection) == 0
    && o.entries == StoredAll(Build(fold, selection).manifest.entries)
    && Resolved(fold, listed, Roots(o.entries), o.finalNames)
    && NoRootNamedStaging(fold, o)
  }

  /** What a successful preparation on `base` leaves. */
  ghost predicate Prepared(c: Config, o: Offer, env: Permissions, base: Disk, r: State) {
    && IsTree(base) && StagingPath(c.fold) !in base && CanPrepare(c.fold, o, env, base)
    && r == Accepted(r.disk, r.created)
    && r.disk == base + Folders(FolderDestinations(c.fold, o)) + Folders({StagingPath(c.fold)})
    && Elements(r.created) == FolderDestinations(c.fold, o) && ParentsFirst(r.created)
  }

  lemma OfferedIsApproved(fold: Fold, selection: Selection, listed: set<string>, o: Offer)
    requires Offers(fold, selection, listed, o)
    ensures Approved(fold, listed, o)
    ensures forall i | 0 <= i < |o.entries| :: 0 <= o.entries[i].size
  {
    hide Approved, Resolved, ValidReceived, NoRootNamedStaging;
    var m := Build(fold, selection).manifest;
    SenderReceiverAgreement(fold, selection);
    ValidatedAndResolvedIsApproved(fold, HeaderOf(m), listed, o);
    forall i | 0 <= i < |o.entries| ensures 0 <= o.entries[i].size {
      assert EntryAcceptable(m.entries[i]);
    }
  }

  /** Every stage's conclusion is the next one's assumption. */
  lemma PreparationBegins(c: Config, selection: Selection, listed: set<string>, o: Offer, env: Permissions, base: Disk, r: State)
    requires Offers(c.fold, selection, listed, o) && Prepared(c, o, env, base, r)
    ensures Begun(c, o, listed, base, r)
  {
    hide Approved, CanPrepare, Setting, FolderDestinations;
    OfferedIsApproved(c.fold, selection, listed, o);
    PreparationGivesSetting(c, o, listed, env, base);
  }

  /** What was selected is what arrives: when the transfer reports success, every file of
      the sender's manifest lies at its destination with the size and digest the sender
      found, every folder is a folder there, and what was on the disk before still is. */
  lemma SelectionArrives(
      c: Config, selection: Selection, listed: set<string>, o: Offer, env: Permissions, base: Disk, r: State,
      workers: nat, actions: seq<Action>)
    requires Offers(c.fold, selection, listed, o) && Prepared(c, o, env, base, r)
    requires After(c, o, Start(o, workers, r), actions).verdict == Some(true)
    ensures var m := Build(c.fold, selection).manifest;
            var disk := After(c, o, Start(o, workers, r), actions).receiver.disk;
            && |m.entries| == |o.entries|
            && (forall i: nat | i < |m.entries| ::
                  var p := At(c.fold, o, i);
                  && p in disk
                  && (m.entries[i].kind == FolderKind ==> disk[p] == Folder)
                  && (m.entries[i].kind == FileKind ==>
                        && disk[p].File? && |disk[p].content| == m.entries[i].size
                        && SameDigest(m.entries[i].digest, c.hash(disk[p].content))
                        && (YieldsDigests(c) ==> c.hash(disk[p].content) == m.entries[i].digest)))
            && (forall p | p in base :: p in disk && disk[p] == base[p])
  {
    hide After, Start, Begun, At, Approved, CanPrepare, LowerAscii, FolderDestinations, Resolved, NoRootNamedStaging, IsLowerHexDigest, Build;
    PreparationBegins(c, selection, listed, o, env, base, r);
    TransferDelivers(c, o, listed, base, r, workers, actions);
    var m := Build(c.fold, selection).manifest;
    BuiltDigestsAreLower(c.fold, selection);
    forall i: nat | i < |m.entries|
      ensures o.entries[i] == Stored(m.entries[i])
      ensures m.entries[i].kind == FolderKind ==> At(c.fold, o, i) in FolderDestinations(c.fold, o)
    {
      if m.entries[i].kind == FolderKind {
        FolderHasDestination(c.fold, o, i);
      }
    }
    StoredDigestFolds(m.entries);
  }

  /** And so for the selected trees themselves: after a success each file in them has a
      place of its own beneath the chosen folder that holds its bytes. */
  lemma SelectedTreesArrive(
      c: Config, selection: Selection, listed: set<string>, o: Offer, env: Permissions, base: Disk, r: State,
      workers: nat, actions: seq<Action>, q: Path, size: FileSize, digest: LowerHexDigest)
    requires Offers(c.fold, selection, listed, o) && Prepared(c, o, env, base, r) && YieldsDigests(c)
    requires After(c, o, Start(o, workers, r), actions).verdict == Some(true)
    requires Tree.SelectionHas(selection, q, FileNode(size, digest))
    ensures exists i: nat ::
              && i < |o.entries| && o.entries[i].path == q
              && var p, disk := At(c.fold, o, i), After(c, o, Start(o, workers, r), actions).receiver.disk;
                 p in disk && disk[p].File? && |disk[p].content| == size && c.hash(disk[p].content) == digest
  {
    hide After, Start, At, Build, Prepared, YieldsDigests, Resolved, NoRootNamedStaging, Tree.SelectionHas;
    var m := Build(c.fold, selection).manifest;
    SelectionArrives(c, selection, listed, o, env, base, r, workers, actions);
    Tree.ManifestIsTheTrees(c.fold, selection);
    var e := Entry(q, FileKind, size, digest);
    assert e == Tree.EntryFor(e.path, FileNode(size, digest));
    assert e in m.entries;
    var i: nat :| i < |m.entries| && m.entries[i] == e;
    assert o.entries[i].path == q;
  }

  /** The digests of a built manifest are in lower case, and are stored as they are. */
  lemma BuiltDigestsAreLower(fold: Fold, selection: Selection)
    requires Build(fold, selection).Ok?
    ensures var m := Build(fold, selection).manifest;
            forall i | 0 <= i < |m.entries| && m.entries[i].kind == FileKind ::
              IsLowerHexDigest(m.entries[i].digest) && Stored(m.entries[i]) == m.entries[i]
  {
    hide Grew, ValidManifestPath, UniqueKeys, ClosedAt;
    var m := Build(fold, selection).manifest;
    var es := SelectionBuildsListing(fold, EMPTY, selection, {});
    GrewFromEmpty(m, es);
    forall i | 0 <= i < |m.entries| && m.entries[i].kind == FileKind
      ensures IsLowerHexDigest(m.entries[i].digest) && Stored(m.entries[i]) == m.entries[i]
    {
      assert SenderEntry(es[i]);
      assert LowerAscii(m.entries[i].digest) == m.entries[i].digest;
    }
  }

  lemma FolderHasDestination(fold: Fold, o: Offer, i: nat)
    requires IsFolderEntry(o, i)
    ensures At(fold, o, i) in FolderDestinations(fold, o)
  {
    hide At;
  }

  /** The receiver's lower-case copy of a digest matches whatever the digest matches. */
  lemma StoredDigestFolds(entries: seq<Entry>)
    ensures forall i, d | 0 <= i < |entries| && EqualFold(Stored(entries[i]).digest, d) :: EqualFold(entries[i].digest, d)
  {
    forall i | 0 <= i < |entries| ensures LowerAscii(LowerAscii(entries[i].digest)) == LowerAscii(entries[i].digest) {
      LowerTwice(entries[i].digest);
    }
  }

  lemma LowerTwice(s: string)
    ensures LowerAscii(LowerAscii(s)) == LowerAscii(s)
  {
  }
}
