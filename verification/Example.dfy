/** One file of one byte, from its selection to a reported success: the statements about whole
    transfers are not empty. */
module Example {
  import opened Names
  import opened Manifest
  import opened Validation
  import opened Agreement
  import opened ConflictNames
  import opened Destinations
  import opened Disk
  import opened Staging
  import opened Receiver
  import opened Publication
  import opened Sessions
  import opened Transfer
  import opened Pipeline

  type Hash = seq<Byte> -> string

  const CONTENT: seq<Byte> := [7]

  function TheConfig(hash: Hash): Config { Config((name: string) => name, hash) }

  function TheSelection(hash: Hash): Selection
    requires IsLowerHexDigest(hash(CONTENT))
  {
    Root("a", FileNode(1, hash(CONTENT)), Done)
  }

  function TheEntry(hash: Hash): Entry { Entry(["a"], FileKind, 1, hash(CONTENT)) }

  function TheOffer(hash: Hash): Offer { Offer("offer", [TheEntry(hash)], map["a" := "a"]) }

  const BASE: Disk := map[[] := Folder]

  const STAGING: Path := [STAGING_NAME]

  const TEMP: Path := [STAGING_NAME, "t"]

  const FINE := Env(true, Some("t"), Written(1, false), true, true, true, true, true, true, true, true)

  function Everything(): Permissions { Permissions(true, None, _ => true, _ => true, true) }

  lemma NamesDiffer()
    ensures "a" != STAGING_NAME && STAGING != ["a"] && TEMP != ["a"]
  {
    assert "a"[0] != STAGING_NAME[0];
  }

  lemma OfferIsApproved(hash: Hash)
    ensures Approved(TheConfig(hash).fold, {}, TheOffer(hash))
    ensures Resolved(TheConfig(hash).fold, {}, Roots(TheOffer(hash).entries), TheOffer(hash).finalNames)
    ensures At(TheConfig(hash).fold, TheOffer(hash), 0) == ["a"]
  {
    var fold, o := TheConfig(hash).fold, TheOffer(hash);
    assert Key(fold, ["a"]) == ["a"] && o.entries[..0] == [];
    assert Roots(o.entries) == ["a"];
    assert SafePaths(o.entries);
  }

  lemma SelectionIsOffered(hash: Hash)
    requires IsLowerHexDigest(hash(CONTENT))
    ensures Offers(TheConfig(hash).fold, TheSelection(hash), {}, TheOffer(hash))
  {
    hide Approved, Resolved, ValidManifestPath;
    OfferIsApproved(hash);
    NamesDiffer();
    ShortNamesAreValid();
    var fold := TheConfig(hash).fold;
    var m := EMPTY.(roots := [] + ["a"], entries := [] + [TheEntry(hash)], fileCount := 1, totalBytes := 1);
    assert WalkSelection(fold, EMPTY, TheSelection(hash), {}) == WalkSelection(fold, m, Done, {} + {fold("a")}) == Ok(m);
    LowerHexIsLower(hash(CONTENT));
    assert Build(fold, TheSelection(hash)) == Ok(m);
    assert OmittedRoots(TheSelection(hash)) == 0;
    assert StoredAll(m.entries)[0] == TheEntry(hash);
    assert StoredAll(m.entries) == TheOffer(hash).entries;
    assert NoRootNamedStaging(fold, TheOffer(hash));
  }

  lemma LowerHexIsLower(s: string)
    requires IsLowerHexDigest(s)
    ensures LowerAscii(s) == s
  {
  }

  lemma OfferIsPrepared(hash: Hash)
    ensures Prepared(TheConfig(hash), TheOffer(hash), Everything(), BASE, Story(hash, 0).receiver)
  {
    hide Approved, At, IncomingPath;
    OfferIsApproved(hash);
    NamesDiffer();
    var c, o := TheConfig(hash), TheOffer(hash);
    assert IsTree(BASE);
    assert FolderDestinations(c.fold, o) == {} && Elements([]) == {};
    assert Folders({}) == map[] && Folders({STAGING}) == map[STAGING := Folder];
    assert BASE + Folders({}) + Folders({STAGING}) == BASE[STAGING := Folder];
    assert ParentsFirst([]);
    assert Defined(c.fold, o, ["a"]);
  }

  // ---- the run ----

  function TheAction(step: nat): Action
    requires step < 9
  {
    match step
    case 0 => TakeJob(0)
    case 1 => SendChunk(0, CONTENT)
    case 2 => Deliver(FINE)
    case 3 => SendComplete(0, false)
    case 4 => Deliver(FINE)
    case 5 => TakeResult
    case 6 => SendBatch
    case 7 => Deliver(FINE)
    case _ => TakeResult
  }

  function Receiving(hash: Hash, step: nat): State {
    var start := Accepted(BASE[STAGING := Folder], []);
    if step <= 2 then start
    else if step <= 4 then
      start.(disk := BASE[STAGING := Folder][TEMP := File(CONTENT)], streams := map[["a"] := Stream(0, Some(TEMP), CONTENT, false, false)])
    else
      start.(disk := if step <= 7 then BASE[STAGING := Folder][["a"] := File(CONTENT)] else BASE[["a"] := File(CONTENT)],
             outcomes := {["a"]}, completed := 1, published := map[["a"] := 0], live := step <= 7)
  }

  function Story(hash: Hash, step: nat): System {
    var o, entry := TheOffer(hash), TheEntry(hash);
    System([if step == 0 || step >= 4 then None else Some(0)],
           if step == 0 then 0 else 1,
           [if step == 0 then Queued else if step == 1 then Sending([], false) else if step <= 3 then Sending(CONTENT, true) else Terminated(CONTENT)],
           if step == 2 then [Content(o.id, ["a"], 1, 0, CONTENT)]
           else if step == 4 then [Complete(o.id, ["a"], 1, hash(CONTENT), None, "")]
           else if step == 7 then [BatchComplete(o.id)]
           else [],
           Receiving(hash, step),
           if step == 5 then [FileResult(["a"], true)] else if step == 8 then [BatchResult(true)] else [],
           if step >= 6 then 1 else 0, 0, step >= 7, if step >= 9 then Some(true) else None, false)
  }

  lemma TheJobs(hash: Hash)
    ensures Jobs(TheOffer(hash)) == [0] && FileOf(TheOffer(hash), 0) == TheEntry(hash) && FileCount(TheOffer(hash)) == 1
  {
    var o := TheOffer(hash);
    assert o.entries[..1] == o.entries && o.entries[..0] == [];
    assert Files(o.entries, 0) == [];
  }

  lemma StoryStarts(hash: Hash)
    ensures Start(TheOffer(hash), 1, Story(hash, 0).receiver) == Story(hash, 0)
  {
    TheJobs(hash);
  }

  lemma ContentArrives(hash: Hash)
    ensures Step(TheConfig(hash), TheOffer(hash), Receiving(hash, 2), Content("offer", ["a"], 1, 0, CONTENT), FINE)
         == Outcome(Receiving(hash, 3), [], false)
  {
    var c := TheConfig(hash);
    assert Key(c.fold, ["a"]) == ["a"];
    assert FindFile(TheOffer(hash).entries, ["a"]) == Some(0);
    assert StagingPath(c.fold) == STAGING && TempPath(c, "t") == TEMP;
    var s := Receiving(hash, 2);
    assert s.disk[STAGING := Folder] == s.disk;
    var started := StartStream(c, s, ["a"], 0, FINE);
    var empty := Stream(0, Some(TEMP), [], false, false);
    assert started == s.(disk := s.disk[TEMP := File([])], streams := map[["a"] := empty]);
    assert CONTENT[..1] == CONTENT && [] + CONTENT == CONTENT;
    var written := WriteChunk(started, ["a"], CONTENT, FINE.write);
    assert written.disk == s.disk[TEMP := File(CONTENT)];
    assert written.streams == map[["a"] := Stream(0, Some(TEMP), CONTENT, false, false)];
  }

  lemma FileIsFinished(hash: Hash)
    ensures FinishFile(TheConfig(hash), TheOffer(hash), Receiving(hash, 4), ["a"], 0, FINE)
         == Outcome(Receiving(hash, 5), [FileResult(["a"], true)], false)
  {
    hide LowerAscii;
    var s := Receiving(hash, 4);
    NamesDiffer();
    OfferIsApproved(hash);
    assert ["a"][..0] == [];
    assert MakeParents(s.disk, ["a"]) == Some(s.disk + Folders({}));
    assert s.disk + Folders({}) == s.disk;
    assert s.(disk := s.disk) == s;
    assert (s.disk - {TEMP})[["a"] := File(CONTENT)] == Receiving(hash, 5).disk;
    assert s.streams - {["a"]} == map[];
  }

  lemma CompletionArrives(hash: Hash)
    requires |hash(CONTENT)| == 64
    ensures Step(TheConfig(hash), TheOffer(hash), Receiving(hash, 4), Complete("offer", ["a"], 1, hash(CONTENT), None, ""), FINE)
         == Outcome(Receiving(hash, 5), [FileResult(["a"], true)], false)
  {
    hide LowerAscii, FinishFile;
    var c, o, s := TheConfig(hash), TheOffer(hash), Receiving(hash, 4);
    FileIsFinished(hash);
    assert Key(c.fold, ["a"]) == ["a"];
    assert FindFile(o.entries, ["a"]) == Some(0);
    assert s.(streams := s.streams[["a"] := s.streams[["a"]]]) == s;
  }

  lemma BatchArrives(hash: Hash)
    ensures Step(TheConfig(hash), TheOffer(hash), Receiving(hash, 7), BatchComplete("offer"), FINE)
         == Outcome(Receiving(hash, 8), [BatchResult(true)], false)
  {
    TheJobs(hash);
    NamesDiffer();
    var disk := Receiving(hash, 7).disk;
    assert IsEmpty(disk, STAGING);
    assert disk - {STAGING} == Receiving(hash, 8).disk;
  }

  lemma SenderGoesOn(hash: Hash, step: nat)
    requires step in {0, 1, 3, 5, 6, 8}
    ensures Next(TheConfig(hash), TheOffer(hash), Story(hash, step), TheAction(step)) == Story(hash, step + 1)
  {
    hide Step, LowerAscii, Jobs, Receiving;
    TheJobs(hash);
    Unchanged(hash, step);
    assert [FileResult(["a"], true)][1..] == [] && [BatchResult(true)][1..] == [];
    assert [] + CONTENT == CONTENT;
    var s := Story(hash, step);
    assert Enabled(TheOffer(hash), s, TheAction(step));
    assert step == 1 ==> s.progress[0 := Sending([] + CONTENT, true)] == [Sending(CONTENT, true)];
  }

  lemma Unchanged(hash: Hash, step: nat)
    requires step in {0, 1, 3, 5, 6, 8}
    ensures Receiving(hash, step + 1) == Receiving(hash, step)
  {
  }

  lemma ReceiverGoesOn(hash: Hash, step: nat)
    requires step in {2, 4, 7} && |hash(CONTENT)| == 64
    ensures Next(TheConfig(hash), TheOffer(hash), Story(hash, step), TheAction(step)) == Story(hash, step + 1)
  {
    hide Step, LowerAscii, Jobs, Receiving;
    ContentArrives(hash);
    CompletionArrives(hash);
    BatchArrives(hash);
  }

  lemma StoryGoesOn(hash: Hash, step: nat)
    requires step < 9 && |hash(CONTENT)| == 64
    ensures Next(TheConfig(hash), TheOffer(hash), Story(hash, step), TheAction(step)) == Story(hash, step + 1)
  {
    hide Story, Next, TheAction;
    if step in {2, 4, 7} {
      ReceiverGoesOn(hash, step);
    } else {
      SenderGoesOn(hash, step);
    }
  }

  lemma {:induction false} StoryFrom(hash: Hash, step: nat) returns (actions: seq<Action>)
    requires step <= 9 && |hash(CONTENT)| == 64
    ensures After(TheConfig(hash), TheOffer(hash), Story(hash, step), actions) == Story(hash, 9)
    decreases 9 - step
  {
    hide Story, Next, TheAction, Start;
    if step == 9 {
      actions := [];
    } else {
      var rest := StoryFrom(hash, step + 1);
      StoryGoesOn(hash, step);
      actions := [TheAction(step)] + rest;
      assert actions[1..] == rest;
    }
  }

  /** Selected, offered, prepared, transferred: there is a run that reports success. */
  lemma SuccessIsPossible(hash: Hash)
    requires IsLowerHexDigest(hash(CONTENT))
    ensures exists c: Config, selection: Selection, o: Offer, env: Permissions, base: Disk, r: State, actions: seq<Action> ::
              && Offers(c.fold, selection, {}, o) && Prepared(c, o, env, base, r)
              && After(c, o, Start(o, 1, r), actions).verdict == Some(true)
  {
    hide Offers, Prepared, After;
    SelectionIsOffered(hash);
    OfferIsPrepared(hash);
    StoryStarts(hash);
    var actions := StoryFrom(hash, 0);
    var r := Story(hash, 0).receiver;
    assert After(TheConfig(hash), TheOffer(hash), Start(TheOffer(hash), 1, r), actions).verdict == Some(true);
  }
}
