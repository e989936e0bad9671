/** An offer as bytes on the wire: UTF-8 text, one line a frame, sent frame by frame and read
    back into the offer that was sent. */
module Wire {
  import opened Names
  import opened Manifest
  import opened Validation
  import opened Agreement
  import opened Disk
  import opened Framing
  import opened Announcement
  import opened Reading
  import Tree

  // ---- text as bytes ----

  function Utf8(c: char): (bytes: seq<Byte>)
    ensures |bytes| == Utf8Width(c) && (c != '\n' ==> NEWLINE !in bytes)
  {
    var code := c as int;
    if code < 0x80 then [code as Byte]
    else if code < 0x800 then [(0xC0 + code / 64) as Byte, (0x80 + code % 64) as Byte]
    else if code < 0x1_0000 then [(0xE0 + code / 4096) as Byte, (0x80 + code / 64 % 64) as Byte, (0x80 + code % 64) as Byte]
    else [(0xF0 + code / 262144) as Byte, (0x80 + code / 4096 % 64) as Byte, (0x80 + code / 64 % 64) as Byte, (0x80 + code % 64) as Byte]
  }

  function Utf8Bytes(s: string): (bytes: seq<Byte>)
    ensures |bytes| == Utf8Length(s) && ('\n' !in s ==> NEWLINE !in bytes)
  {
    if s == [] then [] else Utf8(s[0]) + Utf8Bytes(s[1..])
  }

  /** How many bytes the character takes that begins with this one. */
  function Width(first: Byte): nat { if first < 0x80 then 1 else if first < 0xE0 then 2 else if first < 0xF0 then 3 else 4 }

  function CodeOf(bytes: seq<Byte>): int
    requires 1 <= |bytes| <= 4
  {
    var lead := bytes[0] as int;
    if |bytes| == 1 then lead
    else if |bytes| == 2 then (lead - 0xC0) * 64 + Tail(bytes, 1)
    else if |bytes| == 3 then (lead - 0xE0) * 4096 + Tail(bytes, 1) * 64 + Tail(bytes, 2)
    else (lead - 0xF0) * 262144 + Tail(bytes, 1) * 4096 + Tail(bytes, 2) * 64 + Tail(bytes, 3)
  }

  function Tail(bytes: seq<Byte>, i: nat): int
    requires i < |bytes|
  {
    bytes[i] as int - 0x80
  }

  predicate IsCharacter(code: int) { 0 <= code < 0x11_0000 && !(0xD800 <= code < 0xE000) }

  /** The character that these bytes begin with, in the only encoding it has. */
  function ReadUtf8(bytes: seq<Byte>): (read: Option<(char, seq<Byte>)>)
    requires bytes != []
    ensures read.Some? ==> |read.value.1| < |bytes|
  {
    var size := Width(bytes[0]);
    if |bytes| < size then None
    else
      var code := CodeOf(bytes[..size]);
      if IsCharacter(code) && Utf8(code as char) == bytes[..size] then Some((code as char, bytes[size..])) else None
  }

  function Decoded(bytes: seq<Byte>): Option<string>
    decreases |bytes|
  {
    if bytes == [] then Some("")
    else
      match ReadUtf8(bytes)
      case None => None
      case Some((c, rest)) =>
        match Decoded(rest)
        case None => None
        case Some(s) => Some([c] + s)
  }

  lemma DividedTwice(code: nat)
    ensures code / 4096 == code / 64 / 64
  {
    var q := code / 64;
    assert code == 4096 * (q / 64) + 64 * (q % 64) + code % 64;
  }

  lemma DividedThrice(code: nat)
    ensures code / 262144 == code / 4096 / 64
  {
    var q := code / 4096;
    assert code == 262144 * (q / 64) + 4096 * (q % 64) + code % 4096;
  }

  lemma Base64Digits(code: nat)
    ensures code / 64 * 64 + code % 64 == code
    ensures code / 4096 * 4096 + code / 64 % 64 * 64 + code % 64 == code
    ensures code / 262144 * 262144 + code / 4096 % 64 * 4096 + code / 64 % 64 * 64 + code % 64 == code
  {
    DividedTwice(code);
    DividedThrice(code);
    var q, p := code / 64, code / 64 / 64;
    assert code == q * 64 + code % 64 && q == p * 64 + q % 64 && p == p / 64 * 64 + p % 64;
  }

  lemma CodeIsRead(c: char)
    ensures CodeOf(Utf8(c)) == c as int && Width(Utf8(c)[0]) == |Utf8(c)|
  {
    Base64Digits(c as int);
  }

  lemma CharacterIsRead(c: char, rest: seq<Byte>)
    ensures ReadUtf8(Utf8(c) + rest) == Some((c, rest))
  {
    hide Utf8, CodeOf, Width;
    CodeIsRead(c);
    var bytes, size := Utf8(c) + rest, |Utf8(c)|;
    assert bytes[..size] == Utf8(c) && bytes[size..] == rest;
  }

  lemma {:induction false} TextIsDecoded(s: string)
    ensures Decoded(Utf8Bytes(s)) == Some(s)
  {
    hide Utf8, ReadUtf8;
    if s != [] {
      CharacterIsRead(s[0], Utf8Bytes(s[1..]));
      TextIsDecoded(s[1..]);
      assert [s[0]] + s[1..] == s;
    }
  }

  // ---- lines ----

  /** A line of text. No frame has a newline in its text. */
  function TextCodec(): Codec<string> {
    Codec((text: string) => if '\n' in text then None else Some(Utf8Bytes(text)),
          (line: seq<Byte>) => if line == [] then None else Decoded(line[..|line| - 1]),
          (text: string) => 0)
  }

  /** The framing's assumption on its codec holds of this one. */
  lemma TextCodecIsFaithful()
    ensures Faithful(TextCodec())
  {
    hide Decoded, Utf8Bytes;
    forall text | TextCodec().encode(text).Some?
      ensures NEWLINE !in Utf8Bytes(text) && TextCodec().decode(Utf8Bytes(text) + [NEWLINE]) == Some(text)
    {
      var line := Utf8Bytes(text) + [NEWLINE];
      assert line[..|line| - 1] == Utf8Bytes(text);
      TextIsDecoded(text);
    }
  }

  function Lines(frames: seq<string>): seq<Byte> {
    if frames == [] then [] else Utf8Bytes(frames[0]) + [NEWLINE] + Lines(frames[1..])
  }

  predicate AreLines(frames: seq<string>) { forall i | 0 <= i < |frames| :: '\n' !in frames[i] }

  function Records(frames: seq<string>): seq<Record<string>> { seq(|frames|, i requires 0 <= i < |frames| => Record(frames[i], [])) }

  lemma FrameOfText(text: string)
    requires '\n' !in text
    ensures TextCodec().encode(text) == Some(Utf8Bytes(text))
    ensures Frame(TextCodec(), text) == Utf8Bytes(text) + [NEWLINE]
    ensures Fits(text) <==> |Utf8Bytes(text)| + 1 <= MAXIMUM_FRAME_BYTES
    ensures Sendable(TextCodec(), Record(text, [])) <==> Fits(text)
  {
  }

  lemma {:induction false} LinesAreRecords(frames: seq<string>)
    requires AreLines(frames) && AllFit(frames)
    ensures AllSendable(TextCodec(), Records(frames)) && Lines(frames) == WireBytes(TextCodec(), Records(frames))
  {
    hide TextCodec, Fits, Utf8Bytes;
    forall i | 0 <= i < |frames| ensures Sendable(TextCodec(), Records(frames)[i]) {
      FrameOfText(frames[i]);
    }
    if frames != [] {
      LinesAreRecords(frames[1..]);
      FrameOfText(frames[0]);
      assert Records(frames)[1..] == Records(frames[1..]);
    }
  }

  /** Lines that fit are read back as they were written. */
  lemma LinesAreReadBack(frames: seq<string>)
    requires AreLines(frames) && AllFit(frames)
    ensures ReadRecords(TextCodec(), Lines(frames)) == Reading(Records(frames), false)
  {
    hide TextCodec, Fits, Utf8Bytes;
    TextCodecIsFaithful();
    LinesAreRecords(frames);
    RoundTrip(TextCodec(), Records(frames));
  }

  lemma FramesAreLines(id: string, h: Header, entries: seq<Entry>, attributes: seq<Attributes>, omissions: seq<Omission>)
    requires |attributes| == |entries|
    ensures AreLines(Frames(id, h, entries, attributes, omissions))
  {
    hide HeaderFrame, EntryFrame, OmissionFrame, EndFrame;
  }

  // ---- the offer that the lines announce ----

  datatype Offered = Offered(id: string, header: Header, entries: seq<Entry>, attributes: seq<Attributes>, omissions: seq<Omission>)

  /** The entries and omissions among the messages, in their order. */
  function EntriesIn(messages: seq<Said>): seq<Entry> {
    if messages == [] then []
    else (if messages[0].Lists? then [messages[0].entry] else []) + EntriesIn(messages[1..])
  }

  function AttributesIn(messages: seq<Said>): seq<Attributes> {
    if messages == [] then []
    else (if messages[0].Lists? then [messages[0].attributes] else []) + AttributesIn(messages[1..])
  }

  function OmissionsIn(messages: seq<Said>): seq<Omission> {
    if messages == [] then []
    else (if messages[0].Omits? then [messages[0].omission] else []) + OmissionsIn(messages[1..])
  }

  /** A header, then entries and omissions, then the end, all of one offer. */
  function OfferIn(messages: seq<Said>): Option<Offered> {
    if |messages| < 2 || !messages[0].Offers? || messages[|messages| - 1] != Ends(messages[0].id) then None
    else
      var between := messages[1..|messages| - 1];
      if exists i | 0 <= i < |between| :: !(between[i].Lists? || between[i].Omits?) || between[i].id != messages[0].id then None
      else Some(Offered(messages[0].id, messages[0].header, EntriesIn(between), AttributesIn(between), OmissionsIn(between)))
  }

  /** What the receiver makes of the bytes of a whole announcement. */
  function ReadOffer(bytes: seq<Byte>): Option<Offered> {
    var reading := ReadRecords(TextCodec(), bytes);
    if reading.refused then None
    else
      match Messages(reading.records)
      case None => None
      case Some(messages) => OfferIn(messages)
  }

  function Messages(records: seq<Record<string>>): Option<seq<Said>> {
    if exists i | 0 <= i < |records| :: Says(records[i].message) == None then None
    else Some(seq(|records|, i requires 0 <= i < |records| => Says(records[i].message).value))
  }

  function Listed(id: string, entries: seq<Entry>, attributes: seq<Attributes>): seq<Said>
    requires |attributes| == |entries|
  {
    seq(|entries|, i requires 0 <= i < |entries| => Lists(id, entries[i], attributes[i]))
  }

  function Omitting(id: string, omissions: seq<Omission>): seq<Said> {
    seq(|omissions|, i requires 0 <= i < |omissions| => Omits(id, omissions[i]))
  }

  function Announcing(o: Offered): seq<Said>
    requires |o.attributes| == |o.entries|
  {
    [Offers(o.id, o.header)] + (Listed(o.id, o.entries, o.attributes) + Omitting(o.id, o.omissions)) + [Ends(o.id)]
  }

  lemma {:induction false} ListedAreFound(id: string, entries: seq<Entry>, attributes: seq<Attributes>, omissions: seq<Omission>)
    requires |attributes| == |entries|
    ensures var messages := Listed(id, entries, attributes) + Omitting(id, omissions);
            EntriesIn(messages) == entries && AttributesIn(messages) == attributes && OmissionsIn(messages) == omissions
    decreases |entries|
  {
    var messages := Listed(id, entries, attributes) + Omitting(id, omissions);
    if entries == [] {
      assert messages == Omitting(id, omissions);
      OmittedAreFound(id, omissions);
    } else {
      ListedAreFound(id, entries[1..], attributes[1..], omissions);
      assert messages[1..] == Listed(id, entries[1..], attributes[1..]) + Omitting(id, omissions);
      assert messages[0] == Lists(id, entries[0], attributes[0]);
      assert [entries[0]] + entries[1..] == entries && [attributes[0]] + attributes[1..] == attributes;
    }
  }

  lemma {:induction false} OmittedAreFound(id: string, omissions: seq<Omission>)
    ensures var messages := Omitting(id, omissions);
            EntriesIn(messages) == [] && AttributesIn(messages) == [] && OmissionsIn(messages) == omissions
  {
    var messages := Omitting(id, omissions);
    if omissions != [] {
      OmittedAreFound(id, omissions[1..]);
      assert messages[1..] == Omitting(id, omissions[1..]);
      assert [omissions[0]] + omissions[1..] == omissions;
    }
  }

  lemma AnnouncedIsOffered(o: Offered)
    requires |o.attributes| == |o.entries|
    ensures OfferIn(Announcing(o)) == Some(o)
  {
    hide EntriesIn, AttributesIn, OmissionsIn;
    var messages := Announcing(o);
    ListedAreFound(o.id, o.entries, o.attributes, o.omissions);
    assert messages[1..|messages| - 1] == Listed(o.id, o.entries, o.attributes) + Omitting(o.id, o.omissions);
  }

  /** An offer that the frames can carry: counts of the wire's width, paths that keep their components. */
  ghost predicate Announceable(o: Offered) {
    && |o.attributes| == |o.entries| && CountsFit(o.header)
    && (forall i | 0 <= i < |o.entries| :: IsSplittable(o.entries[i].path))
    && (forall i | 0 <= i < |o.omissions| :: IsSplittable(o.omissions[i].path))
  }

  function FramesOf(o: Offered): seq<string>
    requires |o.attributes| == |o.entries|
  {
    Frames(o.id, o.header, o.entries, o.attributes, o.omissions)
  }

  /** Each frame says its message. */
  lemma FramesAreUnderstood(o: Offered)
    requires Announceable(o)
    ensures |FramesOf(o)| == |Announcing(o)| && forall i | 0 <= i < |FramesOf(o)| :: Says(FramesOf(o)[i]) == Some(Announcing(o)[i])
  {
    hide HeaderFrame, EntryFrame, OmissionFrame, EndFrame, Says, IsSplittable;
    var frames, messages, n := FramesOf(o), Announcing(o), |o.entries|;
    forall i | 0 <= i < |frames| ensures Says(frames[i]) == Some(messages[i]) {
      if i == 0 {
        HeaderIsRead(o.id, o.header);
      } else if i <= n {
        EntryIsRead(o.id, o.entries[i - 1], o.attributes[i - 1]);
      } else if i <= n + |o.omissions| {
        OmissionIsRead(o.id, o.omissions[i - 1 - n]);
      } else {
        EndIsRead(o.id);
      }
    }
  }

  /** The round trip of an offer: what its lines announce is that offer. */
  lemma OfferIsReadBack(o: Offered)
    requires Announceable(o) && AllFit(FramesOf(o))
    ensures ReadOffer(Lines(FramesOf(o))) == Some(o)
  {
    hide Says, Frames, Announcing, OfferIn, Fits, Lines, TextCodec;
    var frames := FramesOf(o);
    FramesAreLines(o.id, o.header, o.entries, o.attributes, o.omissions);
    LinesAreReadBack(frames);
    FramesAreUnderstood(o);
    AnnouncedIsOffered(o);
    assert forall i | 0 <= i < |frames| :: Says(Records(frames)[i].message) == Some(Announcing(o)[i]);
    assert Messages(Records(frames)).value == Announcing(o);
  }

  // ---- what the sender builds ----

  function BuiltOffer(id: string, m: Manifest, attributes: seq<Attributes>): Offered {
    Offered(id, HeaderOf(m), m.entries, attributes, m.omissions)
  }

  lemma {:induction false} OmittedRootsAreDisclosed(fold: Fold, m: Manifest, selection: Selection, seen: set<string>)
    requires WalkSelection(fold, m, selection, seen).Ok?
    ensures |m.omissions| + OmittedRoots(selection) <= |WalkSelection(fold, m, selection, seen).manifest.omissions|
    decreases selection
  {
    hide ValidManifestPath;
    if selection.Root? {
      var rooted := m.(roots := m.roots + [selection.name]);
      var es, os := Tree.WalkMakes(fold, rooted, [selection.name], selection.tree);
      OmittedRootsAreDisclosed(fold, Walk(fold, rooted, [selection.name], selection.tree).manifest, selection.others, seen + {fold(selection.name)});
    }
  }

  lemma BuiltOfferIsAnnounceable(fold: Fold, selection: Selection, id: string, attributes: seq<Attributes>)
    requires Build(fold, selection).Ok? && |attributes| == |Build(fold, selection).manifest.entries|
    ensures Announceable(BuiltOffer(id, Build(fold, selection).manifest, attributes))
  {
    hide ValidManifestPath, IsSplittable, Region, Subtree, Roots, UniqueKeys;
    var m := Build(fold, selection).manifest;
    var es := SelectionBuildsListing(fold, EMPTY, selection, {});
    GrewFromEmpty(m, es);
    CountsMatchHeader(m);
    CountsAddUp(es);
    OmittedRootsAreDisclosed(fold, EMPTY, selection, {});
    ListingIsAcceptable(fold, es);
    forall i | 0 <= i < |es| ensures IsSplittable(es[i].path) {
      ValidPathIsSplittable(es[i].path);
    }
    forall i | 0 <= i < |m.omissions| ensures IsSplittable(m.omissions[i].path) {
      ValidPathIsSplittable(m.omissions[i].path);
    }
  }

  /** The receiver's answer to the bytes of an announcement. */
  ghost predicate AcceptedAsRead(fold: Fold, pending: set<string>, bytes: seq<Byte>) {
    match ReadOffer(bytes)
    case None => false
    case Some(o) => AcceptableIdentifier(o.id, pending) && ReceiverAccepts(fold, o.header, o.entries, o.omissions)
  }

  /** From selection to acceptance: the offer goes out whole, and what its bytes say is
      accepted, exactly when no selected root was itself omitted and each entry and omission
      fits its frame. */
  lemma OfferArrivesIff(fold: Fold, selection: Selection, id: string, pending: set<string>, attributes: seq<Attributes>)
    requires Build(fold, selection).Ok? && OfferIdentifier(id) && id !in pending
    requires |attributes| == |Build(fold, selection).manifest.entries|
    ensures var o := BuiltOffer(id, Build(fold, selection).manifest, attributes);
            && (AllFit(FramesOf(o)) && AcceptedAsRead(fold, pending, Lines(FramesOf(o)))
                <==> OmittedRoots(selection) == 0 && EntriesFit(id, o.entries, attributes) && OmissionsFit(id, o.omissions))
            && (AllFit(FramesOf(o)) ==> ReadOffer(Lines(FramesOf(o))) == Some(o))
  {
    hide Build, Fits, EntriesFit, OmissionsFit, Frames, Lines, ReadOffer, ReceiverAccepts, AcceptableIdentifier, Announceable;
    var o := BuiltOffer(id, Build(fold, selection).manifest, attributes);
    OfferFitsIff(fold, selection, id, pending, attributes);
    BuiltOfferIsAnnounceable(fold, selection, id, attributes);
    if AllFit(FramesOf(o)) {
      OfferIsReadBack(o);
    }
  }

  // ---- sending it ----

  lemma {:induction false} OneMoreLine(frames: seq<string>, text: string)
    ensures Lines(frames + [text]) == Lines(frames) + (Utf8Bytes(text) + [NEWLINE])
  {
    hide Utf8Bytes;
    if frames == [] {
      assert frames + [text] == [text] && [text][1..] == [];
    } else {
      OneMoreLine(frames[1..], text);
      assert (frames + [text])[1..] == frames[1..] + [text];
    }
  }

  /** One frame after those already gone. */
  method SendFrame(ghost gone: seq<string>, text: string, sink: Sink) returns (ok: bool)
    requires '\n' !in text && AllFit(gone)
    modifies sink
    ensures ok ==> AllFit(gone + [text])
    ensures ok ==> forall before :: old(sink.taken) == before + Lines(gone) ==> sink.taken == before + Lines(gone + [text])
    ensures old(sink.answers) == [] ==> sink.answers == [] && (ok <==> Fits(text))
  {
    hide TextCodec, Lines, Fits, Utf8Bytes;
    FrameOfText(text);
    OneMoreLine(gone, text);
    UnhinderedWrite(Frame(TextCodec(), text));
    var sent := WriteFrame(TextCodec(), sink, text);
    ok := sent == SentWhole;
    if ok {
      forall before | old(sink.taken) == before + Lines(gone) ensures sink.taken == before + Lines(gone + [text]) {
        assert before + Lines(gone) + (Utf8Bytes(text) + [NEWLINE]) == before + Lines(gone + [text]);
      }
    }
  }

  /** `sendManifest`: the header, each entry, each omission and the end, until one is refused.
      The whole offer goes out only when every frame fits; over a wire that takes what it is
      given, exactly then. */
  method SendManifest(o: Offered, sink: Sink) returns (ok: bool)
    requires |o.attributes| == |o.entries|
    modifies sink
    ensures ok ==> AllFit(FramesOf(o)) && sink.taken == old(sink.taken) + Lines(FramesOf(o))
    ensures old(sink.answers) == [] ==> (ok <==> AllFit(FramesOf(o)))
    ensures ok && Announceable(o) ==> ReadOffer(sink.taken[|old(sink.taken)|..]) == Some(o)
  {
    hide HeaderFrame, EntryFrame, OmissionFrame, EndFrame, Lines, Fits, ReadOffer, Announceable;
    ghost var before, frames := sink.taken, FramesOf(o);
    ghost var n := |o.entries|;
    FramesAreLines(o.id, o.header, o.entries, o.attributes, o.omissions);
    assert before == before + Lines([]) by {
      NoLines();
    }
    ok := SendFrame([], HeaderFrame(o.id, o.header), sink);
    if !ok {
      assert frames[0] == HeaderFrame(o.id, o.header);
      return;
    }
    assert [] + [HeaderFrame(o.id, o.header)] == frames[..1];
    for i := 0 to |o.entries|
      invariant AllFit(frames[..1 + i]) && sink.taken == before + Lines(frames[..1 + i])
      invariant old(sink.answers) == [] ==> sink.answers == []
    {
      assert frames[1 + i] == EntryFrame(o.id, o.entries[i], o.attributes[i]);
      assert frames[..1 + i] + [frames[1 + i]] == frames[..2 + i];
      ok := SendFrame(frames[..1 + i], EntryFrame(o.id, o.entries[i], o.attributes[i]), sink);
      if !ok {
        return;
      }
    }
    for i := 0 to |o.omissions|
      invariant AllFit(frames[..1 + n + i]) && sink.taken == before + Lines(frames[..1 + n + i])
      invariant old(sink.answers) == [] ==> sink.answers == []
    {
      assert frames[1 + n + i] == OmissionFrame(o.id, o.omissions[i]);
      assert frames[..1 + n + i] + [frames[1 + n + i]] == frames[..2 + n + i];
      ok := SendFrame(frames[..1 + n + i], OmissionFrame(o.id, o.omissions[i]), sink);
      if !ok {
        return;
      }
    }
    ghost var last := 1 + n + |o.omissions|;
    assert frames[last] == EndFrame(o.id) && frames[..last] + [frames[last]] == frames;
    ok := SendFrame(frames[..last], EndFrame(o.id), sink);
    if ok && Announceable(o) {
      OfferIsReadBack(o);
      assert sink.taken[|before|..] == Lines(frames);
    }
  }

  lemma NoLines()
    ensures Lines([]) == []
  {
  }
}
