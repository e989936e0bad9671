/** An offer on the wire: its frames as JSON text, and the limit they must keep. */
module Announcement {
  import opened Names
  import opened Manifest
  import opened Validation
  import opened Agreement
  import opened ConflictNames
  import opened Framing

  // ---- JSON text ----

  function HexDigit(n: nat): char
    requires n < 16
  {
    "0123456789abcdef"[n]
  }

  /** The encoder's escapes. The three HTML characters and the two line separators become
      six bytes each; other characters stand for themselves. */
  function Escape(c: char): (text: string)
    ensures text != [] && '\n' !in text && |text| <= 6
  {
    var code := c as int;
    if c == '"' || c == '\\' then ['\\', c]
    else if code == 8 then "\\b"
    else if code == 9 then "\\t"
    else if code == 10 then "\\n"
    else if code == 12 then "\\f"
    else if code == 13 then "\\r"
    else if code < 32 || c == '<' || c == '>' || c == '&' then "\\u00" + [HexDigit(code / 16), HexDigit(code % 16)]
    else if code == 0x2028 then "\\u2028"
    else if code == 0x2029 then "\\u2029"
    else [c]
  }

  function Escaped(s: string): (text: string)
    ensures '\n' !in text
  {
    if s == [] then [] else Escape(s[0]) + Escaped(s[1..])
  }

  function Quoted(s: string): (text: string)
    ensures '\n' !in text
  {
    "\"" + Escaped(s) + "\""
  }

  function Integer(n: int): (text: string)
    ensures '\n' !in text
  {
    if n < 0 then "-" + Decimal(-n) else Decimal(n)
  }

  function Field(name: string, value: string): (text: string)
    ensures '\n' !in name && '\n' !in value ==> '\n' !in text
  {
    ",\"" + name + "\":" + value
  }

  /** Zero values are left out of a frame. */
  function IntegerField(name: string, n: int): (text: string)
    ensures '\n' !in name ==> '\n' !in text
  {
    if n == 0 then "" else Field(name, Integer(n))
  }

  function FlagField(name: string, b: bool): (text: string)
    ensures '\n' !in name ==> '\n' !in text
  {
    if b then Field(name, "true") else ""
  }

  // ---- the frames of an offer ----

  predicate OfferIdentifier(id: string) { |id| == 32 && forall i | 0 <= i < 32 :: IsLowerHex(id[i]) }

  /** What a manifest entry carries besides what the receiver decides on. */
  datatype Attributes = Attributes(modified: Int64, readOnly: bool, hidden: bool)

  function Opening(kind: string, id: string): (text: string)
    ensures '\n' !in kind ==> '\n' !in text
  {
    "{\"type\":\"" + kind + "\"" + Field("offer_id", Quoted(id))
  }

  function HeaderFrame(id: string, h: Header): (text: string)
    ensures '\n' !in text
  {
    hide Opening, IntegerField;
    Opening("offer", id) + IntegerField("file_count", h.fileCount) + IntegerField("folder_count", h.folderCount)
    + IntegerField("root_count", h.rootCount) + IntegerField("total_bytes", h.totalBytes) + "}"
  }

  function KindName(kind: Kind): string { if kind == FileKind then "file" else "folder" }

  function BeforePath(id: string, e: Entry): (text: string)
    ensures '\n' !in text
  {
    Opening("manifest-entry", id) + IntegerField("size", e.size)
    + (if e.digest == "" then "" else Field("digest", Quoted(e.digest))) + ",\"path\":"
  }

  function AfterPath(e: Entry, a: Attributes): (text: string)
    ensures '\n' !in text
  {
    Field("kind", Quoted(KindName(e.kind))) + IntegerField("modified", a.modified)
    + FlagField("read_only", a.readOnly) + FlagField("hidden", a.hidden) + "}"
  }

  function EntryFrame(id: string, e: Entry, a: Attributes): (text: string)
    ensures '\n' !in text
  {
    BeforePath(id, e) + Quoted(Joined(e.path)) + AfterPath(e, a)
  }

  function OmissionFrame(id: string, omission: Omission): (text: string)
    ensures '\n' !in text
  {
    Opening("manifest-omission", id) + Field("reason", Quoted(omission.reason)) + Field("path", Quoted(Joined(omission.path))) + "}"
  }

  function EndFrame(id: string): (text: string)
    ensures '\n' !in text
  {
    Opening("offer-complete", id) + "}"
  }

  predicate Fits(frame: string) { Utf8Length(frame) + 1 <= MAXIMUM_FRAME_BYTES }

  predicate EntriesFit(id: string, entries: seq<Entry>, attributes: seq<Attributes>)
    requires |attributes| == |entries|
  {
    forall i | 0 <= i < |entries| :: Fits(EntryFrame(id, entries[i], attributes[i]))
  }

  predicate OmissionsFit(id: string, omissions: seq<Omission>) {
    forall i | 0 <= i < |omissions| :: Fits(OmissionFrame(id, omissions[i]))
  }

  /** The frames in the order in which they are sent. */
  function Frames(id: string, h: Header, entries: seq<Entry>, attributes: seq<Attributes>, omissions: seq<Omission>): seq<string>
    requires |attributes| == |entries|
  {
    [HeaderFrame(id, h)] + seq(|entries|, i requires 0 <= i < |entries| => EntryFrame(id, entries[i], attributes[i]))
    + seq(|omissions|, i requires 0 <= i < |omissions| => OmissionFrame(id, omissions[i])) + [EndFrame(id)]
  }

  predicate AllFit(frames: seq<string>) { forall i | 0 <= i < |frames| :: Fits(frames[i]) }

  // ---- lengths ----

  lemma {:induction false} Utf8LengthConcat(a: string, b: string)
    ensures Utf8Length(a + b) == Utf8Length(a) + Utf8Length(b)
  {
    if a == [] {
      assert a + b == b;
    } else {
      Utf8LengthConcat(a[1..], b);
      assert (a + b)[1..] == a[1..] + b;
    }
  }

  lemma {:induction false} Utf8LengthBounds(s: string)
    ensures |s| <= Utf8Length(s) <= 4 * |s|
  {
    if s != [] {
      Utf8LengthBounds(s[1..]);
    }
  }

  function Power(k: nat): nat { if k == 0 then 1 else 10 * Power(k - 1) }

  lemma {:induction false} DecimalLength(n: nat, k: nat)
    requires k > 0 && n < Power(k)
    ensures |Decimal(n)| <= k
    decreases k
  {
    if n >= 10 {
      DecimalLength(n / 10, k - 1);
    }
  }

  lemma IntegerLength(n: int)
    requires -0x8000_0000_0000_0000 <= n <= 0x7fff_ffff_ffff_ffff
    ensures |Integer(n)| <= 20
  {
    assert Power(19) == 10_000_000_000_000_000_000 by {
      assert Power(10) == 10_000_000_000;
    }
    DecimalLength(if n < 0 then -n else n, 19);
  }

  lemma PlainEscapes(s: string)
    requires forall i | 0 <= i < |s| :: Escape(s[i]) == [s[i]]
    ensures Escaped(s) == s
  {
    if s != [] {
      PlainEscapes(s[1..]);
    }
  }

  lemma HexEscapes(s: string)
    requires forall i | 0 <= i < |s| :: IsHex(s[i])
    ensures |Quoted(s)| == |s| + 2
  {
    PlainEscapes(s);
  }

  lemma OpeningLength(kind: string, id: string)
    requires OfferIdentifier(id)
    ensures |Opening(kind, id)| == |kind| + 56
  {
    HexEscapes(id);
  }

  lemma HeaderFits(id: string, h: Header)
    requires OfferIdentifier(id) && HeaderAcceptable(h)
    ensures Fits(HeaderFrame(id, h)) && Fits(EndFrame(id))
  {
    hide Opening, Integer;
    OpeningLength("offer", id);
    OpeningLength("offer-complete", id);
    IntegerLength(h.fileCount);
    IntegerLength(h.folderCount);
    IntegerLength(h.rootCount);
    IntegerLength(h.totalBytes);
    Utf8LengthBounds(HeaderFrame(id, h));
    Utf8LengthBounds(EndFrame(id));
  }

  lemma EntryParts(id: string, e: Entry, a: Attributes)
    ensures Utf8Length(EntryFrame(id, e, a))
         == Utf8Length(BeforePath(id, e)) + Utf8Length(Quoted(Joined(e.path))) + Utf8Length(AfterPath(e, a))
  {
    Utf8LengthConcat(BeforePath(id, e), Quoted(Joined(e.path)));
    Utf8LengthConcat(BeforePath(id, e) + Quoted(Joined(e.path)), AfterPath(e, a));
  }

  lemma QuotedLength(s: string)
    ensures Utf8Length(Quoted(s)) == Utf8Length(Escaped(s)) + 2
  {
    Utf8LengthConcat("\"", Escaped(s));
    Utf8LengthConcat("\"" + Escaped(s), "\"");
    assert Utf8Length("\"") == 1 by {
      assert "\""[1..] == "";
    }
  }

  lemma AroundPath(id: string, e: Entry, a: Attributes)
    requires OfferIdentifier(id) && EntryAcceptable(e)
    ensures |BeforePath(id, e)| <= 182 && |AfterPath(e, a)| <= 84
  {
    hide Opening, Integer, Quoted, Escaped, ValidManifestPath;
    OpeningLength("manifest-entry", id);
    IntegerLength(e.size);
    IntegerLength(a.modified);
    KindLength(e.kind);
    if e.digest != "" {
      HexEscapes(e.digest);
    }
  }

  lemma KindLength(kind: Kind)
    ensures |Quoted(KindName(kind))| <= 8
  {
    PlainEscapes(KindName(kind));
  }

  /** What `maxManifestPathBytes` is meant for: a valid path of characters that stand for
      themselves always leaves room for the rest of its frame. */
  lemma PlainPathsFit(id: string, e: Entry, a: Attributes)
    requires OfferIdentifier(id) && EntryAcceptable(e)
    requires forall i | 0 <= i < |Joined(e.path)| :: Escape(Joined(e.path)[i]) == [Joined(e.path)[i]]
    ensures Fits(EntryFrame(id, e, a))
  {
    hide BeforePath, AfterPath, Quoted, Utf8Length;
    EntryParts(id, e, a);
    QuotedLength(Joined(e.path));
    PlainEscapes(Joined(e.path));
    AroundPath(id, e, a);
    Utf8LengthBounds(BeforePath(id, e));
    Utf8LengthBounds(AfterPath(e, a));
  }

  // ---- going out and being accepted ----

  /** The receiver's answer to a whole offer, its identifier included. */
  ghost predicate OfferAccepted(fold: Fold, id: string, pending: set<string>, m: Manifest) {
    AcceptableIdentifier(id, pending) && ReceiverAccepts(fold, HeaderOf(m), m.entries, m.omissions)
  }

  lemma SenderIdentifiersAreAcceptable(id: string, pending: set<string>)
    requires OfferIdentifier(id) && id !in pending
    ensures AcceptableIdentifier(id, pending)
  {
  }

  /** All frames of a built offer fit and the offer is acceptable exactly when no selected
      root was itself omitted and each entry and omission fits its frame. */
  lemma OfferFitsIff(fold: Fold, selection: Selection, id: string, pending: set<string>, attributes: seq<Attributes>)
    requires Build(fold, selection).Ok? && OfferIdentifier(id) && id !in pending
    requires |attributes| == |Build(fold, selection).manifest.entries|
    ensures var m := Build(fold, selection).manifest;
            AllFit(Frames(id, HeaderOf(m), m.entries, attributes, m.omissions)) && OfferAccepted(fold, id, pending, m)
            <==> OmittedRoots(selection) == 0 && EntriesFit(id, m.entries, attributes) && OmissionsFit(id, m.omissions)
  {
    hide Fits, HeaderFrame, EntryFrame, OmissionFrame, EndFrame, ReceiverAccepts, ValidReceived, AcceptableIdentifier;
    var m := Build(fold, selection).manifest;
    SenderReceiverAgreement(fold, selection);
    SenderIdentifiersAreAcceptable(id, pending);
    if ReceiverAccepts(fold, HeaderOf(m), m.entries, m.omissions) {
      AcceptedHeader(fold, HeaderOf(m), m.entries, m.omissions);
    }
    if HeaderAcceptable(HeaderOf(m)) {
      HeaderFits(id, HeaderOf(m));
      AllFitIff(id, HeaderOf(m), m.entries, attributes, m.omissions);
    }
  }

  lemma AcceptedHeader(fold: Fold, h: Header, entries: seq<Entry>, omissions: seq<Omission>)
    requires ReceiverAccepts(fold, h, entries, omissions)
    ensures HeaderAcceptable(h)
  {
  }

  lemma AllFitIff(id: string, h: Header, entries: seq<Entry>, attributes: seq<Attributes>, omissions: seq<Omission>)
    requires |attributes| == |entries| && Fits(HeaderFrame(id, h)) && Fits(EndFrame(id))
    ensures AllFit(Frames(id, h, entries, attributes, omissions)) <==> EntriesFit(id, entries, attributes) && OmissionsFit(id, omissions)
  {
    hide Fits, HeaderFrame, EntryFrame, OmissionFrame, EndFrame;
    var frames := Frames(id, h, entries, attributes, omissions);
    forall i | 0 <= i < |entries| ensures frames[i + 1] == EntryFrame(id, entries[i], attributes[i]) {
    }
    forall i | 0 <= i < |omissions| ensures frames[|entries| + 1 + i] == OmissionFrame(id, omissions[i]) {
    }
  }

  // ---- a valid path that does not fit ----

  function Ampersands(n: nat): (s: string)
    ensures |s| == n && forall i | 0 <= i < n :: s[i] == '&'
  {
    if n == 0 then [] else ['&'] + Ampersands(n - 1)
  }

  const AMPERSANDS := Ampersands(255)

  lemma {:induction false} AmpersandLengths(s: string)
    requires forall i | 0 <= i < |s| :: s[i] == '&'
    ensures Utf8Length(s) == Utf16Length(s) == |s| && |Escaped(s)| == 6 * |s| && BaseName(s) == s
  {
    if s != [] {
      AmpersandLengths(s[1..]);
    }
  }

  lemma AmpersandsAreValid()
    ensures ValidComponent(AMPERSANDS)
  {
    hide ValidComponent;
    ManyAmpersandsAreValid(AMPERSANDS);
  }

  lemma ManyAmpersandsAreValid(s: string)
    requires |s| == 255 && forall i | 0 <= i < |s| :: s[i] == '&'
    ensures ValidComponent(s)
  {
    hide Utf8Length, Utf16Length, BaseName, WindowsReservedBase;
    AmpersandLengths(s);
    assert s[0] == '&';
    LongBaseIsFree(UpperAscii(s));
  }

  lemma LongBaseIsFree(base: string)
    requires |base| > 6
    ensures !WindowsReservedBase(base)
  {
  }

  lemma JoinedAmpersands(path: Path)
    requires 1 <= |path| <= 3 && forall i | 0 <= i < |path| :: path[i] == AMPERSANDS
    ensures |path| == 1 ==> Joined(path) == AMPERSANDS
    ensures |path| > 1 ==> Joined(path) == AMPERSANDS + "/" + Joined(path[1..])
  {
  }

  lemma {:induction false} DeepAmpersandLengths(path: Path)
    requires 1 <= |path| <= 3 && forall i | 0 <= i < |path| :: path[i] == AMPERSANDS
    ensures Utf8Length(Joined(path)) == Utf16Length(Joined(path)) == 256 * |path| - 1
    ensures |Escaped(Joined(path))| == 1531 * |path| - 1
    decreases |path|
  {
    hide Joined, Utf8Length, Utf16Length, Escaped, Ampersands;
    JoinedAmpersands(path);
    AmpersandLengths(AMPERSANDS);
    if |path| > 1 {
      DeepAmpersandLengths(path[1..]);
      JoinLengths(AMPERSANDS, Joined(path[1..]));
    }
  }

  lemma DeepAmpersandsAreValid(path: Path)
    requires 1 <= |path| <= 3 && forall i | 0 <= i < |path| :: path[i] == AMPERSANDS
    ensures ValidManifestPath(path)
  {
    hide ValidComponent, Joined, Utf8Length, Utf16Length;
    AmpersandsAreValid();
    DeepAmpersandLengths(path);
  }

  lemma SlashLengths()
    ensures Utf8Length("/") == Utf16Length("/") == 1 && |Escaped("/")| == 1
  {
    assert "/"[1..] == "";
  }

  lemma JoinLengths(a: string, b: string)
    ensures Utf8Length(a + "/" + b) == Utf8Length(a) + 1 + Utf8Length(b)
    ensures Utf16Length(a + "/" + b) == Utf16Length(a) + 1 + Utf16Length(b)
    ensures |Escaped(a + "/" + b)| == |Escaped(a)| + 1 + |Escaped(b)|
  {
    SlashLengths();
    Utf8LengthConcat(a, "/");
    Utf8LengthConcat(a + "/", b);
    Utf16LengthConcat(a, "/");
    Utf16LengthConcat(a + "/", b);
    EscapedConcat(a, "/");
    EscapedConcat(a + "/", b);
  }

  lemma {:induction false} Utf16LengthConcat(a: string, b: string)
    ensures Utf16Length(a + b) == Utf16Length(a) + Utf16Length(b)
  {
    if a == [] {
      assert a + b == b;
    } else {
      Utf16LengthConcat(a[1..], b);
      assert (a + b)[1..] == a[1..] + b;
    }
  }

  lemma EscapedFirst(s: string)
    requires s != []
    ensures Escaped(s) == Escape(s[0]) + Escaped(s[1..])
  {
    hide Escape;
  }

  lemma {:induction false} EscapedConcat(a: string, b: string)
    ensures Escaped(a + b) == Escaped(a) + Escaped(b)
  {
    hide Escape, Escaped;
    if a == [] {
      assert a + b == b;
      NothingEscaped();
    } else {
      EscapedConcat(a[1..], b);
      EscapedFirst(a);
      EscapedFirst(a + b);
      assert (a + b)[1..] == a[1..] + b;
    }
  }

  lemma NothingEscaped()
    ensures Escaped([]) == []
  {
  }

  /** A file under two folders, all three named by ampersands. */
  function DeepSelection(digest: LowerHexDigest): Selection {
    var file := Cons(AMPERSANDS, FileNode(1, digest), Nil);
    Root(AMPERSANDS, FolderNode(Some(Cons(AMPERSANDS, FolderNode(Some(file)), Nil))), Done)
  }

  function DeepManifest(digest: LowerHexDigest): Manifest {
    Manifest([AMPERSANDS],
             [Entry([AMPERSANDS], FolderKind, 0, ""), Entry([AMPERSANDS, AMPERSANDS], FolderKind, 0, ""),
              Entry([AMPERSANDS, AMPERSANDS, AMPERSANDS], FileKind, 1, digest)],
             [], 1, 2, 1)
  }

  lemma DeepSelectionIsBuilt(fold: Fold, digest: LowerHexDigest)
    ensures Build(fold, DeepSelection(digest)) == Ok(DeepManifest(digest))
  {
    hide ValidManifestPath;
    var a := AMPERSANDS;
    var one, two, three := [a], [a, a], [a, a, a];
    DeepAmpersandsAreValid(one);
    DeepAmpersandsAreValid(two);
    DeepAmpersandsAreValid(three);
    assert one + [a] == two && two + [a] == three;
    var named := EMPTY.(roots := [] + [a]);
    var first := AddFolder(named, one);
    var second := AddFolder(first, two);
    var last := second.(entries := second.entries + [Entry(three, FileKind, 1, digest)], fileCount := 1, totalBytes := 1);
    var file := Cons(a, FileNode(1, digest), Nil);
    assert Walk(fold, second, three, FileNode(1, digest)) == Ok(last);
    assert WalkChildren(fold, second, two, file, {}) == WalkChildren(fold, last, two, Nil, {} + {fold(a)}) == Ok(last);
    assert Walk(fold, first, two, FolderNode(Some(file))) == Ok(last);
    var folder := Cons(a, FolderNode(Some(file)), Nil);
    assert WalkChildren(fold, first, one, folder, {}) == WalkChildren(fold, last, one, Nil, {} + {fold(a)}) == Ok(last);
    assert Walk(fold, named, one, FolderNode(Some(folder))) == Ok(last);
    assert last == DeepManifest(digest);
    var selection := DeepSelection(digest);
    assert selection == Root(a, FolderNode(Some(folder)), Done);
    assert WalkSelection(fold, EMPTY, selection, {}) == WalkSelection(fold, last, Done, {} + {fold(a)}) == Ok(last);
  }

  lemma DeepPathIsTooLong(id: string, e: Entry, a: Attributes)
    requires |Escaped(Joined(e.path))| >= 4096
    ensures !Fits(EntryFrame(id, e, a))
  {
    hide Escaped, Joined, BeforePath, AfterPath, Quoted, EntryFrame, Utf8Length;
    EntryParts(id, e, a);
    QuotedLength(Joined(e.path));
    Utf8LengthBounds(Escaped(Joined(e.path)));
  }

  /** The sender builds this offer, its every path is valid, and it never goes out. */
  lemma AmpersandsDoNotFit(fold: Fold, digest: LowerHexDigest, id: string, attributes: seq<Attributes>)
    requires |attributes| == 3
    ensures var m := DeepManifest(digest);
            && Build(fold, DeepSelection(digest)) == Ok(m) && OmittedRoots(DeepSelection(digest)) == 0
            && ReceiverAccepts(fold, HeaderOf(m), m.entries, m.omissions)
            && !EntriesFit(id, m.entries, attributes)
  {
    hide ReceiverAccepts, EntryFrame, Fits, Escaped, Joined, Build;
    DeepSelectionIsBuilt(fold, digest);
    SenderReceiverAgreement(fold, DeepSelection(digest));
    NoneOmitted(digest);
    var e := DeepManifest(digest).entries[2];
    DeepAmpersandLengths(e.path);
    DeepPathIsTooLong(id, e, attributes[2]);
  }

  lemma NoneOmitted(digest: LowerHexDigest)
    ensures OmittedRoots(DeepSelection(digest)) == 0
  {
  }

  // ---- the frames of a file that was announced ----

  function ContentFrame(id: string, path: Path, size: nat, offset: nat): string {
    Opening("content", id) + IntegerField("size", size) + ",\"path\":" + Quoted(Joined(path)) + (IntegerField("offset", offset) + "}")
  }

  /** The completion of a file whose source has not changed. */
  function CompletionFrame(id: string, e: Entry, digest: string): string {
    Opening("complete", id) + IntegerField("size", e.size) + Field("digest", Quoted(digest)) + ",\"path\":"
    + Quoted(Joined(e.path)) + "}"
  }

  predicate Ascii(s: string) { forall i | 0 <= i < |s| :: s[i] as int < 0x80 }

  lemma {:induction false} AsciiLength(s: string)
    requires Ascii(s)
    ensures Utf8Length(s) == |s|
  {
    if s != [] {
      AsciiLength(s[1..]);
    }
  }

  lemma OpeningIsAscii(kind: string, id: string)
    requires OfferIdentifier(id) && Ascii(kind)
    ensures Ascii(Opening(kind, id))
  {
    hide Quoted, OfferIdentifier;
    IdentifierIsAscii(id);
  }

  lemma IdentifierIsAscii(id: string)
    requires OfferIdentifier(id)
    ensures Ascii(Quoted(id))
  {
    hide Escaped;
    PlainEscapes(id);
  }

  lemma IntegerFieldIsAscii(name: string, n: nat)
    requires Ascii(name)
    ensures Ascii(IntegerField(name, n))
  {
  }

  /** A frame's length around its path. */
  lemma AroundQuoted(before: string, path: Path, after: string)
    ensures Utf8Length(before + Quoted(Joined(path)) + after) == Utf8Length(before) + Utf8Length(Quoted(Joined(path))) + Utf8Length(after)
  {
    Utf8LengthConcat(before, Quoted(Joined(path)));
    Utf8LengthConcat(before + Quoted(Joined(path)), after);
  }

  lemma EntryIsLonger(id: string, e: Entry, a: Attributes)
    requires OfferIdentifier(id) && EntryAcceptable(e) && e.kind == FileKind
    ensures Utf8Length(BeforePath(id, e)) + Utf8Length(AfterPath(e, a)) >= 169 + |IntegerField("size", e.size)|
  {
    hide Opening, Integer, Quoted, Escaped, ValidManifestPath;
    OpeningLength("manifest-entry", id);
    HexEscapes(e.digest);
    PlainKind();
    Utf8LengthBounds(BeforePath(id, e));
    Utf8LengthBounds(AfterPath(e, a));
  }

  lemma PlainKind()
    ensures |Quoted(KindName(FileKind))| == 6
  {
    PlainEscapes("file");
  }

  /** Whatever was announced in a frame that fits can also be sent: its chunk headers and
      its completion fit too. */
  lemma AnnouncedFileFits(id: string, e: Entry, a: Attributes, size: nat, offset: nat, digest: string)
    requires OfferIdentifier(id) && EntryAcceptable(e) && e.kind == FileKind && Fits(EntryFrame(id, e, a))
    requires size <= 1024 * 1024 && offset <= e.size && IsHexDigest(digest)
    ensures Fits(ContentFrame(id, e.path, size, offset)) && Fits(CompletionFrame(id, e, digest))
  {
    hide BeforePath, AfterPath, EntryFrame, Joined, Utf8Length, ValidManifestPath;
    EntryParts(id, e, a);
    EntryIsLonger(id, e, a);
    ContentIsShort(id, size, offset);
    CompletionIsShort(id, e, digest);
    AroundQuoted(Opening("content", id) + IntegerField("size", size) + ",\"path\":", e.path, IntegerField("offset", offset) + "}");
    AroundQuoted(Opening("complete", id) + IntegerField("size", e.size) + Field("digest", Quoted(digest)) + ",\"path\":", e.path, "}");
  }

  lemma ContentIsShort(id: string, size: nat, offset: nat)
    requires OfferIdentifier(id) && size <= 1024 * 1024 && offset <= MAX_INT64
    ensures Utf8Length(Opening("content", id) + IntegerField("size", size) + ",\"path\":")
          + Utf8Length(IntegerField("offset", offset) + "}") <= 117
  {
    hide Opening, Integer, Decimal;
    OpeningLength("content", id);
    OpeningIsAscii("content", id);
    IntegerFieldIsAscii("size", size);
    IntegerFieldIsAscii("offset", offset);
    SizeLength(size);
    IntegerLength(offset);
    AsciiLength(Opening("content", id) + IntegerField("size", size) + ",\"path\":");
    AsciiLength(IntegerField("offset", offset) + "}");
  }

  lemma SizeLength(size: nat)
    requires size <= 1024 * 1024
    ensures |Integer(size)| <= 7
  {
    assert Power(7) == 10_000_000;
    DecimalLength(size, 7);
  }

  lemma CompletionIsShort(id: string, e: Entry, digest: string)
    requires OfferIdentifier(id) && 0 <= e.size && IsHexDigest(digest)
    ensures Utf8Length(Opening("complete", id) + IntegerField("size", e.size) + Field("digest", Quoted(digest)) + ",\"path\":")
          + Utf8Length("}") <= 149 + |IntegerField("size", e.size)|
  {
    hide Opening, Integer, IntegerField, Decimal;
    OpeningLength("complete", id);
    OpeningIsAscii("complete", id);
    IntegerFieldIsAscii("size", e.size);
    PlainEscapes(digest);
    assert Ascii(Field("digest", Quoted(digest)));
    AsciiLength(Opening("complete", id) + IntegerField("size", e.size) + Field("digest", Quoted(digest)) + ",\"path\":");
    AsciiLength("}");
  }
}
