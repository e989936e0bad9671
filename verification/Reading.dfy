/** What a receiver reads in a frame's text: the fields, and in them the message that was
    written into it. */
module Reading {
  import opened Names
  import opened Manifest
  import opened Validation
  import opened ConflictNames
  import opened Announcement

  // ---- a reader of JSON objects of strings, integers and flags ----

  datatype Json = Str(text: string) | Num(n: Int64) | Yes

  function HexValue(c: char): Option<nat> {
    if '0' <= c <= '9' then Some(c as int - '0' as int)
    else if 'a' <= c <= 'f' then Some(c as int - 'a' as int + 10)
    else if 'A' <= c <= 'F' then Some(c as int - 'A' as int + 10)
    else None
  }

  /** Four hexadecimal digits that stand for one character. */
  function FromHex(text: string): Option<char>
    requires |text| == 4
  {
    if exists i | 0 <= i < 4 :: HexValue(text[i]) == None then None
    else
      var code := 4096 * HexValue(text[0]).value + 256 * HexValue(text[1]).value + 16 * HexValue(text[2]).value + HexValue(text[3]).value;
      if 0xD800 <= code < 0xE000 then None else Some(code as char)
  }

  /** The next character of a string, its escape undone. */
  function ReadChar(text: string): (read: Option<(char, string)>)
    requires text != []
    ensures read.Some? ==> |read.value.1| < |text|
  {
    if text[0] != '\\' then Some((text[0], text[1..]))
    else if |text| < 2 then None
    else
      match text[1]
      case '"' => Some(('"', text[2..]))
      case '\\' => Some(('\\', text[2..]))
      case '/' => Some(('/', text[2..]))
      case 'b' => Some((8 as char, text[2..]))
      case 't' => Some((9 as char, text[2..]))
      case 'n' => Some((10 as char, text[2..]))
      case 'f' => Some((12 as char, text[2..]))
      case 'r' => Some((13 as char, text[2..]))
      case 'u' => if |text| < 6 || FromHex(text[2..6]) == None then None else Some((FromHex(text[2..6]).value, text[6..]))
      case _ => None
  }

  /** A string up to its closing quote, and what follows. */
  function ReadString(text: string): (read: Option<(string, string)>)
    ensures read.Some? ==> |read.value.1| < |text|
    decreases |text|
  {
    if text == [] then None
    else if text[0] == '"' then Some(([], text[1..]))
    else
      match ReadChar(text)
      case None => None
      case Some((c, rest)) =>
        (match ReadString(rest)
         case None => None
         case Some((s, rest')) => Some(([c] + s, rest')))
  }

  predicate IsDigit(c: char) { '0' <= c <= '9' }

  /** The digits at the front. */
  function Digits(text: string): (digits: string)
    ensures |digits| <= |text| && forall i | 0 <= i < |digits| :: IsDigit(digits[i])
  {
    if text == [] || !IsDigit(text[0]) then [] else [text[0]] + Digits(text[1..])
  }

  predicate IsInt64(n: int) { -0x8000_0000_0000_0000 <= n <= 0x7fff_ffff_ffff_ffff }

  /** An integer that the frame's fields can hold. */
  function ReadNumber(text: string): (read: Option<(Int64, string)>)
    ensures read.Some? ==> |read.value.1| < |text|
  {
    var negative := text != [] && text[0] == '-';
    var rest := if negative then text[1..] else text;
    var digits := Digits(rest);
    var n := if negative then 0 - Value(digits) else Value(digits);
    if digits == [] || !IsInt64(n) then None else Some((n, rest[|digits|..]))
  }

  function ReadValue(text: string): (read: Option<(Json, string)>)
    ensures read.Some? ==> |read.value.1| < |text|
  {
    if text == [] then None
    else if text[0] == '"' then
      match ReadString(text[1..])
      case None => None
      case Some((s, rest)) => Some((Str(s), rest))
    else if "true" <= text then Some((Yes, text[4..]))
    else
      match ReadNumber(text)
      case None => None
      case Some((n, rest)) => Some((Num(n), rest))
  }

  type Fields = seq<(string, Json)>

  function ReadFields(text: string): Option<Fields>
    decreases |text|
  {
    if text == [] || text[0] != '"' then None
    else
      match ReadString(text[1..])
      case None => None
      case Some((name, afterName)) =>
        if afterName == [] || afterName[0] != ':' then None
        else
          match ReadValue(afterName[1..])
          case None => None
          case Some((value, rest)) =>
            if rest == "}" then Some([(name, value)])
            else if rest == [] || rest[0] != ',' then None
            else
              match ReadFields(rest[1..])
              case None => None
              case Some(fields) => Some([(name, value)] + fields)
  }

  function ReadObject(text: string): Option<Fields> {
    if text == [] || text[0] != '{' then None else ReadFields(text[1..])
  }

  // ---- it reads what is written ----

  lemma LongEscapeIsRead(c: char, rest: string)
    requires |Escape(c)| == 6
    ensures Escape(c)[0] != '"' && ReadChar(Escape(c) + rest) == Some((c, rest))
  {
    HexIsRead(c);
    LongEscapeBegins(c);
    hide FromHex, Escape;
    var text := Escape(c) + rest;
    assert text[6..] == rest && text[2..6] == Escape(c)[2..6];
    assert text[0] == '\\' && text[1] == 'u';
  }

  lemma LongEscapeBegins(c: char)
    requires |Escape(c)| == 6
    ensures Escape(c)[0] == '\\' && Escape(c)[1] == 'u'
  {
  }

  lemma EscapeIsRead(c: char, rest: string)
    ensures Escape(c)[0] != '"' && ReadChar(Escape(c) + rest) == Some((c, rest))
  {
    hide FromHex;
    var text := Escape(c) + rest;
    if |Escape(c)| == 6 {
      LongEscapeIsRead(c, rest);
    } else {
      assert text[|Escape(c)|..] == rest;
      assert |Escape(c)| <= 2;
    }
  }

  lemma LowHexIsRead(code: nat)
    requires code < 128
    ensures FromHex("00" + [HexDigit(code / 16), HexDigit(code % 16)]) == Some(code as char)
  {
    assert HexValue(HexDigit(code / 16)) == Some(code / 16) && HexValue(HexDigit(code % 16)) == Some(code % 16);
  }

  lemma HexIsRead(c: char)
    requires |Escape(c)| == 6
    ensures FromHex(Escape(c)[2..6]) == Some(c)
  {
    if c as int < 128 {
      hide FromHex;
      LowHexIsRead(c as int);
      assert Escape(c)[2..6] == "00" + [HexDigit(c as int / 16), HexDigit(c as int % 16)];
    }
  }

  lemma {:induction false} StringIsRead(s: string, rest: string)
    ensures ReadString(Escaped(s) + "\"" + rest) == Some((s, rest))
  {
    hide Escape, ReadChar;
    var text := Escaped(s) + "\"" + rest;
    if s == [] {
      assert text == ['"'] + rest;
    } else {
      var more := Escaped(s[1..]) + "\"" + rest;
      EscapeIsRead(s[0], more);
      StringIsRead(s[1..], rest);
      EscapedFirst(s);
      assert text == Escape(s[0]) + more;
      assert text[0] == Escape(s[0])[0];
      assert s == [s[0]] + s[1..];
    }
  }

  lemma {:induction false} DigitsAreRead(digits: string, rest: string)
    requires (forall i | 0 <= i < |digits| :: IsDigit(digits[i])) && (rest != [] ==> !IsDigit(rest[0]))
    ensures Digits(digits + rest) == digits
  {
    if digits == [] {
      assert digits + rest == rest;
    } else {
      DigitsAreRead(digits[1..], rest);
      assert (digits + rest)[1..] == digits[1..] + rest;
    }
  }

  lemma NaturalIsRead(n: nat, rest: string)
    requires rest != [] ==> !IsDigit(rest[0])
    ensures Digits(Decimal(n) + rest) == Decimal(n) != [] && Value(Decimal(n)) == n && IsDigit(Decimal(n)[0])
  {
    hide Value, Digits, Decimal;
    DecimalWrites(n);
    DigitsAreRead(Decimal(n), rest);
  }

  lemma NegativeIsRead(size: nat, rest: string)
    requires 0 < size <= 0x8000_0000_0000_0000 && (rest != [] ==> !IsDigit(rest[0]))
    ensures ReadNumber("-" + Decimal(size) + rest) == Some((0 - size, rest))
  {
    hide Value, Digits, Decimal;
    NaturalIsRead(size, rest);
    var text := "-" + Decimal(size) + rest;
    assert text[0] == '-' && text[1..] == Decimal(size) + rest;
    assert (Decimal(size) + rest)[|Decimal(size)|..] == rest;
  }

  lemma PositiveIsRead(size: nat, rest: string)
    requires size <= 0x7fff_ffff_ffff_ffff && (rest != [] ==> !IsDigit(rest[0]))
    ensures ReadNumber(Decimal(size) + rest) == Some((size, rest))
  {
    hide Value, Digits, Decimal;
    NaturalIsRead(size, rest);
    var text := Decimal(size) + rest;
    assert text[0] == Decimal(size)[0] && text[|Decimal(size)|..] == rest;
  }

  lemma IntegerIsRead(n: Int64, rest: string)
    requires rest != [] ==> !IsDigit(rest[0])
    ensures ReadNumber(Integer(n) + rest) == Some((n, rest)) && Integer(n)[0] != '"' && Integer(n)[0] != 't'
  {
    hide Value, Digits, Decimal, ReadNumber;
    var m: int := n;
    if m < 0 {
      NegativeIsRead(-m, rest);
    } else {
      PositiveIsRead(m, rest);
      NaturalIsRead(m, rest);
    }
  }

  function ValueText(value: Json): string {
    match value
    case Str(text) => Quoted(text)
    case Num(n) => Integer(n)
    case Yes => "true"
  }

  lemma ValueIsRead(value: Json, rest: string)
    requires rest != [] ==> !IsDigit(rest[0])
    ensures ReadValue(ValueText(value) + rest) == Some((value, rest))
  {
    hide ReadString, ReadNumber, Escaped, Integer;
    var text := ValueText(value) + rest;
    match value
    case Str(s) =>
      StringIsRead(s, rest);
      assert text[1..] == Escaped(s) + "\"" + rest;
    case Num(n) => IntegerIsRead(n, rest);
    case Yes => assert text[4..] == rest;
  }

  /** A name that needs no escapes. */
  predicate IsPlain(name: string) { Escaped(name) == name }

  ghost predicate ArePlain(fields: Fields) { forall i | 0 <= i < |fields| :: IsPlain(fields[i].0) }

  /** The fields after the first one, each with its comma. */
  function MoreFields(fields: Fields): string {
    if fields == [] then "" else Field(fields[0].0, ValueText(fields[0].1)) + MoreFields(fields[1..])
  }

  function ObjectText(fields: Fields): string
    requires fields != []
  {
    "{\"" + fields[0].0 + "\":" + ValueText(fields[0].1) + MoreFields(fields[1..]) + "}"
  }

  lemma {:induction false} FieldsAreRead(fields: Fields)
    requires fields != [] && ArePlain(fields)
    ensures ReadFields("\"" + fields[0].0 + "\":" + ValueText(fields[0].1) + MoreFields(fields[1..]) + "}") == Some(fields)
    decreases |fields|
  {
    hide ReadValue, ReadString, ValueText, IsPlain;
    var name, value, rest := fields[0].0, fields[0].1, MoreFields(fields[1..]) + "}";
    var text := "\"" + name + "\":" + ValueText(value) + MoreFields(fields[1..]) + "}";
    NameIsRead(name, ":" + ValueText(value) + rest);
    assert text[1..] == name + "\"" + (":" + ValueText(value) + rest);
    assert (":" + ValueText(value) + rest)[1..] == ValueText(value) + rest;
    MoreBegin(fields[1..]);
    ValueIsRead(value, rest);
    if |fields| > 1 {
      FieldsAreRead(fields[1..]);
      assert rest[1..] == "\"" + fields[1].0 + "\":" + ValueText(fields[1].1) + MoreFields(fields[1..][1..]) + "}";
      assert fields == [(name, value)] + fields[1..];
    } else {
      assert fields == [(name, value)];
    }
  }

  lemma NameIsRead(name: string, rest: string)
    requires IsPlain(name)
    ensures ReadString(name + "\"" + rest) == Some((name, rest))
  {
    StringIsRead(name, rest);
  }

  lemma MoreBegin(fields: Fields)
    ensures var rest := MoreFields(fields) + "}";
            rest != [] && !IsDigit(rest[0]) && (if fields == [] then rest == "}" else rest[0] == ',' && rest != "}")
  {
    hide ValueText;
    if fields != [] {
      assert |Field(fields[0].0, ValueText(fields[0].1))| > 1;
    }
  }

  lemma ObjectIsRead(fields: Fields)
    requires fields != [] && ArePlain(fields)
    ensures ReadObject(ObjectText(fields)) == Some(fields)
  {
    hide ReadFields, ValueText, MoreFields;
    FieldsAreRead(fields);
    assert ObjectText(fields)[1..] == "\"" + fields[0].0 + "\":" + ValueText(fields[0].1) + MoreFields(fields[1..]) + "}";
  }

  // ---- what a frame says ----

  datatype Said =
    | Offers(id: string, header: Header)
    | Lists(id: string, entry: Entry, attributes: Attributes)
    | Omits(id: string, omission: Omission)
    | Ends(id: string)
    | Carries(id: string, path: Path, size: Int64, offset: Int64)
    | Completes(id: string, path: Path, size: Int64, digest: string)

  function Find(fields: Fields, name: string): Option<Json> {
    if fields == [] then None else if fields[0].0 == name then Some(fields[0].1) else Find(fields[1..], name)
  }

  /** Fields left out are empty, zero or false. */
  function TextIn(fields: Fields, name: string): string {
    match Find(fields, name)
    case Some(Str(text)) => text
    case _ => ""
  }

  function NumberIn(fields: Fields, name: string): Int64 {
    match Find(fields, name)
    case Some(Num(n)) => n
    case _ => 0
  }

  function FlagIn(fields: Fields, name: string): bool { Find(fields, name) == Some(Yes) }

  /** The components between the slashes. */
  function Split(text: string): (path: Path)
    ensures path != []
  {
    if text == [] then [""]
    else
      var rest := Split(text[1..]);
      if text[0] == '/' then [""] + rest else [[text[0]] + rest[0]] + rest[1..]
  }

  function Understood(fields: Fields): Option<Said> {
    var id, path := TextIn(fields, "offer_id"), Split(TextIn(fields, "path"));
    var size := NumberIn(fields, "size");
    if TextIn(fields, "type") == "offer" then
      Some(Offers(id, Header(NumberIn(fields, "root_count"), NumberIn(fields, "file_count"), NumberIn(fields, "folder_count"),
                             NumberIn(fields, "total_bytes"))))
    else if TextIn(fields, "type") == "manifest-entry" then
      var attributes := Attributes(NumberIn(fields, "modified"), FlagIn(fields, "read_only"), FlagIn(fields, "hidden"));
      if TextIn(fields, "kind") == "file" then Some(Lists(id, Entry(path, FileKind, size, TextIn(fields, "digest")), attributes))
      else if TextIn(fields, "kind") == "folder" then Some(Lists(id, Entry(path, FolderKind, size, TextIn(fields, "digest")), attributes))
      else None
    else if TextIn(fields, "type") == "manifest-omission" then Some(Omits(id, Omission(path, TextIn(fields, "reason"))))
    else if TextIn(fields, "type") == "offer-complete" then Some(Ends(id))
    else if TextIn(fields, "type") == "content" then Some(Carries(id, path, size, NumberIn(fields, "offset")))
    else if TextIn(fields, "type") == "complete" then Some(Completes(id, path, size, TextIn(fields, "digest")))
    else None
  }

  function Says(frame: string): Option<Said> {
    match ReadObject(frame)
    case None => None
    case Some(fields) => Understood(fields)
  }

  // ---- the frames, field by field ----

  function Number(name: string, n: Int64): Fields { if n == 0 then [] else [(name, Num(n))] }

  function Words(name: string, text: string): Fields { if text == "" then [] else [(name, Str(text))] }

  function Flag(name: string, b: bool): Fields { if b then [(name, Yes)] else [] }

  function Opened(kind: string, id: string): Fields { [("type", Str(kind)), ("offer_id", Str(id))] }

  lemma {:induction false} MoreFieldsConcat(a: Fields, b: Fields)
    ensures MoreFields(a + b) == MoreFields(a) + MoreFields(b)
  {
    hide ValueText, Field;
    if a == [] {
      assert a + b == b;
    } else {
      MoreFieldsConcat(a[1..], b);
      FirstField(a);
      FirstField(a + b);
      assert (a + b)[1..] == a[1..] + b;
    }
  }

  lemma FirstField(fields: Fields)
    requires fields != []
    ensures MoreFields(fields) == Field(fields[0].0, ValueText(fields[0].1)) + MoreFields(fields[1..])
  {
    hide ValueText, Field;
  }

  lemma OneField(name: string, value: Json)
    ensures MoreFields([(name, value)]) == Field(name, ValueText(value)) && MoreFields([]) == ""
  {
    hide ValueText;
    var one := [(name, value)];
    assert one[1..] == [];
    assert MoreFields(one) == Field(name, ValueText(value)) + MoreFields([]);
  }

  lemma PlainText(s: string)
    requires forall i | 0 <= i < |s| :: Escape(s[i]) == [s[i]]
    ensures IsPlain(s) && Quoted(s) == "\"" + s + "\""
  {
    PlainEscapes(s);
  }

  lemma TypeText(kind: string, more: Fields)
    requires forall i | 0 <= i < |kind| :: Escape(kind[i]) == [kind[i]]
    ensures ObjectText([("type", Str(kind))] + more) == "{\"type\":\"" + kind + "\"" + MoreFields(more) + "}"
  {
    hide Escape, Escaped, MoreFields;
    PlainText(kind);
    assert ([("type", Str(kind))] + more)[1..] == more;
  }

  /** The beginning of a frame, and whatever follows its identifier. */
  lemma OpenedText(kind: string, id: string, more: Fields)
    requires forall i | 0 <= i < |kind| :: Escape(kind[i]) == [kind[i]]
    ensures ObjectText(Opened(kind, id) + more) == Opening(kind, id) + MoreFields(more) + "}"
  {
    hide Escape, Escaped, MoreFields, ObjectText, Field;
    var named := [("offer_id", Str(id))];
    assert Opened(kind, id) + more == [("type", Str(kind))] + (named + more);
    TypeText(kind, named + more);
    MoreFieldsConcat(named, more);
    OneField("offer_id", Str(id));
  }

  lemma NumberText(name: string, n: Int64)
    ensures MoreFields(Number(name, n)) == IntegerField(name, n)
  {
    OneField(name, Num(n));
  }

  lemma FlagText(name: string, b: bool)
    ensures MoreFields(Flag(name, b)) == FlagField(name, b)
  {
    OneField(name, Yes);
  }

  /** The sender's counts are integers of this width. */
  predicate CountsFit(h: Header) { IsInt64(h.fileCount) && IsInt64(h.folderCount) && IsInt64(h.rootCount) }

  function CountFields(h: Header): Fields
    requires CountsFit(h)
  {
    Number("file_count", h.fileCount) + Number("folder_count", h.folderCount)
  }

  function TotalFields(h: Header): Fields
    requires CountsFit(h)
  {
    Number("root_count", h.rootCount) + Number("total_bytes", h.totalBytes)
  }

  function HeaderFields(id: string, h: Header): Fields
    requires CountsFit(h)
  {
    Opened("offer", id) + (CountFields(h) + TotalFields(h))
  }

  lemma TwoNumbersText(a: string, m: Int64, b: string, n: Int64)
    ensures MoreFields(Number(a, m) + Number(b, n)) == IntegerField(a, m) + IntegerField(b, n)
  {
    hide MoreFields, IntegerField, Number;
    MoreFieldsConcat(Number(a, m), Number(b, n));
    NumberText(a, m);
    NumberText(b, n);
  }

  lemma HeaderText(id: string, h: Header)
    requires CountsFit(h)
    ensures HeaderFrame(id, h) == ObjectText(HeaderFields(id, h))
  {
    hide MoreFields, Opening, IntegerField, ObjectText, Number, Opened;
    OpenedText("offer", id, CountFields(h) + TotalFields(h));
    MoreFieldsConcat(CountFields(h), TotalFields(h));
    TwoNumbersText("file_count", h.fileCount, "folder_count", h.folderCount);
    TwoNumbersText("root_count", h.rootCount, "total_bytes", h.totalBytes);
  }

  function PathFields(e: Entry): Fields { Number("size", e.size) + Words("digest", e.digest) + [("path", Str(Joined(e.path)))] }

  function KindFields(e: Entry, a: Attributes): Fields { [("kind", Str(KindName(e.kind)))] + Number("modified", a.modified) }

  function FlagFields(a: Attributes): Fields { Flag("read_only", a.readOnly) + Flag("hidden", a.hidden) }

  function EntryFields(id: string, e: Entry, a: Attributes): Fields {
    Opened("manifest-entry", id) + (PathFields(e) + (KindFields(e, a) + FlagFields(a)))
  }

  lemma WordsText(name: string, text: string)
    ensures MoreFields(Words(name, text)) == if text == "" then "" else Field(name, Quoted(text))
  {
    OneField(name, Str(text));
  }

  lemma PathFieldsText(e: Entry)
    ensures MoreFields(PathFields(e)) == IntegerField("size", e.size) + (if e.digest == "" then "" else Field("digest", Quoted(e.digest)))
                                         + Field("path", Quoted(Joined(e.path)))
  {
    hide MoreFields, IntegerField, Number, Words, Quoted, Joined, Field;
    var path := [("path", Str(Joined(e.path)))];
    MoreFieldsConcat(Number("size", e.size) + Words("digest", e.digest), path);
    MoreFieldsConcat(Number("size", e.size), Words("digest", e.digest));
    NumberText("size", e.size);
    WordsText("digest", e.digest);
    OneField("path", Str(Joined(e.path)));
  }

  lemma AfterPathText(e: Entry, a: Attributes)
    ensures MoreFields(KindFields(e, a) + FlagFields(a)) + "}" == AfterPath(e, a)
  {
    hide MoreFields, IntegerField, FlagField, Number, Flag, Quoted, Field;
    MoreFieldsConcat(KindFields(e, a), FlagFields(a));
    MoreFieldsConcat([("kind", Str(KindName(e.kind)))], Number("modified", a.modified));
    MoreFieldsConcat(Flag("read_only", a.readOnly), Flag("hidden", a.hidden));
    OneField("kind", Str(KindName(e.kind)));
    NumberText("modified", a.modified);
    FlagText("read_only", a.readOnly);
    FlagText("hidden", a.hidden);
  }

  lemma BeforePathText(id: string, e: Entry)
    ensures BeforePath(id, e) + Quoted(Joined(e.path)) == Opening("manifest-entry", id) + MoreFields(PathFields(e))
  {
    hide MoreFields, Opening, IntegerField, Quoted, Joined, PathFields;
    PathFieldsText(e);
  }

  lemma EntryText(id: string, e: Entry, a: Attributes)
    ensures EntryFrame(id, e, a) == ObjectText(EntryFields(id, e, a))
  {
    hide MoreFields, Opening, ObjectText, Quoted, Joined, Opened, BeforePath, AfterPath, PathFields, KindFields, FlagFields;
    OpenedText("manifest-entry", id, PathFields(e) + (KindFields(e, a) + FlagFields(a)));
    MoreFieldsConcat(PathFields(e), KindFields(e, a) + FlagFields(a));
    BeforePathText(id, e);
    AfterPathText(e, a);
  }

  function OmissionFields(id: string, omission: Omission): Fields {
    Opened("manifest-omission", id) + ([("reason", Str(omission.reason))] + [("path", Str(Joined(omission.path)))])
  }

  lemma OmissionText(id: string, omission: Omission)
    ensures OmissionFrame(id, omission) == ObjectText(OmissionFields(id, omission))
  {
    hide MoreFields, Opening, ObjectText, Quoted, Joined, Opened;
    OpenedText("manifest-omission", id, [("reason", Str(omission.reason))] + [("path", Str(Joined(omission.path)))]);
    MoreFieldsConcat([("reason", Str(omission.reason))], [("path", Str(Joined(omission.path)))]);
    OneField("reason", Str(omission.reason));
    OneField("path", Str(Joined(omission.path)));
  }

  lemma EndText(id: string)
    ensures EndFrame(id) == ObjectText(Opened("offer-complete", id))
  {
    hide Opening, ObjectText, Opened;
    OpenedText("offer-complete", id, []);
    assert Opened("offer-complete", id) + [] == Opened("offer-complete", id);
    OneField("", Yes);
  }

  // ---- what is found in the fields ----

  ghost predicate FindsLike(fields: Fields, a: Fields, b: Fields) {
    forall name :: Find(fields, name) == if Find(a, name).Some? then Find(a, name) else Find(b, name)
  }

  lemma {:induction false} FindConcat(a: Fields, b: Fields)
    ensures FindsLike(a + b, a, b)
  {
    if a == [] {
      assert a + b == b;
    } else {
      FindConcat(a[1..], b);
      assert (a + b)[1..] == a[1..] + b;
      assert FindsLike(a[1..] + b, a[1..], b);
    }
  }

  ghost predicate FindsOnly(fields: Fields, name: string, value: Option<Json>) {
    forall other :: Find(fields, other) == if other == name then value else None
  }

  lemma PartsFound(name: string, n: Int64, text: string, b: bool, value: Json)
    ensures FindsOnly(Number(name, n), name, if n == 0 then None else Some(Num(n)))
    ensures FindsOnly(Words(name, text), name, if text == "" then None else Some(Str(text)))
    ensures FindsOnly(Flag(name, b), name, if b then Some(Yes) else None)
    ensures FindsOnly([(name, value)], name, Some(value))
  {
  }

  lemma OpenedFound(kind: string, id: string)
    ensures forall name :: Find(Opened(kind, id), name) ==
              if name == "type" then Some(Str(kind)) else if name == "offer_id" then Some(Str(id)) else None
  {
    hide Find;
    assert Opened(kind, id) == [("type", Str(kind))] + [("offer_id", Str(id))];
    FindConcat([("type", Str(kind))], [("offer_id", Str(id))]);
    PartsFound("type", 0, "", false, Str(kind));
    PartsFound("offer_id", 0, "", false, Str(id));
  }

  lemma NamesDiffer()
    ensures "type" != "size" && "type" != "path" && "type" != "kind" && "size" != "path" && "size" != "kind" && "path" != "kind"
    ensures "digest" != "hidden" && "digest" != "reason" && "hidden" != "reason" && "offer_id" != "modified"
    ensures "file_count" != "root_count" && "folder_count" != "total_bytes"
  {
    assert "type"[0] == 't' && "size"[0] == 's' && "path"[0] == 'p' && "kind"[0] == 'k';
    assert "digest"[0] == 'd' && "hidden"[0] == 'h' && "reason"[0] == 'r' && "offer_id"[0] == 'o' && "modified"[0] == 'm';
    assert "file_count"[0] == 'f' && "root_count"[0] == 'r';
  }

  lemma TwoNumbersFound(a: string, m: Int64, b: string, n: Int64)
    requires a != b
    ensures forall name :: Find(Number(a, m) + Number(b, n), name) ==
              if name == a && m != 0 then Some(Num(m)) else if name == b && n != 0 then Some(Num(n)) else None
  {
    hide Find, Number;
    FindConcat(Number(a, m), Number(b, n));
    PartsFound(a, m, "", false, Yes);
    PartsFound(b, n, "", false, Yes);
  }

  lemma HeaderLookup(id: string, h: Header, name: string)
    requires CountsFit(h)
    ensures Find(HeaderFields(id, h), name) ==
              if name == "type" then Some(Str("offer")) else if name == "offer_id" then Some(Str(id))
              else if name == "file_count" && h.fileCount != 0 then Some(Num(h.fileCount))
              else if name == "folder_count" && h.folderCount != 0 then Some(Num(h.folderCount))
              else if name == "root_count" && h.rootCount != 0 then Some(Num(h.rootCount))
              else if name == "total_bytes" && h.totalBytes != 0 then Some(Num(h.totalBytes))
              else None
  {
    hide Find, Number, Opened;
    NamesDiffer();
    OpenedFound("offer", id);
    FindConcat(Opened("offer", id), CountFields(h) + TotalFields(h));
    FindConcat(CountFields(h), TotalFields(h));
    TwoNumbersFound("file_count", h.fileCount, "folder_count", h.folderCount);
    TwoNumbersFound("root_count", h.rootCount, "total_bytes", h.totalBytes);
  }

  lemma HeaderFound(id: string, h: Header)
    requires CountsFit(h)
    ensures var fields := HeaderFields(id, h);
            && TextIn(fields, "type") == "offer" && TextIn(fields, "offer_id") == id
            && NumberIn(fields, "file_count") == h.fileCount && NumberIn(fields, "folder_count") == h.folderCount
            && NumberIn(fields, "root_count") == h.rootCount && NumberIn(fields, "total_bytes") == h.totalBytes
  {
    hide Find, HeaderFields;
    NamesDiffer();
    HeaderLookup(id, h, "type");
    HeaderLookup(id, h, "offer_id");
    HeaderLookup(id, h, "file_count");
    HeaderLookup(id, h, "folder_count");
    HeaderLookup(id, h, "root_count");
    HeaderLookup(id, h, "total_bytes");
  }

  lemma PathFieldsFound(e: Entry)
    ensures forall name :: Find(PathFields(e), name) ==
              if name == "size" && e.size != 0 then Some(Num(e.size))
              else if name == "digest" && e.digest != "" then Some(Str(e.digest))
              else if name == "path" then Some(Str(Joined(e.path)))
              else None
  {
    hide Find, Number, Words, Joined;
    NamesDiffer();
    FindConcat(Number("size", e.size) + Words("digest", e.digest), [("path", Str(Joined(e.path)))]);
    FindConcat(Number("size", e.size), Words("digest", e.digest));
    PartsFound("size", e.size, "", false, Yes);
    PartsFound("digest", 0, e.digest, false, Yes);
    PartsFound("path", 0, "", false, Str(Joined(e.path)));
  }

  lemma OtherFieldsFound(e: Entry, a: Attributes)
    ensures forall name :: Find(KindFields(e, a) + FlagFields(a), name) ==
              if name == "kind" then Some(Str(KindName(e.kind)))
              else if name == "modified" && a.modified != 0 then Some(Num(a.modified))
              else if name == "read_only" && a.readOnly then Some(Yes)
              else if name == "hidden" && a.hidden then Some(Yes)
              else None
  {
    hide Find, Number, Flag;
    NamesDiffer();
    FindConcat(KindFields(e, a), FlagFields(a));
    FindConcat([("kind", Str(KindName(e.kind)))], Number("modified", a.modified));
    FindConcat(Flag("read_only", a.readOnly), Flag("hidden", a.hidden));
    PartsFound("kind", 0, "", false, Str(KindName(e.kind)));
    PartsFound("modified", a.modified, "", false, Yes);
    PartsFound("read_only", 0, "", a.readOnly, Yes);
    PartsFound("hidden", 0, "", a.hidden, Yes);
  }

  lemma EntryLookup(id: string, e: Entry, a: Attributes, name: string)
    ensures Find(EntryFields(id, e, a), name) ==
              if name == "type" then Some(Str("manifest-entry")) else if name == "offer_id" then Some(Str(id))
              else if Find(PathFields(e), name).Some? then Find(PathFields(e), name)
              else Find(KindFields(e, a) + FlagFields(a), name)
  {
    hide Find, Opened, PathFields, KindFields, FlagFields;
    OpenedFound("manifest-entry", id);
    FindConcat(Opened("manifest-entry", id), PathFields(e) + (KindFields(e, a) + FlagFields(a)));
    FindConcat(PathFields(e), KindFields(e, a) + FlagFields(a));
  }

  lemma EntryNumbersFound(id: string, e: Entry, a: Attributes)
    ensures var fields := EntryFields(id, e, a);
            && NumberIn(fields, "size") == e.size && NumberIn(fields, "modified") == a.modified
            && FlagIn(fields, "read_only") == a.readOnly && FlagIn(fields, "hidden") == a.hidden
  {
    hide Find, EntryFields, PathFields, KindFields, FlagFields, Joined;
    NamesDiffer();
    PathFieldsFound(e);
    OtherFieldsFound(e, a);
    EntryLookup(id, e, a, "size");
    EntryLookup(id, e, a, "modified");
    EntryLookup(id, e, a, "read_only");
    EntryLookup(id, e, a, "hidden");
  }

  lemma EntryTextsFound(id: string, e: Entry, a: Attributes)
    ensures var fields := EntryFields(id, e, a);
            && TextIn(fields, "type") == "manifest-entry" && TextIn(fields, "offer_id") == id
            && TextIn(fields, "digest") == e.digest && TextIn(fields, "path") == Joined(e.path)
            && TextIn(fields, "kind") == KindName(e.kind)
  {
    hide Find, EntryFields, PathFields, KindFields, FlagFields, Joined;
    NamesDiffer();
    PathFieldsFound(e);
    OtherFieldsFound(e, a);
    EntryLookup(id, e, a, "type");
    EntryLookup(id, e, a, "offer_id");
    EntryLookup(id, e, a, "digest");
    EntryLookup(id, e, a, "path");
    EntryLookup(id, e, a, "kind");
  }

  lemma OmissionLookup(id: string, omission: Omission, name: string)
    ensures Find(OmissionFields(id, omission), name) ==
              if name == "type" then Some(Str("manifest-omission")) else if name == "offer_id" then Some(Str(id))
              else if name == "reason" then Some(Str(omission.reason))
              else if name == "path" then Some(Str(Joined(omission.path))) else None
  {
    hide Find, Opened, Joined;
    var reason, path := [("reason", Str(omission.reason))], [("path", Str(Joined(omission.path)))];
    OpenedFound("manifest-omission", id);
    FindConcat(Opened("manifest-omission", id), reason + path);
    FindConcat(reason, path);
    PartsFound("reason", 0, "", false, Str(omission.reason));
    PartsFound("path", 0, "", false, Str(Joined(omission.path)));
  }

  lemma OmissionFound(id: string, omission: Omission)
    ensures var fields := OmissionFields(id, omission);
            && TextIn(fields, "type") == "manifest-omission" && TextIn(fields, "offer_id") == id
            && TextIn(fields, "reason") == omission.reason && TextIn(fields, "path") == Joined(omission.path)
  {
    hide Find, OmissionFields, Joined;
    NamesDiffer();
    OmissionLookup(id, omission, "type");
    OmissionLookup(id, omission, "offer_id");
    OmissionLookup(id, omission, "reason");
    OmissionLookup(id, omission, "path");
  }

  // ---- the frames are understood ----

  /** The components of a path that its text keeps apart. */
  predicate IsSplittable(path: Path) { path != [] && forall i | 0 <= i < |path| :: '/' !in path[i] }

  lemma {:induction false} PathIsSplit(path: Path)
    requires IsSplittable(path)
    ensures Split(Joined(path)) == path
    decreases |path|
  {
    if |path| == 1 {
      OneComponent(path[0], "");
      assert path[0] + "" == path[0] && path == [path[0]];
    } else {
      PathIsSplit(path[1..]);
      var rest := "/" + Joined(path[1..]);
      OneComponent(path[0], rest);
      assert Joined(path) == path[0] + rest;
      assert rest[0] == '/' && rest[1..] == Joined(path[1..]);
      assert Split(rest) == [""] + path[1..];
      assert path[0] + "" == path[0];
      assert path == [path[0]] + path[1..];
    }
  }

  lemma {:induction false} OneComponent(name: string, rest: string)
    requires '/' !in name
    ensures Split(name + rest) == [name + Split(rest)[0]] + Split(rest)[1..]
  {
    if name == [] {
      assert name + rest == rest && name + Split(rest)[0] == Split(rest)[0];
      assert Split(rest) == [Split(rest)[0]] + Split(rest)[1..];
    } else {
      OneComponent(name[1..], rest);
      var text := name + rest;
      assert text[0] == name[0] && text[1..] == name[1..] + rest;
      assert Split(text) == [[name[0]] + (name[1..] + Split(rest)[0])] + Split(rest)[1..];
      assert name + Split(rest)[0] == [name[0]] + (name[1..] + Split(rest)[0]);
    }
  }

  lemma ValidPathIsSplittable(path: Path)
    requires ValidManifestPath(path)
    ensures IsSplittable(path)
  {
    hide Utf8Length, Utf16Length, WindowsReservedBase, Joined;
    forall i | 0 <= i < |path| ensures '/' !in path[i] {
      assert ValidComponent(path[i]);
    }
  }

  lemma PlainTogether(a: Fields, b: Fields)
    requires ArePlain(a) && ArePlain(b)
    ensures ArePlain(a + b)
  {
  }

  lemma OnePlain(name: string, n: Int64, text: string, b: bool, value: Json)
    requires forall j | 0 <= j < |name| :: 'a' <= name[j] <= 'z' || name[j] == '_'
    ensures ArePlain(Number(name, n)) && ArePlain(Words(name, text)) && ArePlain(Flag(name, b)) && ArePlain([(name, value)])
  {
    PlainEscapes(name);
  }

  lemma OpenedIsPlain(kind: string, id: string)
    ensures ArePlain(Opened(kind, id))
  {
    hide IsPlain;
    OnePlain("type", 0, "", false, Str(kind));
    OnePlain("offer_id", 0, "", false, Str(id));
    assert Opened(kind, id) == [("type", Str(kind))] + [("offer_id", Str(id))];
  }

  lemma HeaderIsPlain(id: string, h: Header)
    requires CountsFit(h)
    ensures ArePlain(HeaderFields(id, h))
  {
    hide IsPlain, Number, Opened;
    OpenedIsPlain("offer", id);
    OnePlain("file_count", h.fileCount, "", false, Yes);
    OnePlain("folder_count", h.folderCount, "", false, Yes);
    OnePlain("root_count", h.rootCount, "", false, Yes);
    OnePlain("total_bytes", h.totalBytes, "", false, Yes);
  }

  lemma EntryIsPlain(id: string, e: Entry, a: Attributes)
    ensures ArePlain(EntryFields(id, e, a))
  {
    hide IsPlain, Number, Words, Flag, Opened, Joined, ArePlain;
    OpenedIsPlain("manifest-entry", id);
    OnePlain("size", e.size, "", false, Yes);
    OnePlain("digest", 0, e.digest, false, Yes);
    OnePlain("path", 0, "", false, Str(Joined(e.path)));
    OnePlain("kind", 0, "", false, Str(KindName(e.kind)));
    OnePlain("modified", a.modified, "", false, Yes);
    OnePlain("read_only", 0, "", a.readOnly, Yes);
    OnePlain("hidden", 0, "", a.hidden, Yes);
    PlainTogether(Number("size", e.size), Words("digest", e.digest));
    PlainTogether(Number("size", e.size) + Words("digest", e.digest), [("path", Str(Joined(e.path)))]);
    PlainTogether([("kind", Str(KindName(e.kind)))], Number("modified", a.modified));
    PlainTogether(Flag("read_only", a.readOnly), Flag("hidden", a.hidden));
    PlainTogether(KindFields(e, a), FlagFields(a));
    PlainTogether(PathFields(e), KindFields(e, a) + FlagFields(a));
    PlainTogether(Opened("manifest-entry", id), PathFields(e) + (KindFields(e, a) + FlagFields(a)));
  }

  lemma OmissionIsPlain(id: string, omission: Omission)
    ensures ArePlain(OmissionFields(id, omission))
  {
    hide IsPlain, Opened, Joined;
    OpenedIsPlain("manifest-omission", id);
    OnePlain("reason", 0, "", false, Str(omission.reason));
    OnePlain("path", 0, "", false, Str(Joined(omission.path)));
  }

  lemma HeaderIsRead(id: string, h: Header)
    requires CountsFit(h)
    ensures Says(HeaderFrame(id, h)) == Some(Offers(id, h))
  {
    hide HeaderFrame, Find, ReadObject, ObjectText, ArePlain;
    HeaderText(id, h);
    HeaderIsPlain(id, h);
    ObjectIsRead(HeaderFields(id, h));
    HeaderFound(id, h);
  }

  lemma NoEmptyEntry(id: string, e: Entry, a: Attributes)
    ensures EntryFields(id, e, a) != []
  {
    hide PathFields, KindFields, FlagFields;
  }

  lemma EntryIsRead(id: string, e: Entry, a: Attributes)
    requires IsSplittable(e.path)
    ensures Says(EntryFrame(id, e, a)) == Some(Lists(id, e, a))
  {
    hide EntryFrame, EntryFields, Find, ReadObject, ObjectText, ArePlain, IsSplittable, Joined, Split;
    NoEmptyEntry(id, e, a);
    EntryText(id, e, a);
    EntryIsPlain(id, e, a);
    ObjectIsRead(EntryFields(id, e, a));
    EntryNumbersFound(id, e, a);
    EntryTextsFound(id, e, a);
    PathIsSplit(e.path);
  }

  lemma OmissionIsRead(id: string, omission: Omission)
    requires IsSplittable(omission.path)
    ensures Says(OmissionFrame(id, omission)) == Some(Omits(id, omission))
  {
    hide OmissionFrame, Find, ReadObject, ObjectText, ArePlain, IsSplittable, Joined, Split;
    OmissionText(id, omission);
    OmissionIsPlain(id, omission);
    ObjectIsRead(OmissionFields(id, omission));
    OmissionFound(id, omission);
    PathIsSplit(omission.path);
  }

  lemma EndIsRead(id: string)
    ensures Says(EndFrame(id)) == Some(Ends(id))
  {
    hide EndFrame, Find, ReadObject, ObjectText, ArePlain;
    EndText(id);
    OpenedIsPlain("offer-complete", id);
    ObjectIsRead(Opened("offer-complete", id));
    OpenedFound("offer-complete", id);
  }

  // ---- the frames of a file ----

  function PathField(path: Path): Fields { [("path", Str(Joined(path)))] }

  function ContentFields(id: string, path: Path, size: Int64, offset: Int64): Fields {
    Opened("content", id) + (Number("size", size) + (PathField(path) + Number("offset", offset)))
  }

  function CompletionFields(id: string, e: Entry, digest: string): Fields {
    Opened("complete", id) + (Number("size", e.size) + ([("digest", Str(digest))] + PathField(e.path)))
  }

  lemma ContentText(id: string, path: Path, size: nat, offset: nat)
    requires IsInt64(size) && IsInt64(offset)
    ensures ContentFrame(id, path, size, offset) == ObjectText(ContentFields(id, path, size, offset))
  {
    hide MoreFields, Opening, IntegerField, ObjectText, Number, Quoted, Joined, Opened;
    OpenedText("content", id, Number("size", size) + (PathField(path) + Number("offset", offset)));
    MoreFieldsConcat(Number("size", size), PathField(path) + Number("offset", offset));
    MoreFieldsConcat(PathField(path), Number("offset", offset));
    NumberText("size", size);
    NumberText("offset", offset);
    OneField("path", Str(Joined(path)));
  }

  lemma CompletionText(id: string, e: Entry, digest: string)
    ensures CompletionFrame(id, e, digest) == ObjectText(CompletionFields(id, e, digest))
  {
    hide MoreFields, Opening, IntegerField, ObjectText, Number, Quoted, Joined, Opened;
    OpenedText("complete", id, Number("size", e.size) + ([("digest", Str(digest))] + PathField(e.path)));
    MoreFieldsConcat(Number("size", e.size), [("digest", Str(digest))] + PathField(e.path));
    MoreFieldsConcat([("digest", Str(digest))], PathField(e.path));
    NumberText("size", e.size);
    OneField("digest", Str(digest));
    OneField("path", Str(Joined(e.path)));
  }

  lemma ContentLookup(id: string, path: Path, size: Int64, offset: Int64, name: string)
    ensures Find(ContentFields(id, path, size, offset), name) ==
              if name == "type" then Some(Str("content")) else if name == "offer_id" then Some(Str(id))
              else if name == "size" && size != 0 then Some(Num(size))
              else if name == "path" then Some(Str(Joined(path)))
              else if name == "offset" && offset != 0 then Some(Num(offset)) else None
  {
    hide Find, Opened, Number, Joined;
    NamesDiffer();
    OpenedFound("content", id);
    FindConcat(Opened("content", id), Number("size", size) + (PathField(path) + Number("offset", offset)));
    FindConcat(Number("size", size), PathField(path) + Number("offset", offset));
    FindConcat(PathField(path), Number("offset", offset));
    PartsFound("size", size, "", false, Yes);
    PartsFound("path", 0, "", false, Str(Joined(path)));
    PartsFound("offset", offset, "", false, Yes);
  }

  lemma CompletionLookup(id: string, e: Entry, digest: string, name: string)
    ensures Find(CompletionFields(id, e, digest), name) ==
              if name == "type" then Some(Str("complete")) else if name == "offer_id" then Some(Str(id))
              else if name == "size" && e.size != 0 then Some(Num(e.size))
              else if name == "digest" then Some(Str(digest))
              else if name == "path" then Some(Str(Joined(e.path))) else None
  {
    hide Find, Opened, Number, Joined;
    NamesDiffer();
    OpenedFound("complete", id);
    FindConcat(Opened("complete", id), Number("size", e.size) + ([("digest", Str(digest))] + PathField(e.path)));
    FindConcat(Number("size", e.size), [("digest", Str(digest))] + PathField(e.path));
    FindConcat([("digest", Str(digest))], PathField(e.path));
    PartsFound("size", e.size, "", false, Yes);
    PartsFound("digest", 0, "", false, Str(digest));
    PartsFound("path", 0, "", false, Str(Joined(e.path)));
  }

  lemma ContentIsPlain(id: string, path: Path, size: Int64, offset: Int64)
    ensures ArePlain(ContentFields(id, path, size, offset))
  {
    hide IsPlain, Number, Opened, Joined;
    OpenedIsPlain("content", id);
    OnePlain("size", size, "", false, Yes);
    OnePlain("path", 0, "", false, Str(Joined(path)));
    OnePlain("offset", offset, "", false, Yes);
  }

  lemma CompletionIsPlain(id: string, e: Entry, digest: string)
    ensures ArePlain(CompletionFields(id, e, digest))
  {
    hide IsPlain, Number, Opened, Joined;
    OpenedIsPlain("complete", id);
    OnePlain("size", e.size, "", false, Yes);
    OnePlain("digest", 0, "", false, Str(digest));
    OnePlain("path", 0, "", false, Str(Joined(e.path)));
  }

  lemma ContentIsRead(id: string, path: Path, size: nat, offset: nat)
    requires IsSplittable(path) && IsInt64(size) && IsInt64(offset)
    ensures Says(ContentFrame(id, path, size, offset)) == Some(Carries(id, path, size, offset))
  {
    hide ContentFrame, Number, Find, ReadObject, ObjectText, ArePlain, IsSplittable, Joined, Split;
    NamesDiffer();
    ContentText(id, path, size, offset);
    ContentIsPlain(id, path, size, offset);
    ObjectIsRead(ContentFields(id, path, size, offset));
    ContentLookup(id, path, size, offset, "type");
    ContentLookup(id, path, size, offset, "offer_id");
    ContentLookup(id, path, size, offset, "size");
    ContentLookup(id, path, size, offset, "path");
    ContentLookup(id, path, size, offset, "offset");
    PathIsSplit(path);
  }

  lemma CompletionIsRead(id: string, e: Entry, digest: string)
    requires IsSplittable(e.path)
    ensures Says(CompletionFrame(id, e, digest)) == Some(Completes(id, e.path, e.size, digest))
  {
    hide CompletionFrame, Number, Find, ReadObject, ObjectText, ArePlain, IsSplittable, Joined, Split;
    NamesDiffer();
    CompletionText(id, e, digest);
    CompletionIsPlain(id, e, digest);
    ObjectIsRead(CompletionFields(id, e, digest));
    CompletionLookup(id, e, digest, "type");
    CompletionLookup(id, e, digest, "offer_id");
    CompletionLookup(id, e, digest, "size");
    CompletionLookup(id, e, digest, "digest");
    CompletionLookup(id, e, digest, "path");
    PathIsSplit(e.path);
  }

  /** What the frames look like. */
  lemma FrameExamples(id: string)
    requires OfferIdentifier(id)
    ensures HeaderFrame(id, Header(1, 2, 0, 7))
         == "{\"type\":\"offer\",\"offer_id\":\"" + id + "\"" + ",\"file_count\":2" + ",\"root_count\":1" + ",\"total_bytes\":7" + "}"
    ensures EndFrame(id) == "{\"type\":\"offer-complete\",\"offer_id\":\"" + id + "\"" + "}"
  {
    hide Opening, IntegerField, OfferIdentifier;
    OfferOpening(id);
    EndOpening(id);
    FieldExamples();
    assert HeaderFrame(id, Header(1, 2, 0, 7))
        == Opening("offer", id) + ",\"file_count\":2" + "" + ",\"root_count\":1" + ",\"total_bytes\":7" + "}";
  }

  lemma FieldExamples()
    ensures IntegerField("file_count", 2) == ",\"file_count\":2" && IntegerField("folder_count", 0) == ""
    ensures IntegerField("root_count", 1) == ",\"root_count\":1" && IntegerField("total_bytes", 7) == ",\"total_bytes\":7"
  {
    assert Integer(1) == "1" && Integer(2) == "2" && Integer(7) == "7";
    assert Field("file_count", "2") == ",\"file_count\":2";
    assert Field("root_count", "1") == ",\"root_count\":1";
    assert Field("total_bytes", "7") == ",\"total_bytes\":7";
  }

  lemma OfferOpening(id: string)
    requires OfferIdentifier(id)
    ensures Opening("offer", id) == "{\"type\":\"offer\",\"offer_id\":\"" + id + "\""
  {
    hide Field, OfferIdentifier;
    IdentifierField(id);
    assert "{\"type\":\"" + "offer" + "\"" + ",\"offer_id\":\"" == "{\"type\":\"offer\",\"offer_id\":\"";
  }

  lemma EndOpening(id: string)
    requires OfferIdentifier(id)
    ensures Opening("offer-complete", id) == "{\"type\":\"offer-complete\",\"offer_id\":\"" + id + "\""
  {
    hide Field, OfferIdentifier;
    IdentifierField(id);
    assert "{\"type\":\"" + "offer-complete" + "\"" + ",\"offer_id\":\"" == "{\"type\":\"offer-complete\",\"offer_id\":\"";
  }

  lemma IdentifierField(id: string)
    requires OfferIdentifier(id)
    ensures Field("offer_id", Quoted(id)) == ",\"offer_id\":\"" + (id + "\"")
  {
    hide Escaped;
    PlainEscapes(id);
    assert ",\"" + "offer_id" + "\":" + ("\"" + id + "\"") == ",\"offer_id\":\"" + (id + "\"");
  }
}
