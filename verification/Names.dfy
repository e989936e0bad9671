/** Names and paths as the manifest sees them.

    A manifest path is the list of its components, that is, the wire string split
    at '/'. The two forms correspond one to one, so "contains a slash" reads here
    as "has more than one component". Characters are Unicode scalar values: a name
    that is not valid UTF-8 never reaches this model. */
module Names {

  type Path = seq<string>

  /** The name-folding function (NFC followed by case folding) stays opaque: every
      result holds for each function of this type. */
  type Fold = string -> string

  const MAX_MANIFEST_PATH_BYTES := 3_000
  const MAX_WINDOWS_COMPONENT := 255
  const MAX_WINDOWS_PATH := 32_767
  const STAGING_NAME := ".transferly-staging"

  datatype Option<+T> = None | Some(value: T)

  // ---- folded keys ----

  /** Two paths are aliases exactly when their keys are equal. */
  function Key(fold: Fold, path: Path): (key: Path)
    ensures |key| == |path|
    ensures forall i | 0 <= i < |path| :: key[i] == fold(path[i])
  {
    seq(|path|, i requires 0 <= i < |path| => fold(path[i]))
  }

  lemma KeyOfPrefix(fold: Fold, path: Path, k: nat)
    requires k <= |path|
    ensures Key(fold, path[..k]) == Key(fold, path)[..k]
  {
  }

  // ---- validation ----

  function Utf8Width(c: char): nat {
    if c as int < 0x80 then 1 else if c as int < 0x800 then 2 else if c as int < 0x1_0000 then 3 else 4
  }

  function Utf8Length(s: string): nat {
    if s == [] then 0 else Utf8Width(s[0]) + Utf8Length(s[1..])
  }

  function Utf16Length(s: string): nat {
    if s == [] then 0 else (if s[0] as int < 0x1_0000 then 1 else 2) + Utf16Length(s[1..])
  }

  /** The path as it travels on the wire. */
  function Joined(path: Path): string {
    if path == [] then "" else if |path| == 1 then path[0] else path[0] + "/" + Joined(path[1..])
  }

  predicate ForbiddenCharacter(c: char) {
    c as int < 32 || c as int == 127 || c in "<>:\"/\\|?*"
  }

  function UpperAscii(s: string): (r: string)
    ensures |r| == |s|
    ensures forall i | 0 <= i < |s| :: !('a' <= r[i] <= 'z') && (r[i] == s[i] || ('a' <= s[i] <= 'z' && r[i] as int == s[i] as int - 32))
  {
    seq(|s|, i requires 0 <= i < |s| => if 'a' <= s[i] <= 'z' then (s[i] - 'a' + 'A') else s[i])
  }

  function LowerAscii(s: string): (r: string)
    ensures |r| == |s|
    ensures forall i | 0 <= i < |s| :: !('A' <= r[i] <= 'Z') && (r[i] == s[i] || ('A' <= s[i] <= 'Z' && r[i] as int == s[i] as int + 32))
  {
    seq(|s|, i requires 0 <= i < |s| => if 'A' <= s[i] <= 'Z' then s[i] - 'A' + 'a' else s[i])
  }

  /** The part of a component before its first dot. */
  function BaseName(s: string): (base: string)
    ensures base <= s && '.' !in base && (|base| < |s| ==> s[|base|] == '.')
  {
    if s == [] || s[0] == '.' then [] else [s[0]] + BaseName(s[1..])
  }

  predicate WindowsReservedBase(base: string) {
    || base in {"CON", "PRN", "AUX", "NUL", "CLOCK$"}
    || (|base| == 4 && (base[..3] == "COM" || base[..3] == "LPT") && '1' <= base[3] <= '9')
    || base in {"COM\U{00b9}", "COM\U{00b2}", "COM\U{00b3}", "LPT\U{00b9}", "LPT\U{00b2}", "LPT\U{00b3}"}
  }

  predicate ValidWindowsComponent(s: string) {
    && Utf16Length(s) <= MAX_WINDOWS_COMPONENT
    && (s != [] ==> s[|s| - 1] != '.' && s[|s| - 1] != ' ')
    && (forall i | 0 <= i < |s| :: !ForbiddenCharacter(s[i]))
    && !WindowsReservedBase(UpperAscii(BaseName(s)))
  }

  predicate ValidComponent(s: string) {
    s != "" && s != "." && s != ".." && ValidWindowsComponent(s)
  }

  predicate ValidManifestPath(path: Path) {
    && path != []
    && Utf8Length(Joined(path)) <= MAX_MANIFEST_PATH_BYTES
    && Utf16Length(Joined(path)) <= MAX_WINDOWS_PATH
    && forall i | 0 <= i < |path| :: ValidComponent(path[i])
  }

  predicate NamesADevice(base: string) {
    var lower := LowerAscii(base);
    lower in {"con", "prn", "aux", "nul", "clock$"} || (|base| == 4 && lower[..3] in {"com", "lpt"} && '1' <= base[3] <= '9')
  }

  /** A device's name, in whatever case and with whatever extension. */
  lemma DeviceNamesAreRefused(path: Path, base: string, extension: string, name: string)
    requires NamesADevice(base)
    requires name == base || name == base + "." + extension
    requires name in path
    ensures !ValidManifestPath(path)
  {
    hide WindowsReservedBase, Utf16Length, Utf8Length, Joined;
    DevicesAreReserved(base);
    BaseOfName(base, extension);
  }

  lemma BaseOfName(base: string, extension: string)
    requires '.' !in base
    ensures BaseName(base) == base && BaseName(base + "." + extension) == base
  {
    var name := base + "." + extension;
    assert name[|base|] == '.' && forall i | 0 <= i < |base| :: name[i] == base[i];
    assert |BaseName(name)| == |base|;
  }

  lemma PortsAreReserved(base: string)
    requires |base| == 4 && LowerAscii(base)[..3] in {"com", "lpt"} && '1' <= base[3] <= '9'
    ensures WindowsReservedBase(UpperAscii(base))
  {
    var lower, upper := LowerAscii(base), UpperAscii(base);
    assert lower[0] == lower[..3][0] && lower[1] == lower[..3][1] && lower[2] == lower[..3][2];
    assert upper[..3] == "COM" || upper[..3] == "LPT";
  }

  lemma DevicesAreReserved(base: string)
    requires NamesADevice(base)
    ensures '.' !in base && WindowsReservedBase(UpperAscii(base))
  {
    var lower, upper := LowerAscii(base), UpperAscii(base);
    forall i | 0 <= i < |base| ensures base[i] != '.' {
      assert lower[i] != '.';
    }
    if lower !in {"con", "prn", "aux", "nul", "clock$"} {
      PortsAreReserved(base);
    } else {
      assert upper == if lower == "con" then "CON" else if lower == "prn" then "PRN" else if lower == "aux" then "AUX"
                      else if lower == "nul" then "NUL" else "CLOCK$";
    }
  }

  /** Nothing that leaves its folder, and nothing that another system would read differently. */
  lemma UnsafeNamesAreRefused(path: Path, name: string)
    requires name in path
    requires || name in {"", ".", ".."} || '/' in name || '\\' in name || ':' in name || '\n' in name
             || name[|name| - 1] == '.' || name[|name| - 1] == ' '
    ensures !ValidManifestPath(path)
  {
    hide WindowsReservedBase, Utf16Length, Utf8Length, Joined;
    assert !ValidComponent(name);
  }
}
