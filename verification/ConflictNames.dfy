/** Conflict-free names for the roots of an offer: "name", "name (1)", "name (2)", ... */
module ConflictNames {
  import opened Names

  // ---- candidates ----

  function Decimal(n: nat): (s: string)
    ensures s != []
    ensures forall i | 0 <= i < |s| :: '0' <= s[i] <= '9'
  {
    var digit := ['0', '1', '2', '3', '4', '5', '6', '7', '8', '9'][n % 10];
    if n < 10 then [digit] else Decimal(n / 10) + [digit]
  }

  /** The suffix from the last dot on, or nothing. */
  function Extension(name: string): string {
    if name == [] then []
    else if Extension(name[1..]) != [] then Extension(name[1..])
    else if name[0] == '.' then name
    else []
  }

  lemma {:induction false} ExtensionIsSuffix(name: string)
    ensures |Extension(name)| <= |name| && name[|name| - |Extension(name)|..] == Extension(name)
  {
    if name != [] {
      ExtensionIsSuffix(name[1..]);
    }
  }

  function Stem(name: string): string {
    ExtensionIsSuffix(name);
    name[..|name| - |Extension(name)|]
  }

  function Suffixed(stem: string, n: nat, extension: string): string {
    stem + " (" + Decimal(n) + ")" + extension
  }

  function Candidate(name: string, n: nat): string {
    if n == 0 then name else Suffixed(Stem(name), n, Extension(name))
  }

  // ---- what a candidate reads like ----

  /** A string of digits, read in base ten. */
  function Value(digits: string): nat
    requires forall i | 0 <= i < |digits| :: '0' <= digits[i] <= '9'
  {
    if digits == [] then 0
    else 10 * Value(digits[..|digits| - 1]) + (digits[|digits| - 1] as int - '0' as int)
  }

  /** The usual way of writing a number. */
  ghost predicate Writes(digits: string, n: nat) {
    && digits != [] && (forall i | 0 <= i < |digits| :: '0' <= digits[i] <= '9')
    && Value(digits) == n && (|digits| > 1 ==> digits[0] != '0')
  }

  lemma {:induction false} DecimalWrites(n: nat)
    ensures Writes(Decimal(n), n)
    decreases n
  {
    var digits := Decimal(n);
    assert digits[|digits| - 1] as int - '0' as int == n % 10;
    if n >= 10 {
      DecimalWrites(n / 10);
      assert digits[..|digits| - 1] == Decimal(n / 10);
    } else {
      assert digits[..0] == [];
    }
  }

  /** The name itself, or the name with a number before the last dot and what follows it. */
  ghost predicate ReadsAs(text: string, name: string, n: nat) {
    if n == 0 then text == name
    else
      exists digits | Writes(digits, n) ::
        if '.' in name then exists a, b :: name == a + "." + b && '.' !in b && text == a + " (" + digits + ")." + b
        else text == name + " (" + digits + ")"
  }

  ghost predicate IsNumbered(text: string, name: string) { exists n: nat :: ReadsAs(text, name, n) }

  lemma NumberIsRead(text: string, name: string, n: nat)
    requires ReadsAs(text, name, n)
    ensures IsNumbered(text, name)
  {
  }

  lemma {:induction false} ExtensionFromLastDot(name: string)
    ensures '.' !in name ==> Extension(name) == []
    ensures '.' in name ==> Extension(name) != [] && Extension(name)[0] == '.' && '.' !in Extension(name)[1..]
  {
    if name != [] {
      ExtensionFromLastDot(name[1..]);
      assert name == [name[0]] + name[1..];
    }
  }

  lemma CandidateReads(name: string, n: nat)
    ensures ReadsAs(Candidate(name, n), name, n)
  {
    if n > 0 {
      var stem, extension, digits := Stem(name), Extension(name), Decimal(n);
      DecimalWrites(n);
      ExtensionIsSuffix(name);
      ExtensionFromLastDot(name);
      assert name == stem + extension;
      if '.' in name {
        var b := extension[1..];
        assert extension == "." + b;
        assert name == stem + "." + b;
        assert Candidate(name, n) == stem + " (" + digits + ")." + b;
      } else {
        assert name == stem;
        assert Candidate(name, n) == name + " (" + digits + ")";
      }
    }
  }

  /** The assumption on the fold: it keeps the number of a suffixed name visible. */
  ghost predicate KeepsSuffix(fold: Fold) {
    forall stem, extension, i: nat, j: nat ::
      fold(Suffixed(stem, i, extension)) == fold(Suffixed(stem, j, extension)) ==> i == j
  }

  /** A component the resolver may use under a destination of the given length. */
  predicate Usable(destinationLength: nat, candidate: string) {
    ValidWindowsComponent(candidate) && destinationLength + 1 + Utf16Length(candidate) <= MAX_WINDOWS_PATH
  }

  // ---- the resolver ----

  ghost predicate AllTaken(fold: Fold, destinationLength: nat, name: string, reserved: set<string>, n: nat) {
    forall j: nat | j < n ::
      Usable(destinationLength, Candidate(name, j)) && fold(Candidate(name, j)) in reserved
  }

  /** `n` is the first suffix whose candidate is free. */
  ghost predicate FirstFree(fold: Fold, destinationLength: nat, name: string, reserved: set<string>, n: nat) {
    && AllTaken(fold, destinationLength, name, reserved, n)
    && Usable(destinationLength, Candidate(name, n))
    && fold(Candidate(name, n)) !in reserved
  }

  /** `n` is the first suffix whose candidate is unusable, and all before it are taken. */
  ghost predicate FirstUnusable(fold: Fold, destinationLength: nat, name: string, reserved: set<string>, n: nat) {
    AllTaken(fold, destinationLength, name, reserved, n) && !Usable(destinationLength, Candidate(name, n))
  }

  /** The suffix loop. It stops because each further candidate uses up one more
      reserved key. */
  method ResolveFinalPath(fold: Fold, destinationLength: nat, name: string, reserved: set<string>)
    returns (resolved: Option<string>, reserved': set<string>)
    requires KeepsSuffix(fold)
    ensures resolved.Some? <==> HasFree(fold, destinationLength, name, reserved)
    ensures resolved.Some? ==> exists n: nat ::
              && FirstFree(fold, destinationLength, name, reserved, n)
              && resolved.value == Candidate(name, n) && ReadsAs(resolved.value, name, n)
    ensures reserved' == if resolved.Some? then reserved + {fold(resolved.value)} else reserved
  {
    hide ValidWindowsComponent, Candidate, ReadsAs;
    if !ValidManifestPath([name]) {
      return None, reserved;
    }
    var candidate, suffix := name, 0;
    var extension := Extension(name);
    var stem := Stem(name);
    CandidateZero(name);
    ghost var untried := reserved;
    while true
      invariant candidate == Candidate(name, suffix)
      invariant AllTaken(fold, destinationLength, name, reserved, suffix)
      invariant forall j: nat | suffix <= j && 1 <= j ::
                  fold(Suffixed(stem, j, extension)) in reserved ==> fold(Suffixed(stem, j, extension)) in untried
      decreases suffix == 0, |untried|
    {
      if !Usable(destinationLength, candidate) {
        NoneFree(fold, destinationLength, name, reserved, suffix);
        return None, reserved;
      }
      var key := fold(candidate);
      if key !in reserved {
        assert FirstFree(fold, destinationLength, name, reserved, suffix);
        CandidateReads(name, suffix);
        return Some(candidate), reserved + {key};
      }
      CandidateSuffixed(name, suffix);
      if suffix > 0 {
        assert key in untried;
        untried := untried - {key};
      }
      suffix := suffix + 1;
      candidate := Suffixed(stem, suffix, extension);
      CandidateSuffixed(name, suffix);
    }
  }

  lemma CandidateZero(name: string)
    ensures Candidate(name, 0) == name
  {
  }

  lemma CandidateSuffixed(name: string, n: nat)
    ensures n > 0 ==> Candidate(name, n) == Suffixed(Stem(name), n, Extension(name))
  {
  }

  lemma NoneFree(fold: Fold, destinationLength: nat, name: string, reserved: set<string>, stop: nat)
    requires FirstUnusable(fold, destinationLength, name, reserved, stop)
    ensures forall n: nat :: !FirstFree(fold, destinationLength, name, reserved, n)
  {
    hide Usable, Candidate;
    forall n: nat ensures !FirstFree(fold, destinationLength, name, reserved, n) {
      if n > stop {
        assert !AllTaken(fold, destinationLength, name, reserved, n);
      }
    }
  }

  /** Minimality: the number of a successful resolution is unique. */
  lemma FirstFreeIsUnique(fold: Fold, destinationLength: nat, name: string, reserved: set<string>, m: nat, n: nat)
    requires FirstFree(fold, destinationLength, name, reserved, m)
    requires FirstFree(fold, destinationLength, name, reserved, n)
    ensures m == n
  {
    hide Usable, Candidate;
    assert m < n ==> !AllTaken(fold, destinationLength, name, reserved, n);
    assert n < m ==> !AllTaken(fold, destinationLength, name, reserved, m);
  }

  // ---- the roots of one offer ----

  predicate SafeComponent(c: string) {
    c != "" && c != "." && c != ".." && '/' !in c && '\\' !in c
  }

  lemma CandidateIsSafe(name: string, n: nat)
    requires ValidManifestPath([name]) && ValidWindowsComponent(Candidate(name, n))
    ensures SafeComponent(Candidate(name, n))
  {
    hide Utf16Length, WindowsReservedBase;
    var c := Candidate(name, n);
    assert forall i | 0 <= i < |c| :: !ForbiddenCharacter(c[i]);
    if n == 0 {
      assert ValidComponent([name][0]);
    } else {
      assert |c| >= 4;
    }
  }

  /** What the resolver promises about the final names of all roots. */
  ghost predicate Resolved(fold: Fold, listed: set<string>, roots: seq<string>, finalNames: map<string, string>) {
    && (forall i | 0 <= i < |roots| :: fold(roots[i]) in finalNames)
    && (forall key | key in finalNames :: SafeComponent(finalNames[key]) && fold(finalNames[key]) !in listed)
    && forall a, b | a in finalNames && b in finalNames && a != b :: fold(finalNames[a]) != fold(finalNames[b])
  }

  ghost predicate DistinctKeys(fold: Fold, roots: seq<string>) {
    forall i, j | 0 <= i < j < |roots| :: fold(roots[i]) != fold(roots[j])
  }

  ghost function KeysOf(fold: Fold, names: seq<string>): set<string> { set i | 0 <= i < |names| :: fold(names[i]) }

  ghost predicate HasFree(fold: Fold, destinationLength: nat, name: string, reserved: set<string>) {
    ValidManifestPath([name]) && exists n: nat :: FirstFree(fold, destinationLength, name, reserved, n)
  }

  /** The roots in turn, each with its first free candidate under the keys reserved so
      far; nothing as soon as one root has none. */
  ghost function FinalNames(fold: Fold, destinationLength: nat, listed: set<string>, roots: seq<string>): (names: Option<seq<string>>)
    ensures names.Some? ==> |names.value| == |roots|
  {
    if roots == [] then Some([])
    else
      var front, root := FinalNames(fold, destinationLength, listed, roots[..|roots| - 1]), roots[|roots| - 1];
      if front == None || !HasFree(fold, destinationLength, root, listed + KeysOf(fold, front.value)) then None
      else
        var n: nat :| FirstFree(fold, destinationLength, root, listed + KeysOf(fold, front.value), n);
        Some(front.value + [Candidate(root, n)])
  }

  lemma NextFinalName(fold: Fold, destinationLength: nat, listed: set<string>, roots: seq<string>, i: nat, resolved: Option<string>)
    requires i < |roots| && FinalNames(fold, destinationLength, listed, roots[..i]).Some?
    requires var reserved := listed + KeysOf(fold, FinalNames(fold, destinationLength, listed, roots[..i]).value);
             && (resolved.Some? <==> HasFree(fold, destinationLength, roots[i], reserved))
             && (resolved.Some? ==> exists n: nat ::
                   FirstFree(fold, destinationLength, roots[i], reserved, n) && resolved.value == Candidate(roots[i], n))
    ensures var front := FinalNames(fold, destinationLength, listed, roots[..i]).value;
            FinalNames(fold, destinationLength, listed, roots[..i + 1])
            == if resolved.Some? then Some(front + [resolved.value]) else None
  {
    hide FirstFree, Candidate, ValidManifestPath;
    assert roots[..i + 1][..i] == roots[..i];
    var reserved := listed + KeysOf(fold, FinalNames(fold, destinationLength, listed, roots[..i]).value);
    forall m: nat, n: nat | FirstFree(fold, destinationLength, roots[i], reserved, m) && FirstFree(fold, destinationLength, roots[i], reserved, n)
      ensures m == n
    {
      FirstFreeIsUnique(fold, destinationLength, roots[i], reserved, m, n);
    }
  }

  lemma {:induction false} OneMissingIsNone(fold: Fold, destinationLength: nat, listed: set<string>, roots: seq<string>, i: nat)
    requires i <= |roots| && FinalNames(fold, destinationLength, listed, roots[..i]) == None
    ensures FinalNames(fold, destinationLength, listed, roots) == None
    decreases |roots| - i
  {
    if i < |roots| {
      assert roots[..i + 1][..i] == roots[..i];
      OneMissingIsNone(fold, destinationLength, listed, roots, i + 1);
    } else {
      assert roots[..i] == roots;
    }
  }

  lemma KeysGrow(fold: Fold, names: seq<string>, name: string)
    ensures KeysOf(fold, names + [name]) == KeysOf(fold, names) + {fold(name)}
  {
    var grown := names + [name];
    forall key | key in KeysOf(fold, names) + {fold(name)} ensures key in KeysOf(fold, grown) {
      if key == fold(name) {
        assert grown[|names|] == name;
      } else {
        var i :| 0 <= i < |names| && fold(names[i]) == key;
        assert grown[i] == names[i];
      }
    }
  }

  /** One final name per root, in manifest order, each reserved before the next. It
      succeeds exactly when every root in turn has a free candidate, and that candidate
      is its final name. */
  method ResolveIncomingPaths(fold: Fold, destinationLength: nat, listed: set<string>, roots: seq<string>)
    returns (ok: bool, finalNames: map<string, string>)
    requires KeepsSuffix(fold) && DistinctKeys(fold, roots)
    ensures ok <==> FinalNames(fold, destinationLength, listed, roots).Some?
    ensures ok ==> forall i | 0 <= i < |roots| ::
              && fold(roots[i]) in finalNames && finalNames[fold(roots[i])] == FinalNames(fold, destinationLength, listed, roots).value[i]
              && IsNumbered(finalNames[fold(roots[i])], roots[i])
    ensures ok ==> Resolved(fold, listed, roots, finalNames)
    ensures ok ==> forall key | key in finalNames :: exists i | 0 <= i < |roots| :: key == fold(roots[i])
  {
    hide KeepsSuffix, SafeComponent, ValidWindowsComponent, ValidManifestPath, Candidate, FirstFree, KeysOf, FinalNames, ReadsAs, IsNumbered;
    finalNames := map[];
    var reserved := listed;
    ghost var names: seq<string> := [];
    NothingResolved(fold, destinationLength, listed, roots);
    for i := 0 to |roots|
      invariant FinalNames(fold, destinationLength, listed, roots[..i]) == Some(names) && |names| == i
      invariant reserved == listed + KeysOf(fold, names)
      invariant forall j | 0 <= j < i :: fold(roots[j]) in finalNames && finalNames[fold(roots[j])] == names[j]
      invariant forall j | 0 <= j < i :: IsNumbered(names[j], roots[j])
      invariant forall key | key in finalNames :: exists j | 0 <= j < i :: key == fold(roots[j])
      invariant forall key | key in finalNames :: SafeComponent(finalNames[key]) && fold(finalNames[key]) !in listed
      invariant forall key | key in finalNames :: fold(finalNames[key]) in reserved
      invariant forall a, b | a in finalNames && b in finalNames && a != b :: fold(finalNames[a]) != fold(finalNames[b])
    {
      var resolved, reserved' := ResolveFinalPath(fold, destinationLength, roots[i], reserved);
      NextFinalName(fold, destinationLength, listed, roots, i, resolved);
      if resolved == None {
        OneMissingIsNone(fold, destinationLength, listed, roots, i + 1);
        return false, finalNames;
      }
      ghost var n: nat :| FirstFree(fold, destinationLength, roots[i], reserved, n) && resolved.value == Candidate(roots[i], n)
                          && ReadsAs(resolved.value, roots[i], n);
      FreeCandidateIsSafe(fold, destinationLength, roots[i], reserved, n);
      KeysGrow(fold, names, resolved.value);
      assert fold(roots[i]) !in finalNames;
      NumberIsRead(resolved.value, roots[i], n);
      names := names + [resolved.value];
      finalNames := finalNames[fold(roots[i]) := resolved.value];
      reserved := reserved';
    }
    assert roots[..|roots|] == roots;
    ok := true;
  }

  lemma NothingResolved(fold: Fold, destinationLength: nat, listed: set<string>, roots: seq<string>)
    ensures FinalNames(fold, destinationLength, listed, roots[..0]) == Some([]) && KeysOf(fold, []) == {}
  {
  }

  lemma FreeCandidateIsSafe(fold: Fold, destinationLength: nat, name: string, reserved: set<string>, n: nat)
    requires ValidManifestPath([name]) && FirstFree(fold, destinationLength, name, reserved, n)
    ensures SafeComponent(Candidate(name, n)) && fold(Candidate(name, n)) !in reserved
  {
    hide SafeComponent, Candidate, ValidManifestPath, ValidWindowsComponent;
    CandidateIsSafe(name, n);
  }

  // ---- the assumption on the fold is met by ASCII case folding ----

  lemma {:induction false} DecimalIsInjective(i: nat, j: nat)
    requires Decimal(i) == Decimal(j)
    ensures i == j
    decreases i
  {
    var a, b := Decimal(i), Decimal(j);
    assert a[|a| - 1] == b[|b| - 1];
    assert i % 10 == j % 10;
    if i >= 10 && j >= 10 {
      assert Decimal(i / 10) == a[..|a| - 1] && Decimal(j / 10) == b[..|b| - 1];
      DecimalIsInjective(i / 10, j / 10);
    }
  }

  lemma AsciiFoldKeepsSuffix()
    ensures KeepsSuffix(LowerAscii)
  {
    forall stem, extension, i: nat, j: nat
      | LowerAscii(Suffixed(stem, i, extension)) == LowerAscii(Suffixed(stem, j, extension))
      ensures i == j
    {
      var a, b := Suffixed(stem, i, extension), Suffixed(stem, j, extension);
      var di, dj := Decimal(i), Decimal(j);
      var start := |stem| + 2;
      assert |LowerAscii(a)| == |LowerAscii(b)|;
      assert |di| == |dj|;
      forall k | 0 <= k < |di| ensures di[k] == dj[k] {
        assert a[start + k] == di[k] && b[start + k] == dj[k];
        assert LowerAscii(a)[start + k] == LowerAscii(b)[start + k];
      }
      assert di == dj;
      DecimalIsInjective(i, j);
    }
  }
}
