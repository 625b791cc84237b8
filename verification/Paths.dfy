/** Where an upload lands: file names made safe, and paths that collide with nothing. */
module Paths {
  import opened Basics

  predicate Forbidden(c: char)
  {
    c in {'/', '\\', '\0', ':', '*', '?', '"', '<', '>', '|'}
  }

  predicate Allowed(c: char) { !Forbidden(c) }

  /** Rust's `char::is_whitespace` (the Unicode property White_Space). */
  predicate Whitespace(c: char)
  {
    var n := c as int;
    || 0x09 <= n <= 0x0D || n == 0x20 || n == 0x85 || n == 0xA0 || n == 0x1680
    || 0x2000 <= n <= 0x200A || n == 0x2028 || n == 0x2029 || n == 0x202F || n == 0x205F || n == 0x3000
  }

  function TrimStart(s: string): string
  {
    if s != "" && Whitespace(s[0]) then TrimStart(s[1..]) else s
  }

  function TrimEnd(s: string): string
  {
    if s != "" && Whitespace(Last(s)) then TrimEnd(Front(s)) else s
  }

  function Trim(s: string): string { TrimEnd(TrimStart(s)) }

  /** Bytes of a string in UTF-8. */
  function Utf8Len(s: string): (n: nat)
    ensures n >= |s|
  {
    if s == "" then 0 else Utf8Len(Front(s)) + Width(Last(s) as int)
  }

  function Width(n: int): nat
  {
    if n < 0x80 then 1 else if n < 0x800 then 2 else if n < 0x1_0000 then 3 else 4
  }

  const MAX_NAME := 200

  /** sanitize_filename. */
  function Sanitize(raw: string): string
  {
    var trimmed := Trim(Filter(raw, Allowed));
    if trimmed == "" || trimmed == "." || trimmed == ".." then "received.bin"
    else if |trimmed| > MAX_NAME then Truncate(trimmed)
    else trimmed
  }

  /** Too long: keep a short extension and as much of the stem as fits. */
  function Truncate(t: string): string
    requires |t| > MAX_NAME
  {
    var d := LastIndexOf(t, '.');
    var keep := d >= 0 && Utf8Len(t[d + 1..]) < 32;
    assert keep ==> |t[d + 1..]| < 32;
    var stem := if keep then t[..d] else t;
    var ext := if keep then t[d..] else "";
    stem[..Min(MAX_NAME - |ext|, |stem|)] + ext
  }

  ghost predicate AllIn(a: string, b: string) { forall c | c in a :: c in b }

  lemma {:induction false} TrimSubset(s: string)
    ensures AllIn(TrimStart(s), s) && AllIn(TrimEnd(s), s)
    decreases |s|
  {
    if s != "" {
      TrimSubset(s[1..]);
      TrimSubset(Front(s));
    }
  }

  lemma TrimKeeps(s: string)
    ensures AllIn(Trim(s), s)
  {
    hide TrimStart, TrimEnd;
    TrimSubset(s);
    TrimSubset(TrimStart(s));
  }

  lemma ReceivedAllowed()
    ensures forall c | c in "received.bin" :: Allowed(c)
  {
  }

  lemma {:induction false} FilterHolds(s: string)
    ensures forall c | c in Filter(s, Allowed) :: Allowed(c)
  {
    if s != "" {
      FilterHolds(Front(s));
    }
  }

  lemma TwoEnds(t: string, a: nat, b: nat)
    requires a <= |t| && b <= |t|
    ensures AllIn(t[..a] + t[b..], t)
  {
  }

  /** How much of the end of a name that is too long is kept. */
  function Tail(t: string): (n: nat)
    ensures n <= Min(32, |t|)
  {
    var d := LastIndexOf(t, '.');
    if d >= 0 && Utf8Len(t[d + 1..]) < 32 then |t[d + 1..]| + 1 else 0
  }

  /** Truncation keeps a short extension whole and fills up to the limit from the front. */
  lemma TruncateIs(t: string)
    requires |t| > MAX_NAME
    ensures Truncate(t) == t[..MAX_NAME - Tail(t)] + t[|t| - Tail(t)..]
    ensures |Truncate(t)| == MAX_NAME && AllIn(Truncate(t), t)
  {
    hide AllIn, LastIndexOf, Utf8Len;
    var d := LastIndexOf(t, '.');
    if d >= 0 && Utf8Len(t[d + 1..]) < 32 {
      assert t[..d][..MAX_NAME - Tail(t)] == t[..MAX_NAME - Tail(t)];
    } else {
      assert t[|t|..] == "";
    }
    TwoEnds(t, MAX_NAME - Tail(t), |t| - Tail(t));
  }

  /** Every character of `c` is one that `p` lets through. */
  ghost predicate Only(c: string, p: char -> bool) { forall x | x in c :: p(x) }

  /** A name for a file directly inside the directory: not empty and not a dot entry. */
  ghost predicate Component(c: string, p: char -> bool) { c != "" && c != "." && c != ".." && Only(c, p) }

  /** Whatever the phone sends, the result is one safe path component: not empty, not
      a dot entry, at most 200 characters, and without separators, drive colons,
      wildcards, quotes, pipes or NUL. */
  lemma SanitizeSafe(raw: string)
    ensures 0 < |Sanitize(raw)| <= MAX_NAME && Component(Sanitize(raw), Allowed)
  {
    hide Truncate, Trim, Filter, Forbidden;
    var cleaned := Filter(raw, Allowed);
    FilterHolds(raw);
    var t := Trim(cleaned);
    TrimKeeps(cleaned);
    if |t| > MAX_NAME {
      TruncateIs(t);
      assert |Sanitize(raw)| == MAX_NAME;
    } else if t == "" || t == "." || t == ".." {
      assert forall c | c in "received.bin" :: Allowed(c) by { ReceivedAllowed(); }
    }
  }

  lemma {:induction false} TrimEnds(s: string)
    ensures TrimEnd(s) <= s && |TrimStart(s)| <= |s|
    ensures TrimEnd(s) != "" ==> !Whitespace(Last(TrimEnd(s)))
    ensures TrimStart(s) != "" ==> !Whitespace(TrimStart(s)[0])
    decreases |s|
  {
    if s != "" {
      TrimEnds(s[1..]);
      TrimEnds(Front(s));
    }
  }

  /** What the cleaning leaves neither begins nor ends with whitespace. */
  lemma TrimIs(s: string)
    ensures var t := Trim(s); |t| <= |s| && (t != "" ==> !Whitespace(t[0]) && !Whitespace(Last(t)))
  {
    hide TrimStart, TrimEnd, Whitespace;
    TrimEnds(s);
    TrimEnds(TrimStart(s));
  }

  lemma {:induction false} FilterAll(s: string)
    requires Only(s, Allowed)
    ensures Filter(s, Allowed) == s
  {
    if s != "" {
      FilterAll(Front(s));
    }
  }

  lemma {:induction false} FilterShrinks(s: string)
    ensures |Filter(s, Allowed)| <= |s|
  {
    if s != "" {
      FilterShrinks(Front(s));
    }
  }

  /** A name is kept as it is exactly if it is a safe component within the limit that
      neither begins nor ends with whitespace. */
  lemma SanitizeKeeps(raw: string)
    ensures Sanitize(raw) == raw <==>
            Component(raw, Allowed) && |raw| <= MAX_NAME && !Whitespace(raw[0]) && !Whitespace(Last(raw))
  {
    SanitizeSafe(raw);
    FilterShrinks(raw);
    TrimIs(Filter(raw, Allowed));
    if Only(raw, Allowed) {
      FilterAll(raw);
    }
    assert !Whitespace('r') && !Whitespace('n');
    hide Truncate, Whitespace, Filter;
    assert Sanitize(raw) == raw ==> |Trim(Filter(raw, Allowed))| <= MAX_NAME;
  }

  // ------------------------------------------------------------------- paths

  /** The name before and from its last dot, unless that is its first character. */
  function Stem(name: string): string
  {
    var d := LastIndexOf(name, '.');
    if d > 0 then name[..d] else name
  }

  function Extension(name: string): string
  {
    var d := LastIndexOf(name, '.');
    if d > 0 then name[d..] else ""
  }

  /** `stem (n).ext`; n = 0 is the plain name. */
  function Numbered(name: string, n: nat): string
  {
    if n == 0 then name
    else Stem(name) + " (" + Dec(n) + ")" + Extension(name)
  }

  function Candidate(dir: string, name: string, n: nat): string { dir + "/" + Numbered(name, n) }

  lemma OnlyJoin(a: string, b: string, p: char -> bool)
    requires Only(a, p) && Only(b, p)
    ensures Only(a + b, p)
  {
  }

  /** Numbering a name keeps it a component. */
  lemma NumberedIs(name: string, n: nat, p: char -> bool)
    requires Only(name, p) && (n == 0 ==> Component(name, p))
    requires p(' ') && p('(') && p(')') && forall x: char | Digit(x) :: p(x)
    ensures Component(Numbered(name, n), p)
  {
    if n > 0 {
      assert Only(Dec(n), p) && Only(Stem(name), p) && Only(Extension(name), p) && Only(" (", p) && Only(")", p);
      var a := Stem(name) + " (";
      var b := a + Dec(n);
      var c := b + ")";
      hide Only, Stem, Extension, Dec;
      OnlyJoin(Stem(name), " (", p);
      OnlyJoin(a, Dec(n), p);
      OnlyJoin(b, ")", p);
      OnlyJoin(c, Extension(name), p);
      assert |Numbered(name, n)| >= 3;
    }
  }

  lemma {:induction false} DecDiffers(i: nat, j: nat)
    requires Dec(i) == Dec(j)
    ensures i == j
  {
    assert Last(Dec(i)) as int == '0' as int + i % 10 && Last(Dec(j)) as int == '0' as int + j % 10;
    assert i >= 10 ==> Front(Dec(i)) == Dec(i / 10) != "";
    assert j >= 10 ==> Front(Dec(j)) == Dec(j / 10) != "";
    if i >= 10 && j >= 10 {
      DecDiffers(i / 10, j / 10);
    }
  }

  lemma Middle(a: string, x: string, y: string, z: string)
    requires a + x + z == a + y + z
    ensures x == y
  {
    assert |x| == |y|;
    assert (a + x + z)[|a|..|a| + |x|] == x && (a + y + z)[|a|..|a| + |y|] == y;
  }

  lemma Split(name: string)
    ensures Stem(name) + Extension(name) == name
  {
  }

  /** No two candidates are the same, so a name fails only when a thousand files exist. */
  lemma CandidatesDiffer(dir: string, name: string, i: nat, j: nat)
    requires Candidate(dir, name, i) == Candidate(dir, name, j)
    ensures i == j
  {
    hide Dec, Stem, Extension;
    Split(name);
    var a, x, y := dir + "/", Numbered(name, i), Numbered(name, j);
    assert a + x + "" == a + x && a + y + "" == a + y;
    Middle(a, x, y, "");
    if i > 0 && j > 0 {
      var z := ")" + Extension(name);
      assert x == Stem(name) + " (" + Dec(i) + z && y == Stem(name) + " (" + Dec(j) + z;
      Middle(Stem(name) + " (", Dec(i), Dec(j), z);
      DecDiffers(i, j);
    } else {
      assert i > 0 ==> |x| > |name|;
      assert j > 0 ==> |y| > |name|;
    }
  }

  /** `p` is where a file of that name lands: the candidate `n`, all before it being taken. */
  ghost predicate FirstFree(dir: string, name: string, taken: set<string>, n: nat, p: string)
  {
    p == Candidate(dir, name, n) && p !in taken && forall k: nat | k < n :: Candidate(dir, name, k) in taken
  }

  /** unique_dest_path: the first free candidate, or none when all 1000 are taken. */
  method UniqueDestPath(dir: string, name: string, taken: set<string>) returns (r: Option<string>)
    ensures r.Some? ==> exists n: nat :: n <= 999 && FirstFree(dir, name, taken, n, r.value)
    ensures r.None? ==> forall k :: 0 <= k <= 999 ==> Candidate(dir, name, k) in taken
  {
    if Candidate(dir, name, 0) !in taken {
      assert FirstFree(dir, name, taken, 0, Candidate(dir, name, 0));
      return Some(Candidate(dir, name, 0));
    }
    for n := 1 to 1000
      invariant forall k: nat :: k < n ==> Candidate(dir, name, k) in taken
    {
      var candidate := Candidate(dir, name, n);
      if candidate !in taken {
        assert FirstFree(dir, name, taken, n, candidate);
        return Some(candidate);
      }
    }
    r := None;
  }

  /** A path in `dir` under one safe component. */
  ghost predicate Inside(dir: string, p: string)
  {
    exists c :: Component(c, Allowed) && p == dir + "/" + c
  }

  /** Wherever an upload lands, it is directly in `dir`. */
  lemma LandsInside(dir: string, raw: string, n: nat)
    ensures Inside(dir, Candidate(dir, Sanitize(raw), n))
  {
    SanitizeSafe(raw);
    NumberedIs(Sanitize(raw), n, Allowed);
    hide Component, Sanitize, Numbered;
    assert Component(Numbered(Sanitize(raw), n), Allowed);
  }

  // --------------------------------------------------------------- on the phone

  predicate Replaced(c: char)
  {
    c in {'\\', '/', ':', '*', '?', '"', '<', '>', '|'}
  }

  /** The phone keeps a name's length and puts an underscore for each such character. */
  function Underscored(name: string): (r: string)
    ensures |r| == |name| && forall i | 0 <= i < |r| :: r[i] == if Replaced(name[i]) then '_' else name[i]
  {
    seq(|name|, i requires 0 <= i < |name| => if Replaced(name[i]) then '_' else name[i])
  }

  /** `File(dir, c).exists()`: the empty name and the dot entries are the directory itself
      and its parent. */
  predicate Exists(dir: string, c: string, taken: set<string>)
  {
    c == "" || c == "." || c == ".." || dir + "/" + c in taken
  }

  predicate Unreplaced(c: char) { !Replaced(c) }

  lemma WithUuidIs(name: string, uuid: string)
    requires Only(name, Unreplaced) && Only(uuid, Unreplaced)
    ensures Component(WithUuid(name, uuid), Unreplaced)
  {
    assert Only(Stem(name), Unreplaced) && Only(Extension(name), Unreplaced) && Only("-", Unreplaced);
    var a := Stem(name) + "-";
    assert WithUuid(name, uuid)[|Stem(name)|] == '-';
    hide Only, Stem, Extension;
    OnlyJoin(Stem(name), "-", Unreplaced);
    OnlyJoin(a, uuid, Unreplaced);
    OnlyJoin(a + uuid, Extension(name), Unreplaced);
  }

  /** The last resort: a name made from a fresh UUID. */
  function WithUuid(name: string, uuid: string): string { Stem(name) + "-" + uuid + Extension(name) }

  /** The phone's uniqueDestFile: the name with underscores, then its numbers 2 to 999, the
      first of them that does not exist; and if all do a name with a fresh UUID, so that it
      never fails. Whatever the PC sends, the file is a new one directly inside `dir`. */
  method UniqueDestFile(dir: string, name: string, taken: set<string>, uuid: string) returns (r: string)
    requires forall s, t :: dir + "/" + s + "-" + uuid + t !in taken
    requires Only(uuid, Unreplaced)
    ensures r !in taken && exists c :: Component(c, Unreplaced) && r == dir + "/" + c
    ensures var s := Underscored(name);
            || (r == Candidate(dir, s, 0) && !Exists(dir, s, taken))
            || (exists n :: 2 <= n <= 999 && r == Candidate(dir, s, n) && Exists(dir, s, taken) &&
                  forall k :: 2 <= k < n ==> Exists(dir, Numbered(s, k), taken))
            || (r == dir + "/" + WithUuid(s, uuid) && Exists(dir, s, taken) &&
                  forall k :: 2 <= k <= 999 ==> Exists(dir, Numbered(s, k), taken))
  {
    var s := Underscored(name);
    assert Only(s, Unreplaced);
    hide Only, Stem, Extension;
    if !Exists(dir, s, taken) {
      assert Component(s, Unreplaced) && Candidate(dir, s, 0) == dir + "/" + s;
      return dir + "/" + s;
    }
    for n := 2 to 1000
      invariant forall k :: 2 <= k < n ==> Exists(dir, Numbered(s, k), taken)
    {
      var alt := Numbered(s, n);
      if !Exists(dir, alt, taken) {
        NumberedIs(s, n, Unreplaced);
        assert Candidate(dir, s, n) == dir + "/" + alt;
        return dir + "/" + alt;
      }
    }
    WithUuidIs(s, uuid);
    r := dir + "/" + WithUuid(s, uuid);
    assert r == dir + "/" + Stem(s) + "-" + uuid + Extension(s);
  }
}
