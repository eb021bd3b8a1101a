/** Container names: sanitising for Kubernetes, and taking the pod, service or ingress suffix off the
    name container-maker returns. Strings are ASCII. */
module Names {
  import opened Prelude
  import opened Digits

  predicate IsSpace(c: char) {
    9 <= c as int <= 13 || 28 <= c as int <= 32
  }

  predicate IsAlnum(c: char) {
    'a' <= c <= 'z' || IsDigit(c)
  }

  predicate IsLabelChar(c: char) {
    IsAlnum(c) || c == '-'
  }

  /** A lower-case label in the letters-digits-hyphen syntax of section 2.1 of RFC 1123. */
  predicate IsLabel(s: string) {
    && s != []
    && (forall k :: 0 <= k < |s| ==> IsLabelChar(s[k]))
    && IsAlnum(s[0]) && IsAlnum(s[|s| - 1])
  }

  function LowerChar(c: char): char {
    if 'A' <= c <= 'Z' then (c as int + 32) as char else c
  }

  function HyphenChar(c: char): char {
    if c == ' ' || c == '_' then '-' else c
  }

  function MapChars(s: string, f: char -> char): string {
    seq(|s|, i requires 0 <= i < |s| => f(s[i]))
  }

  /** str.strip, and the removal of hyphens at both ends. */
  function TrimLeft(s: string, drop: char -> bool): string {
    if s != [] && drop(s[0]) then TrimLeft(s[1..], drop) else s
  }

  function TrimRight(s: string, drop: char -> bool): string {
    if s != [] && drop(s[|s| - 1]) then TrimRight(s[..|s| - 1], drop) else s
  }

  function Trim(s: string, drop: char -> bool): string {
    TrimRight(TrimLeft(s, drop), drop)
  }

  /** re.sub of everything that is no label character. */
  function KeepLabelChars(s: string): string {
    if s == [] then []
    else KeepLabelChars(s[..|s| - 1]) + if IsLabelChar(s[|s| - 1]) then [s[|s| - 1]] else []
  }

  predicate IsHyphen(c: char) {
    c == '-'
  }

  const FALLBACK := "container"

  /** sanitize_container_name; Err is its exception on an empty name. */
  function Sanitize(name: string): Result<string, string> {
    if name == [] then Err("Container name is invalid")
    else
      var lowered := MapChars(Trim(name, IsSpace), LowerChar);
      var kept := KeepLabelChars(MapChars(lowered, HyphenChar));
      var trimmed := Trim(kept, IsHyphen);
      Ok(if trimmed == [] then FALLBACK else trimmed)
  }

  lemma {:induction false} KeptAreLabelChars(s: string)
    ensures forall k :: 0 <= k < |KeepLabelChars(s)| ==> IsLabelChar(KeepLabelChars(s)[k])
    decreases |s|
  {
    if s != [] { KeptAreLabelChars(s[..|s| - 1]); }
  }

  lemma {:induction false} KeepsAll(s: string)
    requires forall k :: 0 <= k < |s| ==> IsLabelChar(s[k])
    ensures KeepLabelChars(s) == s
    decreases |s|
  {
    if s != [] {
      KeepsAll(s[..|s| - 1]);
      assert s == s[..|s| - 1] + [s[|s| - 1]];
    }
  }

  /** Trimming keeps a slice whose ends are not to be dropped. */
  lemma {:induction false} TrimLeftSlices(s: string, drop: char -> bool) returns (i: nat)
    ensures i <= |s| && TrimLeft(s, drop) == s[i..]
    ensures TrimLeft(s, drop) != [] ==> !drop(TrimLeft(s, drop)[0])
    decreases |s|
  {
    if s != [] && drop(s[0]) {
      var j := TrimLeftSlices(s[1..], drop);
      i := j + 1;
    } else {
      i := 0;
    }
  }

  lemma {:induction false} TrimRightSlices(s: string, drop: char -> bool) returns (i: nat)
    ensures i <= |s| && TrimRight(s, drop) == s[..i]
    ensures TrimRight(s, drop) != [] ==> !drop(TrimRight(s, drop)[|TrimRight(s, drop)| - 1])
    decreases |s|
  {
    if s != [] && drop(s[|s| - 1]) {
      i := TrimRightSlices(s[..|s| - 1], drop);
    } else {
      i := |s|;
    }
  }

  lemma TrimKeepsCleanEnds(s: string, drop: char -> bool)
    requires s != [] ==> !drop(s[0]) && !drop(s[|s| - 1])
    ensures Trim(s, drop) == s
  {
  }

  lemma TrimmedIsLabel(s: string)
    requires forall k :: 0 <= k < |s| ==> IsLabelChar(s[k])
    ensures Trim(s, IsHyphen) == [] || IsLabel(Trim(s, IsHyphen))
  {
    var i := TrimLeftSlices(s, IsHyphen);
    var left := TrimLeft(s, IsHyphen);
    var j := TrimRightSlices(left, IsHyphen);
    var t := Trim(s, IsHyphen);
    if t != [] {
      assert t == left[..j] && left == s[i..];
      assert !IsHyphen(t[0]) && !IsHyphen(t[|t| - 1]);
      forall k | 0 <= k < |t| ensures IsLabelChar(t[k]) { assert t[k] == s[i + k]; }
    }
  }

  lemma FallbackIsLabel()
    ensures IsLabel(FALLBACK)
  {
  }

  lemma LabelsPassUnchanged(s: string)
    requires IsLabel(s)
    ensures Sanitize(s) == Ok(s)
  {
    TrimKeepsCleanEnds(s, IsSpace);
    forall k | 0 <= k < |s| ensures LowerChar(s[k]) == s[k] == HyphenChar(s[k]) { assert IsLabelChar(s[k]); }
    assert MapChars(s, LowerChar) == s;
    assert MapChars(s, HyphenChar) == s;
    KeepsAll(s);
    TrimKeepsCleanEnds(s, IsHyphen);
  }

  /** Main result: every non-empty name becomes a label, the names left as they are are exactly the
      labels, and sanitising twice changes nothing more. */
  lemma SanitizeMakesLabels(name: string)
    ensures name == [] <==> Sanitize(name).Err?
    ensures name != [] ==> IsLabel(Sanitize(name).value)
    ensures Sanitize(name) == Ok(name) <==> IsLabel(name)
    ensures name != [] ==> Sanitize(Sanitize(name).value) == Sanitize(name)
  {
    if name != [] {
      var kept := KeepLabelChars(MapChars(MapChars(Trim(name, IsSpace), LowerChar), HyphenChar));
      KeptAreLabelChars(MapChars(MapChars(Trim(name, IsSpace), LowerChar), HyphenChar));
      TrimmedIsLabel(kept);
      FallbackIsLabel();
      LabelsPassUnchanged(Sanitize(name).value);
      if IsLabel(name) { LabelsPassUnchanged(name); }
    }
  }

  // What becomes of the characters of the name.

  /** The letters and digits of a name, in order and in lower case. */
  function Letters(s: string): string {
    if s == [] then []
    else
      var c := LowerChar(s[|s| - 1]);
      Letters(s[..|s| - 1]) + if IsAlnum(c) then [c] else []
  }

  lemma {:induction false} LettersAppend(x: string, y: string)
    ensures Letters(x + y) == Letters(x) + Letters(y)
    decreases |y|
  {
    if y == [] {
      assert x + y == x;
    } else {
      assert (x + y)[..|x + y| - 1] == x + y[..|y| - 1];
      LettersAppend(x, y[..|y| - 1]);
    }
  }

  lemma {:induction false} NoLettersDropped(s: string)
    requires forall k :: 0 <= k < |s| ==> !IsAlnum(LowerChar(s[k]))
    ensures Letters(s) == []
    decreases |s|
  {
    if s != [] { NoLettersDropped(s[..|s| - 1]); }
  }

  lemma {:induction false} TrimLeftKeepsLetters(s: string, drop: char -> bool)
    requires forall c :: drop(c) ==> !IsAlnum(LowerChar(c))
    ensures Letters(TrimLeft(s, drop)) == Letters(s)
    decreases |s|
  {
    if s != [] && drop(s[0]) {
      TrimLeftKeepsLetters(s[1..], drop);
      LettersAppend([s[0]], s[1..]);
      NoLettersDropped([s[0]]);
      assert s == [s[0]] + s[1..];
    }
  }

  lemma {:induction false} TrimRightKeepsLetters(s: string, drop: char -> bool)
    requires forall c :: drop(c) ==> !IsAlnum(LowerChar(c))
    ensures Letters(TrimRight(s, drop)) == Letters(s)
    decreases |s|
  {
    if s != [] && drop(s[|s| - 1]) { TrimRightKeepsLetters(s[..|s| - 1], drop); }
  }

  lemma {:induction false} MapKeepsLetters(s: string)
    ensures Letters(MapChars(s, LowerChar)) == Letters(s)
    ensures Letters(MapChars(s, HyphenChar)) == Letters(s)
    decreases |s|
  {
    if s != [] {
      var t := s[..|s| - 1];
      MapKeepsLetters(t);
      assert MapChars(s, LowerChar)[..|s| - 1] == MapChars(t, LowerChar);
      assert MapChars(s, HyphenChar)[..|s| - 1] == MapChars(t, HyphenChar);
      CharsKeepLetters(s[|s| - 1]);
    }
  }

  lemma CharsKeepLetters(c: char)
    ensures LowerChar(LowerChar(c)) == LowerChar(c)
    ensures IsAlnum(LowerChar(c)) ==> LowerChar(HyphenChar(c)) == LowerChar(c)
    ensures !IsAlnum(LowerChar(c)) ==> !IsAlnum(LowerChar(HyphenChar(c)))
    ensures LowerChar(HyphenChar(LowerChar(c))) == HyphenChar(LowerChar(c))
    ensures IsAlnum(LowerChar(c)) ==> HyphenChar(LowerChar(c)) == LowerChar(c)
  {
  }

  lemma LettersOfOne(c: char)
    ensures Letters([c]) == if IsAlnum(LowerChar(c)) then [LowerChar(c)] else []
  {
    assert [c][..0] == [];
  }

  lemma {:induction false} FilterKeepsLetters(s: string)
    requires forall k :: 0 <= k < |s| ==> LowerChar(s[k]) == s[k]
    ensures Letters(KeepLabelChars(s)) == Letters(s)
    decreases |s|
  {
    if s != [] {
      var t := s[..|s| - 1];
      FilterKeepsLetters(t);
      LettersAppend(KeepLabelChars(t), [s[|s| - 1]]);
      LettersOfOne(s[|s| - 1]);
      if !IsLabelChar(s[|s| - 1]) { assert KeepLabelChars(s) == KeepLabelChars(t); }
    }
  }

  lemma TrimKeepsLetters(s: string, drop: char -> bool)
    requires forall c :: drop(c) ==> !IsAlnum(LowerChar(c))
    ensures Letters(Trim(s, drop)) == Letters(s)
  {
    TrimLeftKeepsLetters(s, drop);
    TrimRightKeepsLetters(TrimLeft(s, drop), drop);
  }

  /** Everything sanitising does before the hyphens at the ends go. */
  function Core(name: string): string {
    KeepLabelChars(Hyphened(name))
  }

  function Hyphened(name: string): string {
    MapChars(MapChars(Trim(name, IsSpace), LowerChar), HyphenChar)
  }

  lemma CoreKeepsLetters(name: string)
    ensures Letters(Core(name)) == Letters(name)
  {
    var inner := Trim(name, IsSpace);
    TrimKeepsLetters(name, IsSpace);
    MapKeepsLetters(inner);
    MapKeepsLetters(MapChars(inner, LowerChar));
    var h := Hyphened(name);
    forall k | 0 <= k < |h| ensures LowerChar(h[k]) == h[k] { CharsKeepLetters(inner[k]); }
    FilterKeepsLetters(h);
  }

  /** Main result: no letter or digit is lost, added, moved or changed beyond its case, unless the name
      has none at all, and then the fallback stands in. */
  lemma SanitizeKeepsTheLetters(name: string)
    requires name != []
    ensures if Letters(name) == [] then Sanitize(name) == Ok(FALLBACK)
            else Letters(Sanitize(name).value) == Letters(name)
  {
    CoreKeepsLetters(name);
    TrimKeepsLetters(Core(name), IsHyphen);
    KeptAreLabelChars(Hyphened(name));
    TrimmedIsLabel(Core(name));
    if Trim(Core(name), IsHyphen) != [] { LabelHasLetters(Trim(Core(name), IsHyphen)); }
  }

  lemma LabelHasLetters(s: string)
    requires IsLabel(s)
    ensures Letters(s) != []
  {
    assert LowerChar(s[|s| - 1]) == s[|s| - 1];
  }

  lemma {:induction false} KeepAppends(x: string, y: string)
    ensures KeepLabelChars(x + y) == KeepLabelChars(x) + KeepLabelChars(y)
    decreases |y|
  {
    if y == [] {
      assert x + y == x;
    } else {
      assert (x + y)[..|x + y| - 1] == x + y[..|y| - 1];
      KeepAppends(x, y[..|y| - 1]);
    }
  }

  lemma {:induction false} TrimLeftAppends(x: string, y: string, drop: char -> bool)
    requires x != [] && !drop(x[|x| - 1])
    ensures TrimLeft(x + y, drop) == TrimLeft(x, drop) + y
    ensures TrimLeft(x, drop) != [] && TrimLeft(x, drop)[|TrimLeft(x, drop)| - 1] == x[|x| - 1]
    decreases |x|
  {
    if drop(x[0]) {
      assert (x + y)[1..] == x[1..] + y;
      TrimLeftAppends(x[1..], y, drop);
    }
  }

  lemma {:induction false} TrimRightAppends(x: string, y: string, drop: char -> bool)
    requires y != [] && !drop(y[0])
    ensures TrimRight(x + y, drop) == x + TrimRight(y, drop)
    ensures TrimRight(y, drop) != [] && TrimRight(y, drop)[0] == y[0]
    decreases |y|
  {
    if drop(y[|y| - 1]) {
      assert (x + y)[..|x + y| - 1] == x + y[..|y| - 1];
      TrimRightAppends(x, y[..|y| - 1], drop);
    }
  }

  /** Trimming around a separator: only the outer ends matter. */
  lemma TrimAround(x: string, sep: char, y: string, drop: char -> bool)
    requires x != [] && !drop(x[|x| - 1]) && y != [] && !drop(y[0])
    ensures Trim(x + [sep] + y, drop) == Trim(x, drop) + [sep] + Trim(y, drop)
    ensures Trim(x, drop) != [] && Trim(x, drop)[|Trim(x, drop)| - 1] == x[|x| - 1]
    ensures Trim(y, drop) != [] && Trim(y, drop)[0] == y[0]
  {
    TrimLeftAppends(x, [sep] + y, drop);
    TrimLeftAppends(x, [], drop);
    assert x + [sep] + y == x + ([sep] + y);
    TrimRightAppends(TrimLeft(x, drop) + [sep], y, drop);
    assert TrimLeft(x, drop) + ([sep] + y) == TrimLeft(x, drop) + [sep] + y;
  }

  lemma KeepsLast(t: string)
    requires t != [] && IsLabelChar(t[|t| - 1])
    ensures KeepLabelChars(t) != [] && KeepLabelChars(t)[|KeepLabelChars(t)| - 1] == t[|t| - 1]
  {
  }

  lemma KeepsFirst(t: string)
    requires t != [] && IsLabelChar(t[0])
    ensures KeepLabelChars(t) != [] && KeepLabelChars(t)[0] == t[0]
  {
    assert t == [t[0]] + t[1..];
    KeepAppends([t[0]], t[1..]);
    assert [t[0]][..0] == [];
  }

  lemma CoreEndsAlnum(name: string)
    requires name != [] && IsAlnum(LowerChar(name[|name| - 1]))
    ensures Core(name) != [] && IsAlnum(Core(name)[|Core(name)| - 1])
  {
    TrimAround(name, 'x', "x", IsSpace);
    var inner, h := Trim(name, IsSpace), Hyphened(name);
    CharsKeepLetters(inner[|inner| - 1]);
    assert h[|h| - 1] == LowerChar(name[|name| - 1]);
    KeepsLast(h);
  }

  lemma CoreBeginsAlnum(name: string)
    requires name != [] && IsAlnum(LowerChar(name[0]))
    ensures Core(name) != [] && IsAlnum(Core(name)[0])
  {
    TrimAround("x", 'x', name, IsSpace);
    var inner, h := Trim(name, IsSpace), Hyphened(name);
    CharsKeepLetters(inner[0]);
    assert h[0] == LowerChar(name[0]);
    KeepsFirst(h);
  }

  lemma MapConcat(u: string, v: string, f: char -> char)
    ensures MapChars(u + v, f) == MapChars(u, f) + MapChars(v, f)
  {
  }

  /** What becomes of a character before the label characters are picked. */
  function Mapped(c: char): char {
    HyphenChar(LowerChar(c))
  }

  lemma MapsAround(u: string, c: char, v: string)
    ensures MapChars(MapChars(u + [c] + v, LowerChar), HyphenChar)
            == MapChars(MapChars(u, LowerChar), HyphenChar) + [Mapped(c)] + MapChars(MapChars(v, LowerChar), HyphenChar)
  {
    MapConcat(u + [c], v, LowerChar);
    MapConcat(u, [c], LowerChar);
    MapConcat(MapChars(u + [c], LowerChar), MapChars(v, LowerChar), HyphenChar);
    MapConcat(MapChars(u, LowerChar), MapChars([c], LowerChar), HyphenChar);
    assert MapChars(MapChars([c], LowerChar), HyphenChar) == [Mapped(c)];
  }

  lemma KeepAround(u: string, c: char, v: string)
    ensures KeepLabelChars(u + [c] + v) == KeepLabelChars(u) + (if IsLabelChar(c) then [c] else []) + KeepLabelChars(v)
  {
    KeepAppends(u + [c], v);
    KeepAppends(u, [c]);
    assert [c][..0] == [] && KeepLabelChars([c]) == if IsLabelChar(c) then [c] else [];
  }

  lemma CoreAround(x: string, c: char, y: string)
    requires x != [] && IsAlnum(LowerChar(x[|x| - 1])) && y != [] && IsAlnum(LowerChar(y[0]))
    ensures Core(x + [c] + y) == Core(x) + (if IsLabelChar(Mapped(c)) then [Mapped(c)] else []) + Core(y)
  {
    TrimAround(x, c, y, IsSpace);
    var u, v := Trim(x, IsSpace), Trim(y, IsSpace);
    MapsAround(u, c, v);
    KeepAround(MapChars(MapChars(u, LowerChar), HyphenChar), Mapped(c), MapChars(MapChars(v, LowerChar), HyphenChar));
  }

  /** Trimming two parts that meet in what stays. */
  lemma TrimJoined(x: string, y: string, drop: char -> bool)
    requires x != [] && !drop(x[|x| - 1]) && y != [] && !drop(y[0])
    ensures Trim(x + y, drop) == Trim(x, drop) + Trim(y, drop)
  {
    TrimLeftAppends(x, y, drop);
    TrimLeftAppends(x, [], drop);
    TrimRightAppends(TrimLeft(x, drop), y, drop);
  }

  /** Main result: a space, underscore or hyphen between two parts becomes exactly one hyphen between
      the sanitised parts. */
  lemma SeparatorsBecomeHyphens(x: string, sep: char, y: string)
    requires x != [] && IsAlnum(LowerChar(x[|x| - 1])) && y != [] && IsAlnum(LowerChar(y[0]))
    requires sep in {' ', '_', '-'}
    ensures Sanitize(x + [sep] + y) == Ok(Sanitize(x).value + "-" + Sanitize(y).value)
  {
    CoreAround(x, sep, y);
    CoreEndsAlnum(x);
    CoreBeginsAlnum(y);
    TrimAround(Core(x), '-', Core(y), IsHyphen);
  }

  lemma OthersAreDropped(c: char)
    requires !IsAlnum(LowerChar(c)) && c != ' ' && c != '_' && c != '-'
    ensures !IsLabelChar(Mapped(c))
  {
  }

  lemma CoreJoined(x: string, c: char, y: string)
    requires x != [] && IsAlnum(LowerChar(x[|x| - 1])) && y != [] && IsAlnum(LowerChar(y[0]))
    requires !IsLabelChar(Mapped(c))
    ensures Core(x + [c] + y) == Core(x) + Core(y)
  {
    CoreAround(x, c, y);
    assert Core(x) + [] + Core(y) == Core(x) + Core(y);
  }

  lemma SanitizeIs(name: string)
    requires name != [] && Trim(Core(name), IsHyphen) != []
    ensures Sanitize(name) == Ok(Trim(Core(name), IsHyphen))
  {
  }

  lemma TrimStays(x: string, drop: char -> bool)
    requires x != [] && (!drop(x[|x| - 1]) || !drop(x[0]))
    ensures Trim(x, drop) != []
  {
    if !drop(x[|x| - 1]) { TrimLeftAppends(x, [], drop); }
    else { TrimRightAppends([], x, drop); }
  }

  /** Main result: any other character that is neither a letter nor a digit goes without a trace. */
  lemma OtherCharactersVanish(x: string, c: char, y: string)
    requires x != [] && IsAlnum(LowerChar(x[|x| - 1])) && y != [] && IsAlnum(LowerChar(y[0]))
    requires !('a' <= c <= 'z') && !('A' <= c <= 'Z') && !('0' <= c <= '9') && c != ' ' && c != '_' && c != '-'
    ensures Sanitize(x + [c] + y) == Ok(Sanitize(x).value + Sanitize(y).value)
  {
    OthersAreDropped(c);
    CoreJoined(x, c, y);
    CoreEndsAlnum(x);
    CoreBeginsAlnum(y);
    TrimJoined(Core(x), Core(y), IsHyphen);
    TrimStays(Core(x), IsHyphen);
    TrimStays(Core(y), IsHyphen);
    SanitizeIs(x);
    SanitizeIs(y);
    SanitizeIs(x + [c] + y);
  }

  // The suffix of the names container-maker returns.

  predicate HyphenFree(s: string) {
    forall k :: 0 <= k < |s| ==> s[k] != '-'
  }

  /** The position of the last hyphen, |s| if there is none. */
  function LastHyphen(s: string): (i: nat)
    ensures i <= |s| && (i == |s| ==> HyphenFree(s))
    ensures i < |s| ==> s[i] == '-' && HyphenFree(s[i + 1..])
  {
    if s == [] then 0
    else if s[|s| - 1] == '-' then |s| - 1
    else
      var t := s[..|s| - 1];
      var i := LastHyphen(t);
      assert forall k :: 0 <= k < |t| ==> s[k] == t[k];
      if i == |t| then |s| else assert forall k :: i < k < |t| ==> t[k] == t[i + 1..][k - i - 1]; i
  }

  /** s.split('-') */
  function SplitHyphens(s: string): (parts: seq<string>)
    ensures parts != []
    decreases |s|
  {
    var i := LastHyphen(s);
    if i == |s| then [s] else SplitHyphens(s[..i]) + [s[i + 1..]]
  }

  /** '-'.join(parts) */
  function JoinHyphens(parts: seq<string>): string {
    if parts == [] then []
    else if |parts| == 1 then parts[0]
    else JoinHyphens(parts[..|parts| - 1]) + "-" + parts[|parts| - 1]
  }

  const KINDS: set<string> := {"pod", "service", "ingress"}

  predicate IsNumber(s: string) {
    s != [] && AllDigits(s)
  }

  function RemoveSuffix(name: string): string {
    var parts := SplitHyphens(name);
    var last := parts[|parts| - 1];
    if |parts| >= 2 && IsNumber(last) then JoinHyphens(parts[..|parts| - 2])
    else if last in KINDS then JoinHyphens(parts[..|parts| - 1])
    else name
  }

  lemma {:induction false} JoinUndoesSplit(s: string)
    ensures JoinHyphens(SplitHyphens(s)) == s
    ensures forall k :: 0 <= k < |SplitHyphens(s)| ==> HyphenFree(SplitHyphens(s)[k])
    decreases |s|
  {
    var i := LastHyphen(s);
    if i < |s| {
      JoinUndoesSplit(s[..i]);
      var parts := SplitHyphens(s);
      assert parts[..|parts| - 1] == SplitHyphens(s[..i]);
      assert s == s[..i] + "-" + s[i + 1..];
    }
  }

  lemma {:induction false} LastHyphenBefore(base: string, part: string)
    requires HyphenFree(part)
    ensures LastHyphen(base + "-" + part) == |base|
    decreases |part|
  {
    var s := base + "-" + part;
    if part != [] {
      LastHyphenBefore(base, part[..|part| - 1]);
      assert s[..|s| - 1] == base + "-" + part[..|part| - 1];
    }
  }

  lemma SplitAppends(base: string, part: string)
    requires HyphenFree(part)
    ensures SplitHyphens(base + "-" + part) == SplitHyphens(base) + [part]
  {
    LastHyphenBefore(base, part);
    var s := base + "-" + part;
    assert s[..|base|] == base && s[|base| + 1..] == part;
  }

  lemma KindsArePlain(kind: string)
    requires kind in KINDS
    ensures HyphenFree(kind) && !IsNumber(kind)
  {
    assert kind == "pod" || kind == "service" || kind == "ingress";
    assert !IsDigit(kind[0]);
  }

  lemma KindComesOff(base: string, kind: string)
    requires kind in KINDS
    ensures RemoveSuffix(base + "-" + kind) == base
  {
    KindsArePlain(kind);
    SplitAppends(base, kind);
    JoinUndoesSplit(base);
    var parts := SplitHyphens(base) + [kind];
    assert parts[..|parts| - 1] == SplitHyphens(base);
  }

  lemma StampComesOff(base: string, kind: string, stamp: string)
    requires HyphenFree(kind) && IsNumber(stamp)
    ensures RemoveSuffix(base + "-" + kind + "-" + stamp) == base
  {
    SplitAppends(base, kind);
    SplitAppends(base + "-" + kind, stamp);
    JoinUndoesSplit(base);
    var parts := SplitHyphens(base) + [kind] + [stamp];
    assert parts[..|parts| - 2] == SplitHyphens(base);
  }

  /** Main result: the name that was asked for comes back from the names derived from it, whatever
      hyphens, digits or kinds it contains itself. */
  lemma {:induction false} SuffixRemovalRecoversTheName(x: string, kind: string, stamp: string)
    requires x != [] && IsNumber(stamp) && (kind == "pod" || kind == "service" || kind == "ingress")
    ensures var name := Sanitize(x).value;
            && RemoveSuffix(name + "-" + kind) == name
            && RemoveSuffix(name + "-" + kind + "-" + stamp) == name
  {
    var name := Sanitize(x).value;
    KindsArePlain(kind);
    KindComesOff(name, kind);
    StampComesOff(name, kind, stamp);
  }

  /** Dropping parts from the end makes a joined name shorter. */
  lemma JoinOfFewerParts(parts: seq<string>)
    requires |parts| >= 1
    ensures |JoinHyphens(parts[..|parts| - 1])| + |parts[|parts| - 1]| <= |JoinHyphens(parts)|
  {
  }

  lemma JoinWithoutLastTwo(parts: seq<string>)
    requires |parts| >= 2
    ensures |JoinHyphens(parts[..|parts| - 2])| + |parts[|parts| - 1]| <= |JoinHyphens(parts)|
  {
    JoinOfFewerParts(parts);
    var init := parts[..|parts| - 1];
    JoinOfFewerParts(init);
    assert init[..|init| - 1] == parts[..|parts| - 2];
  }

  /** A name without a suffix is left alone exactly when its last part could not be taken for one. */
  lemma BareNameKeptIff(name: string)
    ensures var parts := SplitHyphens(name);
            var last := parts[|parts| - 1];
            RemoveSuffix(name) == name
            <==> !(|parts| >= 2 && IsNumber(last)) && last != "pod" && last != "service" && last != "ingress"
  {
    JoinUndoesSplit(name);
    var parts := SplitHyphens(name);
    var last := parts[|parts| - 1];
    if |parts| >= 2 && IsNumber(last) {
      JoinWithoutLastTwo(parts);
    } else if last in KINDS {
      JoinOfFewerParts(parts);
    }
  }
}
