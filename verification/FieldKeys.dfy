/** services/api/routers/groups.py, _sanitize_field_key: from a spreadsheet header to a template
    variable name. */
module FieldKeys {

  predicate IsLower(c: char) { 'a' <= c <= 'z' }

  predicate IsUpper(c: char) { 'A' <= c <= 'Z' }

  predicate IsDigit(c: char) { '0' <= c <= '9' }

  /** [a-zA-Z0-9_] */
  predicate IsWord(c: char) {
    IsLower(c) || IsUpper(c) || IsDigit(c) || c == '_'
  }

  /** What str.strip() takes off: the Unicode whitespace of Python's str.isspace. */
  predicate IsSpace(c: char) {
    var n := c as int;
    || 0x09 <= n <= 0x0D || 0x1C <= n <= 0x20 || n == 0x85 || n == 0xA0 || n == 0x1680
    || 0x2000 <= n <= 0x200A || n == 0x2028 || n == 0x2029 || n == 0x202F || n == 0x205F || n == 0x3000
  }

  /** What a strip takes off the two ends. */
  datatype Ends = Spaces | Underscores

  predicate Strips(e: Ends, c: char) {
    match e
    case Spaces => IsSpace(c)
    case Underscores => c == '_'
  }

  function StripLeft(s: string, e: Ends): string {
    if s != [] && Strips(e, s[0]) then StripLeft(s[1..], e) else s
  }

  function StripRight(s: string, e: Ends): string {
    if s != [] && Strips(e, s[|s| - 1]) then StripRight(s[..|s| - 1], e) else s
  }

  function Strip(s: string, e: Ends): string {
    StripRight(StripLeft(s, e), e)
  }

  /** str.lower() of one character, exact as far as ASCII is concerned: two non-ASCII characters have
      an ASCII lower case (the Kelvin sign, and dotted capital I followed by a combining dot); every
      other non-ASCII character stays non-ASCII, and which one does not matter below. */
  function LowerChar(c: char): string {
    if IsUpper(c) then [(c as int + 32) as char]
    else if c as int == 0x212A then "k"
    else if c as int == 0x130 then ['i', 0x307 as char]
    else [c]
  }

  function Lower(s: string): string {
    if s == [] then [] else Lower(s[..|s| - 1]) + LowerChar(s[|s| - 1])
  }

  /** The two replacements and the regular expression, character by character. */
  function CleanChar(c: char): char {
    var d := if c == ' ' then '_' else c;
    var e := if d == '-' then '_' else d;
    if IsWord(e) then e else '_'
  }

  function Clean(s: string): string {
    if s == [] then [] else Clean(s[..|s| - 1]) + [CleanChar(s[|s| - 1])]
  }

  function Prefixed(key: string): string {
    if key == [] || IsDigit(key[0]) then "_" + key else key
  }

  function Sanitize(raw: string): string {
    Prefixed(Strip(Clean(Lower(Strip(raw, Spaces))), Underscores))
  }

  /** The variable names the template renderer accepts. */
  predicate IsVariableName(s: string) {
    s != [] && (IsLower(s[0]) || IsUpper(s[0]) || s[0] == '_') && forall i :: 0 <= i < |s| ==> IsWord(s[i])
  }

  /** The characters sanitising leaves as they are. */
  predicate IsStable(c: char) {
    IsLower(c) || IsDigit(c) || c == '_'
  }

  predicate AllStable(s: string) {
    forall i :: 0 <= i < |s| ==> IsStable(s[i])
  }

  // ---- one operation at a time ----

  lemma {:induction false} StripLeftKeeps(s: string, e: Ends)
    requires AllStable(s)
    ensures AllStable(StripLeft(s, e))
  {
    if s != [] && Strips(e, s[0]) {
      StripLeftKeeps(s[1..], e);
    }
  }

  lemma {:induction false} StripRightKeeps(s: string, e: Ends)
    requires AllStable(s)
    ensures AllStable(StripRight(s, e))
  {
    if s != [] && Strips(e, s[|s| - 1]) {
      StripRightKeeps(s[..|s| - 1], e);
    }
  }

  lemma {:induction false} StripLeftFirst(s: string, e: Ends)
    ensures StripLeft(s, e) != [] ==> !Strips(e, StripLeft(s, e)[0])
  {
    if s != [] && Strips(e, s[0]) {
      StripLeftFirst(s[1..], e);
    }
  }

  lemma {:induction false} StripRightEnds(s: string, e: Ends)
    requires s != [] ==> !Strips(e, s[0])
    ensures var r := StripRight(s, e);
            r != [] ==> !Strips(e, r[0]) && !Strips(e, r[|r| - 1])
  {
    if s != [] && Strips(e, s[|s| - 1]) {
      StripRightEnds(s[..|s| - 1], e);
    }
  }

  lemma NothingToStrip(s: string, e: Ends)
    requires s != [] ==> !Strips(e, s[0]) && !Strips(e, s[|s| - 1])
    ensures Strip(s, e) == s
  {
  }

  lemma NoUpperAfter(c: char)
    ensures forall i :: 0 <= i < |LowerChar(c)| ==> !IsUpper(LowerChar(c)[i])
  {
  }

  lemma {:induction false} LowerHasNoUpper(s: string)
    ensures forall i :: 0 <= i < |Lower(s)| ==> !IsUpper(Lower(s)[i])
  {
    if s != [] {
      LowerHasNoUpper(s[..|s| - 1]);
      NoUpperAfter(s[|s| - 1]);
    }
  }

  lemma {:induction false} StableLower(s: string)
    requires AllStable(s)
    ensures Lower(s) == s
  {
    if s != [] {
      var init, c := s[..|s| - 1], s[|s| - 1];
      StableLower(init);
      StableChar(c);
      assert Lower(s) == init + [c] == s;
    }
  }

  lemma StableChar(c: char)
    requires IsStable(c)
    ensures LowerChar(c) == [c] && CleanChar(c) == c && !IsSpace(c)
  {
  }

  lemma {:induction false} StableClean(s: string)
    requires AllStable(s)
    ensures Clean(s) == s
  {
    if s != [] {
      StableClean(s[..|s| - 1]);
      StableChar(s[|s| - 1]);
    }
  }

  lemma CleanCharStable(c: char)
    requires !IsUpper(c)
    ensures IsStable(CleanChar(c))
  {
  }

  lemma {:induction false} CleanIsStable(s: string)
    requires forall i :: 0 <= i < |s| ==> !IsUpper(s[i])
    ensures AllStable(Clean(s))
  {
    if s != [] {
      CleanIsStable(s[..|s| - 1]);
      CleanCharStable(s[|s| - 1]);
    }
  }

  // ---- the whole ----

  /** A key before a possible underscore is put in front. */
  predicate IsCore(k: string) {
    AllStable(k) && (k != [] ==> k[0] != '_' && k[|k| - 1] != '_')
  }

  lemma StripsToCore(cleaned: string)
    requires AllStable(cleaned)
    ensures IsCore(Strip(cleaned, Underscores))
  {
    StripLeftKeeps(cleaned, Underscores);
    StripLeftFirst(cleaned, Underscores);
    StripRightKeeps(StripLeft(cleaned, Underscores), Underscores);
    StripRightEnds(StripLeft(cleaned, Underscores), Underscores);
  }

  lemma CoreOf(raw: string) returns (k: string)
    ensures IsCore(k) && Sanitize(raw) == Prefixed(k)
  {
    var lowered := Lower(Strip(raw, Spaces));
    LowerHasNoUpper(Strip(raw, Spaces));
    CleanIsStable(lowered);
    StripsToCore(Clean(lowered));
    k := Strip(Clean(lowered), Underscores);
  }

  lemma PrefixedIsVariableName(k: string)
    requires IsCore(k)
    ensures IsVariableName(Prefixed(k)) && AllStable(Prefixed(k))
  {
    var r := Prefixed(k);
    forall i | 0 <= i < |r| ensures IsStable(r[i]) && IsWord(r[i]) {
      assert r == k || (i == 0 && r[0] == '_') || r[i] == k[i - 1];
    }
  }

  /** Every sanitised header is a name the renderer accepts. */
  lemma SanitizedIsVariableName(raw: string)
    ensures IsVariableName(Sanitize(raw))
  {
    var k := CoreOf(raw);
    PrefixedIsVariableName(k);
  }

  lemma StableHasNoSpaces(s: string)
    requires AllStable(s)
    ensures Strip(s, Spaces) == s
  {
    if s != [] {
      StableChar(s[0]);
      StableChar(s[|s| - 1]);
    }
    NothingToStrip(s, Spaces);
  }

  lemma PrefixStripsOff(k: string)
    requires IsCore(k)
    ensures Strip(Prefixed(k), Underscores) == k
  {
    NothingToStrip(k, Underscores);
    if Prefixed(k) != k {
      UnderscoreStripsOff(k);
    }
  }

  lemma UnderscoreStripsOff(k: string)
    ensures StripLeft("_" + k, Underscores) == StripLeft(k, Underscores)
  {
    assert ("_" + k)[1..] == k;
  }

  /** A stable text goes through all but the last step unchanged. */
  lemma StableGoesThrough(s: string)
    requires AllStable(s)
    ensures Sanitize(s) == Prefixed(Strip(s, Underscores))
  {
    StableHasNoSpaces(s);
    StableLower(s);
    StableClean(s);
  }

  /** Sanitising twice is sanitising once, on all strings. */
  lemma SanitizeIdempotent(raw: string)
    ensures Sanitize(Sanitize(raw)) == Sanitize(raw)
  {
    var k := CoreOf(raw);
    PrefixedIsVariableName(k);
    StableGoesThrough(Prefixed(k));
    PrefixStripsOff(k);
  }

  // ---- letter by letter ----

  ghost predicate AllStrip(s: string, e: Ends) {
    forall i :: 0 <= i < |s| ==> Strips(e, s[i])
  }

  lemma {:induction false} LeftOff(pre: string, rest: string, e: Ends)
    requires AllStrip(pre, e)
    ensures StripLeft(pre + rest, e) == StripLeft(rest, e)
  {
    if pre == [] {
      assert pre + rest == rest;
    } else {
      LeftOff(pre[1..], rest, e);
      assert (pre + rest)[1..] == pre[1..] + rest;
    }
  }

  lemma {:induction false} RightOff(rest: string, post: string, e: Ends)
    requires AllStrip(post, e)
    ensures StripRight(rest + post, e) == StripRight(rest, e)
  {
    if post == [] {
      assert rest + post == rest;
    } else {
      RightOff(rest, post[..|post| - 1], e);
      assert (rest + post)[..|rest + post| - 1] == rest + post[..|post| - 1];
    }
  }

  lemma {:induction false} AllOff(s: string, e: Ends)
    requires AllStrip(s, e)
    ensures StripRight(s, e) == []
  {
    RightOff([], s, e);
    assert [] + s == s;
  }

  /** A strip takes off the two ends and nothing of what they enclose. */
  lemma StripTakesTheEnds(pre: string, mid: string, post: string, e: Ends)
    requires AllStrip(pre, e) && AllStrip(post, e)
    requires mid != [] ==> !Strips(e, mid[0]) && !Strips(e, mid[|mid| - 1])
    ensures Strip(pre + mid + post, e) == mid
  {
    assert pre + mid + post == pre + (mid + post);
    LeftOff(pre, mid + post, e);
    if mid == [] {
      assert mid + post == post;
      AllOff(post, e);
      LeftOff(post, [], e);
      assert post + [] == post;
    } else {
      RightOff(mid, post, e);
    }
  }

  /** Whitespace among the ASCII characters. */
  lemma AsciiSpaces(c: char)
    requires c as int < 0x80
    ensures Strips(Spaces, c) <==>
            c == ' ' || c == '\t' || c == '\n' || c == '\r' || c as int in {11, 12, 28, 29, 30, 31}
    ensures Strips(Underscores, c) <==> c == '_'
  {
  }

  /** A letter or digit of ASCII. */
  predicate IsAlnum(c: char) {
    'a' <= c <= 'z' || 'A' <= c <= 'Z' || '0' <= c <= '9'
  }

  ghost predicate IsAscii(s: string) {
    forall i :: 0 <= i < |s| ==> s[i] as int < 0x80
  }

  /** ASCII characters, no letter or digit among them. */
  ghost predicate IsJunk(s: string) {
    IsAscii(s) && forall i :: 0 <= i < |s| ==> !IsAlnum(s[i])
  }

  /** d is c in lower case if c is a letter, c itself if it is a digit, and an underscore otherwise. */
  predicate Becomes(c: char, d: char) {
    if 'A' <= c <= 'Z' then d as int - 'a' as int == c as int - 'A' as int
    else if 'a' <= c <= 'z' || '0' <= c <= '9' then d == c
    else d == '_'
  }

  lemma {:induction false} LeftJunk(junk: string, rest: string) returns (left: string)
    requires IsJunk(junk) && StripLeft(rest, Spaces) == rest
    ensures IsJunk(left) && StripLeft(junk + rest, Spaces) == left + rest
  {
    left := junk;
    if junk == [] {
      assert junk + rest == rest;
    } else if Strips(Spaces, junk[0]) {
      assert (junk + rest)[1..] == junk[1..] + rest;
      left := LeftJunk(junk[1..], rest);
    }
  }

  lemma {:induction false} RightJunk(rest: string, junk: string) returns (right: string)
    requires IsJunk(junk) && StripRight(rest, Spaces) == rest
    ensures IsJunk(right) && StripRight(rest + junk, Spaces) == rest + right
  {
    right := junk;
    if junk == [] {
      assert rest + junk == rest;
    } else if Strips(Spaces, junk[|junk| - 1]) {
      assert (rest + junk)[..|rest + junk| - 1] == rest + junk[..|junk| - 1];
      right := RightJunk(rest, junk[..|junk| - 1]);
    }
  }

  /** What stripping the whitespace off leaves: the core, between shorter runs of junk. */
  lemma StripKeepsCore(before: string, core: string, behind: string) returns (left: string, right: string)
    requires IsJunk(before) && IsJunk(behind) && (core != [] ==> IsAlnum(core[0]) && IsAlnum(core[|core| - 1]))
    ensures IsJunk(left) && IsJunk(right) && Strip(before + core + behind, Spaces) == left + core + right
  {
    if core == [] {
      assert before + core + behind == before + behind;
      left := [];
      right := StripJunk(before + behind);
      assert left + core + right == right;
    } else {
      assert before + core + behind == before + (core + behind);
      StripLeftStops(core + behind);
      left := LeftJunk(before, core + behind);
      assert left + (core + behind) == (left + core) + behind;
      StripRightStops(left + core);
      right := RightJunk(left + core, behind);
    }
  }

  lemma StripLeftStops(s: string)
    requires s != [] && IsAlnum(s[0])
    ensures StripLeft(s, Spaces) == s
  {
  }

  lemma StripRightStops(s: string)
    requires s != [] && IsAlnum(s[|s| - 1])
    ensures StripRight(s, Spaces) == s
  {
  }

  lemma StripJunk(junk: string) returns (left: string)
    requires IsJunk(junk)
    ensures IsJunk(left) && Strip(junk, Spaces) == left
  {
    var l := LeftJunk(junk, []);
    assert junk + [] == junk && l + [] == l && [] + l == l;
    left := RightJunk([], l);
    assert [] + left == left;
  }

  lemma Associates(a: string, b: string, d: string)
    ensures a + (b + d) == (a + b) + d
  {
  }

  lemma {:induction false} LowerAppends(a: string, b: string)
    ensures Lower(a + b) == Lower(a) + Lower(b)
  {
    if b == [] {
      assert a + b == a;
    } else {
      var init, c := b[..|b| - 1], b[|b| - 1];
      assert (a + b)[..|a + b| - 1] == a + init && (a + b)[|a + b| - 1] == c;
      LowerAppends(a, init);
      Associates(Lower(a), Lower(init), LowerChar(c));
    }
  }

  lemma CleanJoins(a: string, b: string)
    ensures Clean(Lower(a + b)) == Clean(Lower(a)) + Clean(Lower(b))
  {
    LowerAppends(a, b);
    CleanAppends(Lower(a), Lower(b));
  }

  lemma {:induction false} CleanAppends(a: string, b: string)
    ensures Clean(a + b) == Clean(a) + Clean(b)
  {
    if b == [] {
      assert a + b == a;
    } else {
      var init, c := b[..|b| - 1], b[|b| - 1];
      assert (a + b)[..|a + b| - 1] == a + init && (a + b)[|a + b| - 1] == c;
      CleanAppends(a, init);
      Associates(Clean(a), Clean(init), [CleanChar(c)]);
    }
  }

  lemma OneLowers(c: char)
    requires c as int < 0x80
    ensures |LowerChar(c)| == 1
    ensures IsUpper(c) ==> LowerChar(c)[0] as int == c as int + 32
    ensures !IsUpper(c) ==> LowerChar(c)[0] == c
  {
  }

  lemma OneBecomes(c: char)
    requires c as int < 0x80
    ensures |LowerChar(c)| == 1 && Becomes(c, CleanChar(LowerChar(c)[0]))
  {
    OneLowers(c);
  }

  lemma CleanedOne(c: char, l: string)
    requires l == LowerChar(c) && |l| == 1
    ensures Clean(Lower([c])) == [CleanChar(l[0])]
  {
    assert [c][..0] == [] && [] + l == l;
    assert Lower([c]) == l;
    assert l[..0] == [];
  }

  lemma {:induction false} CleanLength(s: string)
    ensures |Clean(s)| == |s|
  {
    if s != [] {
      CleanLength(s[..|s| - 1]);
    }
  }

  lemma {:induction false} LowerLength(s: string)
    requires IsAscii(s)
    ensures |Lower(s)| == |s|
  {
    if s != [] {
      LowerLength(s[..|s| - 1]);
      OneLowers(s[|s| - 1]);
    }
  }

  lemma CleanedLength(s: string)
    requires IsAscii(s)
    ensures |Clean(Lower(s))| == |s|
  {
    LowerLength(s);
    CleanLength(Lower(s));
  }

  lemma {:induction false} CharBecomes(s: string, i: nat)
    requires IsAscii(s) && i < |s|
    ensures |Clean(Lower(s))| == |s| && Becomes(s[i], Clean(Lower(s))[i])
  {
    var init, c := s[..|s| - 1], s[|s| - 1];
    assert s == init + [c];
    CleanedLength(s);
    CleanedLength(init);
    CleanJoins(init, [c]);
    OneBecomes(c);
    CleanedOne(c, LowerChar(c));
    if i < |init| {
      CharBecomes(init, i);
    }
  }

  lemma EachBecomes(s: string)
    requires IsAscii(s)
    ensures |Clean(Lower(s))| == |s| && forall i :: 0 <= i < |s| ==> Becomes(s[i], Clean(Lower(s))[i])
  {
    CleanedLength(s);
    forall i | 0 <= i < |s| ensures Becomes(s[i], Clean(Lower(s))[i]) {
      CharBecomes(s, i);
    }
  }

  lemma JunkBecomesUnderscores(junk: string)
    requires IsJunk(junk)
    ensures AllStrip(Clean(Lower(junk)), Underscores)
  {
    EachBecomes(junk);
  }

  /** The three parts of a cleaned text: underscores, the core in lower case, underscores. */
  lemma CleanedParts(left: string, core: string, right: string)
    requires IsJunk(left) && IsJunk(right) && (core != [] ==> IsAlnum(core[0]) && IsAlnum(core[|core| - 1]))
    requires IsAscii(core)
    ensures Strip(Clean(Lower(left + core + right)), Underscores) == Clean(Lower(core))
  {
    CleanJoins(left + core, right);
    CleanJoins(left, core);
    JunkBecomesUnderscores(left);
    JunkBecomesUnderscores(right);
    EachBecomes(core);
    var mid := Clean(Lower(core));
    if core != [] {
      AlnumStays(core[0], mid[0]);
      AlnumStays(core[|core| - 1], mid[|core| - 1]);
    }
    StripTakesTheEnds(Clean(Lower(left)), mid, Clean(Lower(right)), Underscores);
  }

  lemma AlnumStays(c: char, d: char)
    requires IsAlnum(c) && Becomes(c, d)
    ensures d != '_' && (IsDigit(d) <==> '0' <= c <= '9')
  {
  }

  lemma PrefixedSpelled(core: string, mid: string)
    requires |mid| == |core| && (forall i :: 0 <= i < |core| ==> Becomes(core[i], mid[i]))
    requires core != [] ==> IsAlnum(core[0])
    ensures var n := if core == [] || '0' <= core[0] <= '9' then 1 else 0;
            && |Prefixed(mid)| == n + |core| && (n == 1 ==> Prefixed(mid)[0] == '_')
            && forall i :: 0 <= i < |core| ==> Becomes(core[i], Prefixed(mid)[n + i])
  {
    if core != [] {
      AlnumStays(core[0], mid[0]);
    }
    assert forall i :: 0 <= i < |mid| ==> ("_" + mid)[1 + i] == mid[i];
  }

  /** A header letter by letter: what surrounds its first and last letter or digit goes, letters become lower
      case, everything else in between becomes an underscore, and an underscore is put in front of a digit
      or of nothing. */
  lemma SanitizeSpelled(before: string, core: string, behind: string)
    requires IsJunk(before) && IsJunk(behind) && IsAscii(core)
    requires core != [] ==> IsAlnum(core[0]) && IsAlnum(core[|core| - 1])
    ensures var key := Sanitize(before + core + behind);
            var n := if core == [] || '0' <= core[0] <= '9' then 1 else 0;
            && |key| == n + |core| && (n == 1 ==> key[0] == '_')
            && forall i :: 0 <= i < |core| ==> Becomes(core[i], key[n + i])
  {
    var left, right := StripKeepsCore(before, core, behind);
    CleanedParts(left, core, right);
    EachBecomes(core);
    PrefixedSpelled(core, Clean(Lower(core)));
  }
}
