/**
 * The parts of `SecurityUtils` the worker and the salt generator use: the two
 * trailing-identifier patterns that split a handler id such as
 * "com.example.Operation1.sub1" into its class and its method, the first-match
 * search over such a pattern, and `getSalt`/`getLetter`, which draw a random
 * string whose length and alphabet a small pattern-like text describes.
 */
module Security {
  import opened Lang

  // ---------------------------------------------------------------------------
  // The handler-id patterns
  // ---------------------------------------------------------------------------

  predicate IsIdentStart(c: char) { 'a' <= c <= 'z' || 'A' <= c <= 'Z' || c == '_' }

  predicate IsIdentChar(c: char) { IsIdentStart(c) || '0' <= c <= '9' }

  /** A word of `[a-zA-Z_][0-9a-zA-Z_]*`. */
  predicate IsIdentifier(s: string)
  {
    |s| >= 1 && IsIdentStart(s[0]) && forall k | 1 <= k < |s| :: IsIdentChar(s[k])
  }

  /**
   * `PTN_CLASSNAME`, the pattern `(\.[a-zA-Z_][0-9a-zA-Z_]*)$`, and
   * `PTN_METHODNAME`, the pattern `([a-zA-Z_][0-9a-zA-Z_]*)$`.
   */
  datatype Pattern = ClassNamePattern | MethodNamePattern

  /** What `p` itself matches, the `$` aside: `w` is the whole of one match. */
  predicate Matches(p: Pattern, w: string)
  {
    match p
    case ClassNamePattern => |w| >= 1 && w[0] == '.' && IsIdentifier(w[1..])
    case MethodNamePattern => IsIdentifier(w)
  }

  /** A line terminator of `java.util.regex`: `\n`, `\r`, U+0085, U+2028 and U+2029. */
  predicate IsLineTerminator(c: char)
  {
    c == '\n' || c == '\r' || c == '\U{0085}' || c == '\U{2028}' || c == '\U{2029}'
  }

  /**
   * Where `$`, without `MULTILINE`, matches in `t`: at the end, before a
   * line terminator that is the last character (but not between the `\r`
   * and the `\n` of a final `\r\n`), and before a final `\r\n`.
   */
  predicate DollarAt(t: string, e: nat)
  {
    || e == |t|
    || (e + 1 == |t| && IsLineTerminator(t[e]) && !(t[e] == '\n' && e > 0 && t[e - 1] == '\r'))
    || (e + 2 == |t| && t[e] == '\r' && t[e + 1] == '\n')
  }

  /** The length of the line terminator that ends `t`: 2 for `\r\n`, 1 for any other, 0 for none. */
  function TailLength(t: string): (n: nat)
    ensures n <= |t|
    ensures n == 0 <==> |t| == 0 || !IsLineTerminator(t[|t| - 1])
  {
    if |t| >= 2 && t[|t| - 2] == '\r' && t[|t| - 1] == '\n' then 2
    else if |t| >= 1 && IsLineTerminator(t[|t| - 1]) then 1
    else 0
  }

  /** `t` without the line terminator that ends it, if any. */
  function Body(t: string): (b: string)
    ensures |b| <= |t| && b == t[..|b|]
  {
    t[..|t| - TailLength(t)]
  }

  /** A match of either pattern ends with an identifier character. */
  lemma MatchEndsInIdentChar(p: Pattern, w: string)
    requires Matches(p, w)
    ensures |w| >= 1 && IsIdentChar(w[|w| - 1])
  {
    if p.ClassNamePattern? {
      assert w[1..][|w| - 2] == w[|w| - 1];
    }
  }

  /** `$` always matches at the end of the body. */
  lemma DollarAtBody(t: string)
    ensures DollarAt(t, |Body(t)|)
  {
  }

  /**
   * A match of either pattern that `$` lets end at `e` ends at the end of
   * the body: its last character is not a line terminator, so it cannot run
   * into the final one.
   */
  lemma {:induction false} DollarEndsAtBody(p: Pattern, t: string, k: nat, e: nat)
    requires k <= e <= |t| && DollarAt(t, e) && Matches(p, t[k..e])
    ensures e == |Body(t)|
  {
    MatchEndsInIdentChar(p, t[k..e]);
    assert t[k..e][e - k - 1] == t[e - 1];
  }

  /** Where `Matcher.find()` succeeds when it starts looking at `from`: the leftmost start of a match. */
  function FirstMatch(p: Pattern, t: string, from: nat): (r: Option<nat>)
    requires from <= |t|
    ensures r.Some? ==> from <= r.value <= |t| && Matches(p, t[r.value..])
    ensures r.Some? ==> forall k | from <= k < r.value :: !Matches(p, t[k..])
    ensures r.None? ==> forall k | from <= k <= |t| :: !Matches(p, t[k..])
    decreases |t| - from
  {
    if Matches(p, t[from..]) then Some(from)
    else if from == |t| then None
    else FirstMatch(p, t, from + 1)
  }

  /** The leftmost match, once it is known, is what `FirstMatch` finds. */
  lemma FirstMatchIs(p: Pattern, t: string, i: nat)
    requires i <= |t| && Matches(p, t[i..])
    requires forall k | 0 <= k < i :: !Matches(p, t[k..])
    ensures FirstMatch(p, t, 0) == Some(i)
  {
    var r := FirstMatch(p, t, 0);
    if r.Some? {
      assert !(r.value < i) && !(i < r.value);
    }
  }

  /**
   * `getFirstStr(p, t)`: the text of the first match of `p` in `t`, or null.
   * By `DollarEndsAtBody` every match ends where the body of `t` ends, so the
   * leftmost one is the leftmost match that is a suffix of the body.
   */
  function GetFirstStr(p: Pattern, t: string): (r: Option<string>)
    ensures r.Some? ==> |r.value| <= |Body(t)| && Matches(p, r.value) && Body(t) == Body(t)[..|Body(t)| - |r.value|] + r.value
    ensures r.Some? ==> forall k | 0 <= k < |Body(t)| - |r.value| :: !Matches(p, Body(t)[k..])
    ensures r.None? ==> forall k | 0 <= k <= |Body(t)| :: !Matches(p, Body(t)[k..])
  {
    var b := Body(t);
    match FirstMatch(p, b, 0)
    case Some(i) => Some(b[i..])
    case None => None
  }

  /**
   * `PTN_CLASSNAME.matcher(t).replaceAll("")`: every match ends where the
   * body ends, so there is at most one; removing it keeps what precedes it
   * and the final line terminator.
   */
  function ClassNameOf(t: string): (r: string)
    ensures FirstMatch(ClassNamePattern, Body(t), 0).None? ==> r == t
    ensures FirstMatch(ClassNamePattern, Body(t), 0).Some? ==>
      var i := FirstMatch(ClassNamePattern, Body(t), 0).value;
      r == Body(t)[..i] + t[|Body(t)|..] && t == r[..i] + Body(t)[i..] + t[|Body(t)|..]
  {
    var b := Body(t);
    match FirstMatch(ClassNamePattern, b, 0)
    case Some(i) => b[..i] + t[|b|..]
    case None => t
  }

  /** The method name the worker reads off a handler id. */
  function MethodNameOf(t: string): Option<string>
  {
    GetFirstStr(MethodNamePattern, t)
  }

  /** A suffix of `p + "." + m` that starts at or before the dot contains that dot. */
  lemma DotInSuffix(p: string, m: string, k: nat)
    requires k <= |p|
    ensures (p + "." + m)[k..][|p| - k] == '.'
  {
  }

  /** A text with a dot is no identifier. */
  lemma DotNotIdentifier(w: string, j: nat)
    requires j < |w| && w[j] == '.'
    ensures !IsIdentifier(w)
  {
    if j > 0 {
      assert !IsIdentChar(w[j]);
    }
  }

  /** No match of either pattern starts before the last dot of `p + "." + m`. */
  lemma NoMatchBeforeDot(p: string, m: string, k: nat)
    requires k <= |p|
    ensures !Matches(MethodNamePattern, (p + "." + m)[k..])
    ensures k < |p| ==> !Matches(ClassNamePattern, (p + "." + m)[k..])
  {
    var w := (p + "." + m)[k..];
    DotInSuffix(p, m, k);
    DotNotIdentifier(w, |p| - k);
    if k < |p| {
      assert w[1..][|p| - k - 1] == '.';
      DotNotIdentifier(w[1..], |p| - k - 1);
    }
  }

  /** In `P.m`, for a method name `m` of identifier characters, the class-name pattern first matches at the last dot. */
  lemma {:induction false} ClassMatchOfId(p: string, m: string)
    requires IsIdentifier(m)
    ensures FirstMatch(ClassNamePattern, p + "." + m, 0) == Some(|p|)
  {
    var t := p + "." + m;
    assert t[|p|..] == "." + m;
    assert ("." + m)[1..] == m;
    forall k | 0 <= k < |p|
      ensures !Matches(ClassNamePattern, t[k..])
    {
      NoMatchBeforeDot(p, m, k);
    }
    FirstMatchIs(ClassNamePattern, t, |p|);
  }

  /** In `P.m`, for a method name `m` of identifier characters, the method-name pattern first matches after the last dot. */
  lemma {:induction false} MethodMatchOfId(p: string, m: string)
    requires IsIdentifier(m)
    ensures FirstMatch(MethodNamePattern, p + "." + m, 0) == Some(|p| + 1)
  {
    var t := p + "." + m;
    assert t[|p| + 1..] == m;
    forall k | 0 <= k < |p| + 1
      ensures !Matches(MethodNamePattern, t[k..])
    {
      NoMatchBeforeDot(p, m, k);
    }
    FirstMatchIs(MethodNamePattern, t, |p| + 1);
  }

  /** The line terminators a text can end with, as `TailLength` counts them. */
  predicate IsLineEnd(e: string)
  {
    e == "" || e == "\r\n" || (|e| == 1 && IsLineTerminator(e[0]))
  }

  /**
   * The worker's split of a handler id `P.m` followed by at most one line
   * terminator `e`, for a method name `m` of identifier characters: the
   * class name is `P` followed by `e`, and the method name is `m`, whatever
   * `P` is.
   */
  lemma HandlerIdLineEnd(p: string, m: string, e: string)
    requires IsIdentifier(m) && IsLineEnd(e)
    ensures ClassNameOf(p + "." + m + e) == p + e
    ensures MethodNameOf(p + "." + m + e) == Some(m)
  {
    var t := p + "." + m + e;
    var id := p + "." + m;
    assert t[..|id|] == id;
    assert t[|id|..] == e;
    assert id[|id| - 1] == m[|m| - 1];
    assert TailLength(t) == |e|;
    assert Body(t) == id;
    ClassMatchOfId(p, m);
    MethodMatchOfId(p, m);
    assert id[..|p|] == p;
    assert id[|p| + 1..] == m;
  }

  /** The worker's split of a handler id `P.m`: the class name is `P` and the method name is `m`. */
  lemma HandlerIdSplit(p: string, m: string)
    requires IsIdentifier(m)
    ensures ClassNameOf(p + "." + m) == p
    ensures MethodNameOf(p + "." + m) == Some(m)
  {
    HandlerIdLineEnd(p, m, "");
    assert p + "." + m + "" == p + "." + m;
    assert p + "" == p;
  }

  /**
   * A handler id without a dot passes through the class-name step unchanged,
   * and when it is an identifier it is also its own method name.
   */
  lemma NoDotClassName(t: string)
    requires '.' !in t
    ensures ClassNameOf(t) == t
    ensures IsIdentifier(t) ==> MethodNameOf(t) == Some(t)
  {
    var b := Body(t);
    forall k | 0 <= k <= |b|
      ensures !Matches(ClassNamePattern, b[k..])
    {
      if k < |b| {
        assert b[k..][0] == t[k];
      }
    }
    if IsIdentifier(t) {
      assert Body(t) == t;
      assert t[0..] == t;
    }
  }

  // ---------------------------------------------------------------------------
  // getLetter and getSalt
  // ---------------------------------------------------------------------------

  const RANGE_ARABIC_NUM: int := 0
  const RANGE_UP_LETTER: int := 1
  const RANGE_LOW_LETTER: int := 2

  /**
   * `getLetter(rd, s)`, where `draw` stands for the random generator's next
   * value and `draw % bound` for `rd.nextInt(bound)`: a digit 0..8 for range 0
   * (the bound 9 leaves out 9), an ASCII code of 'A'..'Z' for range 1, of
   * 'a'..'z' for range 2, and an exception for any other range.
   */
  function GetLetter(s: int, draw: nat): (r: Result<int>)
    ensures s == RANGE_ARABIC_NUM ==> r.Ok? && 0 <= r.value <= 8
    ensures s == RANGE_UP_LETTER ==> r.Ok? && 'A' as int <= r.value <= 'Z' as int
    ensures s == RANGE_LOW_LETTER ==> r.Ok? && 'a' as int <= r.value <= 'z' as int
    ensures s !in {RANGE_ARABIC_NUM, RANGE_UP_LETTER, RANGE_LOW_LETTER} ==>
              r == Err(RuntimeException("从未知的范围获取字母!"))
  {
    if s == RANGE_ARABIC_NUM then Ok(draw % 9)
    else if s == RANGE_UP_LETTER then Ok(draw % 90 % 26 + 65)
    else if s == RANGE_LOW_LETTER then Ok(draw % 122 % 26 + 97)
    else Err(RuntimeException("从未知的范围获取字母!"))
  }

  /** Every value of each range occurs for some draw: the ranges are exactly 0..8, 'A'..'Z' and 'a'..'z'. */
  lemma GetLetterCovers(v: int)
    ensures 0 <= v <= 8 ==> GetLetter(RANGE_ARABIC_NUM, v) == Ok(v)
    ensures 'A' as int <= v <= 'Z' as int ==> GetLetter(RANGE_UP_LETTER, v - 'A' as int) == Ok(v)
    ensures 'a' as int <= v <= 'z' as int ==> GetLetter(RANGE_LOW_LETTER, v - 'a' as int) == Ok(v)
  {
    if 0 <= v <= 8 {
      SmallMod(v, 9);
    }
    if 'A' as int <= v <= 'Z' as int {
      SmallMod(v - 65, 90);
      SmallMod(v - 65, 26);
    }
    if 'a' as int <= v <= 'z' as int {
      SmallMod(v - 97, 122);
      SmallMod(v - 97, 26);
    }
  }

  lemma SmallMod(x: nat, m: nat)
    requires x < m
    ensures x % m == x
  {
  }

  /** A `{d}` or `{dd}` group of `PTN_SALT` starting at `i`, and the number its digits spell. */
  function SaltGroupAt(t: string, i: nat): (r: Option<nat>)
    ensures r.Some? ==> i + 2 < |t| && t[i] == '{' && r.value <= 99
  {
    if i + 2 < |t| && t[i] == '{' && IsDigit(t[i + 1]) && t[i + 2] == '}' then
      Some(t[i + 1] as int - '0' as int)
    else if i + 3 < |t| && t[i] == '{' && IsDigit(t[i + 1]) && IsDigit(t[i + 2]) && t[i + 3] == '}' then
      Some((t[i + 1] as int - '0' as int) * 10 + (t[i + 2] as int - '0' as int))
    else None
  }

  /** Where `PTN_SALT.matcher(t).find()` finds its match when it starts at `from`: the leftmost salt group. */
  function FirstSaltGroup(t: string, from: nat): (r: Option<nat>)
    requires from <= |t|
    ensures r.Some? ==> from <= r.value < |t| && SaltGroupAt(t, r.value).Some?
    ensures r.Some? ==> forall j | from <= j < r.value :: SaltGroupAt(t, j).None?
    ensures r.None? ==> forall j | from <= j < |t| :: SaltGroupAt(t, j).None?
    decreases |t| - from
  {
    if from == |t| then None
    else if SaltGroupAt(t, from).Some? then Some(from)
    else FirstSaltGroup(t, from + 1)
  }

  /** The `n` of the first `{n}` in `regex` (`n` has one or two digits), or null when there is none. */
  function SaltCount(regex: string): (r: Option<nat>)
    ensures r.Some? ==> r.value <= 99
  {
    match FirstSaltGroup(regex, 0)
    case Some(i) => SaltGroupAt(regex, i)
    case None => None
  }

  /** The ranges `getSalt` draws from, in the order it lists them. */
  function RangeList(regex: string): (r: seq<int>)
    ensures |r| <= 3
    ensures forall k | 0 <= k < |r| :: r[k] in {RANGE_ARABIC_NUM, RANGE_UP_LETTER, RANGE_LOW_LETTER}
    ensures RANGE_ARABIC_NUM in r <==> Contains(regex, "0-9")
    ensures RANGE_UP_LETTER in r <==> Contains(regex, "A-Z")
    ensures RANGE_LOW_LETTER in r <==> Contains(regex, "a-z")
  {
    (if Contains(regex, "0-9") then [RANGE_ARABIC_NUM] else [])
    + (if Contains(regex, "A-Z") then [RANGE_UP_LETTER] else [])
    + (if Contains(regex, "a-z") then [RANGE_LOW_LETTER] else [])
  }

  /** What `StringBuilder.append` adds: the character with code `letter` above 9, the digit otherwise. */
  function LetterChar(letter: int): char
    requires 0 <= letter <= 'z' as int
  {
    if letter > 9 then letter as char else DigitChar(letter)
  }

  /**
   * The `k`-th salt character: draw `2k` picks the range, draw `2k + 1` the
   * letter within it.
   */
  function SaltChar(ranges: seq<int>, draws: nat -> nat, k: nat): char
    requires |ranges| > 0
    requires forall j | 0 <= j < |ranges| :: ranges[j] in {RANGE_ARABIC_NUM, RANGE_UP_LETTER, RANGE_LOW_LETTER}
  {
    var s := ranges[draws(2 * k) % |ranges|];
    LetterChar(GetLetter(s, draws(2 * k + 1)).value)
  }

  /** `c` belongs to a character class whose marker occurs in `regex`; a digit is never '9'. */
  predicate InMarkedClass(regex: string, c: char)
  {
    || (Contains(regex, "0-9") && '0' <= c <= '8')
    || (Contains(regex, "A-Z") && 'A' <= c <= 'Z')
    || (Contains(regex, "a-z") && 'a' <= c <= 'z')
  }

  /** Whatever the draws, a salt character comes from a class `regex` names. */
  lemma SaltCharInMarkedClass(regex: string, draws: nat -> nat, k: nat)
    requires RangeList(regex) != []
    ensures InMarkedClass(regex, SaltChar(RangeList(regex), draws, k))
    ensures SaltChar(RangeList(regex), draws, k) != '9'
  {
    var ranges := RangeList(regex);
    var s := ranges[draws(2 * k) % |ranges|];
    assert s in ranges;
    var letter := GetLetter(s, draws(2 * k + 1)).value;
    if s == RANGE_ARABIC_NUM {
      assert LetterChar(letter) == DigitChar(letter);
    }
  }

  /**
   * `getSalt(regex)` with the random generator's values `draws`: no `{n}`
   * group makes `group()` throw; no marker makes `nextInt(0)` throw once a
   * character is wanted; otherwise `n` characters from the marked classes.
   */
  method GetSalt(regex: string, draws: nat -> nat) returns (r: Result<string>)
    ensures SaltCount(regex).None? ==> r == Err(IllegalStateException)
    ensures SaltCount(regex).Some? && SaltCount(regex).value > 0 && RangeList(regex) == [] ==>
              r == Err(IllegalArgumentException)
    ensures SaltCount(regex).Some? && (SaltCount(regex).value == 0 || RangeList(regex) != []) ==>
              && r.Ok?
              && |r.value| == SaltCount(regex).value
              && (forall k | 0 <= k < |r.value| :: r.value[k] == SaltChar(RangeList(regex), draws, k))
              && (forall k | 0 <= k < |r.value| :: InMarkedClass(regex, r.value[k]) && r.value[k] != '9')
  {
    var found := FirstSaltGroup(regex, 0);
    if found.None? {
      return Err(IllegalStateException);
    }
    var n := SaltGroupAt(regex, found.value).value;
    var rangeList: seq<int> := [];
    if Contains(regex, "0-9") {
      rangeList := rangeList + [RANGE_ARABIC_NUM];
    }
    if Contains(regex, "A-Z") {
      rangeList := rangeList + [RANGE_UP_LETTER];
    }
    if Contains(regex, "a-z") {
      rangeList := rangeList + [RANGE_LOW_LETTER];
    }
    assert rangeList == RangeList(regex);
    var range := |rangeList|;
    var salt := "";
    for i := 0 to n
      invariant |salt| == i
      invariant i > 0 ==> range > 0
      invariant forall k | 0 <= k < i :: salt[k] == SaltChar(rangeList, draws, k)
      invariant forall k | 0 <= k < i :: InMarkedClass(regex, salt[k]) && salt[k] != '9'
    {
      if range == 0 {
        return Err(IllegalArgumentException);
      }
      var s := rangeList[draws(2 * i) % range];
      var letter := GetLetter(s, draws(2 * i + 1));
      assert s in rangeList;
      var c: char;
      if letter.value > 9 {
        c := letter.value as char;
      } else {
        c := DigitChar(letter.value);
      }
      assert c == SaltChar(rangeList, draws, i);
      SaltCharInMarkedClass(regex, draws, i);
      salt := salt + [c];
    }
    return Ok(salt);
  }

  /** The documented shapes: "[0-9A-Za-z]{4}" asks for four characters, "[0-9]{6}" for six digits, "[A-Za-z]{7}" for seven letters. */
  lemma SaltCountExamples()
    ensures SaltCount("[0-9]{6}") == Some(6)
    ensures SaltCount("[A-Za-z]{7}") == Some(7)
    ensures SaltCount("[0-9A-Za-z]{4}") == Some(4)
    ensures SaltCount("[0-9]") == None
  {
    assert SaltGroupAt("[0-9]{6}", 5) == Some(6);
    assert SaltGroupAt("[A-Za-z]{7}", 8) == Some(7);
    assert SaltGroupAt("[0-9A-Za-z]{4}", 11) == Some(4);
  }
}
