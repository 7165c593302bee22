/**
 * The parts of the Java platform that the QuickQuarantine core relies on, stated
 * as values: nullable references, the exceptions the core throws or catches
 * (and the text `Throwable.toString()` gives for them), `Integer.parseInt` and
 * its decimal rendering, `String.trim`, `String.split("\\|")`,
 * `String.contains`, and the two concurrency helpers the engine uses —
 * `CountDownLatch` and the results `Vector` — in their sequential reading.
 */
module Lang {

  /** A Java reference that may be null. */
  datatype Option<+T> = None | Some(value: T)

  /** The exceptions that occur in the core. */
  datatype Exception =
    | QuickQuarantineException(message: string)
    | RuntimeException(message: string)
    | ClassNotFoundException(className: string)
    | NullPointerException
    | IndexOutOfBoundsException
    | ArrayIndexOutOfBoundsException
    | ClassCastException
    | NumberFormatException
    | IllegalArgumentException
    | IllegalStateException
    | InvocationTargetException
    | NoSuchMethodException(message: string)

  /** `Throwable.toString()`: the class name, then ": " and the message when there is one. */
  function ExceptionText(e: Exception): string
  {
    match e
    case QuickQuarantineException(m) => "com.github.quickquarantine.exception.QuickQuarantineException: " + m
    case RuntimeException(m) => "java.lang.RuntimeException: " + m
    case ClassNotFoundException(n) => "java.lang.ClassNotFoundException: " + n
    case NullPointerException => "java.lang.NullPointerException"
    case IndexOutOfBoundsException => "java.lang.IndexOutOfBoundsException"
    case ArrayIndexOutOfBoundsException => "java.lang.ArrayIndexOutOfBoundsException"
    case ClassCastException => "java.lang.ClassCastException"
    case NumberFormatException => "java.lang.NumberFormatException"
    case IllegalArgumentException => "java.lang.IllegalArgumentException"
    case IllegalStateException => "java.lang.IllegalStateException"
    case InvocationTargetException => "java.lang.reflect.InvocationTargetException"
    case NoSuchMethodException(m) => "java.lang.NoSuchMethodException: " + m
  }

  /** A computation that either returns a value or throws. */
  datatype Result<+T> = Ok(value: T) | Err(error: Exception)

  const MIN_INT: int := -0x8000_0000
  const MAX_INT: int := 0x7fff_ffff

  /** Java's `int`. */
  type Int32 = x: int | MIN_INT <= x <= MAX_INT

  /**
   * A Java `Object` as the core sees it: null, a `String`, an `Integer`, or an
   * object of any other class, identified by what its `toString()` prints.
   */
  datatype Value = Null | Str(s: string) | Int(i: Int32) | Other(text: string)

  /** `String.valueOf(Object)`, which is also what string concatenation appends. */
  function ValueText(v: Value): string
  {
    match v
    case Null => "null"
    case Str(s) => s
    case Int(i) => IntToDecimal(i)
    case Other(t) => t
  }

  /** A nullable string as `String.format("%s", …)` prints it. */
  function OptionText(s: Option<string>): string
  {
    match s
    case None => "null"
    case Some(t) => t
  }

  /** `order` lists every element of `keys` exactly once: an iteration order of the set. */
  ghost predicate IsEnumeration<K>(order: seq<K>, keys: set<K>)
  {
    && (forall i | 0 <= i < |order| :: order[i] in keys)
    && (forall k | k in keys :: k in order)
    && (forall i, j | 0 <= i < j < |order| :: order[i] != order[j])
  }

  // ---------------------------------------------------------------------------
  // Decimal numbers: Integer.toString and Integer.parseInt
  // ---------------------------------------------------------------------------

  predicate IsDigit(c: char) { '0' <= c <= '9' }

  predicate AllDigits(s: string) { forall k | 0 <= k < |s| :: IsDigit(s[k]) }

  function DigitChar(d: nat): (c: char)
    requires d < 10
    ensures IsDigit(c) && c as int - '0' as int == d
  {
    ('0' as int + d) as char
  }

  /** The shortest decimal spelling of `n`, without sign or leading zeros. */
  function NatToDecimal(n: nat): (s: string)
    ensures |s| >= 1 && AllDigits(s)
    ensures |s| > 1 ==> s[0] != '0'
  {
    if n < 10 then [DigitChar(n)] else NatToDecimal(n / 10) + [DigitChar(n % 10)]
  }

  /** The number a string of decimal digits denotes. */
  function DigitsValue(s: string): nat
    requires AllDigits(s)
  {
    if s == [] then 0 else DigitsValue(s[..|s| - 1]) * 10 + (s[|s| - 1] as int - '0' as int)
  }

  /** `Integer.toString(i)`. */
  function IntToDecimal(i: int): string
  {
    if i < 0 then "-" + NatToDecimal(-i) else NatToDecimal(i)
  }

  /** `s` without its leading sign, if it has one. */
  function Unsigned(s: string): (d: string)
    requires |s| >= 1
    ensures |d| == |s| || (|d| == |s| - 1 && d == s[1..])
  {
    if s[0] == '-' || s[0] == '+' then s[1..] else s
  }

  /** An optional '+' or '-' followed by one decimal digit or more. */
  predicate IsNumeral(s: string)
  {
    |s| >= 1 && |Unsigned(s)| >= 1 && AllDigits(Unsigned(s))
  }

  /** The number a numeral denotes: its digits' value, negated after a '-'. */
  function NumeralValue(s: string): int
    requires IsNumeral(s)
  {
    var v: int := DigitsValue(Unsigned(s));
    if s[0] == '-' then -v else v
  }

  /**
   * `Integer.parseInt(s)`: an optional sign, at least one decimal digit and
   * nothing else, denoting a value in the range of `int`; anything else throws
   * `NumberFormatException`.
   */
  function ParseInt(s: string): (r: Result<Int32>)
    ensures r.Ok? <==> IsNumeral(s) && MIN_INT <= NumeralValue(s) <= MAX_INT
    ensures r.Ok? ==> r.value == NumeralValue(s)
    ensures r.Err? ==> r.error == NumberFormatException
  {
    if |s| == 0 then Err(NumberFormatException)
    else
      var digits := if s[0] == '-' || s[0] == '+' then s[1..] else s;
      if |digits| == 0 || !AllDigits(digits) then Err(NumberFormatException)
      else
        var v: int := if s[0] == '-' then 0 - DigitsValue(digits) else DigitsValue(digits);
        if MIN_INT <= v <= MAX_INT then Ok(v) else Err(NumberFormatException)
  }

  /** A '+' sign, leading zeros and "-0" are accepted; an empty text, a lone sign and a leading blank are not. */
  lemma ParseIntExamples()
    ensures ParseInt("+7") == Ok(7)
    ensures ParseInt("007") == Ok(7)
    ensures ParseInt("-0") == Ok(0)
    ensures ParseInt("").Err? && ParseInt("-").Err? && ParseInt(" 7").Err?
  {
    assert Unsigned("+7") == "7";
    assert Unsigned("007") == "007";
    assert "007"[..2] == "00" && "00"[..1] == "0";
    assert Unsigned("-0") == "0";
    assert !IsDigit(" 7"[0]);
  }

  /** Reading back a rendered natural number gives that number. */
  lemma {:induction false} DigitsValueOfDecimal(n: nat)
    ensures DigitsValue(NatToDecimal(n)) == n
  {
    if n >= 10 {
      var s := NatToDecimal(n);
      assert s[..|s| - 1] == NatToDecimal(n / 10);
      DigitsValueOfDecimal(n / 10);
    }
  }

  /** `Integer.parseInt(Integer.toString(i)) == i` for every `int`. */
  lemma ParseIntOfDecimal(i: Int32)
    ensures ParseInt(IntToDecimal(i)) == Ok(i)
  {
    if i < 0 {
      var n: nat := -(i as int);
      DigitsValueOfDecimal(n);
      assert ("-" + NatToDecimal(n))[1..] == NatToDecimal(n);
    } else {
      DigitsValueOfDecimal(i);
    }
  }

  /**
   * A number past the largest `int`, written in decimal, is refused; with a
   * minus sign it is refused too, except for the smallest `int`.
   */
  lemma ParseIntOutOfRange(n: nat)
    requires n > MAX_INT
    ensures ParseInt(NatToDecimal(n)) == Err(NumberFormatException)
    ensures ParseInt("-" + NatToDecimal(n)) == if n == -MIN_INT then Ok(MIN_INT) else Err(NumberFormatException)
  {
    DigitsValueOfDecimal(n);
    assert ("-" + NatToDecimal(n))[1..] == NatToDecimal(n);
  }

  /** Different natural numbers are spelt differently. */
  lemma NatToDecimalInjective(m: nat, n: nat)
    requires NatToDecimal(m) == NatToDecimal(n)
    ensures m == n
  {
    DigitsValueOfDecimal(m);
    DigitsValueOfDecimal(n);
  }

  // ---------------------------------------------------------------------------
  // String.trim
  // ---------------------------------------------------------------------------

  /** `String.trim` removes every leading and trailing character up to U+0020. */
  predicate IsBlank(c: char) { c <= ' ' }

  /** The index of the first character that `trim` keeps, or `|s|`. */
  function FirstKept(s: string): (i: nat)
    ensures i <= |s|
    ensures forall k | 0 <= k < i :: IsBlank(s[k])
    ensures i < |s| ==> !IsBlank(s[i])
  {
    if |s| == 0 || !IsBlank(s[0]) then 0 else 1 + FirstKept(s[1..])
  }

  /** One past the index of the last character that `trim` keeps, or 0. */
  function EndKept(s: string): (j: nat)
    ensures j <= |s|
    ensures forall k | j <= k < |s| :: IsBlank(s[k])
    ensures j > 0 ==> !IsBlank(s[j - 1])
  {
    if |s| == 0 || !IsBlank(s[|s| - 1]) then |s| else EndKept(s[..|s| - 1])
  }

  /** `String.trim()`. */
  function Trim(s: string): (r: string)
    ensures |r| > 0 ==> !IsBlank(r[0]) && !IsBlank(r[|r| - 1])
    ensures |r| <= |s|
    ensures (forall k | 0 <= k < |s| :: IsBlank(s[k])) <==> r == ""
    ensures r != "" ==> r == s[FirstKept(s)..EndKept(s)]
  {
    var i := FirstKept(s);
    if i == |s| then "" else s[i..EndKept(s)]
  }

  /** A string that neither starts nor ends with a blank is its own trim. */
  lemma TrimOfUnpadded(s: string)
    requires |s| > 0 && !IsBlank(s[0]) && !IsBlank(s[|s| - 1])
    ensures Trim(s) == s
  {
    assert s[0..|s|] == s;
  }

  // ---------------------------------------------------------------------------
  // String.split("\\|")
  // ---------------------------------------------------------------------------

  /** The pieces between the '|' characters of `s`, empty ones included. */
  function Pieces(s: string): (r: seq<string>)
    ensures |r| >= 1
    ensures forall k | 0 <= k < |r| :: '|' !in r[k]
  {
    if |s| == 0 then [""]
    else
      var rest := Pieces(s[1..]);
      if s[0] == '|' then [""] + rest else [[s[0]] + rest[0]] + rest[1..]
  }

  /** Puts the pieces back together with '|' between them. */
  function Join(ps: seq<string>): string
  {
    if |ps| == 0 then "" else if |ps| == 1 then ps[0] else ps[0] + "|" + Join(ps[1..])
  }

  /** Joined pieces start with the first piece's first character. */
  lemma JoinFirst(ps: seq<string>)
    requires |ps| >= 1 && ps[0] != ""
    ensures |Join(ps)| > 0 && Join(ps)[0] == ps[0][0]
  {
  }

  /** Joined pieces end with the last piece's last character. */
  lemma {:induction false} JoinLast(ps: seq<string>)
    requires |ps| >= 1 && ps[|ps| - 1] != ""
    ensures |Join(ps)| > 0
    ensures Join(ps)[|Join(ps)| - 1] == ps[|ps| - 1][|ps[|ps| - 1]| - 1]
  {
    if |ps| > 1 {
      JoinLast(ps[1..]);
    }
  }

  function DropTrailingEmpty(ps: seq<string>): (r: seq<string>)
    ensures |r| <= |ps| && r == ps[..|r|]
    ensures |r| > 0 ==> r[|r| - 1] != ""
    ensures forall k | |r| <= k < |ps| :: ps[k] == ""
  {
    if |ps| > 0 && ps[|ps| - 1] == "" then DropTrailingEmpty(ps[..|ps| - 1]) else ps
  }

  /** `s` is `prefix` followed by nothing but '|' characters. */
  predicate PaddedWithBars(s: string, prefix: string)
  {
    |prefix| <= |s| && s[..|prefix|] == prefix && forall k | |prefix| <= k < |s| :: s[k] == '|'
  }

  /** An empty last piece adds one '|' to the joined text. */
  lemma {:induction false} JoinAppendEmpty(ps: seq<string>)
    requires |ps| >= 1
    ensures Join(ps + [""]) == Join(ps) + "|"
  {
    if |ps| == 1 {
      assert ps + [""] == [ps[0], ""];
    } else {
      assert (ps + [""])[1..] == ps[1..] + [""];
      JoinAppendEmpty(ps[1..]);
    }
  }

  /** Dropping the trailing empty pieces drops only '|' characters from the end of the joined text. */
  lemma {:induction false} JoinDropTrailing(ps: seq<string>)
    ensures PaddedWithBars(Join(ps), Join(DropTrailingEmpty(ps)))
  {
    if |ps| > 0 && ps[|ps| - 1] == "" {
      var q := ps[..|ps| - 1];
      assert ps == q + [""];
      JoinDropTrailing(q);
      if |q| >= 1 {
        JoinAppendEmpty(q);
      }
    }
  }

  /**
   * `s.split("\\|")`: a string without any '|' splits into itself alone (the
   * empty string included); otherwise the pieces between the '|'s, with the
   * trailing empty pieces removed, so that joining them gives back `s` less
   * its trailing '|'s.
   */
  function SplitBar(s: string): (r: seq<string>)
    ensures forall k | 0 <= k < |r| :: '|' !in r[k]
    ensures '|' !in s ==> r == [s]
    ensures '|' in s && |r| > 0 ==> r[|r| - 1] != ""
    ensures PaddedWithBars(s, Join(r))
  {
    if '|' !in s then [s]
    else
      JoinPieces(s);
      JoinDropTrailing(Pieces(s));
      DropTrailingEmpty(Pieces(s))
  }

  /** Splitting and joining again gives back the string. */
  lemma {:induction false} JoinPieces(s: string)
    ensures Join(Pieces(s)) == s
  {
    if |s| > 0 {
      var rest := Pieces(s[1..]);
      JoinPieces(s[1..]);
      if s[0] == '|' {
        assert Pieces(s) == [""] + rest;
        assert ([""] + rest)[1..] == rest;
      } else if |rest| == 1 {
        assert Pieces(s) == [[s[0]] + rest[0]];
      } else {
        var ps := Pieces(s);
        assert ps == [[s[0]] + rest[0]] + rest[1..];
        assert ps[1..] == rest[1..];
        assert Join(rest) == rest[0] + "|" + Join(rest[1..]);
        assert s == [s[0]] + s[1..];
      }
    }
  }

  /** A piece without '|' glued in front only extends the first piece. */
  lemma {:induction false} PiecesOfPrefix(x: string, y: string)
    requires '|' !in x
    ensures Pieces(x + y) == [x + Pieces(y)[0]] + Pieces(y)[1..]
  {
    var py := Pieces(y);
    if |x| > 0 {
      assert (x + y)[1..] == x[1..] + y;
      PiecesOfPrefix(x[1..], y);
      var rest := Pieces(x[1..] + y);
      assert rest == [x[1..] + py[0]] + py[1..];
      assert rest[0] == x[1..] + py[0] && rest[1..] == py[1..];
      assert (x + y)[0] == x[0];
      assert Pieces(x + y) == [[x[0]] + rest[0]] + rest[1..];
      assert [x[0]] + (x[1..] + py[0]) == x + py[0];
    } else {
      assert x + y == y;
      assert py == [py[0]] + py[1..];
      assert x + py[0] == py[0];
    }
  }

  /** Joining pieces without '|' and splitting again gives back the pieces. */
  lemma {:induction false} PiecesOfJoin(ps: seq<string>)
    requires |ps| >= 1
    requires forall k | 0 <= k < |ps| :: '|' !in ps[k]
    ensures Pieces(Join(ps)) == ps
  {
    if |ps| == 1 {
      PiecesOfPrefix(ps[0], "");
      assert ps[0] + "" == ps[0];
    } else {
      var tail := Join(ps[1..]);
      PiecesOfJoin(ps[1..]);
      PiecesOfPrefix(ps[0], "|" + tail);
      assert ps[0] + "|" + tail == ps[0] + ("|" + tail);
      assert ("|" + tail)[1..] == tail;
      assert Pieces("|" + tail) == [""] + Pieces(tail);
      assert Pieces("|" + tail)[0] == "" && Pieces("|" + tail)[1..] == ps[1..];
      assert Join(ps) == ps[0] + ("|" + tail);
      assert ps[0] + "" == ps[0];
      assert ps == [ps[0]] + ps[1..];
    }
  }

  /**
   * The round trip of the configuration lists: a list of names without '|',
   * whose last name is not empty unless it is the only one, survives being
   * joined with '|' and split again.
   */
  lemma SplitBarOfJoin(ps: seq<string>)
    requires |ps| >= 1
    requires forall k | 0 <= k < |ps| :: '|' !in ps[k]
    requires |ps| == 1 || ps[|ps| - 1] != ""
    ensures SplitBar(Join(ps)) == ps
  {
    PiecesOfJoin(ps);
    if |ps| >= 2 {
      assert Join(ps) == ps[0] + "|" + Join(ps[1..]);
      assert Join(ps)[|ps[0]|] == '|';
    }
  }

  // ---------------------------------------------------------------------------
  // String.contains
  // ---------------------------------------------------------------------------

  /** `s.contains(sub)`. */
  function Contains(s: string, sub: string): bool
  {
    if sub <= s then true else if |s| == 0 then false else Contains(s[1..], sub)
  }

  // ---------------------------------------------------------------------------
  // java.util.concurrent.CountDownLatch and java.util.Vector, sequentially
  // ---------------------------------------------------------------------------

  /** A count-down latch; awaiting it returns once the count is zero. */
  class CountDownLatch {
    var count: nat

    constructor (count: nat)
      ensures this.count == count
    {
      this.count := count;
    }

    /** Decrements the count, which stays at zero once it is there. */
    method CountDown()
      modifies this
      ensures count == if old(count) == 0 then 0 else old(count) - 1
    {
      if count > 0 {
        count := count - 1;
      }
    }

    /**
     * `await`: it returns once the count is zero. Every task has already run
     * when `Await` is reached, so nothing will count down any further; a
     * count above zero means the caller blocks forever, reported as `false`.
     */
    method Await() returns (released: bool)
      ensures released <==> count == 0
    {
      released := count == 0;
    }
  }

  /** The results list the worker tasks append to. */
  class Vector<T> {
    var items: seq<T>

    constructor ()
      ensures items == []
    {
      items := [];
    }

    method Add(x: T)
      modifies this
      ensures items == old(items) + [x]
    {
      items := items + [x];
    }
  }
}
