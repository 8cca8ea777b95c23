/**
 * The pieces of Rust's string library the flattener relies on:
 * `str::split` on a single-character separator, `[&str]::join`, and
 * `usize::from_str` (what `"...".parse::<usize>()` calls).
 */
module Strings {
  import opened Wrappers

  /** Number of occurrences of `c` in `s`. */
  function Occurrences(s: string, c: char): nat {
    if s == [] then 0
    else Occurrences(s[..|s| - 1], c) + (if s[|s| - 1] == c then 1 else 0)
  }

  /**
   * `s.split(sep)`: the maximal pieces between separators. Like Rust, an
   * empty string yields one empty piece and a trailing separator yields a
   * trailing empty piece.
   */
  function Split(s: string, sep: char): (parts: seq<string>)
    ensures |parts| >= 1
    ensures forall k :: 0 <= k < |parts| ==> sep !in parts[k]
  {
    if s == [] then [[]]
    else
      var prev := Split(s[..|s| - 1], sep);
      if s[|s| - 1] == sep then prev + [[]]
      else prev[..|prev| - 1] + [prev[|prev| - 1] + [s[|s| - 1]]]
  }

  /** `parts.join(sep)`: the pieces with one separator between neighbours. */
  function Join(parts: seq<string>, sep: char): string {
    if |parts| == 0 then []
    else if |parts| == 1 then parts[0]
    else Join(parts[..|parts| - 1], sep) + [sep] + parts[|parts| - 1]
  }

  /** Joining one more piece adds a separator and the piece. */
  lemma JoinSnoc(parts: seq<string>, last: string, sep: char)
    requires |parts| >= 1
    ensures Join(parts + [last], sep) == Join(parts, sep) + [sep] + last
  {
    assert (parts + [last])[..|parts|] == parts;
  }

  /** Index of the last `c` in `s`, or -1 when `s` has none. */
  function LastIndexOf(s: string, c: char): (k: int)
    ensures -1 <= k < |s|
    ensures 0 <= k ==> s[k] == c
    ensures forall j :: k < j < |s| ==> s[j] != c
  {
    if s == [] then -1
    else if s[|s| - 1] == c then |s| - 1
    else LastIndexOf(s[..|s| - 1], c)
  }

  /** What comes before the last `c` of `s`, or the empty string when there is none. */
  function BeforeLast(s: string, c: char): string {
    var k := LastIndexOf(s, c);
    if k < 0 then [] else s[..k]
  }

  /** Splitting and joining again gives back the string. */
  lemma {:induction false} JoinSplit(s: string, sep: char)
    ensures Join(Split(s, sep), sep) == s
  {
    if s != [] {
      var init, last := s[..|s| - 1], s[|s| - 1];
      assert s == init + [last];
      JoinSplit(init, sep);
      var prev := Split(init, sep);
      if last != sep {
        var pieces := Split(s, sep);
        assert pieces[..|pieces| - 1] == prev[..|prev| - 1];
        if |prev| > 1 {
          assert prev[..|prev| - 1] + [prev[|prev| - 1]] == prev;
          assert Join(prev, sep) == Join(prev[..|prev| - 1], sep) + [sep] + prev[|prev| - 1];
        }
      } else {
        assert (prev + [[]])[..|prev|] == prev;
      }
    }
  }

  /** There is one more piece than there are separators. */
  lemma {:induction false} SplitLength(s: string, sep: char)
    ensures |Split(s, sep)| == Occurrences(s, sep) + 1
  {
    if s != [] {
      SplitLength(s[..|s| - 1], sep);
    }
  }

  /** Joining pieces free of the separator and splitting again gives back the pieces. */
  lemma {:induction false} SplitJoin(parts: seq<string>, sep: char)
    requires |parts| >= 1
    requires forall k :: 0 <= k < |parts| ==> sep !in parts[k]
    ensures Split(Join(parts, sep), sep) == parts
  {
    if |parts| == 1 {
      SplitOfFree(parts[0], sep);
    } else {
      var init, last := parts[..|parts| - 1], parts[|parts| - 1];
      SplitJoin(init, sep);
      SplitAppend(Join(init, sep), last, sep);
      assert init + [last] == parts;
    }
  }

  /** A string without the separator splits into itself. */
  lemma {:induction false} SplitOfFree(s: string, sep: char)
    requires sep !in s
    ensures Split(s, sep) == [s]
  {
    if s != [] {
      assert sep !in s[..|s| - 1];
      SplitOfFree(s[..|s| - 1], sep);
      assert s[..|s| - 1] + [s[|s| - 1]] == s;
    }
  }

  /** Appending a separator and a separator-free tail adds exactly one piece. */
  lemma {:induction false} SplitAppend(s: string, tail: string, sep: char)
    requires sep !in tail
    ensures Split(s + [sep] + tail, sep) == Split(s, sep) + [tail]
  {
    if tail == [] {
      assert s + [sep] + tail == s + [sep];
      assert (s + [sep])[..|s|] == s;
    } else {
      var t := s + [sep] + tail;
      var shorter := tail[..|tail| - 1];
      assert t[..|t| - 1] == s + [sep] + shorter;
      assert sep !in shorter;
      SplitAppend(s, shorter, sep);
      assert shorter + [tail[|tail| - 1]] == tail;
    }
  }

  /**
   * Dropping the last piece and joining the rest gives what comes before the
   * last separator: this is how a parent path is computed.
   */
  lemma {:induction false} JoinDropLast(s: string, sep: char)
    ensures var parts := Split(s, sep); Join(parts[..|parts| - 1], sep) == BeforeLast(s, sep)
  {
    if s != [] {
      var init, last := s[..|s| - 1], s[|s| - 1];
      var prev := Split(init, sep);
      if last == sep {
        JoinSplit(init, sep);
        assert (prev + [[]])[..|prev|] == prev;
      } else {
        JoinDropLast(init, sep);
        var parts := Split(s, sep);
        assert parts[..|parts| - 1] == prev[..|prev| - 1];
        assert LastIndexOf(s, sep) == LastIndexOf(init, sep);
        var k := LastIndexOf(init, sep);
        if 0 <= k {
          assert s[..k] == init[..k];
        }
      }
    }
  }

  /** The last separator of `p + [sep] + id`, when `id` has none, is the one appended. */
  lemma BeforeLastAppend(p: string, id: string, sep: char)
    requires sep !in id
    ensures BeforeLast(p + [sep] + id, sep) == p
  {
    var s := p + [sep] + id;
    var k := LastIndexOf(s, sep);
    assert s[|p|] == sep;
    assert forall j :: |p| < j < |s| ==> s[j] == id[j - |p| - 1];
    assert s[..|p|] == p;
  }

  /** Appending a separator and a separator-free tail adds one occurrence. */
  lemma {:induction false} OccurrencesAppend(s: string, tail: string, sep: char)
    requires sep !in tail
    ensures Occurrences(s + [sep] + tail, sep) == Occurrences(s, sep) + 1
  {
    if tail == [] {
      assert s + [sep] + tail == s + [sep];
      assert (s + [sep])[..|s|] == s;
    } else {
      var t := s + [sep] + tail;
      var shorter := tail[..|tail| - 1];
      assert t[..|t| - 1] == s + [sep] + shorter;
      assert sep !in shorter;
      OccurrencesAppend(s, shorter, sep);
    }
  }

  // ---------------------------------------------------------------------
  // usize::from_str on a 64-bit target

  const USIZE_LIMIT: nat := 0x1_0000_0000_0000_0000

  predicate IsDigit(ch: char) {
    '0' <= ch <= '9'
  }

  predicate AllDigits(s: string) {
    forall k :: 0 <= k < |s| ==> IsDigit(s[k])
  }

  /** The value of a string of decimal digits, most significant first. */
  function DecimalValue(s: string): nat
    requires AllDigits(s)
  {
    if s == [] then 0
    else DecimalValue(s[..|s| - 1]) * 10 + (s[|s| - 1] as int - '0' as int)
  }

  /**
   * The value of a non-empty run of decimal digits, accumulated left to right
   * with the overflow check at every step, or `None` when a character is not
   * a digit or the value reaches 2^64.
   */
  function DigitsValue(s: string): (r: Option<nat>)
    ensures r.Some? ==> s != [] && AllDigits(s) && r.value == DecimalValue(s) && r.value < USIZE_LIMIT
    ensures s != [] && AllDigits(s) && DecimalValue(s) < USIZE_LIMIT ==> r.Some?
  {
    if s == [] || !IsDigit(s[|s| - 1]) then None
    else
      assert AllDigits(s) ==> AllDigits(s[..|s| - 1]);
      var d := s[|s| - 1] as int - '0' as int;
      if |s| == 1 then Some(d)
      else match DigitsValue(s[..|s| - 1])
        case None => None
        case Some(v) => if v * 10 + d < USIZE_LIMIT then Some(v * 10 + d) else None
  }

  /**
   * `s.parse::<usize>()`: an optional leading `+` followed by at least one
   * decimal digit, whose value fits in 64 bits. Anything else (empty, a lone
   * sign, a `-`, another character, overflow) is an error.
   */
  function ParseUsize(s: string): (r: Option<nat>)
    ensures var digits := if s != [] && s[0] == '+' then s[1..] else s;
            r.Some? <==> s != [] && digits != [] && AllDigits(digits) && DecimalValue(digits) < USIZE_LIMIT
    ensures var digits := if s != [] && s[0] == '+' then s[1..] else s;
            r.Some? ==> AllDigits(digits) && r.value == DecimalValue(digits) && r.value < USIZE_LIMIT
  {
    if s == [] then None
    else DigitsValue(if s[0] == '+' then s[1..] else s)
  }

  /** Decimal rendering of `n` without leading zeros (Rust's `n.to_string()`). */
  function Decimal(n: nat): (s: string)
    ensures s != [] && AllDigits(s)
  {
    var d := ((n % 10) + '0' as int) as char;
    if n < 10 then [d] else Decimal(n / 10) + [d]
  }

  /** Every index that fits in 64 bits parses back from its decimal rendering. */
  lemma ParseUsizeDecimal(n: nat)
    requires n < USIZE_LIMIT
    ensures ParseUsize(Decimal(n)) == Some(n)
  {
    DigitsValueOfDecimal(n);
  }

  lemma {:induction false} DigitsValueOfDecimal(n: nat)
    requires n < USIZE_LIMIT
    ensures DigitsValue(Decimal(n)) == Some(n)
  {
    if n >= 10 {
      DigitsValueOfDecimal(n / 10);
      var s := Decimal(n);
      assert s[..|s| - 1] == Decimal(n / 10);
    }
  }

  /** A parsed index is written as a `+` or a digit followed by digits only. */
  lemma ParseUsizeShape(s: string)
    requires ParseUsize(s).Some?
    ensures s[0] == '+' || IsDigit(s[0])
    ensures AllDigits(s[1..])
  {
  }
}
