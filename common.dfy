/** Shared value types and the small string operations of Python that the
    services rely on: str.lower (ASCII and Latin-1 letters only), str.split(), str.strip(),
    `in` on strings, str.startswith, str.join, slicing and f-string number
    rendering. */
module Common {

  /** A JSON / Python scalar as it appears in metadata dictionaries. */
  datatype Json = JStr(s: string) | JInt(i: int) | JBool(b: bool) | JNull

  /** The error kinds the modelled code can raise. */
  datatype Error = ZeroDivision | InvalidClusterCount

  datatype Result<T> = Ok(value: T) | Err(error: Error)

  datatype Option<T> = None | Some(value: T)

  /** The outcome of one chat-completion call: the stripped reply text, or the
      message of the exception it raised. */
  datatype LlmReply = Completed(text: string) | Raised(message: string)

  function Min(a: int, b: int): int { if a <= b then a else b }
  function Max(a: int, b: int): int { if a >= b then a else b }

  /** Python's a // b (floor division), which differs from Dafny's Euclidean
      division when the divisor is negative. */
  function FloorDiv(a: int, b: int): (q: int)
    requires b != 0
    ensures b > 0 ==> q * b <= a < q * b + b
    ensures b < 0 ==> q * b + b < a <= q * b
  {
    if b > 0 then a / b else (-a) / (-b)
  }

  // ---------------------------------------------------------------- characters

  /** The characters Python's str.split() and str.strip() treat as whitespace
      (the ASCII ones; the other Unicode spaces are not modelled). */
  predicate IsSpace(c: char) {
    c == ' ' || c == '\t' || c == '\n' || c == '\r' || c == '\U{0B}' || c == '\U{0C}'
  }

  /** The capital letters whose lower-case form is 32 code points higher:
      A-Z and the Latin-1 capitals À-Þ other than the multiplication sign. */
  predicate IsUpperLatin(c: char) {
    ('A' <= c <= 'Z') || ('\U{C0}' <= c <= '\U{DE}' && c != '\U{D7}')
  }

  function LowerChar(c: char): char {
    if IsUpperLatin(c) then (c as int + 32) as char else c
  }

  /** str.lower() restricted to ASCII and Latin-1 letters. */
  function Lower(s: string): (r: string)
    ensures |r| == |s|
    ensures forall i :: 0 <= i < |s| ==> r[i] == LowerChar(s[i])
  {
    seq(|s|, i requires 0 <= i < |s| => LowerChar(s[i]))
  }

  // ---------------------------------------------------------------- substrings

  predicate StartsWith(s: string, prefix: string) {
    |prefix| <= |s| && s[..|prefix|] == prefix
  }

  predicate EndsWith(s: string, suffix: string) {
    |suffix| <= |s| && s[|s| - |suffix|..] == suffix
  }

  /** Python's `sub in s`. */
  predicate Contains(s: string, sub: string)
    decreases |s|
  {
    StartsWith(s, sub) || (|s| > 0 && Contains(s[1..], sub))
  }

  /** s[:n] for a non-negative n. */
  function Take<T>(s: seq<T>, n: nat): (r: seq<T>)
    ensures |r| == Min(n, |s|)
    ensures r == s[..|r|]
  {
    if n <= |s| then s[..n] else s
  }

  /** s[:k] for any integer k: a negative k drops the last -k elements. */
  function SliceTo<T>(s: seq<T>, k: int): (r: seq<T>)
    ensures k >= 0 ==> r == Take(s, k)
    ensures k < 0 ==> |r| == Max(0, |s| + k)
    ensures r == s[..|r|]
  {
    if k >= 0 then Take(s, k) else s[..Max(0, |s| + k)]
  }

  /** The sequence facts a loop that appends one element at a time needs,
      stated for any element type so that the solver does not look inside
      the elements. */
  lemma SliceSnoc<T>(s: seq<T>, i: nat)
    requires i < |s|
    ensures s[..i + 1] == s[..i] + [s[i]]
  {
  }

  lemma AppendSnoc<T>(a: seq<T>, b: seq<T>, x: T)
    ensures a + b + [x] == a + (b + [x])
  {
  }

  /** s[-n:] for a positive n: the last n elements (or all of them). */
  function Last<T>(s: seq<T>, n: nat): (r: seq<T>)
    ensures |r| == Min(n, |s|)
    ensures r == s[|s| - |r|..]
  {
    if n <= |s| then s[|s| - n..] else s
  }

  /** `text[:n] + "..." if len(text) > n else text`, the truncation rule used
      for prompt chunks and source snippets. */
  function Clip(text: string, n: nat): (r: string)
    ensures |text| <= n ==> r == text
    ensures |text| > n ==> |r| == n + 3 && StartsWith(r, text[..n]) && r[n..] == "..."
  {
    if |text| > n then text[..n] + "..." else text
  }

  /** sep.join(parts) */
  function Join(sep: string, parts: seq<string>): string
    decreases |parts|
  {
    if |parts| == 0 then ""
    else if |parts| == 1 then parts[0]
    else parts[0] + sep + Join(sep, parts[1..])
  }

  /** "".join(parts) */
  function Concat(parts: seq<string>): string
    decreases |parts|
  {
    if |parts| == 0 then "" else parts[0] + Concat(parts[1..])
  }

  lemma {:induction false} ConcatSnoc(parts: seq<string>, p: string)
    ensures Concat(parts + [p]) == Concat(parts) + p
    decreases |parts|
  {
    if |parts| == 0 {
      assert parts + [p] == [p];
    } else {
      assert (parts + [p])[1..] == parts[1..] + [p];
      ConcatSnoc(parts[1..], p);
    }
  }

  /** One step of a loop that appends parts[i] to prefix + "".join(parts[:i]). */
  lemma ConcatStep(prefix: string, parts: seq<string>, i: nat)
    requires i < |parts|
    ensures prefix + Concat(parts[..i]) + parts[i] == prefix + Concat(parts[..i + 1])
  {
    assert parts[..i + 1] == parts[..i] + [parts[i]];
    ConcatSnoc(parts[..i], parts[i]);
  }

  /** A sequence is its front followed by its last element. */
  lemma FrontLast<T>(s: seq<T>)
    requires |s| > 0
    ensures s == s[..|s| - 1] + [s[|s| - 1]]
  {
  }

  lemma AppendAssoc<T>(a: seq<T>, b: seq<T>, c: seq<T>)
    ensures a + (b + c) == (a + b) + c
  {
  }

  lemma StartsWithAppended(a: string, b: string)
    ensures StartsWith(a + b, a)
  {
    assert (a + b)[..|a|] == a;
  }

  lemma StartsWithTrans(s: string, t: string, u: string)
    requires StartsWith(s, t) && StartsWith(t, u)
    ensures StartsWith(s, u)
  {
    assert s[..|u|] == t[..|u|];
  }

  lemma StartsWithPrepend(a: string, s: string, t: string)
    requires StartsWith(s, t)
    ensures StartsWith(a + s, a + t)
  {
    assert (a + s)[..|a + t|] == a + s[..|t|];
  }

  /** What follows a prefix in a + b is b. */
  lemma DropAppended<T>(a: seq<T>, b: seq<T>)
    ensures (a + b)[|a|..] == b
  {
  }

  lemma EndsWithAppended(a: string, b: string)
    ensures EndsWith(a + b, b)
  {
    assert (a + b)[|a + b| - |b|..] == b;
  }

  /** "".join(parts) ends with the last part, and so does any text in front
      of it. */
  lemma ConcatEndsWithLast(prefix: string, parts: seq<string>)
    requires |parts| > 0
    ensures EndsWith(prefix + Concat(parts), parts[|parts| - 1])
  {
    var init := parts[..|parts| - 1];
    var last := parts[|parts| - 1];
    FrontLast(parts);
    ConcatSnoc(init, last);
    assert Concat(parts) == Concat(init) + last;
    var front := prefix + Concat(init);
    AppendAssoc(prefix, Concat(init), last);
    EndsWithAppended(front, last);
  }

  // ---------------------------------------------------------------- split / strip

  /** The longest prefix of s without whitespace. */
  function Word(s: string): (w: string)
    ensures |w| <= |s| && w == s[..|w|]
    ensures |s| > 0 && !IsSpace(s[0]) ==> |w| > 0
    ensures forall i :: 0 <= i < |w| ==> !IsSpace(w[i])
    decreases |s|
  {
    if |s| == 0 || IsSpace(s[0]) then "" else [s[0]] + Word(s[1..])
  }

  /** str.split() with no argument: the maximal runs of non-whitespace. */
  function Split(s: string): (words: seq<string>)
    ensures forall k :: 0 <= k < |words| ==> |words[k]| > 0
    decreases |s|
  {
    if |s| == 0 then []
    else if IsSpace(s[0]) then Split(s[1..])
    else var w := Word(s); [w] + Split(s[|w|..])
  }

  function TrimLeft(s: string): (r: string)
    ensures |r| <= |s|
    ensures |r| > 0 ==> !IsSpace(r[0])
    decreases |s|
  {
    if |s| > 0 && IsSpace(s[0]) then TrimLeft(s[1..]) else s
  }

  function TrimRight(s: string): (r: string)
    ensures |r| <= |s|
    ensures |r| > 0 ==> !IsSpace(r[|r| - 1])
    decreases |s|
  {
    if |s| > 0 && IsSpace(s[|s| - 1]) then TrimRight(s[..|s| - 1]) else s
  }

  /** str.strip() */
  function Strip(s: string): string {
    TrimRight(TrimLeft(s))
  }

  /** `bool(text.strip())`: the text has a non-whitespace character. */
  predicate NotBlank(s: string) {
    exists i :: 0 <= i < |s| && !IsSpace(s[i])
  }

  // ---------------------------------------------------------------- numbers

  function DigitChar(d: nat): char
    requires d < 10
  {
    ('0' as int + d) as char
  }

  /** f"{n}" for a natural number: the decimal digits without leading zeros. */
  function NatToString(n: nat): (r: string)
    ensures |r| > 0
    ensures n >= 10 ==> |r| >= 2
    decreases n
  {
    if n < 10 then [DigitChar(n)] else NatToString(n / 10) + [DigitChar(n % 10)]
  }

  /** f"{i}" for any integer. */
  function IntToString(i: int): string {
    if i < 0 then "-" + NatToString(-i) else NatToString(i)
  }

  /** Different numbers render differently; this is what keeps the ids that the
      services mint with f-strings apart. */
  lemma {:induction false} NatToStringInjective(a: nat, b: nat)
    requires NatToString(a) == NatToString(b)
    ensures a == b
    decreases a
  {
    if a < 10 && b < 10 {
      assert NatToString(a)[0] == NatToString(b)[0];
    } else if a >= 10 && b >= 10 {
      var sa, sb := NatToString(a), NatToString(b);
      assert sa == NatToString(a / 10) + [DigitChar(a % 10)];
      assert sb == NatToString(b / 10) + [DigitChar(b % 10)];
      assert sa[|sa| - 1] == sb[|sb| - 1];
      assert a % 10 == b % 10;
      assert sa[..|sa| - 1] == NatToString(a / 10);
      assert sb[..|sb| - 1] == NatToString(b / 10);
      NatToStringInjective(a / 10, b / 10);
    }
    // otherwise exactly one of them has a single digit: the lengths differ
  }

  /** Appending different renderings to one prefix gives different strings. */
  lemma SuffixNumberInjective(prefix: string, a: nat, b: nat)
    requires a != b
    ensures prefix + NatToString(a) != prefix + NatToString(b)
  {
    if prefix + NatToString(a) == prefix + NatToString(b) {
      assert (prefix + NatToString(a))[|prefix|..] == NatToString(a);
      assert (prefix + NatToString(b))[|prefix|..] == NatToString(b);
      NatToStringInjective(a, b);
    }
  }

  lemma IntToStringInjective(a: int, b: int)
    requires IntToString(a) == IntToString(b)
    ensures a == b
  {
    IntToStringSign(a);
    IntToStringSign(b);
    if a < 0 {
      assert IntToString(a)[1..] == NatToString(-a) && IntToString(b)[1..] == NatToString(-b);
      NatToStringInjective(-a, -b);
    } else {
      NatToStringInjective(a, b);
    }
  }

  /** The rendering starts with '-' exactly for negative numbers. */
  lemma IntToStringSign(i: int)
    ensures |IntToString(i)| > 0 && (IntToString(i)[0] == '-' <==> i < 0)
  {
    if i >= 0 {
      NatToStringFirstDigit(i);
    }
  }

  lemma {:induction false} NatToStringFirstDigit(n: nat)
    ensures '0' <= NatToString(n)[0] <= '9'
    decreases n
  {
    if n >= 10 {
      NatToStringFirstDigit(n / 10);
      assert NatToString(n)[0] == NatToString(n / 10)[0];
    }
  }

  /** Every character of a rendering is a decimal digit. */
  lemma {:induction false} NatToStringDigits(n: nat)
    ensures forall k :: 0 <= k < |NatToString(n)| ==> '0' <= NatToString(n)[k] <= '9'
    decreases n
  {
    if n >= 10 {
      NatToStringDigits(n / 10);
    }
  }

  /** The length of the run of decimal digits that starts s. */
  function DigitRun(s: string): (n: nat)
    ensures n <= |s|
    decreases |s|
  {
    if |s| > 0 && '0' <= s[0] <= '9' then 1 + DigitRun(s[1..]) else 0
  }

  lemma {:induction false} DigitRunOf(a: string, x: string)
    requires forall k :: 0 <= k < |a| ==> '0' <= a[k] <= '9'
    requires |x| > 0 && !('0' <= x[0] <= '9')
    ensures DigitRun(a + x) == |a|
    decreases |a|
  {
    if |a| > 0 {
      assert (a + x)[1..] == a[1..] + x;
      DigitRunOf(a[1..], x);
    } else {
      assert a + x == x;
    }
  }

  /** A number followed by a non-digit can be read back: two strings that
      start with renderings of i and j, each followed by a non-digit, are equal
      only if i == j. */
  lemma NumberThenText(i: nat, j: nat, x: string, y: string)
    requires NatToString(i) + x == NatToString(j) + y
    requires |x| > 0 && !('0' <= x[0] <= '9') && |y| > 0 && !('0' <= y[0] <= '9')
    ensures i == j
  {
    NatToStringDigits(i);
    NatToStringDigits(j);
    DigitRunOf(NatToString(i), x);
    DigitRunOf(NatToString(j), y);
    var s := NatToString(i) + x;
    assert NatToString(i) == s[..|NatToString(i)|];
    assert NatToString(j) == s[..|NatToString(j)|];
    NatToStringInjective(i, j);
  }

  /** sep.join(parts) starts with the first part, and is empty only when there
      are no parts or the only part is empty. */
  lemma JoinFirst(sep: string, parts: seq<string>)
    requires |parts| > 0
    ensures StartsWith(Join(sep, parts), parts[0])
    ensures |parts[0]| > 0 ==> |Join(sep, parts)| > 0
  {
    if |parts| > 1 {
      assert Join(sep, parts) == parts[0] + (sep + Join(sep, parts[1..]));
    }
  }

  /** f"{value}" for a metadata value (Python's str() of it). */
  function Show(v: Json): string {
    match v
    case JStr(s) => s
    case JInt(i) => IntToString(i)
    case JBool(b) => if b then "True" else "False"
    case JNull => "None"
  }

  /** `metadata.get("page", "N/A")` */
  function PageValue(metadata: map<string, Json>): Json {
    if "page" in metadata then metadata["page"] else JStr("N/A")
  }

  /** The page as it is rendered into prompts. */
  function PageLabel(metadata: map<string, Json>): string {
    Show(PageValue(metadata))
  }

  /** A conversation message (role "user" or "assistant", and its text). */
  datatype Message = Message(role: string, content: string)
}
