/** Values shared by both agents and the precomputed-data cache. */
module Common {

  /** A value that may be absent (JavaScript `undefined`). */
  datatype Option<+T> = None | Some(value: T)

  /**
   * A LangChain document: its page content and its metadata record.
   * Every metadata value the pipeline writes is a string (title, url,
   * original_content), so the record is a map from keys to strings.
   */
  datatype Document = Document(pageContent: string, metadata: map<string, string>)

  const TitleKey := "title"
  const UrlKey := "url"
  const OriginalContentKey := "original_content"
  const DocNumKey := "docNum"

  function Min(a: int, b: int): int
  {
    if a <= b then a else b
  }

  /** The decimal digit for `d`. */
  function DigitChar(d: nat): char
    requires d < 10
  {
    "0123456789"[d]
  }

  /** The numeric value of a decimal digit character, -1 for any other character. */
  function DigitValue(c: char): int
  {
    if '0' <= c <= '9' then c as int - '0' as int else -1
  }

  /** How JavaScript writes a non-negative integer into a template literal: decimal, no leading zeros. */
  function NatToString(n: nat): (s: string)
    ensures |s| > 0
    ensures forall i :: 0 <= i < |s| ==> 0 <= DigitValue(s[i]) < 10
    ensures (s[0] == '0') <==> n == 0
  {
    if n < 10 then [DigitChar(n)] else NatToString(n / 10) + [DigitChar(n % 10)]
  }

  /** Reads a string of decimal digits back as a number. */
  function ParseNat(s: string): nat
    requires forall i :: 0 <= i < |s| ==> 0 <= DigitValue(s[i]) < 10
  {
    if s == [] then 0 else ParseNat(s[..|s| - 1]) * 10 + DigitValue(s[|s| - 1])
  }

  /** Reading the decimal text back gives the number: the text is unambiguous. */
  lemma {:induction false} ParseNatToString(n: nat)
    ensures ParseNat(NatToString(n)) == n
  {
    var s := NatToString(n);
    if n < 10 {
      DigitRoundTrip(n);
      assert s[..0] == [];
    } else {
      ParseNatToString(n / 10);
      DigitRoundTrip(n % 10);
      assert s[..|s| - 1] == NatToString(n / 10);
      assert DigitValue(s[|s| - 1]) == n % 10;
    }
  }

  /** A digit character reads back as its digit. */
  lemma DigitRoundTrip(d: nat)
    requires d < 10
    ensures DigitValue(DigitChar(d)) == d
  {
  }

  /** Different numbers are written differently. */
  lemma NatToStringInjective(m: nat, n: nat)
    requires NatToString(m) == NatToString(n)
    ensures m == n
  {
    ParseNatToString(m);
    ParseNatToString(n);
  }

  /** Concatenation is associative. */
  lemma ConcatAssoc<T>(x: seq<T>, y: seq<T>, z: seq<T>)
    ensures (x + y) + z == x + (y + z)
  {
  }

  /**
   * `parts.join(sep)`: the parts in order with `sep` between neighbours. An
   * empty list joins to "", and otherwise the first part starts the text and
   * the last part ends it.
   */
  function Join(parts: seq<string>, sep: string): (r: string)
    ensures |parts| == 0 ==> r == ""
    ensures |parts| > 0 ==> parts[0] <= r
  {
    if |parts| == 0 then ""
    else if |parts| == 1 then parts[0]
    else parts[0] + sep + Join(parts[1..], sep)
  }

  /** The last part of a non-empty list ends its join. */
  lemma {:induction false} JoinEndsWithLast(parts: seq<string>, sep: string)
    requires |parts| > 0
    ensures |parts[|parts| - 1]| <= |Join(parts, sep)|
    ensures Join(parts, sep)[|Join(parts, sep)| - |parts[|parts| - 1]|..] == parts[|parts| - 1]
  {
    if |parts| > 1 {
      JoinEndsWithLast(parts[1..], sep);
    }
  }

  /** Joining two non-empty lists puts one separator between their joins. */
  lemma {:induction false} JoinAppend(a: seq<string>, b: seq<string>, sep: string)
    requires |a| > 0 && |b| > 0
    ensures Join(a + b, sep) == Join(a, sep) + sep + Join(b, sep)
  {
    if |a| == 1 {
      assert (a + b)[1..] == b;
    } else {
      assert (a + b)[1..] == a[1..] + b;
      JoinAppend(a[1..], b, sep);
    }
  }

  /**
   * Where part `k` sits in the joined text: after the join of the parts
   * before it and one separator, and before one separator and the join of
   * the parts after it.
   */
  lemma {:induction false} JoinLayout(parts: seq<string>, sep: string, k: nat)
    requires k < |parts|
    ensures Join(parts, sep) ==
              (if k == 0 then "" else Join(parts[..k], sep) + sep)
              + parts[k]
              + (if k + 1 == |parts| then "" else sep + Join(parts[k + 1..], sep))
  {
    var after := parts[k..];
    assert after[1..] == parts[k + 1..];
    assert Join(after, sep) == parts[k] + (if k + 1 == |parts| then "" else sep + Join(parts[k + 1..], sep));
    if k > 0 {
      assert parts == parts[..k] + after;
      JoinAppend(parts[..k], after, sep);
    }
  }
}
