/** Text checks shared by every entity, and the numbering of tool call ids. */
module Texts {

  datatype Option<+T> = None | Some(value: T)

  /** The characters that Python's `str.strip` removes. */
  predicate IsSpace(c: char) {
    || '\U{0009}' <= c <= '\U{000D}' || '\U{001C}' <= c <= '\U{0020}'
    || c == '\U{0085}' || c == '\U{00A0}' || c == '\U{1680}'
    || '\U{2000}' <= c <= '\U{200A}' || c == '\U{2028}' || c == '\U{2029}'
    || c == '\U{202F}' || c == '\U{205F}' || c == '\U{3000}'
  }

  /** `not value.strip()`. */
  predicate Blank(s: string) {
    forall i | 0 <= i < |s| :: IsSpace(s[i])
  }

  /** What an optional text field may hold: nothing, or a text with something in it. */
  predicate OptionalText(o: Option<string>) {
    o.Some? ==> !Blank(o.value)
  }

  predicate Distinct(texts: seq<string>) {
    forall i, j | 0 <= i < j < |texts| :: texts[i] != texts[j]
  }

  function Digits(n: nat): (s: string)
    ensures |s| > 0
  {
    (if n < 10 then "" else Digits(n / 10)) + ["0123456789"[n % 10]]
  }

  function ZeroPadded(s: string): string {
    if |s| == 0 then "000" else if |s| == 1 then "00" + s else if |s| == 2 then "0" + s else s
  }

  /** The id of the n-th call of a session: `call_` and the number, padded to three digits. */
  function CallId(n: nat): (id: string)
    ensures !Blank(id)
  {
    var id := "call_" + ZeroPadded(Digits(n));
    assert id[0] == 'c';
    id
  }

  /** The number a decimal text denotes. */
  function Value(s: string): nat {
    if s == "" then 0
    else 10 * Value(s[..|s| - 1]) + (if '0' <= s[|s| - 1] <= '9' then s[|s| - 1] as int - '0' as int else 0)
  }

  lemma {:induction false} ValueOfDigits(n: nat)
    ensures Value(Digits(n)) == n
  {
    var s := Digits(n);
    if n >= 10 {
      ValueOfDigits(n / 10);
      assert s[..|s| - 1] == Digits(n / 10);
    } else {
      assert s[..|s| - 1] == "";
    }
  }

  lemma {:induction false} LeadingZero(s: string)
    ensures Value("0" + s) == Value(s)
  {
    if s == "" {
      assert ("0" + s)[..0] == "";
    } else {
      LeadingZero(s[..|s| - 1]);
      assert ("0" + s)[..|s|] == "0" + s[..|s| - 1];
    }
  }

  /** Two calls of a session never get the same id, past the three padded digits too. */
  lemma CallIdInjective(m: nat, n: nat)
    requires CallId(m) == CallId(n)
    ensures m == n
  {
    PaddedValue(m);
    PaddedValue(n);
    assert CallId(m)[5..] == ZeroPadded(Digits(m));
    assert CallId(n)[5..] == ZeroPadded(Digits(n));
  }

  lemma PaddedValue(n: nat)
    ensures Value(ZeroPadded(Digits(n))) == n
  {
    var s := Digits(n);
    ValueOfDigits(n);
    LeadingZero(s);
    LeadingZero("0" + s);
    assert "00" + s == "0" + ("0" + s);
  }
}
