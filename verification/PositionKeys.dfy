/** The composite key of a position row, written as one string (storage/records.py). */
module PositionKeys {
  import opened Wrappers

  datatype Key = Key(user: string, bucket: string, idx: nat)

  const SEP: char := '\U{1F}'

  function Digit(d: nat): char
    requires d < 10
  {
    ('0' as int + d) as char
  }

  /** A natural number in decimal. */
  function Digits(n: nat): (s: string)
    ensures s != ""
  {
    (if n < 10 then "" else Digits(n / 10)) + [Digit(n % 10)]
  }

  predicate IsDigit(c: char) {
    '0' <= c <= '9'
  }

  function DigitValue(c: char): nat
    requires IsDigit(c)
  {
    c as int - '0' as int
  }

  function Folded(s: string): nat
    requires forall c :: c in s ==> IsDigit(c)
  {
    if s == "" then 0 else 10 * Folded(s[..|s| - 1]) + DigitValue(s[|s| - 1])
  }

  /** `int(text)` on the texts this program writes; `None` where it raises. */
  function ParseIndex(s: string): Option<nat> {
    if s != "" && (forall c :: c in s ==> IsDigit(c)) then Some(Folded(s)) else None
  }

  function Encode(k: Key): string {
    k.user + [SEP] + k.bucket + [SEP] + Digits(k.idx)
  }

  /** `text.split(SEP)` */
  function Split(s: string): (parts: seq<string>)
    ensures parts != []
  {
    if s == "" then [""]
    else if s[0] == SEP then [""] + Split(s[1..])
    else var rest := Split(s[1..]); [[s[0]] + rest[0]] + rest[1..]
  }

  /** `decode_key`; `None` where it raises. */
  function Decode(s: string): Option<Key> {
    var parts := Split(s);
    if |parts| != 3 then None
    else
      var index := ParseIndex(parts[2]);
      if index.None? then None else Some(Key(parts[0], parts[1], index.value))
  }

  predicate Clean(s: string) {
    SEP !in s
  }

  lemma {:induction false} DigitsParse(n: nat)
    ensures ParseIndex(Digits(n)) == Some(n)
    ensures Clean(Digits(n))
  {
    var s := Digits(n);
    DigitBack(n % 10);
    assert s[|s| - 1] == Digit(n % 10);
    if n >= 10 {
      DigitsParse(n / 10);
      LastDigit(n);
      assert s[..|s| - 1] == Digits(n / 10);
    } else {
      assert s == [Digit(n)] && s[..|s| - 1] == "" && Folded("") == 0;
    }
  }

  lemma DigitBack(d: nat)
    requires d < 10
    ensures IsDigit(Digit(d)) && DigitValue(Digit(d)) == d && Digit(d) != SEP
  {
  }

  lemma LastDigit(n: nat)
    ensures 10 * (n / 10) + n % 10 == n
  {
  }

  function Separators(s: string): nat {
    if s == "" then 0 else (if s[0] == SEP then 1 else 0) + Separators(s[1..])
  }

  lemma {:induction false} SplitCounts(s: string)
    ensures |Split(s)| == Separators(s) + 1
    ensures Separators(s) == 0 <==> Clean(s)
  {
    if s != "" {
      SplitCounts(s[1..]);
      assert s == [s[0]] + s[1..];
      assert Clean(s) <==> s[0] != SEP && Clean(s[1..]);
    }
  }

  lemma {:induction false} SeparatorsAdd(a: string, b: string)
    ensures Separators(a + b) == Separators(a) + Separators(b)
  {
    if a == "" {
      assert a + b == b;
    } else {
      assert (a + b)[1..] == a[1..] + b;
      SeparatorsAdd(a[1..], b);
    }
  }

  lemma {:induction false} SplitClean(s: string)
    requires Clean(s)
    ensures Split(s) == [s]
  {
    if s != "" {
      SplitClean(s[1..]);
      assert s[0] in s && [s[0]] + s[1..] == s;
    }
  }

  lemma {:induction false} SplitHead(a: string, b: string)
    requires Clean(a)
    ensures Split(a + [SEP] + b) == [a] + Split(b)
  {
    var s := a + [SEP] + b;
    if a == "" {
      assert s[1..] == b;
    } else {
      assert s[1..] == a[1..] + [SEP] + b;
      SplitHead(a[1..], b);
      assert a[0] in a && [a[0]] + a[1..] == a;
    }
  }

  /** A key reads back as itself exactly when neither name contains the separator. */
  lemma {:induction false} DecodeEncodes(k: Key)
    ensures Decode(Encode(k)) == Some(k) <==> Clean(k.user) && Clean(k.bucket)
    ensures !(Clean(k.user) && Clean(k.bucket)) ==> Decode(Encode(k)) == None
  {
    var last := Digits(k.idx);
    var rest := k.bucket + [SEP] + last;
    DigitsParse(k.idx);
    assert Encode(k) == k.user + [SEP] + rest;
    if Clean(k.user) && Clean(k.bucket) {
      SplitHead(k.user, rest);
      SplitHead(k.bucket, last);
      SplitClean(last);
    } else {
      SplitCounts(Encode(k));
      SplitCounts(k.user);
      SplitCounts(k.bucket);
      SeparatorsAdd(k.user + [SEP], rest);
      SeparatorsAdd(k.user, [SEP]);
      SeparatorsAdd(k.bucket + [SEP], last);
      SeparatorsAdd(k.bucket, [SEP]);
      assert Separators([SEP]) == 1;
    }
  }

  /** A key as text: user, bucket and index in decimal, with the unit separator between them. */
  lemma {:induction false} KeyAsText(user: string, bucket: string)
    ensures Encode(Key(user, bucket, 120)) == user + "\U{1F}" + bucket + "\U{1F}120"
  {
    assert Digits(120) == Digits(12) + ['0'] && Digits(12) == Digits(1) + ['2'] && Digits(1) == ['1'];
    assert Digits(120) == "120" && [SEP] == "\U{1F}";
    assert user + [SEP] + bucket + [SEP] + "120" == user + [SEP] + bucket + ([SEP] + "120");
    assert [SEP] + "120" == "\U{1F}120";
  }
}
