/**
 The names of the intermediate files: written as "mr-<map>-<bucket>" by the workers
 (src/mr/worker.go) and taken apart again by the coordinator (src/mr/coordinator.go).
 */
module FileNames {
  const DIGITS := "0123456789"
  const MAX_INT := 0x7FFF_FFFF_FFFF_FFFF

  // What the coordinator makes of a name: an index out of range is a panic.
  datatype Parsed = Bucket(index: int) | BadNumber | TooFewParts

  function Itoa(n: nat): string {
    if n < 10 then [DIGITS[n]] else Itoa(n / 10) + [DIGITS[n % 10]]
  }

  predicate IsDigit(c: char) {
    '0' <= c <= '9'
  }

  predicate AllDigits(s: string) {
    forall i :: 0 <= i < |s| ==> IsDigit(s[i])
  }

  function Value(s: string): nat
    requires AllDigits(s)
  {
    if s == "" then 0 else Value(s[..|s| - 1]) * 10 + (s[|s| - 1] as int - '0' as int)
  }

  // Decimal digits after an optional sign, within the range of a 64-bit integer.
  function Atoi(s: string): (r: Parsed) {
    var sign := |s| > 0 && (s[0] == '+' || s[0] == '-');
    var digits := if sign then s[1..] else s;
    if digits == "" || !AllDigits(digits) then BadNumber
    else
      var magnitude: int := Value(digits);
      var v := if sign && s[0] == '-' then -magnitude else magnitude;
      if -MAX_INT - 1 <= v <= MAX_INT then Bucket(v) else BadNumber
  }

  function Split(s: string): (parts: seq<string>)
    ensures |parts| > 0
  {
    if s == "" then [""]
    else
      var rest := Split(s[1..]);
      if s[0] == '-' then [""] + rest else [[s[0]] + rest[0]] + rest[1..]
  }

  function Name(task: nat, bucket: nat): string {
    "mr-" + Itoa(task) + "-" + Itoa(bucket)
  }

  function Named(tasks: seq<nat>, bucket: nat): (names: seq<string>)
    ensures |names| == |tasks|
  {
    seq(|tasks|, k requires 0 <= k < |tasks| => Name(tasks[k], bucket))
  }

  function Parse(name: string): Parsed {
    var parts := Split(name);
    if |parts| < 3 then TooFewParts else Atoi(parts[2])
  }

  lemma {:induction false} ItoaIsDigits(n: nat)
    ensures |Itoa(n)| > 0 && AllDigits(Itoa(n)) && Value(Itoa(n)) == n
  {
    if n >= 10 {
      ItoaIsDigits(n / 10);
      assert Itoa(n)[..|Itoa(n)| - 1] == Itoa(n / 10);
    }
  }

  lemma AtoiOfItoa(n: nat)
    requires n <= MAX_INT
    ensures Atoi(Itoa(n)) == Bucket(n)
  {
    ItoaIsDigits(n);
    assert IsDigit(Itoa(n)[0]);
  }

  lemma {:induction false} SplitAtDash(a: string, rest: string)
    requires '-' !in a
    ensures Split(a + "-" + rest) == [a] + Split(rest)
  {
    var whole := a + "-" + rest;
    if a == "" {
      assert whole[1..] == rest;
    } else {
      assert whole[1..] == a[1..] + "-" + rest;
      SplitAtDash(a[1..], rest);
      assert [a[0]] + a[1..] == a;
    }
  }

  lemma {:induction false} SplitNoDash(a: string)
    requires '-' !in a
    ensures Split(a) == [a]
  {
    if a != "" {
      SplitNoDash(a[1..]);
      assert [a[0]] + a[1..] == a;
    }
  }

  lemma NoDash(n: nat)
    ensures '-' !in Itoa(n)
  {
    ItoaIsDigits(n);
  }

  lemma SplitOfName(task: nat, bucket: nat)
    ensures Split(Name(task, bucket)) == ["mr", Itoa(task), Itoa(bucket)]
  {
    NoDash(task);
    NoDash(bucket);
    var tail := Itoa(task) + "-" + Itoa(bucket);
    assert Name(task, bucket) == "mr" + "-" + tail;
    SplitAtDash("mr", tail);
    SplitAtDash(Itoa(task), Itoa(bucket));
    SplitNoDash(Itoa(bucket));
  }

  // The coordinator reads back the bucket that the worker wrote.
  lemma ParseOfName(task: nat, bucket: nat)
    requires bucket <= MAX_INT
    ensures Parse(Name(task, bucket)) == Bucket(bucket)
  {
    SplitOfName(task, bucket);
    AtoiOfItoa(bucket);
  }

  // No two (map task, bucket) pairs share a file.
  lemma NameIsInjective(task: nat, bucket: nat, task': nat, bucket': nat)
    requires Name(task, bucket) == Name(task', bucket')
    ensures task == task' && bucket == bucket'
  {
    SplitOfName(task, bucket);
    SplitOfName(task', bucket');
    assert Split(Name(task, bucket))[1] == Itoa(task) && Split(Name(task, bucket))[2] == Itoa(bucket);
    ItoaIsDigits(task);
    ItoaIsDigits(task');
    ItoaIsDigits(bucket);
    ItoaIsDigits(bucket');
  }
}
