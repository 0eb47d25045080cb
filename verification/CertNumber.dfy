/** Certificate numbers: CERT-<day>-<tag>-<serial>-<attempt>. Strings are byte strings, as in the source. */
module CertNumber {

  predicate IsDigit(c: char) { '0' <= c <= '9' }

  predicate IsAlnum(c: char) { 'a' <= c <= 'z' || 'A' <= c <= 'Z' || IsDigit(c) }

  function Filtered(s: string): (r: string)
    ensures forall i :: 0 <= i < |r| ==> IsAlnum(r[i])
    decreases |s|
  {
    if |s| == 0 then ""
    else
      var rest := Filtered(s[..|s| - 1]);
      if IsAlnum(s[|s| - 1]) then rest + [s[|s| - 1]] else rest
  }

  function Sanitized(s: string): (r: string)
    ensures 1 <= |r| <= 12 && forall i :: 0 <= i < |r| ==> IsAlnum(r[i])
  {
    var kept := Filtered(s);
    if |kept| == 0 then "X" else if |kept| > 12 then kept[..12] else kept
  }

  /** sanitize: keeps letters and digits, at most twelve of them, and never returns an empty field. */
  method Sanitize(s: string) returns (r: string)
    ensures r == Sanitized(s)
  {
    var out := "";
    for i := 0 to |s|
      invariant out == Filtered(s[..i])
    {
      assert s[..i + 1][..i] == s[..i];
      if IsAlnum(s[i]) {
        out := out + [s[i]];
      }
    }
    assert s[..|s|] == s;
    if |out| > 12 {
      out := out[..12];
    }
    if |out| == 0 {
      return "X";
    }
    return out;
  }

  predicate Increasing(at: seq<nat>) {
    forall k, l :: 0 <= k < l < |at| ==> at[k] < at[l]
  }

  /** `at` lists, in order, where the letters and digits of `s` stand. */
  ghost predicate Stand(s: string, at: seq<nat>) {
    && Increasing(at) && (forall k :: 0 <= k < |at| ==> at[k] < |s|)
    && forall p: nat :: p < |s| ==> (p in at <==> 'a' <= s[p] <= 'z' || 'A' <= s[p] <= 'Z' || '0' <= s[p] <= '9')
  }

  lemma {:induction false} FilteredAt(s: string) returns (at: seq<nat>)
    ensures Stand(s, at) && |Filtered(s)| == |at| && forall k :: 0 <= k < |at| ==> Filtered(s)[k] == s[at[k]]
    decreases |s|
  {
    at := [];
    if |s| > 0 {
      at := FilteredAt(s[..|s| - 1]);
      if IsAlnum(s[|s| - 1]) {
        at := at + [|s| - 1];
      }
    }
  }

  /** A cleaned field is the first letters and digits of the text, as many as there are up to twelve, or X. */
  lemma SanitizedIsFirst(s: string) returns (at: seq<nat>)
    ensures Stand(s, at)
    ensures if |at| == 0 then Sanitized(s) == "X"
            else |Sanitized(s)| == (if |at| > 12 then 12 else |at|)
                 && forall k :: 0 <= k < |Sanitized(s)| ==> Sanitized(s)[k] == s[at[k]]
  {
    at := FilteredAt(s);
  }

  function ShortSerial(s: string): string {
    if |s| > 8 then s[|s| - 8..] else s
  }

  function Digit(d: nat): char
    requires d < 10
  {
    '0' + d as char
  }

  function Decimal(n: nat): (r: string)
    ensures |r| > 0 && forall i :: 0 <= i < |r| ==> IsDigit(r[i])
  {
    if n < 10 then [Digit(n)] else Decimal(n / 10) + [Digit(n % 10)]
  }

  /** The format verb %03d. */
  function Padded(n: nat): (r: string)
    ensures |r| >= 3 && forall i :: 0 <= i < |r| ==> IsDigit(r[i])
  {
    if n < 10 then "00" + Decimal(n)
    else if n < 100 then "0" + Decimal(n)
    else (assert |Decimal(n)| == |Decimal(n / 10)| + 1 && |Decimal(n / 10)| >= 2; Decimal(n))
  }

  function Value(c: char): nat
    requires IsDigit(c)
  {
    c as int - '0' as int
  }

  function ParseNat(s: string): nat
    requires forall i :: 0 <= i < |s| ==> IsDigit(s[i])
    decreases |s|
  {
    if |s| == 0 then 0 else ParseNat(s[..|s| - 1]) * 10 + Value(s[|s| - 1])
  }

  lemma {:induction false} ParseDecimal(n: nat)
    ensures ParseNat(Decimal(n)) == n
  {
    if n >= 10 {
      ParseDecimal(n / 10);
      assert Decimal(n)[..|Decimal(n)| - 1] == Decimal(n / 10);
    } else {
      assert Decimal(n)[..0] == "";
    }
  }

  lemma {:induction false} LeadingZero(s: string)
    requires forall i :: 0 <= i < |s| ==> IsDigit(s[i])
    ensures ParseNat("0" + s) == ParseNat(s)
    decreases |s|
  {
    if |s| > 0 {
      LeadingZero(s[..|s| - 1]);
      assert ("0" + s)[..|s|] == "0" + s[..|s| - 1];
    } else {
      assert "0" + s == "0" && "0"[..0] == "";
    }
  }

  lemma {:induction false} NoLeadingZero(n: nat)
    requires n >= 1
    ensures Decimal(n)[0] != '0'
  {
    if n >= 10 {
      NoLeadingZero(n / 10);
    }
  }

  /** Zeros fill up to three digits and no further. */
  lemma PaddedWidth(n: nat)
    requires n >= 1
    ensures |Padded(n)| > 3 ==> Padded(n)[0] != '0'
  {
    NoLeadingZero(n);
    if n < 10 {
      assert |Decimal(n)| == 1;
    } else if n < 100 {
      assert |Decimal(n)| == |Decimal(n / 10)| + 1 == 2;
    }
  }

  lemma ParsePadded(n: nat)
    ensures ParseNat(Padded(n)) == n
  {
    ParseDecimal(n);
    LeadingZero(Decimal(n));
    LeadingZero("0" + Decimal(n));
    assert "00" + Decimal(n) == "0" + ("0" + Decimal(n));
  }

  // ---- fields joined and split again ----

  predicate Plain(field: string) {
    forall i :: 0 <= i < |field| ==> field[i] != '-'
  }

  function Join(fields: seq<string>): string
    requires |fields| > 0
    decreases |fields|
  {
    if |fields| == 1 then fields[0] else Join(fields[..|fields| - 1]) + "-" + fields[|fields| - 1]
  }

  function Split(s: string): (fields: seq<string>)
    ensures |fields| > 0
    decreases |s|
  {
    if |s| == 0 then [""]
    else
      var rest := Split(s[..|s| - 1]);
      if s[|s| - 1] == '-' then rest + [""]
      else rest[..|rest| - 1] + [rest[|rest| - 1] + [s[|s| - 1]]]
  }

  /** Appending a field without a separator extends the last field of a split. */
  lemma {:induction false} SplitAppend(s: string, field: string)
    requires Plain(field)
    ensures var rest := Split(s); Split(s + field) == rest[..|rest| - 1] + [rest[|rest| - 1] + field]
    decreases |field|
  {
    var rest := Split(s);
    if |field| == 0 {
      assert s + field == s;
      assert rest[|rest| - 1] + field == rest[|rest| - 1];
    } else {
      var init, c := field[..|field| - 1], field[|field| - 1];
      SplitAppend(s, init);
      assert (s + field)[..|s + field| - 1] == s + init;
      assert rest[|rest| - 1] + field == rest[|rest| - 1] + init + [c];
    }
  }

  lemma {:induction false} SplitJoin(fields: seq<string>)
    requires |fields| > 0 && forall i :: 0 <= i < |fields| ==> Plain(fields[i])
    ensures Split(Join(fields)) == fields
    decreases |fields|
  {
    var init, last := fields[..|fields| - 1], fields[|fields| - 1];
    assert fields == init + [last];
    if |fields| == 1 {
      SplitAppend("", last);
      assert "" + last == last;
    } else {
      SplitJoin(init);
      SplitLast(Join(init), init, last);
    }
  }

  lemma SplitLast(s: string, fields: seq<string>, last: string)
    requires |fields| > 0 && Split(s) == fields && Plain(last)
    ensures Split(s + "-" + last) == fields + [last]
  {
    var t := s + "-";
    assert t[..|t| - 1] == s;
    SplitAppend(t, last);
    assert Split(t) == fields + [""];
    assert (fields + [""])[..|fields|] == fields && "" + last == last;
  }

  /** certNumber; `day` is the formatted date, `attempt` counts earlier jobs of the disk. */
  function Number(day: string, tag: string, serial: string, attempt: nat): string {
    Join(Fields(day, tag, serial, attempt))
  }

  function Fields(day: string, tag: string, serial: string, attempt: nat): (f: seq<string>)
    ensures |f| == 5
  {
    ["CERT", day, Sanitized(tag), Sanitized(ShortSerial(serial)), Padded(attempt + 1)]
  }

  predicate IsDay(day: string) {
    forall i :: 0 <= i < |day| ==> IsDigit(day[i])
  }

  /** Round trip: the printed number can be taken apart again. */
  lemma NumberParses(day: string, tag: string, serial: string, attempt: nat)
    requires IsDay(day)
    ensures var f := Split(Number(day, tag, serial, attempt));
            && |f| == 5 && f[0] == "CERT" && f[1] == day && f[2] == Sanitized(tag)
            && f[3] == Sanitized(if |serial| <= 8 then serial else serial[|serial| - 8..])
            && (forall i :: 0 <= i < |f[4]| ==> IsDigit(f[4][i])) && ParseNat(f[4]) == attempt + 1
            && |f[4]| >= 3 && (|f[4]| > 3 ==> f[4][0] != '0')
  {
    SplitJoin(Fields(day, tag, serial, attempt));
    ParsePadded(attempt + 1);
    PaddedWidth(attempt + 1);
  }

  /** Two certificates share a number exactly when they agree on day, cleaned tag, cleaned short serial and attempt. */
  lemma NumbersCollide(day: string, tag: string, serial: string, attempt: nat,
                       day': string, tag': string, serial': string, attempt': nat)
    requires IsDay(day) && IsDay(day')
    ensures Number(day, tag, serial, attempt) == Number(day', tag', serial', attempt')
            <==> day == day' && Sanitized(tag) == Sanitized(tag')
                 && Sanitized(ShortSerial(serial)) == Sanitized(ShortSerial(serial')) && attempt == attempt'
  {
    NumberParses(day, tag, serial, attempt);
    NumberParses(day', tag', serial', attempt');
  }
}
