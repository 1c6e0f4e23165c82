/**
 * The pure helpers of the jQuery pages' utility service: text truncation, the
 * rounded percentage, the status-to-colour table, and the phone and e-mail
 * recognisers. The two regular expressions are written as hand-made
 * recognisers, each proved equal to a declarative description of the strings
 * its pattern denotes.
 */
module Utils {
  import opened Common

  // ===================== truncateText =====================

  const DefaultTruncateLength := 50
  const Ellipsis := "..."

  /**
   * `truncateText(text, length = 50)`. A negative `length` makes
   * `substring(0, length)` empty, as `substring` clamps negative bounds to 0.
   */
  function TruncateText(text: Option<string>, length: Option<int>): (r: string)
    ensures !Present(text) ==> r == ""
    ensures Present(text) && |text.value| <= NumberOrDefault(length) ==> r == text.value
    ensures Present(text) && |text.value| > NumberOrDefault(length) ==>
              r == text.value[..Max(NumberOrDefault(length), 0)] + Ellipsis
    ensures |r| <= Max(NumberOrDefault(length), 0) + |Ellipsis| || (Present(text) && r == text.value)
  {
    var limit := NumberOrDefault(length);
    if !Present(text) then ""
    else if |text.value| <= limit then text.value
    else text.value[..Max(limit, 0)] + Ellipsis
  }

  /** A missing `length` argument takes the default; an explicit 0 is kept. */
  function NumberOrDefault(length: Option<int>): (n: int)
    ensures length.Some? ==> n == length.value
    ensures length.None? ==> n == DefaultTruncateLength
  {
    if length.Some? then length.value else DefaultTruncateLength
  }

  /** For a non-negative length, truncation never exceeds the length plus the ellipsis and keeps a prefix. */
  lemma TruncateBound(text: string, length: int)
    requires text != "" && length >= 0
    ensures |TruncateText(Some(text), Some(length))| <= length + 3
    ensures var r := TruncateText(Some(text), Some(length));
            r == text || (StartsWith(r, text[..length]) && |r| == length + 3)
  {
  }

  // ===================== calculatePercentage =====================

  lemma DivBounds(n: int, m: int)
    requires m > 0
    ensures m * (n / m) <= n < m * (n / m) + m
  {
  }

  /**
   * `Math.round(value / total * 100)`, with 0 for a zero total. `Math.round(x)`
   * is the integer `r` with `r - 1/2 <= x < r + 1/2`; scaled by `2 * total`
   * this is what the ensures clauses state.
   */
  function CalculatePercentage(value: int, total: int): (r: int)
    ensures total == 0 ==> r == 0
    ensures total > 0 ==> (2 * total) * r - total <= 200 * value < (2 * total) * r + total
    ensures total < 0 ==> (2 * total) * r - total >= 200 * value > (2 * total) * r + total
  {
    if total == 0 then 0
    else if total > 0 then
      DivBounds(200 * value + total, 2 * total);
      (200 * value + total) / (2 * total)
    else
      DivBounds(-(200 * value + total), -2 * total);
      var r := (-(200 * value + total)) / (-2 * total);
      assert (-2 * total) * r == -((2 * total) * r);
      r
  }

  /** A positive multiple of `x` below the multiplier itself means `x` is below one. */
  lemma BelowOne(t: int, x: int)
    requires t > 0 && t * x < t
    ensures x < 1
  {
    assert t * x - t == t * (x - 1);
  }

  /** The rounded percentage is determined by the characterisation: no other integer satisfies it. */
  lemma PercentageIsUnique(value: int, total: int, q: int)
    requires total > 0
    requires (2 * total) * q - total <= 200 * value < (2 * total) * q + total
    ensures q == CalculatePercentage(value, total)
  {
    var r := CalculatePercentage(value, total);
    var t2 := 2 * total;
    assert t2 * q - t2 * r == t2 * (q - r);
    BelowOne(t2, q - r);
    BelowOne(t2, r - q);
  }

  /** Half of the total rounds up, to 50; a third rounds down, two thirds up. */
  lemma PercentageExamples()
    ensures CalculatePercentage(1, 2) == 50 && CalculatePercentage(1, 3) == 33
    ensures CalculatePercentage(2, 3) == 67 && CalculatePercentage(7, 0) == 0
  {
    PercentageIsUnique(1, 2, 50);
    PercentageIsUnique(1, 3, 33);
    PercentageIsUnique(2, 3, 67);
  }

  // ===================== getStatusColorClass =====================

  const GreenClass := "text-green-600 bg-green-100"
  const BlueClass := "text-blue-600 bg-blue-100"
  const YellowClass := "text-yellow-600 bg-yellow-100"
  const RedClass := "text-red-600 bg-red-100"
  const GrayClass := "text-gray-600 bg-gray-100"

  const GreenStatuses: set<string> := {"success", "completed", "paid", "active", "approved", "tersedia"}
  const BlueStatuses: set<string> := {"pending", "new", "processing", "waiting"}
  const YellowStatuses: set<string> := {"warning", "partial", "on hold", "ready"}
  const RedStatuses: set<string> := {"error", "failed", "cancelled", "rejected", "inactive", "habis"}

  /** `getStatusColorClass(status)`: a `switch` on the lower-cased status. */
  function StatusColorClass(status: string): (r: string)
    ensures ToLower(status) in GreenStatuses <==> r == GreenClass
    ensures ToLower(status) in BlueStatuses <==> r == BlueClass
    ensures ToLower(status) in YellowStatuses <==> r == YellowClass
    ensures ToLower(status) in RedStatuses <==> r == RedClass
    ensures r == GrayClass <==>
              ToLower(status) !in GreenStatuses + BlueStatuses + YellowStatuses + RedStatuses
  {
    var s := ToLower(status);
    if s in GreenStatuses then GreenClass
    else if s in BlueStatuses then BlueClass
    else if s in YellowStatuses then YellowClass
    else if s in RedStatuses then RedClass
    else GrayClass
  }

  /** The table ignores case: a status and its lower-cased form get the same class. */
  lemma StatusColorClassIgnoresCase(status: string)
    ensures StatusColorClass(status) == StatusColorClass(ToLower(status))
  {
    ToLowerIdempotent(status);
  }

  /** A mixed-case listed status is recognised. */
  lemma StatusColorClassExample()
    ensures StatusColorClass("Paid") == GreenClass
  {
    var s := ToLower("Paid");
    assert s[0] == 'p' && s[1] == 'a' && s[2] == 'i' && s[3] == 'd';
    assert s == "paid";
  }

  // ===================== validatePhone =====================

  /** The characters `/[-\s]/g` removes. */
  predicate IsPhoneSeparator(c: char)
  {
    c == '-' || IsWhitespace(c)
  }

  /** `phone.replace(/[-\s]/g, '')` */
  function StripPhoneSeparators(phone: string): (r: string)
    ensures |r| <= |phone|
    ensures forall i :: 0 <= i < |r| ==> !IsPhoneSeparator(r[i])
  {
    if phone == [] then []
    else
      var rest := StripPhoneSeparators(phone[1..]);
      if IsPhoneSeparator(phone[0]) then rest else [phone[0]] + rest
  }

  /** Every character that is not a separator survives stripping, and nothing else appears. */
  lemma {:induction false} StripKeepsOthers(phone: string, c: char)
    ensures c in StripPhoneSeparators(phone) <==> c in phone && !IsPhoneSeparator(c)
    decreases |phone|
  {
    if phone != [] {
      StripKeepsOthers(phone[1..], c);
      assert c in phone <==> c == phone[0] || c in phone[1..];
    }
  }

  /** Stripping commutes with concatenation: separators are dropped wherever they stand. */
  lemma {:induction false} StripAppend(a: string, b: string)
    ensures StripPhoneSeparators(a + b) == StripPhoneSeparators(a) + StripPhoneSeparators(b)
    decreases |a|
  {
    if a == [] {
      assert a + b == b;
    } else {
      StripAppend(a[1..], b);
      assert (a + b)[0] == a[0] && (a + b)[1..] == a[1..] + b;
    }
  }

  predicate IsDigit(c: char)
  {
    '0' <= c <= '9'
  }

  /** The alternatives of the group `(\+62|62|0)`. */
  predicate IsCountryPrefix(p: string)
  {
    p == "+62" || p == "62" || p == "0"
  }

  /** `8[1-9][0-9]{7,11}` matching the whole of `b`. */
  predicate IsSubscriberPart(b: string)
  {
    9 <= |b| <= 13 && b[0] == '8' && '1' <= b[1] <= '9' && forall i :: 2 <= i < |b| ==> IsDigit(b[i])
  }

  /** `s` splits after `k` characters into a country prefix and a subscriber part. */
  predicate PhoneSplitAt(s: string, k: int)
  {
    0 <= k <= |s| && IsCountryPrefix(s[..k]) && IsSubscriberPart(s[k..])
  }

  /** `^(\+62|62|0)8[1-9][0-9]{7,11}$` matches `s`. */
  ghost predicate MatchesPhonePattern(s: string)
  {
    exists k :: PhoneSplitAt(s, k)
  }

  /** The prefix alternatives start with distinct characters, so the first character decides. */
  function PhonePattern(s: string): (r: bool)
    ensures r <==> MatchesPhonePattern(s)
  {
    if StartsWith(s, "+62") then
      assert IsSubscriberPart(s[3..]) ==> PhoneSplitAt(s, 3);
      PhoneSplitOnly(s, 3);
      IsSubscriberPart(s[3..])
    else if StartsWith(s, "62") then
      assert IsSubscriberPart(s[2..]) ==> PhoneSplitAt(s, 2);
      PhoneSplitOnly(s, 2);
      IsSubscriberPart(s[2..])
    else if StartsWith(s, "0") then
      assert IsSubscriberPart(s[1..]) ==> PhoneSplitAt(s, 1);
      PhoneSplitOnly(s, 1);
      IsSubscriberPart(s[1..])
    else
      PhoneSplitOnly(s, 0);
      false
  }

  /** Only the split the first character selects can succeed (`k == 0` when none does). */
  lemma PhoneSplitOnly(s: string, k: int)
    requires k == (if StartsWith(s, "+62") then 3 else if StartsWith(s, "62") then 2
                   else if StartsWith(s, "0") then 1 else 0)
    ensures forall j :: PhoneSplitAt(s, j) ==> j == k && k > 0
  {
    forall j | PhoneSplitAt(s, j)
      ensures j == k && k > 0
    {
      var p := s[..j];
      assert p[0] == s[0];
      if p == "+62" {
        assert StartsWith(s, "+62");
      } else if p == "62" {
        assert s[0] == '6' && StartsWith(s, "62");
      } else {
        assert s[0] == '0' && StartsWith(s, "0");
      }
    }
  }

  /** `validatePhone(phone)` */
  function ValidatePhone(phone: string): (r: bool)
    ensures r <==> MatchesPhonePattern(StripPhoneSeparators(phone))
  {
    PhonePattern(StripPhoneSeparators(phone))
  }

  /** A string without separators is left as it is. */
  lemma {:induction false} StripNoSeparators(s: string)
    requires forall i :: 0 <= i < |s| ==> !IsPhoneSeparator(s[i])
    ensures StripPhoneSeparators(s) == s
    decreases |s|
  {
    if s != [] {
      StripNoSeparators(s[1..]);
    }
  }

  /** A dash or a blank anywhere in the input does not change the verdict. */
  lemma SeparatorIgnored(a: string, c: char, b: string)
    requires IsPhoneSeparator(c)
    ensures ValidatePhone(a + [c] + b) == ValidatePhone(a + b)
  {
    StripAppend(a, [c] + b);
    StripAppend([c], b);
    StripAppend(a, b);
    assert a + [c] + b == a + ([c] + b);
    assert StripPhoneSeparators([c]) == [];
  }

  lemma PhoneAccepted(s: string)
    requires s == "081234567890"
    ensures ValidatePhone(s)
  {
    PhoneAcceptedStripped(s);
    PhoneAcceptedSplit(s);
  }

  lemma PhoneAcceptedStripped(s: string)
    requires s == "081234567890"
    ensures StripPhoneSeparators(s) == s
  {
    assert forall i :: 0 <= i < |s| ==> !IsPhoneSeparator(s[i]);
    StripNoSeparators(s);
  }

  lemma PhoneAcceptedSplit(s: string)
    requires s == "081234567890"
    ensures PhoneSplitAt(s, 1)
  {
    assert IsSubscriberPart(s[1..]);
  }

  /** A number whose subscriber part starts with 7 is refused. */
  lemma PhoneRefused(s: string)
    requires s == "0712345678"
    ensures !ValidatePhone(s)
  {
    assert forall i :: 0 <= i < |s| ==> !IsPhoneSeparator(s[i]);
    StripNoSeparators(s);
  }

  // ===================== validateEmail =====================

  /** A character of the class `[^\s@]`. */
  predicate PlainChar(c: char)
  {
    !IsWhitespace(c) && c != '@'
  }

  predicate AllPlain(s: string)
  {
    forall i :: 0 <= i < |s| ==> PlainChar(s[i])
  }

  /**
   * `s` is `L@D1.D2` with `L`, `D1`, `D2` non-empty runs of `[^\s@]`, the `@`
   * at index `at` and the chosen `.` at index `dot` (the `.` class includes
   * `.`, so further dots may stand on either side).
   */
  predicate EmailSplit(s: string, at: int, dot: int)
  {
    0 < at && at + 1 < dot && dot + 1 < |s| && s[at] == '@' && s[dot] == '.'
    && forall i :: 0 <= i < |s| && i != at ==> PlainChar(s[i])
  }

  /** The first index of `c` in `s`, or `|s|`. */
  function IndexOfChar(s: string, c: char): (r: nat)
    ensures r <= |s|
    ensures r < |s| ==> s[r] == c
    ensures forall i :: 0 <= i < r ==> s[i] != c
  {
    if s == [] then 0
    else if s[0] == c then 0
    else 1 + IndexOfChar(s[1..], c)
  }

  /** `/^[^\s@]+@[^\s@]+\.[^\s@]+$/.test(email)` */
  function ValidateEmail(email: string): (r: bool)
    ensures r <==> exists at, dot :: EmailSplit(email, at, dot)
  {
    var at := IndexOfChar(email, '@');
    if 0 < at < |email| && AllPlain(email[..at]) && AllPlain(email[at + 1..]) && |email| - at - 1 >= 3 then
      var domain := email[at + 1..];
      var inner := domain[1..|domain| - 1];
      var found := Includes(inner, ".");
      EmailSplitFacts(email, at, found);
      found
    else
      EmailSplitFails(email, at);
      false
  }

  lemma EmailSplitFacts(email: string, at: int, found: bool)
    requires 0 < at < |email| && email[at] == '@' && |email| - at - 1 >= 3
    requires AllPlain(email[..at]) && AllPlain(email[at + 1..])
    requires var domain := email[at + 1..]; found == Includes(domain[1..|domain| - 1], ".")
    ensures found <==> exists a, d :: EmailSplit(email, a, d)
  {
    var domain := email[at + 1..];
    var inner := domain[1..|domain| - 1];
    assert forall i :: 0 <= i < |email| && i != at ==> PlainChar(email[i]) by {
      forall i | 0 <= i < |email| && i != at
        ensures PlainChar(email[i])
      {
        if i < at {
          assert email[i] == email[..at][i];
        } else {
          assert email[i] == domain[i - at - 1];
        }
      }
    }
    if found {
      var j :| OccursAt(inner, ".", j);
      assert inner[j] == '.';
      assert EmailSplit(email, at, at + 2 + j);
    } else {
      forall a, d | EmailSplit(email, a, d)
        ensures false
      {
        assert a == at;
        assert OccursAt(inner, ".", d - at - 2) by {
          assert inner[d - at - 2] == email[d];
        }
      }
    }
  }

  /** In a split, the `@` is the first one and everything around it is plain. */
  lemma SplitAtFirstAt(email: string, a: int, d: int)
    requires EmailSplit(email, a, d)
    ensures IndexOfChar(email, '@') == a
    ensures AllPlain(email[..a]) && AllPlain(email[a + 1..])
  {
    var left, right := email[..a], email[a + 1..];
    assert forall i :: 0 <= i < |left| ==> left[i] == email[i];
    assert forall i :: 0 <= i < |right| ==> right[i] == email[a + 1 + i];
    assert PlainChar(email[IndexOfChar(email, '@')]) || IndexOfChar(email, '@') == a;
  }

  lemma EmailSplitFails(email: string, at: nat)
    requires at == IndexOfChar(email, '@')
    requires !(0 < at < |email| && AllPlain(email[..at]) && AllPlain(email[at + 1..]) && |email| - at - 1 >= 3)
    ensures forall a, d :: !EmailSplit(email, a, d)
  {
    forall a, d | EmailSplit(email, a, d)
      ensures false
    {
      SplitAtFirstAt(email, a, d);
    }
  }

  lemma EmailAccepted()
    ensures ValidateEmail("admin@restoran.com")
  {
    assert EmailSplit("admin@restoran.com", 5, 14);
  }

  /** An address without any `.` is refused. */
  lemma EmailNeedsDot(email: string)
    requires '.' !in email
    ensures !ValidateEmail(email)
  {
  }

  /** An address with a blank anywhere is refused. */
  lemma EmailRefusesWhitespace(email: string, i: int)
    requires 0 <= i < |email| && IsWhitespace(email[i])
    ensures !ValidateEmail(email)
  {
  }
}
