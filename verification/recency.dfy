/**
 * The recency filter `KenyaJobTracker.is_recent_job`: a decision over the
 * free-text "posted" date of a listing and the configured DAYS_RECENT
 * threshold, with rules tried in a fixed order.
 */
module Recency {

  import opened Wrappers
  import opened Text

  /**
   * Rules, first match wins, on the lower-cased text:
   * empty -> keep; "hour" or "today" -> keep; "day" -> keep iff the number made
   * of all its digits is at most `daysRecent`, keep when `int()` fails on them
   * (no digits, or too many); "week" -> keep iff that number is exactly 1,
   * drop when `int()` fails; anything else -> keep.
   */
  function IsRecentJob(postedDate: string, daysRecent: int): bool {
    if postedDate == "" then true
    else
      var text := Lower(postedDate);
      if Contains(text, "hour") || Contains(text, "today") then true
      else if Contains(text, "day") then
        match ParseInt(DigitsOf(text))
        case None => true
        case Some(daysAgo) => daysAgo <= daysRecent
      else if Contains(text, "week") then
        match ParseInt(DigitsOf(text))
        case None => false
        case Some(weeksAgo) => weeksAgo == 1
      else true
  }

  /** Which of the keywords the lower-cased text mentions. */
  predicate Mentions(postedDate: string, word: string) {
    Contains(Lower(postedDate), word)
  }

  /** An unknown date is not treated as stale. */
  lemma EmptyDateIsRecent(daysRecent: int)
    ensures IsRecentJob("", daysRecent)
  {
  }

  /** "hour" or "today", in any case, keeps the listing whatever digits the text holds. */
  lemma HourOrTodayIsRecent(postedDate: string, daysRecent: int)
    requires Mentions(postedDate, "hour") || Mentions(postedDate, "today")
    ensures IsRecentJob(postedDate, daysRecent)
  {
  }

  /** The "day" rule: all digits glued into one number; a failed conversion fails open. */
  lemma DayRule(postedDate: string, daysRecent: int)
    requires !Mentions(postedDate, "hour") && !Mentions(postedDate, "today")
    requires Mentions(postedDate, "day")
    ensures IsRecentJob(postedDate, daysRecent)
        <==> !Parses(DigitsOf(postedDate)) || DecimalValue(DigitsOf(postedDate)) <= daysRecent
  {
    DigitsOfLower(postedDate);
  }

  /** The "week" rule: kept only when the glued number is exactly 1; a failed conversion fails closed. */
  lemma WeekRule(postedDate: string, daysRecent: int)
    requires !Mentions(postedDate, "hour") && !Mentions(postedDate, "today")
    requires !Mentions(postedDate, "day") && Mentions(postedDate, "week")
    ensures IsRecentJob(postedDate, daysRecent)
        <==> Parses(DigitsOf(postedDate)) && DecimalValue(DigitsOf(postedDate)) == 1
  {
    DigitsOfLower(postedDate);
  }

  /** Text naming no relative unit (an absolute date, say) keeps the listing. */
  lemma OtherTextIsRecent(postedDate: string, daysRecent: int)
    requires !Mentions(postedDate, "hour") && !Mentions(postedDate, "today")
    requires !Mentions(postedDate, "day") && !Mentions(postedDate, "week")
    ensures IsRecentJob(postedDate, daysRecent)
  {
  }

  /** Matching is case-insensitive: two texts equal up to case get the same verdict. */
  lemma CaseInsensitive(a: string, b: string, daysRecent: int)
    requires Lower(a) == Lower(b)
    ensures IsRecentJob(a, daysRecent) == IsRecentJob(b, daysRecent)
  {
    assert |a| == |Lower(a)| == |b|;
  }

  /** A listing kept under a threshold stays kept under any larger one. */
  lemma MonotoneInThreshold(postedDate: string, d1: int, d2: int)
    requires d1 <= d2 && IsRecentJob(postedDate, d1)
    ensures IsRecentJob(postedDate, d2)
  {
  }

  /** What the examples below need to know about the words after the number. */
  predicate PlainWords(w: string) {
    IsLowerCase(w) && DigitsOf(w) == [] && Lacks(w, 'h') && Lacks(w, 't')
  }

  lemma DaysUnit(unit: string)
    requires unit == " days ago" || unit == " day ago"
    ensures PlainWords(unit) && unit[1..4] == "day"
  {
    if unit == " days ago" {
      DaysAgoUnit(unit);
    } else {
      DayAgoUnit(unit);
    }
  }

  lemma WeeksUnit(unit: string)
    requires unit == " weeks ago" || unit == " week ago"
    ensures PlainWords(unit) && Lacks(unit, 'd') && unit[1..5] == "week"
  {
    if unit == " weeks ago" {
      WeeksAgoUnit(unit);
    } else {
      WeekAgoUnit(unit);
    }
  }

  lemma DaysAgoUnit(unit: string)
    requires unit == " days ago"
    ensures PlainWords(unit) && unit[1..4] == "day"
  {
    assert forall k :: 0 <= k < |unit| ==> !IsDigit(unit[k]);
  }

  lemma DayAgoUnit(unit: string)
    requires unit == " day ago"
    ensures PlainWords(unit) && unit[1..4] == "day"
  {
    assert forall k :: 0 <= k < |unit| ==> !IsDigit(unit[k]);
  }

  lemma WeeksAgoUnit(unit: string)
    requires unit == " weeks ago"
    ensures PlainWords(unit) && Lacks(unit, 'd') && unit[1..5] == "week"
  {
    assert forall k :: 0 <= k < |unit| ==> !IsDigit(unit[k]);
  }

  lemma WeekAgoUnit(unit: string)
    requires unit == " week ago"
    ensures PlainWords(unit) && Lacks(unit, 'd') && unit[1..5] == "week"
  {
    assert forall k :: 0 <= k < |unit| ==> !IsDigit(unit[k]);
  }

  /** Lower-case words free of 'h' and 't', then a unit naming days, mention "day" but not "hour" or "today". */
  lemma DaysPhraseMentions(p: string, unit: string)
    requires IsLowerCase(p) && Lacks(p, 'h') && Lacks(p, 't')
    requires |unit| >= 4 && PlainWords(unit) && unit[1..4] == "day"
    ensures !Mentions(p + unit, "hour") && !Mentions(p + unit, "today") && Mentions(p + unit, "day")
  {
    var t := p + unit;
    assert Lower(t) == t by {
      IsLowerCaseConcat(p, unit);
      LowerOfLowerCase(t);
    }
    LacksConcat(p, unit, 'h');
    LacksConcat(p, unit, 't');
    MissingCharNotContained(t, "hour", 0);
    MissingCharNotContained(t, "today", 0);
    assert t[|p| + 1..|p| + 4] == unit[1..4];
    assert OccursAt(t, "day", |p| + 1);
  }

  /** Lower-case words free of 'h', 't' and 'd', then a unit naming weeks, mention only "week". */
  lemma WeeksPhraseMentions(p: string, unit: string)
    requires IsLowerCase(p) && Lacks(p, 'h') && Lacks(p, 't') && Lacks(p, 'd')
    requires |unit| >= 5 && PlainWords(unit) && Lacks(unit, 'd') && unit[1..5] == "week"
    ensures !Mentions(p + unit, "hour") && !Mentions(p + unit, "today")
    ensures !Mentions(p + unit, "day") && Mentions(p + unit, "week")
  {
    var t := p + unit;
    assert Lower(t) == t by {
      IsLowerCaseConcat(p, unit);
      LowerOfLowerCase(t);
    }
    LacksConcat(p, unit, 'h');
    LacksConcat(p, unit, 't');
    LacksConcat(p, unit, 'd');
    MissingCharNotContained(t, "hour", 0);
    MissingCharNotContained(t, "today", 0);
    MissingCharNotContained(t, "day", 0);
    assert t[|p| + 1..|p| + 5] == unit[1..5];
    assert OccursAt(t, "week", |p| + 1);
  }

  /** Such a days phrase is judged by the day rule on the digits of its words. */
  lemma DaysPhrase(p: string, unit: string, daysRecent: int)
    requires IsLowerCase(p) && Lacks(p, 'h') && Lacks(p, 't')
    requires |unit| >= 4 && PlainWords(unit) && unit[1..4] == "day"
    ensures IsRecentJob(p + unit, daysRecent)
        <==> !Parses(DigitsOf(p)) || DecimalValue(DigitsOf(p)) <= daysRecent
  {
    DaysPhraseMentions(p, unit);
    DigitsOfConcat(p, unit);
    assert DigitsOf(p + unit) == DigitsOf(p);
    DayRule(p + unit, daysRecent);
  }

  /** Such a weeks phrase is judged by the week rule on the digits of its words. */
  lemma WeeksPhrase(p: string, unit: string, daysRecent: int)
    requires IsLowerCase(p) && Lacks(p, 'h') && Lacks(p, 't') && Lacks(p, 'd')
    requires |unit| >= 5 && PlainWords(unit) && Lacks(unit, 'd') && unit[1..5] == "week"
    ensures IsRecentJob(p + unit, daysRecent)
        <==> Parses(DigitsOf(p)) && DecimalValue(DigitsOf(p)) == 1
  {
    WeeksPhraseMentions(p, unit);
    DigitsOfConcat(p, unit);
    assert DigitsOf(p + unit) == DigitsOf(p);
    WeekRule(p + unit, daysRecent);
  }

  /** A digit string then " days ago" is kept when its value is at most the threshold or `int()` rejects its length. */
  lemma DigitsDaysAgo(ds: string, unit: string, daysRecent: int)
    requires AllDigits(ds) && ds != []
    requires unit == " days ago" || unit == " day ago"
    ensures IsRecentJob(ds + unit, daysRecent)
        <==> |ds| > INT_MAX_STR_DIGITS || DecimalValue(ds) <= daysRecent
  {
    DigitsOfDigits(ds);
    DaysUnit(unit);
    DaysPhrase(ds, unit, daysRecent);
  }

  /** A digit string then " weeks ago" is kept exactly when `int()` accepts it and its value is 1. */
  lemma DigitsWeeksAgo(ds: string, unit: string, daysRecent: int)
    requires AllDigits(ds) && ds != []
    requires unit == " week ago" || unit == " weeks ago"
    ensures IsRecentJob(ds + unit, daysRecent)
        <==> |ds| <= INT_MAX_STR_DIGITS && DecimalValue(ds) == 1
  {
    DigitsOfDigits(ds);
    WeeksUnit(unit);
    WeeksPhrase(ds, unit, daysRecent);
  }

  /**
   * "N days ago", with N written out as Python prints it, is kept exactly when
   * N is at most the threshold, or when N has so many digits that `int()`
   * refuses it.
   */
  lemma NDaysAgo(n: nat, unit: string, daysRecent: int)
    requires unit == " days ago" || unit == " day ago"
    ensures IsRecentJob(NatToDecimal(n) + unit, daysRecent)
        <==> n <= daysRecent || |NatToDecimal(n)| > INT_MAX_STR_DIGITS
  {
    DecimalOfNat(n);
    DigitsDaysAgo(NatToDecimal(n), unit, daysRecent);
  }

  /** "N weeks ago" is kept exactly when N is 1. */
  lemma NWeeksAgo(n: nat, unit: string, daysRecent: int)
    requires unit == " week ago" || unit == " weeks ago"
    ensures IsRecentJob(NatToDecimal(n) + unit, daysRecent) <==> n == 1
  {
    DecimalOfNat(n);
    DigitsWeeksAgo(NatToDecimal(n), unit, daysRecent);
    if n == 1 {
      assert |NatToDecimal(n)| == 1;
    }
  }

  /** A leading zero changes nothing while `int()` still accepts the longer text: "07 days ago" reads as "7 days ago". */
  lemma LeadingZeroDaysAgo(ds: string, unit: string, daysRecent: int)
    requires AllDigits(ds) && 0 < |ds| < INT_MAX_STR_DIGITS
    requires unit == " days ago" || unit == " day ago"
    ensures IsRecentJob("0" + ds + unit, daysRecent) == IsRecentJob(ds + unit, daysRecent)
  {
    LeadingZeroIgnored(ds);
    DigitsDaysAgo("0" + ds, unit, daysRecent);
    DigitsDaysAgo(ds, unit, daysRecent);
  }

  /** "1 week ago" is kept, whatever the threshold. */
  lemma OneWeekAgoKept(t: string, daysRecent: int)
    requires t == "1 week ago"
    ensures IsRecentJob(t, daysRecent)
  {
    assert DecimalValue("1") == 1 by { assert "1"[..0] == ""; }
    assert t == "1" + " week ago";
    DigitsWeeksAgo("1", " week ago", daysRecent);
  }

  /** "2 weeks ago" is dropped, whatever the threshold. */
  lemma TwoWeeksAgoDropped(t: string, daysRecent: int)
    requires t == "2 weeks ago"
    ensures !IsRecentJob(t, daysRecent)
  {
    assert DecimalValue("2") == 2 by { assert "2"[..0] == ""; }
    assert t == "2" + " weeks ago";
    DigitsWeeksAgo("2", " weeks ago", daysRecent);
  }

  lemma SeveralFacts(p: string)
    requires p == "several"
    ensures IsLowerCase(p) && Lacks(p, 'h') && Lacks(p, 't') && Lacks(p, 'd') && DigitsOf(p) == []
  {
  }

  /** The Kelvin sign lower-cases to `k`, so "2 WEE\U{212A}S AGO" is read as "2 weeks ago" and dropped. */
  lemma KelvinSignWeeksDropped(t: string, daysRecent: int)
    requires t == "2 WEE\U{212A}S AGO"
    ensures !IsRecentJob(t, daysRecent)
  {
    var l := "2 weeks ago";
    assert Lower(t) == l;
    LowerOfLowerCase(l);
    CaseInsensitive(t, l, daysRecent);
    TwoWeeksAgoDropped(l, daysRecent);
  }

  /** A "week" text without digits fails closed: "several weeks ago" is dropped. */
  lemma SeveralWeeksAgoDropped(t: string, daysRecent: int)
    requires t == "several weeks ago"
    ensures !IsRecentJob(t, daysRecent)
  {
    var p, unit := t[..7], t[7..];
    assert p == "several" && unit == " weeks ago";
    SeveralFacts(p);
    WeeksUnit(unit);
    assert t == p + unit;
    WeeksPhrase(p, unit, daysRecent);
  }

  /** A "day" text without digits fails open, in any case: "Yesterday" is kept. */
  lemma YesterdayKept(t: string, daysRecent: int)
    requires t == "Yesterday"
    ensures IsRecentJob(t, daysRecent)
  {
    YesterdayFacts(t);
    assert forall k :: 0 <= k < |t| ==> !IsDigit(t[k]);
    DayRule(t, daysRecent);
  }

  lemma YesterdayFacts(t: string)
    requires t == "Yesterday"
    ensures !Mentions(t, "hour") && !Mentions(t, "today") && Mentions(t, "day")
  {
    var l := Lower(t);
    assert l == "yesterday";
    MissingCharNotContained(l, "hour", 0);
    MissingCharNotContained(l, "today", 1);
    assert OccursAt(l, "day", 6);
  }

  lemma RangeFacts(p: string)
    requires p == "1-2"
    ensures IsLowerCase(p) && Lacks(p, 'h') && Lacks(p, 't') && DigitsOf(p) == "12"
  {
    var q := p[1..];
    var r := q[1..];
    assert q == "-2" && r == "2" && r[1..] == [];
    assert DigitsOf(r) == "2" + DigitsOf(r[1..]);
    assert DigitsOf(q) == DigitsOf(r);
    assert DigitsOf(p) == "1" + DigitsOf(q);
  }

  /** Every digit counts, not only a leading run: "1-2 days ago" reads as 12 days. */
  lemma RangeReadsAsTwelve(t: string, daysRecent: int)
    requires t == "1-2 days ago"
    ensures IsRecentJob(t, daysRecent) <==> 12 <= daysRecent
  {
    var p, unit := t[..3], t[3..];
    assert p == "1-2" && unit == " days ago";
    RangeFacts(p);
    DaysUnit(unit);
    assert t == p + unit;
    assert DecimalValue("12") == 12 by {
      assert "12"[..1] == "1";
      assert "1"[..0] == "";
    }
    DaysPhrase(p, unit, daysRecent);
  }
}
