/**
 * The change feed (`Updates` in types.go) and its post-decoding pass: the
 * version title is cleaned, a version number and a timestamp are read out of
 * it, and recognised reasons are split off the titles of updated entries.
 */
module Feed {
  import opened Wrappers
  import opened Text
  import opened Dates
  import opened Records

  /** One entry of the feed's New, Updated or Withdrawn list. */
  datatype UpdatedProduct = UpdatedProduct(ID: PID, Title: string, Reason: string)

  // ---- Title clean-up ----

  /** At most one leading `<b>`, then at most one trailing `</b>`, then surrounding blanks go. */
  function CleanTitle(s: string): string
  {
    TrimSpace(TrimSuffix(TrimPrefix(s, "<b>"), "</b>"))
  }

  /** A title wrapped in bold markup loses the markup and its blanks. */
  lemma CleanTitleWrapped(t: string)
    ensures CleanTitle("<b>" + t + "</b>") == TrimSpace(t)
  {
    var s := "<b>" + t + "</b>";
    assert s[..3] == "<b>";
    var u := TrimPrefix(s, "<b>");
    assert u == t + "</b>";
    assert u[|u| - 4..] == "</b>";
    assert TrimSuffix(u, "</b>") == t;
  }

  // ---- `Version (\d+)` ----

  /** The pattern `Version \d` matches at `i`. */
  predicate VersionAt(s: string, i: nat)
  {
    i + 9 <= |s| && s[i..i + 8] == "Version " && IsDigit(s[i + 8])
  }

  /** The end of the run of digits that starts at `j` (greedy `\d+`). */
  function DigitRunEnd(s: string, j: nat): (k: nat)
    requires j <= |s|
    ensures j <= k <= |s| && AllDigits(s[j..k])
    ensures k == |s| || !IsDigit(s[k])
    decreases |s| - j
  {
    if j < |s| && IsDigit(s[j]) then
      var k := DigitRunEnd(s, j + 1);
      assert s[j..k] == [s[j]] + s[j + 1..k];
      k
    else j
  }

  /** The leftmost position at or after `i` where `Version \d` matches. */
  function FindVersion(s: string, i: nat): (r: Option<nat>)
    ensures r.Some? ==> i <= r.value && VersionAt(s, r.value)
    ensures r.Some? ==> forall j :: i <= j < r.value ==> !VersionAt(s, j)
    ensures r.None? ==> forall j :: i <= j ==> !VersionAt(s, j)
    decreases |s| - i
  {
    if i + 9 > |s| then None
    else if VersionAt(s, i) then Some(i)
    else FindVersion(s, i + 1)
  }

  /** The submatch of `Version (\d+)`: the whole digit run after the leftmost match. */
  function VersionDigits(s: string): (r: Option<string>)
    ensures r.Some? ==> |r.value| >= 1 && AllDigits(r.value)
  {
    match FindVersion(s, 0)
    case None => None
    case Some(i) => Some(s[i + 8..DigitRunEnd(s, i + 8)])
  }

  /** The version number the title names, if it names one that fits in 64 bits. */
  function VersionNumber(s: string): Option<Uint64>
  {
    match VersionDigits(s)
    case None => None
    case Some(d) => ParseUint64(d)
  }

  // ---- ` (\w{3}\.\d{1,2}, \d{4})` ----

  /** The pattern matches at `i` with a day of `n` digits. */
  predicate StampAt(s: string, i: nat, n: nat)
  {
    1 <= n <= 2 && i + 11 + n <= |s| && s[i] == ' '
    && IsWordChar(s[i + 1]) && IsWordChar(s[i + 2]) && IsWordChar(s[i + 3]) && s[i + 4] == '.'
    && AllDigits(s[i + 5..i + 5 + n]) && s[i + 5 + n] == ',' && s[i + 6 + n] == ' '
    && AllDigits(s[i + 7 + n..i + 11 + n])
  }

  /** The day width the regexp settles on at `i`: two digits are tried before one. */
  function StampDayWidth(s: string, i: nat): (r: Option<nat>)
    ensures r.Some? ==> StampAt(s, i, r.value)
    ensures r.None? <==> !StampAt(s, i, 1) && !StampAt(s, i, 2)
  {
    if StampAt(s, i, 2) then Some(2) else if StampAt(s, i, 1) then Some(1) else None
  }

  /** The leftmost position at or after `i` where the timestamp pattern matches. */
  function FindStamp(s: string, i: nat): (r: Option<nat>)
    ensures r.Some? ==> i <= r.value && StampDayWidth(s, r.value).Some?
    ensures r.Some? ==> forall j :: i <= j < r.value ==> StampDayWidth(s, j).None?
    ensures r.None? ==> forall j :: i <= j ==> StampDayWidth(s, j).None?
    decreases |s| - i
  {
    if i + 12 > |s| then None
    else if StampDayWidth(s, i).Some? then Some(i)
    else FindStamp(s, i + 1)
  }

  /** The submatch of the timestamp pattern: `Jan.2, 2006` without the leading blank. */
  function StampText(s: string): Option<string>
  {
    match FindStamp(s, 0)
    case None => None
    case Some(i) => Some(s[i + 1..i + 11 + StampDayWidth(s, i).value])
  }

  /** The timestamp the title names, if its submatch parses as a date. */
  function VersionStamp(s: string): Option<CalendarDate>
  {
    match StampText(s)
    case None => None
    case Some(t) => ParseStamp(t)
  }

  /** The leftmost match is the first position where the pattern matches. */
  lemma FindVersionAt(s: string, i: nat)
    requires VersionAt(s, i) && forall j :: 0 <= j < i ==> !VersionAt(s, j)
    ensures FindVersion(s, 0) == Some(i)
  {
  }

  /** A digit run that a non-digit (or the end) follows is read whole. */
  lemma DigitRunAt(s: string, j: nat, d: string)
    requires j + |d| <= |s| && s[j..j + |d|] == d && AllDigits(d)
    requires j + |d| == |s| || !IsDigit(s[j + |d|])
    ensures DigitRunEnd(s, j) == j + |d|
  {
    var k := DigitRunEnd(s, j);
    assert forall m :: j <= m < j + |d| ==> s[m] == d[m - j];
    assert forall m :: j <= m < k ==> s[m] == s[j..k][m - j];
  }

  /**
   * A title whose first `Version ` is followed by the decimal spelling of a
   * 64-bit number names that number, whatever comes before it (without a
   * `V`) and after it (not starting with a digit).
   */
  lemma VersionFound(p: string, v: Uint64, rest: string)
    requires 'V' !in p
    requires rest == [] || !IsDigit(rest[0])
    ensures VersionNumber(p + "Version " + DecimalString(v) + rest) == Some(v)
  {
    var d := DecimalString(v);
    var s := p + "Version " + d + rest;
    var i := |p|;
    assert s[i..i + 8] == "Version ";
    assert s[i + 8..i + 8 + |d|] == d;
    assert VersionAt(s, i);
    forall j | 0 <= j < i
      ensures !VersionAt(s, j)
    {
      assert s[j] == p[j] && s[j..j + 8][0] == s[j];
    }
    FindVersionAt(s, i);
    if rest != [] {
      assert s[i + 8 + |d|] == rest[0];
    }
    DigitRunAt(s, i + 8, d);
    DecimalRoundTrip(v);
  }

  /** The feed's own example: `Version 593` is read from a title that also carries a date. */
  lemma VersionExample()
    ensures VersionNumber("Version 593 Jan.2, 2024") == Some(593)
  {
    assert DecimalString(593) == "593" by {
      DecimalStringOfValue("593");
      assert DecimalValue("593") == 593;
    }
    assert "" + "Version " + "593" + " Jan.2, 2024" == "Version 593 Jan.2, 2024";
    VersionFound("", 593, " Jan.2, 2024");
  }

  /** Letters that the case-insensitive month comparison accepts are word characters. */
  lemma {:induction false} SameLettersAreWordChars(a: string, b: string)
    requires SameLetters(a, b)
    ensures forall i :: 0 <= i < |a| ==> IsWordChar(a[i])
  {
    if a != [] {
      SameLettersAreWordChars(a[1..], b[1..]);
      assert forall i :: 1 <= i < |a| ==> a[i] == a[1..][i - 1];
    }
  }

  /** The leftmost timestamp match is the first position where the pattern matches. */
  lemma FindStampAt(s: string, i: nat)
    requires StampDayWidth(s, i).Some? && forall j :: 0 <= j < i ==> StampDayWidth(s, j).None?
    ensures FindStamp(s, 0) == Some(i)
  {
  }

  /** Every character of `s` is a word character. */
  predicate WordChars(s: string) { forall k :: 0 <= k < |s| ==> IsWordChar(s[k]) }

  /** The pattern matches a blank and a well-shaped timestamp with the day's own width. */
  lemma StampMatch(t: string, name: string, dd: string, y: string)
    requires |name| == 3 && WordChars(name)
    requires 1 <= |dd| <= 2 && AllDigits(dd) && |y| == 4 && AllDigits(y)
    requires t == " " + name + "." + dd + ", " + y
    ensures StampDayWidth(t, 0) == Some(|dd|) && |t| == 11 + |dd|
    ensures t[1..] == name + "." + dd + ", " + y
    ensures t[0] != '.' && t[1] != '.' && t[2] != '.' && t[3] != '.'
  {
    var n := |dd|;
    assert t[1] == name[0] && t[2] == name[1] && t[3] == name[2] && t[4] == '.';
    assert t[5..5 + n] == dd;
    assert t[5 + n] == ',' && t[6 + n] == ' ';
    assert t[7 + n..11 + n] == y;
    assert StampAt(t, 0, n);
    if n == 1 {
      assert t[5..7][1] == ',';
    }
  }

  /** The pattern matches at the start of `t` exactly when it matches after any prefix. */
  lemma StampAtShift(p: string, t: string, n: nat)
    ensures StampAt(p + t, |p|, n) <==> StampAt(t, 0, n)
  {
    var s, i := p + t, |p|;
    if 1 <= n <= 2 && 11 + n <= |t| {
      assert forall k :: 0 <= k < |t| ==> s[i + k] == t[k];
      assert s[i + 5..i + 5 + n] == t[5..5 + n];
      assert s[i + 7 + n..i + 11 + n] == t[7 + n..11 + n];
    }
  }

  /** No match starts inside a prefix without `.` when `t` has none in its first four characters. */
  lemma NoStampBefore(p: string, t: string, j: nat)
    requires '.' !in p && |t| >= 4 && t[0] != '.' && t[1] != '.' && t[2] != '.' && t[3] != '.'
    requires j < |p|
    ensures StampDayWidth(p + t, j).None?
  {
    var s, i := p + t, |p|;
    if j + 4 < i {
      assert s[j + 4] == p[j + 4];
    } else {
      assert s[j + 4] == t[j + 4 - i];
    }
  }

  /**
   * A match in the text after a prefix without `.` is the leftmost one: an
   * earlier start would need a `.` four characters on.
   */
  lemma StampTextAfter(p: string, t: string)
    requires '.' !in p && StampDayWidth(t, 0).Some? && |t| == 11 + StampDayWidth(t, 0).value
    requires t[0] != '.' && t[1] != '.' && t[2] != '.' && t[3] != '.'
    ensures StampText(p + t) == Some(t[1..])
  {
    var s, i := p + t, |p|;
    var n := StampDayWidth(t, 0).value;
    assert StampDayWidth(s, i) == Some(n) by {
      StampAtShift(p, t, 1);
      StampAtShift(p, t, 2);
    }
    assert FindStamp(s, 0) == Some(i) by {
      forall j | 0 <= j < i
        ensures StampDayWidth(s, j).None?
      {
        NoStampBefore(p, t, j);
      }
      FindStampAt(s, i);
    }
    assert s[i + 1..i + 11 + n] == t[1..];
  }

  /** The pieces of the feed's spelling of a date have the widths the pattern asks for. */
  lemma StampPieces(d: CalendarDate)
    requires 0 <= d.year <= 9999
    ensures |MonthNames[d.month - 1]| == 3 && WordChars(MonthNames[d.month - 1])
    ensures 1 <= |DecimalString(d.day)| <= 2 && AllDigits(DecimalString(d.day))
    ensures |FormatField(d.year, 4)| == 4 && AllDigits(FormatField(d.year, 4))
  {
    MonthNamesFound(d.month);
    SameLettersAreWordChars(MonthNames[d.month - 1], MonthNames[d.month - 1]);
    assert Pow10(2) == 100;
    DecimalStringLength(d.day, 2);
    FieldDigits(d.year, 4, FormatField(d.year, 4));
  }

  /**
   * A timestamp in the feed's own spelling, after a blank and a prefix
   * without `.`, is read back as the same date (years 0 to 9999).
   */
  lemma StampFound(p: string, d: CalendarDate)
    requires '.' !in p && 0 <= d.year <= 9999
    ensures VersionStamp(p + " " + FormatStamp(d)) == Some(d)
  {
    StampTextOfFormat(p, d);
    StampRoundTrip(d);
  }

  /** The submatch of a blank and the feed's spelling of a date, after a prefix without `.`, is that spelling. */
  lemma StampTextOfFormat(p: string, d: CalendarDate)
    requires '.' !in p && 0 <= d.year <= 9999
    ensures StampText(p + " " + FormatStamp(d)) == Some(FormatStamp(d))
  {
    var t := " " + FormatStamp(d);
    StampPieces(d);
    var name, dd, y := MonthNames[d.month - 1], DecimalString(d.day), FormatField(d.year, 4);
    assert t == " " + name + "." + dd + ", " + y;
    StampMatch(t, name, dd, y);
    StampTextAfter(p, t);
    assert t[1..] == FormatStamp(d);
    assert p + t == p + " " + FormatStamp(d);
  }

  // ---- Reasons on updated entries ----

  /** The two reasons the feed puts in brackets after an updated product's title. */
  const NewModelAdded := "new model added"
  const SpecUpdated := "spec updated"

  predicate IsReason(s: string) { s == NewModelAdded || s == SpecUpdated }

  /**
   * The reason split of one Updated entry: a title ending in `)` whose last
   * `(` is not its first character, and whose bracketed text is a known
   * reason, loses that suffix (and the blanks before it) to Reason.
   * Anything else is left as it is.
   */
  function SplitReason(u: UpdatedProduct): (r: UpdatedProduct)
    ensures r.ID == u.ID
    ensures r != u ==> IsReason(r.Reason) && Bracketed(u, r)
  {
    if !HasSuffix(u.Title, ")") then u
    else
      var title := u.Title[..|u.Title| - 1];
      var i := LastIndexOf(title, '(');
      if i > 0 && IsReason(title[i + 1..]) then
        var reason := title[i + 1..];
        SplitAtParen(u, i);
        u.(Title := TrimSpace(u.Title[..i]), Reason := reason)
      else u
  }

  /**
   * `r` is `u` with a bracketed suffix split off its title: the title ends
   * with `r`'s reason in brackets, and what comes before the `(` is the new
   * title, trimmed.
   */
  predicate Bracketed(u: UpdatedProduct, r: UpdatedProduct)
  {
    && |r.Reason| + 3 <= |u.Title|
    && u.Title[|u.Title| - |r.Reason| - 2..] == "(" + r.Reason + ")"
    && r.Title == TrimSpace(u.Title[..|u.Title| - |r.Reason| - 2])
  }

  /** The text between a `(` at `i` and the final `)` is a bracketed suffix. */
  lemma SplitAtParen(u: UpdatedProduct, i: nat)
    requires 0 < i < |u.Title| - 1 && u.Title[i] == '(' && u.Title[|u.Title| - 1] == ')'
    ensures Bracketed(u, u.(Title := TrimSpace(u.Title[..i]), Reason := u.Title[..|u.Title| - 1][i + 1..]))
  {
    var t := u.Title;
    var x := t[..|t| - 1][i + 1..];
    assert x == t[i + 1..|t| - 1];
    assert |t| - |x| - 2 == i;
    assert t[i..] == "(" + x + ")" by {
      assert t[i..] == [t[i]] + x + [t[|t| - 1]];
    }
    var r := u.(Title := TrimSpace(t[..i]), Reason := x);
    assert r.Reason == x && r.Title == TrimSpace(t[..i]);
  }

  /** The position of a `c` with no `c` after it is the last index of `c`. */
  lemma LastIndexAt(s: string, k: nat, c: char)
    requires k < |s| && s[k] == c && forall j :: k < j < |s| ==> s[j] != c
    ensures LastIndexOf(s, c) == k
  {
  }

  /** A recognised reason after a non-empty title is split off, whatever the title holds. */
  lemma SplitReasonSplits(id: PID, p: string, reason: string, prior: string)
    requires |p| >= 1 && IsReason(reason)
    ensures SplitReason(UpdatedProduct(id, p + "(" + reason + ")", prior)) == UpdatedProduct(id, TrimSpace(p), reason)
  {
    var t := p + "(" + reason + ")";
    assert t[|t| - 1..] == ")";
    var title := t[..|t| - 1];
    assert title == p + "(" + reason;
    ReasonHasNoParen(reason);
    LastParen(p, reason);
    assert title[|p| + 1..] == reason;
    assert t[..|p|] == p;
  }

  /** A `(` followed by text without one is the last `(`. */
  lemma {:induction false} LastParen(p: string, x: string)
    requires forall k :: 0 <= k < |x| ==> x[k] != '('
    ensures LastIndexOf(p + "(" + x, '(') == |p|
  {
    var s := p + "(" + x;
    if x == [] {
      assert s[|s| - 1] == '(';
    } else {
      var y := x[..|x| - 1];
      assert s[|s| - 1] == x[|x| - 1];
      assert s[..|s| - 1] == p + "(" + y;
      LastParen(p, y);
    }
  }



  lemma ReasonHasNoParen(reason: string)
    requires IsReason(reason)
    ensures forall k :: 0 <= k < |reason| ==> reason[k] != '('
  {
  }

  /** Any other bracketed text is not a reason: the entry is unchanged. */
  lemma SplitReasonKeepsOthers(u: UpdatedProduct, p: string, other: string)
    requires u.Title == p + "(" + other + ")" && '(' !in other && !IsReason(other)
    ensures SplitReason(u) == u
  {
    var t := u.Title;
    var title := t[..|t| - 1];
    assert title == p + "(" + other;
    assert forall j :: |p| < j < |title| ==> title[j] == other[j - |p| - 1];
    LastIndexAt(title, |p|, '(');
    assert title[|p| + 1..] == other;
  }

  /** A title that is nothing but a bracketed reason keeps it: the `(` must not come first. */
  lemma SplitReasonNeedsPrefix(id: PID, reason: string, prior: string)
    requires IsReason(reason)
    ensures SplitReason(UpdatedProduct(id, "(" + reason + ")", prior)) == UpdatedProduct(id, "(" + reason + ")", prior)
  {
    var t := "(" + reason + ")";
    var title := t[..|t| - 1];
    assert title == "(" + reason;
    assert '(' !in reason;
    assert forall j :: 0 < j < |title| ==> title[j] == reason[j - 1];
    LastIndexAt(title, 0, '(');
  }

  // ---- The feed record and its parse pass ----

  /** The version after the pass: the number the title names, or the old value. */
  function NewVersion(title: string, prior: Uint64): (v: Uint64)
    ensures VersionNumber(title).Some? ==> v == VersionNumber(title).value
    ensures VersionNumber(title).None? ==> v == prior
  {
    match VersionNumber(title) case Some(n) => n case None => prior
  }

  /** The timestamp after the pass: the date the title names, or the old value. */
  function NewStamp(title: string, prior: CalendarDate): (d: CalendarDate)
    ensures VersionStamp(title).Some? ==> d == VersionStamp(title).value
    ensures VersionStamp(title).None? ==> d == prior
  {
    match VersionStamp(title) case Some(t) => t case None => prior
  }

  /** The change feed, updated in place by its parse pass. */
  class Updates {
    var Version: Uint64
    var VersionTS: CalendarDate
    var VersionTitle: string
    var New: seq<UpdatedProduct>
    var Updated: seq<UpdatedProduct>
    var Withdrawn: seq<UpdatedProduct>

    /** A feed as decoded: version and timestamp at their zero values. */
    constructor(title: string, added: seq<UpdatedProduct>, updated: seq<UpdatedProduct>, withdrawn: seq<UpdatedProduct>)
      ensures Version == 0 && VersionTS == ZeroDate && VersionTitle == title
      ensures New == added && Updated == updated && Withdrawn == withdrawn
    {
      Version, VersionTS, VersionTitle := 0, ZeroDate, title;
      New, Updated, Withdrawn := added, updated, withdrawn;
    }

    /**
     * Updates.parse on a feed that is there: the title is cleaned, the
     * version and timestamp are read from the cleaned title (or kept), every
     * Updated entry has its reason split, and the other lists are untouched.
     */
    method Parse()
      modifies this
      ensures VersionTitle == CleanTitle(old(VersionTitle))
      ensures Version == NewVersion(VersionTitle, old(Version))
      ensures VersionTS == NewStamp(VersionTitle, old(VersionTS))
      ensures |Updated| == |old(Updated)|
      ensures forall j :: 0 <= j < |Updated| ==> Updated[j] == SplitReason(old(Updated)[j])
      ensures New == old(New) && Withdrawn == old(Withdrawn)
    {
      CleanVersionTitle();
      ReadVersionNumber();
      ReadVersionStamp();
      SplitReasons();
    }

    /** First step: the bold markup and the surrounding blanks leave the title. */
    method CleanVersionTitle()
      modifies this
      ensures VersionTitle == CleanTitle(old(VersionTitle))
      ensures Version == old(Version) && VersionTS == old(VersionTS)
      ensures New == old(New) && Updated == old(Updated) && Withdrawn == old(Withdrawn)
    {
      VersionTitle := CleanTitle(VersionTitle);
    }

    /** Second step: the version number is read from the cleaned title, or kept. */
    method ReadVersionNumber()
      modifies this
      ensures Version == NewVersion(VersionTitle, old(Version))
      ensures VersionTitle == old(VersionTitle) && VersionTS == old(VersionTS)
      ensures New == old(New) && Updated == old(Updated) && Withdrawn == old(Withdrawn)
    {
      Version := NewVersion(VersionTitle, Version);
    }

    /** Third step: the timestamp is read from the cleaned title, or kept. */
    method ReadVersionStamp()
      modifies this
      ensures VersionTS == NewStamp(VersionTitle, old(VersionTS))
      ensures VersionTitle == old(VersionTitle) && Version == old(Version)
      ensures New == old(New) && Updated == old(Updated) && Withdrawn == old(Withdrawn)
    {
      VersionTS := NewStamp(VersionTitle, VersionTS);
    }

    /** Last step: every Updated entry has its reason split where it stands. */
    method SplitReasons()
      modifies this
      ensures |Updated| == |old(Updated)|
      ensures forall j :: 0 <= j < |Updated| ==> Updated[j] == SplitReason(old(Updated)[j])
      ensures VersionTitle == old(VersionTitle) && Version == old(Version) && VersionTS == old(VersionTS)
      ensures New == old(New) && Withdrawn == old(Withdrawn)
    {
      Updated := SplitEach(Updated);
    }
  }

  /** The loop over the Updated list: each entry's reason split where it stands. */
  method SplitEach(entries: seq<UpdatedProduct>) returns (r: seq<UpdatedProduct>)
    ensures |r| == |entries|
    ensures forall j :: 0 <= j < |r| ==> r[j] == SplitReason(entries[j])
  {
    r := entries;
    var i := 0;
    while i < |r|
      invariant 0 <= i <= |r| == |entries|
      invariant forall j :: 0 <= j < i ==> r[j] == SplitReason(entries[j])
      invariant r[i..] == entries[i..]
    {
      assert r[i] == entries[i] by {
        assert r[i..][0] == entries[i..][0];
      }
      r := r[i := SplitReason(r[i])];
      i := i + 1;
    }
  }

  /** Updates.parse: a nil feed is left alone. */
  method ParseFeed(upd: Updates?)
    modifies upd
    ensures upd != null ==> upd.VersionTitle == CleanTitle(old(upd.VersionTitle))
    ensures upd != null ==> upd.Version == NewVersion(upd.VersionTitle, old(upd.Version))
    ensures upd != null ==> upd.VersionTS == NewStamp(upd.VersionTitle, old(upd.VersionTS))
    ensures upd != null ==> (|upd.Updated| == |old(upd.Updated)|
      && forall j :: 0 <= j < |upd.Updated| ==> upd.Updated[j] == SplitReason(old(upd.Updated)[j]))
    ensures upd != null ==> upd.New == old(upd.New) && upd.Withdrawn == old(upd.Withdrawn)
  {
    if upd != null {
      upd.Parse();
    }
  }
}
