/**
 * The admin dashboard (src/pages/AdminDashboard.js): the winners search
 * filter, marking a prize delivered, the show/hide/fetch state of the
 * winners panel, and the text layout of `formatDate`.
 */
module AdminDashboard {
  import opened Wrappers
  import opened JsStrings

  /** One entry of the winners list as the admin API returns it; any field may be absent. */
  datatype Winner = Winner(
    winnerId: Option<string>,
    qrCodeId: Option<string>,
    name: Option<string>,
    email: Option<string>,
    phone: Option<string>,
    prizeType: Option<string>,
    claimedAt: Option<string>,
    deliveryDate: Option<string>)

  /** A winner counts as delivered when `delivery_date` is truthy. */
  predicate IsDelivered(w: Winner) {
    Truthy(w.deliveryDate)
  }

  function DeliveryLabel(w: Winner): string {
    if IsDelivered(w) then "delivered" else "not delivered"
  }

  /** A field as it enters the haystack: lower-cased, or "" when falsy. */
  function FieldText(f: Option<string>): string {
    if Truthy(f) then ToLower(f.value) else ""
  }

  /** The six texts searched, in order: QR code, name, email, phone, prize and the delivery label. */
  function SearchFields(w: Winner): seq<string> {
    [FieldText(w.qrCodeId), FieldText(w.name), FieldText(w.email),
     FieldText(w.phone), FieldText(w.prizeType), DeliveryLabel(w)]
  }

  /** The six texts joined with single spaces. */
  function Haystack(w: Winner): string {
    Join(SearchFields(w), " ")
  }

  /** The search term as the filter uses it: lower-cased, then trimmed; empty exactly for a blank term. */
  function NormalizeTerm(searchTerm: string): (r: string)
    ensures r == "" <==> !HasVisibleChar(searchTerm)
  {
    LowerKeepsWhitespace(searchTerm);
    assert HasVisibleChar(ToLower(searchTerm)) <==> HasVisibleChar(searchTerm);
    TrimEmptyIff(ToLower(searchTerm));
    Trim(ToLower(searchTerm))
  }

  /**
   * The filter callback: does `w` stay in the list for this search term? A blank term
   * keeps everyone, the two keywords select on delivery, and any other term must occur
   * somewhere in the joined, lower-cased fields.
   */
  function Matches(w: Winner, searchTerm: string): (r: bool)
    ensures !HasVisibleChar(searchTerm) ==> r
    ensures NormalizeTerm(searchTerm) == "delivered" ==> (r <==> IsDelivered(w))
    ensures NormalizeTerm(searchTerm) == "not delivered" ==> (r <==> !IsDelivered(w))
    ensures HasVisibleChar(searchTerm) && NormalizeTerm(searchTerm) !in {"delivered", "not delivered"} ==>
      (r <==> exists i :: OccursAt(Haystack(w), NormalizeTerm(searchTerm), i))
  {
    var term := NormalizeTerm(searchTerm);
    if term == "" then true
    else if term == "delivered" then IsDelivered(w)
    else if term == "not delivered" then !IsDelivered(w)
    else Includes(Haystack(w), term)
  }

  /** `winnersList.filter(...)`: the winners that match, each as often as in the input. */
  function FilterWinners(winners: seq<Winner>, searchTerm: string): (r: seq<Winner>)
    ensures |r| <= |winners|
    ensures forall w :: w in r <==> w in winners && Matches(w, searchTerm)
    ensures forall w :: multiset(r)[w] == if Matches(w, searchTerm) then multiset(winners)[w] else 0
  {
    if winners == [] then []
    else
      var rest := FilterWinners(winners[1..], searchTerm);
      assert winners == [winners[0]] + winners[1..];
      assert multiset(winners) == multiset{winners[0]} + multiset(winners[1..]);
      if Matches(winners[0], searchTerm) then [winners[0]] + rest else rest
  }

  /** `a` is `b` with some entries left out, the rest in their order. */
  ghost predicate IsSubsequence<T>(a: seq<T>, b: seq<T>)
    decreases |b|
  {
    if b == [] then a == []
    else (a != [] && a[0] == b[0] && IsSubsequence(a[1..], b[1..])) || IsSubsequence(a, b[1..])
  }

  /** Filtering keeps the order of the winners: the result is a subsequence of the list. */
  lemma {:induction false} FilterWinnersIsSubsequence(winners: seq<Winner>, searchTerm: string)
    ensures IsSubsequence(FilterWinners(winners, searchTerm), winners)
  {
    if winners != [] {
      var rest := FilterWinners(winners[1..], searchTerm);
      FilterWinnersIsSubsequence(winners[1..], searchTerm);
      if Matches(winners[0], searchTerm) {
        assert ([winners[0]] + rest)[1..] == rest;
      }
    }
  }

  /** When every winner matches, the filter returns the list itself. */
  lemma {:induction false} FilterKeepsMatchingList(winners: seq<Winner>, searchTerm: string)
    requires forall i :: 0 <= i < |winners| ==> Matches(winners[i], searchTerm)
    ensures FilterWinners(winners, searchTerm) == winners
  {
    if winners != [] {
      FilterKeepsMatchingList(winners[1..], searchTerm);
      assert [winners[0]] + winners[1..] == winners;
    }
  }

  /** An empty or whitespace-only search term keeps every winner, in order. */
  lemma BlankTermKeepsAll(winners: seq<Winner>, searchTerm: string)
    ensures !HasVisibleChar(searchTerm) ==> FilterWinners(winners, searchTerm) == winners
  {
    if !HasVisibleChar(searchTerm) {
      FilterKeepsMatchingList(winners, searchTerm);
    }
  }

  /**
   * The exact keywords filter on delivery alone: "delivered" keeps exactly the
   * delivered winners and "not delivered" exactly the others, whatever the other fields hold.
   */
  lemma DeliveryKeywords(winners: seq<Winner>, searchTerm: string)
    requires NormalizeTerm(searchTerm) in {"delivered", "not delivered"}
    ensures forall w :: w in FilterWinners(winners, searchTerm) <==>
      w in winners && (IsDelivered(w) <==> NormalizeTerm(searchTerm) == "delivered")
  {
  }

  /**
   * Any other term keeps a winner whose lower-cased QR code, name, email, phone or
   * prize contains it, or whose delivery label contains it.
   */
  lemma {:induction false} FieldHitMatches(w: Winner, searchTerm: string, k: nat)
    requires NormalizeTerm(searchTerm) !in {"", "delivered", "not delivered"}
    requires k < 6 && Includes(SearchFields(w)[k], NormalizeTerm(searchTerm))
    ensures Matches(w, searchTerm)
  {
    JoinIncludesPart(SearchFields(w), " ", k);
    IncludesTransitive(Haystack(w), SearchFields(w)[k], NormalizeTerm(searchTerm));
  }

  // ---------------------------------------------------------------------
  // Marking a prize delivered

  /** `prevList.map(w => w.winner_id === id ? { ...w, delivery_date: date } : w)` */
  function MarkDelivered(winners: seq<Winner>, id: Option<string>, date: Option<string>): (r: seq<Winner>)
    ensures |r| == |winners|
    ensures forall i :: 0 <= i < |r| ==>
      r[i] == if winners[i].winnerId == id then winners[i].(deliveryDate := date) else winners[i]
  {
    if winners == [] then []
    else
      var w := winners[0];
      [if w.winnerId == id then w.(deliveryDate := date) else w] + MarkDelivered(winners[1..], id, date)
  }

  /** Marking the same winner with the same date again changes nothing. */
  lemma MarkDeliveredIdempotent(winners: seq<Winner>, id: Option<string>, date: Option<string>)
    ensures MarkDelivered(MarkDelivered(winners, id, date), id, date) == MarkDelivered(winners, id, date)
  {
  }

  /**
   * With a truthy date from the server, no entry stops being delivered and every entry
   * with the target id becomes delivered.
   */
  lemma MarkDeliveredNeverClears(winners: seq<Winner>, id: Option<string>, date: Option<string>)
    requires Truthy(date)
    ensures forall i :: 0 <= i < |winners| && (IsDelivered(winners[i]) || winners[i].winnerId == id) ==>
      IsDelivered(MarkDelivered(winners, id, date)[i])
  {
  }

  /** After a saved delivery with a truthy date, the "not delivered" search no longer lists that winner id. */
  lemma NotDeliveredSearchDropsMarked(winners: seq<Winner>, id: Option<string>, date: Option<string>, searchTerm: string)
    requires Truthy(date) && NormalizeTerm(searchTerm) == "not delivered"
    ensures forall w :: w in FilterWinners(MarkDelivered(winners, id, date), searchTerm) ==> w.winnerId != id
  {
    var r := MarkDelivered(winners, id, date);
    forall w | w in FilterWinners(r, searchTerm) ensures w.winnerId != id {
      assert w in r && !IsDelivered(w);
      var i :| 0 <= i < |r| && r[i] == w;
    }
  }

  // ---------------------------------------------------------------------
  // formatDate: the text part

  /** `[zZ+\-]`: a zone designator or the sign of an offset. */
  predicate ZoneMark(c: char) {
    c == 'z' || c == 'Z' || c == '+' || c == '-'
  }

  predicate IsDigitOrColon(c: char) {
    IsDigit(c) || c == ':'
  }

  /** `/[zZ+\-][tail]*$/.test(s)` for the character class `tail`: a zone mark followed up to the end only by `tail` characters. */
  function MarkBeforeTail(s: string, tail: char -> bool): (r: bool)
    ensures r <==> exists i :: 0 <= i < |s| && ZoneMark(s[i]) && forall j :: i < j < |s| ==> tail(s[j])
    decreases |s|
  {
    if s == [] then false
    else
      var init := s[..|s| - 1];
      var r := ZoneMark(s[|s| - 1]) || (tail(s[|s| - 1]) && MarkBeforeTail(init, tail));
      assert forall i :: 0 <= i < |init| ==> init[i] == s[i];
      r
  }

  /** `hasTimeZone` as written: `/[zZ+\-]\d*$/.test(utcString)`. */
  function HasTimeZone(s: string): (r: bool)
    ensures r <==> exists i :: 0 <= i < |s| && ZoneMark(s[i]) && forall j :: i < j < |s| ==> IsDigit(s[j])
  {
    MarkBeforeTail(s, IsDigit)
  }

  /** The zone test as evidently intended: a `Z`, or an offset such as `+05:30` or `-0800`. */
  function HasZoneDesignator(s: string): (r: bool)
    ensures r <==> exists i :: 0 <= i < |s| && ZoneMark(s[i]) && forall j :: i < j < |s| ==> IsDigitOrColon(s[j])
  {
    MarkBeforeTail(s, IsDigitOrColon)
  }

  /**
   * The string handed to `new Date`, as written: trimmed, with `Z` appended when it
   * contains a `T` and the untrimmed input does not end in a zone mark and digits.
   */
  function TimestampAsWritten(utc: string): (r: string)
    ensures r == Trim(utc) || r == Trim(utc) + "Z"
    ensures r != Trim(utc) <==>
      'T' in Trim(utc) &&
      !(exists i :: 0 <= i < |utc| && ZoneMark(utc[i]) && forall j :: i < j < |utc| ==> IsDigit(utc[j]))
  {
    var t := Trim(utc);
    if !HasTimeZone(utc) && 'T' in t then t + "Z" else t
  }

  const ColonOffsetSample := "2025-03-19T23:56:31+05:30"

  /** `+05:30` is an offset, so the sample carries a time zone. */
  lemma ColonOffsetIsZoned()
    ensures HasZoneDesignator(ColonOffsetSample)
  {
    var s := ColonOffsetSample;
    assert s[19] == '+';
    forall j | 19 < j < |s| ensures IsDigitOrColon(s[j]) {
      assert s[20..] == "05:30";
      assert s[j] == "05:30"[j - 20];
    }
  }

  /** The written regular expression does not see the offset: a colon stands between the sign and the end. */
  lemma ColonOffsetMissedAsWritten()
    ensures !HasTimeZone(ColonOffsetSample)
  {
    var s := ColonOffsetSample;
    var p := "2025-03-19T23:56:31+05:";
    assert s == p + "30";
    assert s[..|s| - 1] == p + "3";
    assert (p + "3")[..|p|] == p;
    assert !MarkBeforeTail(p, IsDigit);
  }

  /** The offset `+05:30` is a time zone, yet the written test appends a second one. */
  lemma AsWrittenAppendsToColonOffset()
    ensures HasZoneDesignator(ColonOffsetSample)
    ensures TimestampAsWritten(ColonOffsetSample) == ColonOffsetSample + "Z"
  {
    var s := ColonOffsetSample;
    assert s[10] == 'T' && !IsWhitespace(s[0]) && !IsWhitespace(s[|s| - 1]);
    ColonOffsetIsZoned();
    ColonOffsetMissedAsWritten();
  }

  /** A trailing blank hides any zone from the written test, so `Z` is appended to a trimmed timestamp. */
  lemma BlankHidesZone(t: string)
    requires t != [] && Trimmed(t) && 'T' in t
    ensures TimestampAsWritten(t + " ") == t + "Z"
  {
    var s := t + " ";
    assert s[|s| - 1] == ' ';
    assert !HasTimeZone(s);
    TrimBlankSuffix(t);
  }

  /** A trailing blank after `Z` makes the written code append a second `Z`. */
  lemma AsWrittenDoublesZ()
    ensures TimestampAsWritten("2025-03-19T23:56:31Z ") == "2025-03-19T23:56:31ZZ"
  {
    var t := "2025-03-19T23:56:31Z";
    assert t[0] == '2' && t[|t| - 1] == 'Z' && t[10] == 'T';
    BlankHidesZone(t);
    assert t + " " == "2025-03-19T23:56:31Z ";
    assert t + "Z" == "2025-03-19T23:56:31ZZ";
  }

  /** Trimming a trimmed non-empty string with one blank after it gives the string back. */
  lemma TrimBlankSuffix(t: string)
    requires t != [] && Trimmed(t)
    ensures Trim(t + " ") == t
  {
    var s := t + " ";
    assert s[0] == t[0];
    assert LeadingSpace(s) == 0;
    assert s[..|s| - 1] == t;
    assert TrailingSpace(t) == 0;
    assert TrailingSpace(s) == 1;
  }

  /**
   * The string handed to `new Date`, corrected: the zone test is made on the trimmed
   * string and accepts offsets with a colon.
   */
  function TimestampForParse(utc: string): (r: string)
    ensures r == Trim(utc) || r == Trim(utc) + "Z"
    ensures r != Trim(utc) <==> 'T' in Trim(utc) && !HasZoneDesignator(Trim(utc))
    ensures HasZoneDesignator(Trim(utc)) ==> r == Trim(utc)
    ensures 'T' in Trim(utc) ==> HasZoneDesignator(r)
  {
    var t := Trim(utc);
    if !HasZoneDesignator(t) && 'T' in t then
      assert ZoneMark((t + "Z")[|t|]);
      t + "Z"
    else t
  }

  /** Normalising a normalised timestamp changes nothing: at most one `Z` is ever added. */
  lemma TimestampForParseIdempotent(utc: string)
    ensures TimestampForParse(TimestampForParse(utc)) == TimestampForParse(utc)
  {
    var t := Trim(utc);
    var r := TimestampForParse(utc);
    if r == t + "Z" {
      assert Trimmed(r) by {
        if t != [] {
          assert r[0] == t[0];
        }
        assert r[|r| - 1] == 'Z';
      }
      assert 'T' in r by {
        var i :| 0 <= i < |t| && t[i] == 'T';
        assert r[i] == 'T';
      }
    }
  }

  /** What the `Date` object reports in local time; `InvalidDate` when it could not parse. */
  datatype LocalTime =
    | LocalTime(year: int, monthIndex: int, day: int, hours: int, minutes: int, seconds: int)
    | InvalidDate

  /** `String(n).padStart(2, "0")` */
  function TwoDigits(n: int): string {
    PadStart2(IntToString(n))
  }

  /** `yyyy-mm-dd hh:mm:ss` in local time; `NaN` in every place for an invalid date. */
  function Layout(t: LocalTime): (r: string)
    ensures |r| >= 15
  {
    match t
    case InvalidDate => "NaN-NaN-NaN NaN:NaN:NaN"
    case LocalTime(y, mo, d, h, mi, s) =>
      IntToString(y) + Clock(TwoDigits(mo + 1), TwoDigits(d), TwoDigits(h), TwoDigits(mi), TwoDigits(s))
  }

  /** Everything after the year: `-mm-dd hh:mm:ss` from the padded fields. */
  function Clock(mo: string, d: string, h: string, mi: string, s: string): string {
    "-" + mo + "-" + d + " " + h + ":" + mi + ":" + s
  }

  /** A number below 100 pads to exactly two digits that read back as that number. */
  lemma TwoDigitsRoundTrip(n: int)
    requires 0 <= n < 100
    ensures |TwoDigits(n)| == 2 && AllDigits(TwoDigits(n)) && DecimalValue(TwoDigits(n)) == n
  {
    var s := NatToString(n);
    if n < 10 {
      var r := TwoDigits(n);
      assert r == ['0'] + s;
      assert r[..1] == ['0'];
    } else {
      assert |NatToString(n / 10)| == 1;
    }
  }

  /** Positions `at` and `at + 1` of `r` are two digits with value `v`. */
  predicate TwoDigitField(r: string, at: nat, v: nat) {
    at + 2 <= |r| && AllDigits(r[at..at + 2]) && DecimalValue(r[at..at + 2]) == v
  }

  /** The part after the year: five two-character fields behind the separators `-`, `-`, ` `, `:`, `:`. */
  lemma ClockShape(mo: string, d: string, h: string, mi: string, s: string)
    requires |mo| == 2 && |d| == 2 && |h| == 2 && |mi| == 2 && |s| == 2
    ensures var c := Clock(mo, d, h, mi, s);
      && |c| == 15
      && c[0] == '-' && c[1..3] == mo && c[3] == '-' && c[4..6] == d && c[6] == ' '
      && c[7..9] == h && c[9] == ':' && c[10..12] == mi && c[12] == ':' && c[13..15] == s
  {
    var c := Clock(mo, d, h, mi, s);
    assert c == ['-', mo[0], mo[1], '-', d[0], d[1], ' ', h[0], h[1], ':', mi[0], mi[1], ':', s[0], s[1]];
    assert c[1..3] == [mo[0], mo[1]] == mo;
    assert c[4..6] == [d[0], d[1]] == d;
    assert c[7..9] == [h[0], h[1]] == h;
    assert c[10..12] == [mi[0], mi[1]] == mi;
    assert c[13..15] == [s[0], s[1]] == s;
  }

  /** The clock part of a valid local time, field by field. */
  lemma ClockFields(t: LocalTime)
    requires t.LocalTime?
    requires 0 <= t.monthIndex < 12 && 1 <= t.day <= 31
    requires 0 <= t.hours < 24 && 0 <= t.minutes < 60 && 0 <= t.seconds < 60
    ensures var c := Clock(TwoDigits(t.monthIndex + 1), TwoDigits(t.day), TwoDigits(t.hours), TwoDigits(t.minutes), TwoDigits(t.seconds));
      && |c| == 15
      && c[0] == '-' && TwoDigitField(c, 1, t.monthIndex + 1)
      && c[3] == '-' && TwoDigitField(c, 4, t.day)
      && c[6] == ' ' && TwoDigitField(c, 7, t.hours)
      && c[9] == ':' && TwoDigitField(c, 10, t.minutes)
      && c[12] == ':' && TwoDigitField(c, 13, t.seconds)
  {
    TwoDigitsRoundTrip(t.monthIndex + 1);
    TwoDigitsRoundTrip(t.day);
    TwoDigitsRoundTrip(t.hours);
    TwoDigitsRoundTrip(t.minutes);
    TwoDigitsRoundTrip(t.seconds);
    ClockShape(TwoDigits(t.monthIndex + 1), TwoDigits(t.day), TwoDigits(t.hours), TwoDigits(t.minutes), TwoDigits(t.seconds));
  }

  /** A field keeps its digits when a prefix is put in front. */
  lemma ShiftField(y: string, c: string, at: nat, v: nat)
    requires TwoDigitField(c, at, v)
    ensures TwoDigitField(y + c, |y| + at, v)
  {
    assert (y + c)[|y| + at..|y| + at + 2] == c[at..at + 2];
  }

  /** Putting the year in front of the clock part moves each field by the year's length. */
  lemma YearBeforeClock(y: string, c: string, mo: nat, d: nat, h: nat, mi: nat, s: nat)
    requires && |c| == 15
             && c[0] == '-' && TwoDigitField(c, 1, mo)
             && c[3] == '-' && TwoDigitField(c, 4, d)
             && c[6] == ' ' && TwoDigitField(c, 7, h)
             && c[9] == ':' && TwoDigitField(c, 10, mi)
             && c[12] == ':' && TwoDigitField(c, 13, s)
    ensures var r := y + c;
      && |r| == |y| + 15 && r[..|y|] == y
      && r[|y|] == '-' && TwoDigitField(r, |y| + 1, mo)
      && r[|y| + 3] == '-' && TwoDigitField(r, |y| + 4, d)
      && r[|y| + 6] == ' ' && TwoDigitField(r, |y| + 7, h)
      && r[|y| + 9] == ':' && TwoDigitField(r, |y| + 10, mi)
      && r[|y| + 12] == ':' && TwoDigitField(r, |y| + 13, s)
  {
    ShiftField(y, c, 1, mo);
    ShiftField(y, c, 4, d);
    ShiftField(y, c, 7, h);
    ShiftField(y, c, 10, mi);
    ShiftField(y, c, 13, s);
  }

  /**
   * For a valid local time the layout is the year, then month, day, hours, minutes and
   * seconds as two-digit fields, separated by `-`, `-`, ` `, `:`, `:`.
   */
  lemma LayoutShape(t: LocalTime)
    requires t.LocalTime?
    requires 0 <= t.monthIndex < 12 && 1 <= t.day <= 31
    requires 0 <= t.hours < 24 && 0 <= t.minutes < 60 && 0 <= t.seconds < 60
    ensures var y := IntToString(t.year); var r := Layout(t);
      && |r| == |y| + 15 && r[..|y|] == y
      && r[|y|] == '-' && TwoDigitField(r, |y| + 1, t.monthIndex + 1)
      && r[|y| + 3] == '-' && TwoDigitField(r, |y| + 4, t.day)
      && r[|y| + 6] == ' ' && TwoDigitField(r, |y| + 7, t.hours)
      && r[|y| + 9] == ':' && TwoDigitField(r, |y| + 10, t.minutes)
      && r[|y| + 12] == ':' && TwoDigitField(r, |y| + 13, t.seconds)
  {
    var c := Clock(TwoDigits(t.monthIndex + 1), TwoDigits(t.day), TwoDigits(t.hours), TwoDigits(t.minutes), TwoDigits(t.seconds));
    ClockFields(t);
    YearBeforeClock(IntToString(t.year), c, t.monthIndex + 1, t.day, t.hours, t.minutes, t.seconds);
  }

  /**
   * `formatDate(utcString)`: "" for a falsy input, otherwise the layout of the local time
   * that `toLocal` (the `Date` object) reports for the normalised timestamp.
   */
  function FormatDate(utc: Option<string>, toLocal: string -> LocalTime): (r: string)
    ensures r == "" <==> !Truthy(utc)
    ensures Truthy(utc) ==> r == Layout(toLocal(TimestampForParse(utc.value)))
  {
    if !Truthy(utc) then "" else Layout(toLocal(TimestampForParse(utc.value)))
  }

  // ---------------------------------------------------------------------
  // Component state

  /** The reply to `GET /admin/winners`: `winners` may be missing from a successful reply. */
  datatype WinnersReply = WinnersReceived(winners: Option<seq<Winner>>) | WinnersFailed

  /** The reply to `POST /admin/winners/delivery-date`. */
  datatype DeliveryReply = DeliverySaved(deliveryDate: Option<string>) | DeliveryFailed

  const WinnersFetchError := "Failed to fetch winners list"

  /** The winners-panel state of the dashboard component. */
  class DashboardState {
    var showWinners: bool
    var winnersList: seq<Winner>
    var winnersError: string
    var isFetchingWinners: bool
    var searchTerm: string

    constructor ()
      ensures !showWinners && winnersList == [] && winnersError == ""
      ensures !isFetchingWinners && searchTerm == ""
    {
      showWinners, winnersList, winnersError := false, [], "";
      isFetchingWinners, searchTerm := false, "";
    }

    /** The rows the table shows: the matching winners, and all of them for a blank search. */
    function FilteredWinners(): (r: seq<Winner>)
      reads this
      ensures forall w :: w in r <==> w in winnersList && Matches(w, searchTerm)
      ensures !HasVisibleChar(searchTerm) ==> r == winnersList
    {
      BlankTermKeepsAll(winnersList, searchTerm);
      FilterWinners(winnersList, searchTerm)
    }

    /** Typing in the search box. */
    method SetSearchTerm(term: string)
      modifies this
      ensures searchTerm == term
      ensures showWinners == old(showWinners) && winnersList == old(winnersList)
      ensures winnersError == old(winnersError) && isFetchingWinners == old(isFetchingWinners)
    {
      searchTerm := term;
    }

    /** `fetchWinners` up to the request: loading on, error cleared. */
    method FetchWinners()
      modifies this
      ensures isFetchingWinners && winnersError == ""
      ensures showWinners == old(showWinners) && winnersList == old(winnersList)
      ensures searchTerm == old(searchTerm)
    {
      isFetchingWinners := true;
      winnersError := "";
    }

    /**
     * `handleWinnersClick`: a shown panel is hidden; a hidden one starts a fetch and stays
     * hidden until the reply arrives.
     */
    method WinnersClick() returns (fetchStarted: bool)
      modifies this
      ensures fetchStarted == !old(showWinners)
      ensures !showWinners
      ensures fetchStarted ==> isFetchingWinners && winnersError == ""
      ensures !fetchStarted ==> isFetchingWinners == old(isFetchingWinners) && winnersError == old(winnersError)
      ensures winnersList == old(winnersList) && searchTerm == old(searchTerm)
    {
      fetchStarted := !showWinners;
      if fetchStarted {
        FetchWinners();
      } else {
        showWinners := false;
      }
    }

    /**
     * The reply of `fetchWinners`: success shows the panel and replaces the list when it
     * carries `winners`; failure sets the error and leaves the panel as it was; loading ends either way.
     */
    method CompleteFetchWinners(reply: WinnersReply)
      modifies this
      ensures !isFetchingWinners
      ensures showWinners == (reply.WinnersReceived? || old(showWinners))
      ensures winnersList == (if reply.WinnersReceived? && reply.winners.Some? then reply.winners.value else old(winnersList))
      ensures winnersError == (if reply.WinnersFailed? then WinnersFetchError else old(winnersError))
      ensures searchTerm == old(searchTerm)
    {
      match reply {
        case WinnersReceived(winners) =>
          if winners.Some? {
            winnersList := winners.value;
          }
          showWinners := true;
        case WinnersFailed =>
          winnersError := WinnersFetchError;
      }
      isFetchingWinners := false;
    }

    /**
     * `handleDeliveredToggle`: an already-delivered winner, a declined confirmation and a
     * failed request leave the list as it is (the last one raises an alert); a saved
     * delivery sets `delivery_date` on the entries with that winner's id and nothing else.
     */
    method DeliveredToggle(winner: Winner, confirmed: bool, reply: DeliveryReply) returns (requested: bool, alerted: bool)
      modifies this
      ensures requested == (!IsDelivered(winner) && confirmed)
      ensures alerted == (requested && reply.DeliveryFailed?)
      ensures winnersList == if requested && reply.DeliverySaved?
        then MarkDelivered(old(winnersList), winner.winnerId, reply.deliveryDate)
        else old(winnersList)
      ensures showWinners == old(showWinners) && winnersError == old(winnersError)
      ensures isFetchingWinners == old(isFetchingWinners) && searchTerm == old(searchTerm)
    {
      requested, alerted := false, false;
      if IsDelivered(winner) {
        return;
      }
      if !confirmed {
        return;
      }
      requested := true;
      match reply {
        case DeliverySaved(date) =>
          winnersList := MarkDelivered(winnersList, winner.winnerId, date);
        case DeliveryFailed =>
          alerted := true;
      }
    }
  }
}
