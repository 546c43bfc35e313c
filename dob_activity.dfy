/**
 * `DOBActivity`: the date-of-birth screen. Three digit-only fields, an
 * adult check (`validateDOB`), the age stored with the date
 * (`calculateAge`), and the write to the user's document.
 *
 * `java.util.Calendar` is modelled as a lenient proleptic Gregorian
 * calendar; today's year and day of the year are inputs.
 */
module DobActivity {
  import opened Wrappers
  import opened KotlinStrings
  import opened Firestore

  /** `Calendar.getInstance()`: `YEAR` and `DAY_OF_YEAR` of today. */
  datatype Today = Today(year: int, dayOfYear: int)

  // ---------------------------------------------------------------------
  // The calendar

  predicate IsLeapYear(y: int) {
    (y % 4 == 0 && y % 100 != 0) || y % 400 == 0
  }

  /** Length of month `m0` (0 = January) of year `y`. */
  function DaysInMonth(y: int, m0: int): (n: int)
    requires 0 <= m0 < 12
    ensures 28 <= n <= 31
    ensures m0 == 11 ==> n == 31
  {
    if m0 == 1 then (if IsLeapYear(y) then 29 else 28)
    else if m0 == 3 || m0 == 5 || m0 == 8 || m0 == 10 then 30
    else 31
  }

  /** Days in the months of year `y` before month `m0`. */
  function DaysBefore(y: int, m0: int): (n: nat)
    requires 0 <= m0 <= 12
  {
    if m0 == 0 then 0 else DaysBefore(y, m0 - 1) + DaysInMonth(y, m0 - 1)
  }

  /** Lenient day arithmetic: a day past the end of its month moves into
      the following months, a day below 1 into the preceding ones. Gives
      (year, month index, day of month). */
  function NormalizeDay(y: int, m0: int, d: int): (r: (int, int, int))
    requires 0 <= m0 < 12
    ensures 0 <= r.1 < 12 && 1 <= r.2 <= DaysInMonth(r.0, r.1)
    decreases if d < 1 then 1 - d else 0, d
  {
    if d < 1 then
      var py := if m0 == 0 then y - 1 else y;
      var pm := if m0 == 0 then 11 else m0 - 1;
      NormalizeDay(py, pm, d + DaysInMonth(py, pm))
    else if d > DaysInMonth(y, m0) then
      var ny := if m0 == 11 then y + 1 else y;
      var nm := if m0 == 11 then 0 else m0 + 1;
      NormalizeDay(ny, nm, d - DaysInMonth(y, m0))
    else (y, m0, d)
  }

  /** Days from 1 January of year 0 to 1 January of year `y` (negative
      before year 0). */
  function YearStart(y: int): int
    decreases if y < 0 then -y else y
  {
    if y == 0 then 0
    else if y > 0 then YearStart(y - 1) + DaysBefore(y - 1, 12)
    else YearStart(y + 1) - DaysBefore(y, 12)
  }

  /** Each year starts where the previous one ends. */
  lemma YearStartStep(y: int)
    ensures YearStart(y + 1) == YearStart(y) + DaysBefore(y, 12)
  {
  }

  /** A running count of days, so that two dates are the same day exactly
      when their numbers agree. */
  function DayNumber(y: int, m0: int, d: int): int
    requires 0 <= m0 < 12
  {
    YearStart(y) + DaysBefore(y, m0) + d
  }

  /** The lenient roll-over lands on the same day it started from. */
  lemma {:induction false} NormalizeKeepsDay(y: int, m0: int, d: int)
    requires 0 <= m0 < 12
    ensures var r := NormalizeDay(y, m0, d); DayNumber(r.0, r.1, r.2) == DayNumber(y, m0, d)
    decreases if d < 1 then 1 - d else 0, d
  {
    if d < 1 {
      var py := if m0 == 0 then y - 1 else y;
      var pm := if m0 == 0 then 11 else m0 - 1;
      NormalizeKeepsDay(py, pm, d + DaysInMonth(py, pm));
      if m0 == 0 { YearStartStep(y - 1); }
    } else if d > DaysInMonth(y, m0) {
      var ny := if m0 == 11 then y + 1 else y;
      var nm := if m0 == 11 then 0 else m0 + 1;
      NormalizeKeepsDay(ny, nm, d - DaysInMonth(y, m0));
      if m0 == 11 { YearStartStep(y); }
    }
  }

  /** `Calendar.set(year, month - 1, day)` read back as (`YEAR`,
      `DAY_OF_YEAR`): the month carries into the year first, then the day
      into the months. */
  function BirthDate(year: int, month: int, day: int): (int, int) {
    var m := month - 1;
    var r := NormalizeDay(year + m / 12, m % 12, day);
    (r.0, DaysBefore(r.0, r.1) + r.2)
  }

  /** Whole years from a birth (`YEAR`, `DAY_OF_YEAR`) to today, counting
      a birthday not yet reached this year as one year fewer. */
  function AgeAt(today: Today, birth: (int, int)): int {
    var age := today.year - birth.0;
    if today.dayOfYear < birth.1 then age - 1 else age
  }

  /** Within the field ranges the lenient calendar never changes the year,
      and the day of the year is the earlier months' lengths plus the day
      (which also matches the roll-over of, say, 30 February). */
  lemma BirthDateInRange(year: int, month: int, day: int)
    requires 1 <= day <= 31 && 1 <= month <= 12
    ensures BirthDate(year, month, day) == (year, DaysBefore(year, month - 1) + day)
  {
    var m0 := month - 1;
    assert m0 / 12 == 0 && m0 % 12 == m0;
    if day > DaysInMonth(year, m0) {
      assert m0 < 11;
      assert NormalizeDay(year, m0, day) == NormalizeDay(year, m0 + 1, day - DaysInMonth(year, m0));
      assert NormalizeDay(year, m0 + 1, day - DaysInMonth(year, m0)) == (year, m0 + 1, day - DaysInMonth(year, m0));
    }
  }

  // ---------------------------------------------------------------------
  // validateDOB and calculateAge

  /** `validateDOB(day, month, year)`. */
  function ValidateDob(day: string, month: string, year: string, today: Today): bool {
    match (ToInt(day), ToInt(month), ToInt(year))
    case (Some(d), Some(m), Some(y)) =>
      if !(1 <= d <= 31) || !(1 <= m <= 12) || !(1920 <= y <= today.year) then false
      else AgeAt(today, BirthDate(y, m, d)) >= 18
    case _ => false
  }

  /** `map { it.toInt() }` over every piece: `None` if any piece throws. */
  function ToInts(parts: seq<string>): (r: Option<seq<int>>)
    ensures r.Some? ==> |r.value| == |parts| && forall i :: 0 <= i < |parts| ==> ToInt(parts[i]) == Some(r.value[i])
    ensures r.None? ==> exists i :: 0 <= i < |parts| && ToInt(parts[i]).None?
  {
    if parts == [] then Some([])
    else match (ToInt(parts[0]), ToInts(parts[1..]))
      case (Some(x), Some(xs)) => Some([x] + xs)
      case (None, _) => None
      case (_, None) => None
  }

  /** `calculateAge(dob)`: 0 when the string does not split on "/" into at
      least three integers. */
  function CalculateAge(dob: string, today: Today): int {
    match ToInts(Split(dob, '/'))
    case Some(xs) =>
      if |xs| < 3 then 0 else AgeAt(today, BirthDate(xs[2], xs[1], xs[0]))
    case None => 0
  }

  /** A field that does not parse makes the date invalid; in particular an
      empty field does. */
  lemma ValidateDobRejectsUnparsable(day: string, month: string, year: string, today: Today)
    requires ToInt(day).None? || ToInt(month).None? || ToInt(year).None?
    ensures !ValidateDob(day, month, year, today)
  {
  }

  /** Out-of-range day, month or year makes the date invalid. */
  lemma ValidateDobRejectsOutOfRange(day: string, month: string, year: string, today: Today)
    requires ToInt(day).Some? && ToInt(month).Some? && ToInt(year).Some?
    requires var d, m, y := ToInt(day).value, ToInt(month).value, ToInt(year).value;
      !(1 <= d <= 31) || !(1 <= m <= 12) || !(1920 <= y <= today.year)
    ensures !ValidateDob(day, month, year, today)
  {
  }

  /** In range, the date is valid exactly when the age is at least 18, the
      age being the difference of years less one if today's day of the
      year is before the birthday's. */
  lemma ValidateDobIffAdult(day: string, month: string, year: string, today: Today)
    requires ToInt(day).Some? && ToInt(month).Some? && ToInt(year).Some?
    requires var d, m, y := ToInt(day).value, ToInt(month).value, ToInt(year).value;
      1 <= d <= 31 && 1 <= m <= 12 && 1920 <= y <= today.year
    ensures var d, m, y := ToInt(day).value, ToInt(month).value, ToInt(year).value;
      var birthday := DaysBefore(y, m - 1) + d;
      var age := if today.dayOfYear < birthday then today.year - y - 1 else today.year - y;
      ValidateDob(day, month, year, today) <==> age >= 18
  {
    BirthDateInRange(ToInt(year).value, ToInt(month).value, ToInt(day).value);
  }

  /** Born 19 or more calendar years ago is always adult; born fewer than
      18 calendar years ago never is. */
  lemma ValidateDobByYear(day: string, month: string, year: string, today: Today)
    requires ToInt(day).Some? && ToInt(month).Some? && ToInt(year).Some?
    requires var d, m, y := ToInt(day).value, ToInt(month).value, ToInt(year).value;
      1 <= d <= 31 && 1 <= m <= 12 && 1920 <= y <= today.year
    ensures today.year - ToInt(year).value >= 19 ==> ValidateDob(day, month, year, today)
    ensures today.year - ToInt(year).value < 18 ==> !ValidateDob(day, month, year, today)
  {
    ValidateDobIffAdult(day, month, year, today);
  }

  /** Malformed dates store age 0. */
  lemma CalculateAgeMalformed(dob: string, today: Today)
    requires |Split(dob, '/')| < 3 || exists i :: 0 <= i < |Split(dob, '/')| && ToInt(Split(dob, '/')[i]).None?
    ensures CalculateAge(dob, today) == 0
  {
  }

  /** The screen saves `"$day/$month/$year"`: for a date `validateDOB`
      accepted, `calculateAge` of that string is the very age that passed
      the adult check, so the stored age is at least 18. */
  lemma SavedAgeMatchesValidatedAge(day: string, month: string, year: string, today: Today)
    requires ValidateDob(day, month, year, today)
    ensures var d, m, y := ToInt(day).value, ToInt(month).value, ToInt(year).value;
      && CalculateAge(day + "/" + month + "/" + year, today) == AgeAt(today, BirthDate(y, m, d))
      && CalculateAge(day + "/" + month + "/" + year, today) >= 18
  {
    if '/' in day { ToIntCharset(day, '/'); }
    if '/' in month { ToIntCharset(month, '/'); }
    if '/' in year { ToIntCharset(year, '/'); }
    var dob := day + "/" + month + "/" + year;
    assert dob == day + ['/'] + (month + ['/'] + year);
    SplitJoin(day, '/', month + ['/'] + year);
    SplitJoin(month, '/', year);
    SplitNoSeparator(year, '/');
    assert Split(dob, '/') == [day, month, year];
    var parts := [day, month, year];
    assert forall i :: 0 <= i < 3 ==> ToInt(parts[i]).Some?;
    assert ToInts(parts).Some?;
  }

  // ---------------------------------------------------------------------
  // The input fields and the Continue button

  /** `CustomOutlinedTextField`'s filter: digits only, at most four for
      "Year" and two for the other fields; the empty text passes. */
  predicate FieldAccepts(field: string, text: string) {
    AllDigits(text) && |text| <= (if field == "Year" then 4 else 2)
  }

  /** A non-empty text the filter let through always parses, to a value
      below 10000 (below 100 outside "Year"). */
  lemma FilteredFieldParses(field: string, text: string)
    requires FieldAccepts(field, text) && text != ""
    ensures ToInt(text).Some?
    ensures 0 <= ToInt(text).value < (if field == "Year" then 10000 else 100)
  {
    ToIntOfDigits(text);
    Pow10Monotone(|text|, if field == "Year" then 4 else 2);
    assert Pow10(2) == 100 && Pow10(4) == 10000;
  }

  /** The Continue button is enabled when no field is empty and no save
      is in flight. */
  predicate ContinueEnabled(day: string, month: string, year: string, isLoading: bool) {
    day != "" && month != "" && year != "" && !isLoading
  }

  /** With filtered fields, an enabled Continue button means every field
      parses: `validateDOB` then only rejects on range or age. */
  lemma EnabledFieldsParse(day: string, month: string, year: string, isLoading: bool)
    requires FieldAccepts("Day", day) && FieldAccepts("Month", month) && FieldAccepts("Year", year)
    requires ContinueEnabled(day, month, year, isLoading)
    ensures ToInt(day).Some? && ToInt(month).Some? && ToInt(year).Some?
  {
    FilteredFieldParses("Day", day);
    FilteredFieldParses("Month", month);
    FilteredFieldParses("Year", year);
  }

  /** The fields `saveDOBToFirestore` merges into `users/{uid}`. */
  function DobFields(dob: string, today: Today): Fields {
    map["dob" := StringField(dob), "age" := LongField(CalculateAge(dob, today))]
  }

  /** `saveDOBToFirestore`: nothing at all without a user; otherwise the
      merge is attempted and `onComplete` runs whether it succeeds or
      fails. Returns whether `onComplete` was called. */
  method SaveDobToFirestore(db: Db, userId: Option<string>, dob: string, today: Today, accepted: bool)
    returns (completed: bool)
    modifies db
    ensures userId.None? ==> !completed && db.collections == old(db.collections)
    ensures userId.Some? ==> completed
    ensures userId.Some? && accepted && userId.value in old(db.Collection("users")) ==>
      db.collections == old(db.collections)["users" :=
        old(db.Collection("users"))[userId.value := old(db.Collection("users"))[userId.value] + DobFields(dob, today)]]
    ensures userId.Some? && !(accepted && userId.value in old(db.Collection("users"))) ==>
      db.collections == old(db.collections)
  {
    if userId.None? {
      return false;
    }
    var age := CalculateAge(dob, today);
    var user := map["dob" := StringField(dob), "age" := LongField(age)];
    var ok := db.Update("users", userId.value, user, accepted);
    completed := true;
  }

  class DobScreen {
    var day: string
    var month: string
    var year: string
    var isLoading: bool
    var errorMessage: string

    constructor ()
      ensures day == "" && month == "" && year == "" && !isLoading && errorMessage == ""
      ensures FieldsFiltered()
    {
      day, month, year := "", "", "";
      isLoading := false;
      errorMessage := "";
    }

    /** Invariant of the three fields: each holds text its filter accepts.
        The constructor establishes it and every edit keeps it. */
    predicate FieldsFiltered()
      reads this
    {
      FieldAccepts("Day", day) && FieldAccepts("Month", month) && FieldAccepts("Year", year)
    }

    method EditDay(text: string)
      modifies this`day
      ensures day == if FieldAccepts("Day", text) then text else old(day)
      ensures old(FieldsFiltered()) ==> FieldsFiltered()
    {
      if FieldAccepts("Day", text) {
        day := text;
      }
    }

    method EditMonth(text: string)
      modifies this`month
      ensures month == if FieldAccepts("Month", text) then text else old(month)
      ensures old(FieldsFiltered()) ==> FieldsFiltered()
    {
      if FieldAccepts("Month", text) {
        month := text;
      }
    }

    method EditYear(text: string)
      modifies this`year
      ensures year == if FieldAccepts("Year", text) then text else old(year)
      ensures old(FieldsFiltered()) ==> FieldsFiltered()
    {
      if FieldAccepts("Year", text) {
        year := text;
      }
    }

    /** The Continue button. An invalid date only sets the error. A valid
        one sets the loading flag and saves; the save's completion clears
        the flag and moves on. A stored age is the one the check accepted,
        so it is at least 18. Without a signed-in user nothing completes
        and the flag stays set. Returns whether the screen moved on. */
    method OnContinue(db: Db, userId: Option<string>, today: Today, accepted: bool)
      returns (navigated: bool)
      modifies this`isLoading, this`errorMessage, db
      ensures !ValidateDob(day, month, year, today) ==>
        && errorMessage == "Invalid DOB. Ensure age is 18+ and format is correct."
        && isLoading == old(isLoading) && !navigated && db.collections == old(db.collections)
      ensures ValidateDob(day, month, year, today) ==>
        && errorMessage == old(errorMessage)
        && navigated == userId.Some?
        && isLoading == userId.None?
      ensures ValidateDob(day, month, year, today) ==>
        var users := old(db.Collection("users"));
        db.collections ==
          if userId.Some? && accepted && userId.value in users then
            old(db.collections)["users" := users[userId.value :=
              users[userId.value] + DobFields(day + "/" + month + "/" + year, today)]]
          else old(db.collections)
      ensures FieldsFiltered() && ContinueEnabled(day, month, year, old(isLoading)) ==>
        ToInt(day).Some? && ToInt(month).Some? && ToInt(year).Some?
      ensures ValidateDob(day, month, year, today) && userId.Some? && accepted
              && userId.value in old(db.Collection("users")) ==>
        && "age" in db.Collection("users")[userId.value]
        && db.Collection("users")[userId.value]["age"].LongField?
        && db.Collection("users")[userId.value]["age"].n >= 18
    {
      if FieldsFiltered() && ContinueEnabled(day, month, year, isLoading) {
        EnabledFieldsParse(day, month, year, isLoading);
      }
      navigated := false;
      if ValidateDob(day, month, year, today) {
        SavedAgeMatchesValidatedAge(day, month, year, today);
        isLoading := true;
        var completed := SaveDobToFirestore(db, userId, day + "/" + month + "/" + year, today, accepted);
        if completed {
          isLoading := false;
          navigated := true;
        }
      } else {
        errorMessage := "Invalid DOB. Ensure age is 18+ and format is correct.";
      }
    }
  }
}
