/** The festival calendar uploader: the document form's rules plus a four-character year chosen from
    the current year and the four after it; the submitted title names the year and ends in
    "Calendar". */
module CalendarUpload {
  import opened Wrappers
  import opened Text
  import opened Schema
  import opened Uploads
  import Routes
  import ContributePage

  datatype CalendarForm = CalendarForm(
    title: string,
    description: string,
    content: string,
    religion: string,
    festival: string,
    year: string)

  /** The form's starting values: every field empty but the year, which is the current one. */
  function EmptyForm(currentYear: int): (f: CalendarForm)
    ensures f.title == "" && f.description == "" && f.content == "" && f.religion == "" && f.festival == ""
    ensures ParseInt(f.year) == Some(currentYear)
  {
    ParseIntOfIntToString(currentYear);
    CalendarForm("", "", "", "", "", IntToString(currentYear))
  }

  /** The years the select offers: this year and the next four, in order. */
  function YearOptions(currentYear: int): (years: seq<string>)
    ensures |years| == 5
  {
    seq(5, i => IntToString(currentYear + i))
  }

  /** Each offered year reads back as the year it stands for. */
  lemma YearOptionReadsBack(currentYear: int, i: int)
    requires 0 <= i < 5
    ensures ParseInt(YearOptions(currentYear)[i]) == Some(currentYear + i)
  {
    var year := IntToString(currentYear + i);
    assert YearOptions(currentYear)[i] == year;
    ParseIntOfIntToString(currentYear + i);
  }

  const TitleTooShort := "Title must be at least 3 characters"
  const DescriptionTooShort := "Description must be at least 10 characters"
  const ReligionRequired := "Religion is required"
  const YearTooShort := "Year must be at least 4 digits"
  const YearTooLong := "Year cannot exceed 4 digits"

  /** The messages the form's schema raises, one per broken rule. */
  function FormErrors(f: CalendarForm): (errors: seq<string>)
    ensures errors == [] <==> |f.title| >= 3 && |f.description| >= 10 && f.religion != "" && |f.year| == 4
    ensures TitleTooShort in errors <==> |f.title| < 3
    ensures DescriptionTooShort in errors <==> |f.description| < 10
    ensures ReligionRequired in errors <==> f.religion == ""
    ensures YearTooShort in errors <==> |f.year| < 4
    ensures YearTooLong in errors <==> |f.year| > 4
  {
    (if |f.title| < 3 then [TitleTooShort] else [])
    + (if |f.description| < 10 then [DescriptionTooShort] else [])
    + (if f.religion == "" then [ReligionRequired] else [])
    + (if |f.year| < 4 then [YearTooShort] else [])
    + (if |f.year| > 4 then [YearTooLong] else [])
  }

  /** A year from 1000 to 9999 is written with four digits. */
  lemma FourDigitYear(n: int)
    requires 1000 <= n <= 9999
    ensures |IntToString(n)| == 4
  {
    assert |NatToString(n / 100)| == 2;
    assert NatToString(n / 10) == NatToString(n / 100) + [DigitChar(n / 10 % 10)];
    assert NatToString(n) == NatToString(n / 10) + [DigitChar(n % 10)];
  }

  /** The starting year is the first one offered. */
  lemma StartingYearOffered(currentYear: int)
    ensures EmptyForm(currentYear).year == YearOptions(currentYear)[0]
  {
  }

  /** From year 1000 to 9995 every offered year, the starting one included, passes the year rule. */
  lemma OfferedYearValid(currentYear: int, i: int)
    requires 1000 <= currentYear <= 9995 && 0 <= i < 5
    ensures |YearOptions(currentYear)[i]| == 4
    ensures |EmptyForm(currentYear).year| == 4
  {
    FourDigitYear(currentYear + i);
    FourDigitYear(currentYear);
  }

  /** The submitted title: the entered title, a dash, the year and the word "Calendar". */
  function CalendarTitle(title: string, year: string): (t: string)
    ensures Contains(t, "Calendar")
    ensures |t| == |title| + |year| + 12
    ensures t[..|title|] == title && t[|title|..|title| + 3] == " - " && t[|title| + 3..|title| + 3 + |year|] == year
    ensures t[|title| + 3 + |year|..] == " Calendar"
  {
    var t := title + " - " + year + " Calendar";
    assert t == title + " - " + year + " " + "Calendar";
    ContainsSuffix(title + " - " + year + " ", "Calendar");
    t
  }

  /** The request body: the form's fields with the status "pending" and the decorated title (the
      year travels too, but the server's contribution schema has no column for it). */
  function CalendarPayload(f: CalendarForm): (body: Routes.ContributionBody)
    ensures body.title == CalendarTitle(f.title, f.year) && body.religion == f.religion && body.status == Some("pending")
    ensures body.description == Some(f.description) && body.content == Some(f.content) && body.festival == Some(f.festival)
    ensures body.fileUrl.None? && body.userId.None?
  {
    Routes.ContributionBody(CalendarTitle(f.title, f.year), Some(f.description), Some(f.content), f.religion,
      Some(f.festival), Some("pending"), None, None)
  }

  /** Every calendar the server stores from this form is listed among the calendars, pending review. */
  lemma CalendarListedAsCalendar(f: CalendarForm, userId: int, id: int, now: Timestamp)
    ensures var c := NewContribution(Routes.ContributionInsert(userId, CalendarPayload(f)), id, now);
      && c.title == CalendarTitle(f.title, f.year) && c.userId == userId
      && ContributePage.FilterContributions([c], ContributePage.Calendars) == [c]
      && ContributePage.FilterContributions([c], ContributePage.Rituals) == []
      && ContributePage.StatusText(c.status) == "Pending Review"
  {
    var c := NewContribution(Routes.ContributionInsert(userId, CalendarPayload(f)), id, now);
    ContributePage.NewContributionsShowPending(userId, CalendarPayload(f), id, now);
    assert ContributePage.RowIcon(c) == "calendar_month";
    assert ContributePage.FilterContributions([c], ContributePage.Rituals) == [] by {
      ContributePage.KindsPartition([c]);
    }
  }

  class CalendarUploader {
    /** The year when the page was rendered. */
    const currentYear: int
    const zone: DropZone
    var values: CalendarForm

    predicate Valid()
      reads this, zone
    {
      zone.allowed == CalendarTypes && zone.Valid()
    }

    constructor(currentYear: int)
      ensures this.currentYear == currentYear && Valid() && fresh(zone)
      ensures values == EmptyForm(currentYear) && zone.file.None? && !zone.isDragging
    {
      this.currentYear := currentYear;
      zone := new DropZone(CalendarTypes);
      values := EmptyForm(currentYear);
    }

    /** Typing into the form, or choosing a religion or a year. */
    method Edit(v: CalendarForm)
      modifies this`values
      ensures values == v
    {
      values := v;
    }

    /** The "Cancel" button: the form goes back to its starting values and the file is removed. */
    method Cancel()
      requires Valid()
      modifies this`values, zone`file
      ensures Valid() && values == EmptyForm(currentYear) && zone.file.None?
    {
      values := EmptyForm(currentYear);
      zone.RemoveFile();
    }

    /** `handleSubmit(onSubmit)`: a form that breaks a rule shows its messages and sends nothing; a
        valid one is posted (`request`), and when the server accepts it (`accepted`) the form goes
        back to its starting values and the file is removed; a failed request changes nothing. */
    method Submit(accepted: bool) returns (errors: seq<string>, request: Option<Routes.ContributionBody>)
      requires Valid()
      modifies this`values, zone`file
      ensures Valid()
      ensures errors == FormErrors(old(values))
      ensures errors != [] ==> request.None? && values == old(values) && zone.file == old(zone.file)
      ensures errors == [] ==> request == Some(CalendarPayload(old(values)))
      ensures errors == [] && accepted ==> values == EmptyForm(currentYear) && zone.file.None?
      ensures errors == [] && !accepted ==> values == old(values) && zone.file == old(zone.file)
    {
      errors := FormErrors(values);
      if errors != [] {
        return errors, None;
      }
      request := Some(CalendarPayload(values));
      if accepted {
        values := EmptyForm(currentYear);
        zone.RemoveFile();
      }
    }
  }
}
