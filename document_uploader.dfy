/** The ritual document uploader: the form's rules, the festivals offered for the chosen religion,
    and the submission, which posts the form as a pending contribution and clears the form and the
    file once the server accepts it. */
module DocumentUpload {
  import opened Wrappers
  import opened Seqs
  import opened Text
  import opened Schema
  import opened Uploads
  import Storage
  import Routes
  import ContributePage

  /** The form's fields; every one starts out empty. */
  datatype DocumentForm = DocumentForm(
    title: string,
    description: string,
    content: string,
    religion: string,
    festival: string)

  const EmptyForm := DocumentForm("", "", "", "", "")

  const TitleTooShort := "Title must be at least 3 characters"
  const DescriptionTooShort := "Description must be at least 10 characters"
  const ReligionRequired := "Religion is required"

  /** The messages the form's schema raises, one per broken rule; content and festival are free. */
  function FormErrors(f: DocumentForm): (errors: seq<string>)
    ensures errors == [] <==> |f.title| >= 3 && |f.description| >= 10 && f.religion != ""
    ensures TitleTooShort in errors <==> |f.title| < 3
    ensures DescriptionTooShort in errors <==> |f.description| < 10
    ensures ReligionRequired in errors <==> f.religion == ""
  {
    (if |f.title| < 3 then [TitleTooShort] else [])
    + (if |f.description| < 10 then [DescriptionTooShort] else [])
    + (if f.religion == "" then [ReligionRequired] else [])
  }

  /** `filteredFestivals`: nothing to offer before a religion is chosen; the festivals of the chosen
      religion, ignoring letter case, once they have loaded; `undefined` before that. */
  function FilteredFestivals(religion: string, festivals: Option<seq<Festival>>): (r: Option<seq<Festival>>)
    ensures religion == "" ==> r == Some([])
    ensures religion != "" && festivals.None? ==> r.None?
    ensures religion != "" && festivals.Some? ==> r.Some? && IsSubsequence(r.value, festivals.value)
    ensures religion != "" && festivals.Some? ==>
      forall f :: f in r.value <==> f in festivals.value && EqualsIgnoringCase(f.religion, religion)
  {
    if religion == "" then Some([])
    else if festivals.None? then None
    else Some(Filter(festivals.value, Storage.FestivalOfReligion(religion)))
  }

  /** The festival select is disabled without a religion, or when the loaded list offers none; while
      the festivals are still loading it stays enabled. */
  function FestivalSelectDisabled(religion: string, filtered: Option<seq<Festival>>): (disabled: bool)
    ensures disabled <==> religion == "" || (filtered.Some? && filtered.value == [])
  {
    religion == "" || (filtered.Some? && |filtered.value| == 0)
  }

  /** With a religion chosen, the select is usable exactly when festivals have not loaded yet or some
      loaded festival has that religion. */
  lemma FestivalSelectUsable(religion: string, festivals: Option<seq<Festival>>)
    requires religion != ""
    ensures !FestivalSelectDisabled(religion, FilteredFestivals(religion, festivals)) <==>
      festivals.None? || exists f :: f in festivals.value && EqualsIgnoringCase(f.religion, religion)
  {
    var r := FilteredFestivals(religion, festivals);
    if festivals.Some? && r.value != [] {
      assert r.value[0] in r.value;
    }
  }

  /** The request body: the form's fields with the status "pending". */
  function DocumentPayload(f: DocumentForm): (body: Routes.ContributionBody)
    ensures body.title == f.title && body.religion == f.religion && body.status == Some("pending")
    ensures body.description == Some(f.description) && body.content == Some(f.content) && body.festival == Some(f.festival)
    ensures body.fileUrl.None? && body.userId.None?
  {
    Routes.ContributionBody(f.title, Some(f.description), Some(f.content), f.religion, Some(f.festival),
      Some("pending"), None, None)
  }

  /** What the server stores for a submitted document: the form's text, pending review, and listed
      among the calendars exactly when its title mentions "Calendar". */
  lemma DocumentStored(f: DocumentForm, userId: int, id: int, now: Timestamp)
    ensures var c := NewContribution(Routes.ContributionInsert(userId, DocumentPayload(f)), id, now);
      && c.title == f.title && c.description == Some(f.description) && c.content == Some(f.content)
      && c.religion == f.religion && c.festival == Some(f.festival) && c.userId == userId
      && ContributePage.StatusText(c.status) == "Pending Review"
      && (ContributePage.FilterContributions([c], ContributePage.Calendars) == [c] <==> Contains(f.title, "Calendar"))
  {
    var c := NewContribution(Routes.ContributionInsert(userId, DocumentPayload(f)), id, now);
    ContributePage.NewContributionsShowPending(userId, DocumentPayload(f), id, now);
    assert ContributePage.RowIcon(c) == "calendar_month" <==> Contains(f.title, "Calendar");
  }

  class DocumentUploader {
    const zone: DropZone
    var values: DocumentForm

    predicate Valid()
      reads this, zone
    {
      zone.allowed == DocumentTypes && zone.Valid()
    }

    constructor()
      ensures Valid() && fresh(zone)
      ensures values == EmptyForm && zone.file.None? && !zone.isDragging
    {
      zone := new DropZone(DocumentTypes);
      values := EmptyForm;
    }

    /** Typing into the form. */
    method Edit(v: DocumentForm)
      modifies this`values
      ensures values == v
    {
      values := v;
    }

    /** The "Cancel" button: the form goes back to its starting values and the file is removed. */
    method Cancel()
      requires Valid()
      modifies this`values, zone`file
      ensures Valid() && values == EmptyForm && zone.file.None?
    {
      values := EmptyForm;
      zone.RemoveFile();
    }

    /** `handleSubmit(onSubmit)`: a form that breaks a rule shows its messages and sends nothing;
        a valid one is posted (`request`), and when the server accepts it (`accepted`) the form is
        reset and the file removed; when the request fails only a toast appears. */
    method Submit(accepted: bool) returns (errors: seq<string>, request: Option<Routes.ContributionBody>)
      requires Valid()
      modifies this`values, zone`file
      ensures Valid()
      ensures errors == FormErrors(old(values))
      ensures errors != [] ==> request.None? && values == old(values) && zone.file == old(zone.file)
      ensures errors == [] ==> request == Some(DocumentPayload(old(values)))
      ensures errors == [] && accepted ==> values == EmptyForm && zone.file.None?
      ensures errors == [] && !accepted ==> values == old(values) && zone.file == old(zone.file)
    {
      errors := FormErrors(values);
      if errors != [] {
        return errors, None;
      }
      request := Some(DocumentPayload(values));
      if accepted {
        values := EmptyForm;
        zone.RemoveFile();
      }
    }
  }
}
