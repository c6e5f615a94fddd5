/** The administrator's court dashboard: the per-status tallies and the
    state of the create/edit court form. */
module AdminDashboard {
  import opened Optional
  import opened Api

  /** The form state `{ name, status, openingHour, closingHour }`. */
  datatype CourtForm = CourtForm(name: string, status: string, openingHour: string, closingHour: string)
  {
    /** `{ ...formData, [name]: value }`: the field called `field` takes
        `value` and the others keep theirs; any other name only adds a key
        that nothing reads. */
    function Set(field: string, value: string): (f: CourtForm)
      ensures f.name == (if field == "name" then value else name)
      ensures f.status == (if field == "status" then value else status)
      ensures f.openingHour == (if field == "openingHour" then value else openingHour)
      ensures f.closingHour == (if field == "closingHour" then value else closingHour)
    {
      if field == "name" then this.(name := value)
      else if field == "status" then this.(status := value)
      else if field == "openingHour" then this.(openingHour := value)
      else if field == "closingHour" then this.(closingHour := value)
      else this
    }
  }

  /** The form of a new court: no name, available, open 08:00 to 22:00. */
  const Blank := CourtForm("", "available", "08:00", "22:00")

  const UpdateFailedMessage := "Failed to update court"
  const CreateFailedMessage := "Failed to create court"
  const FetchFailedMessage := "Failed to fetch courts"
  const DeleteFailedMessage := "Failed to delete court"

  /** The form `handleEdit` fills from a court: its four editable fields
      and nothing else. */
  function EditForm(c: Court): (f: CourtForm)
    ensures f.name == c.name && f.status == c.status
    ensures f.openingHour == c.openingHour && f.closingHour == c.closingHour
  {
    CourtForm(c.name, c.status, c.openingHour, c.closingHour)
  }

  /** The body `handleSubmit` sends: the four fields, and the image only
      when a file was selected. */
  function Payload(f: CourtForm, file: Option<string>): (p: CourtPayload)
    ensures p.name == f.name && p.status == f.status
    ensures p.openingHour == f.openingHour && p.closingHour == f.closingHour
    ensures p.image.Some? <==> file.Some?
    ensures file.Some? ==> p.image == file
  {
    CourtPayload(f.name, f.status, f.openingHour, f.closingHour, file)
  }

  /** The request `handleSubmit` sends: an update of the court being
      edited, or else a create. */
  function SubmitRequest(editing: Option<Court>, f: CourtForm, file: Option<string>): (r: Request)
    ensures r.UpdateCourt? <==> editing.Some?
    ensures r.CreateCourt? <==> editing.None?
    ensures editing.Some? ==> r.courtId == editing.value.id
    ensures r.data == Payload(f, file)
  {
    match editing
    case Some(c) => UpdateCourt(c.id, Payload(f, file))
    case None => CreateCourt(Payload(f, file))
  }

  /** The message a failed submit shows, by mode. */
  function SubmitFailure(editing: Option<Court>): (m: string)
    ensures m == UpdateFailedMessage <==> editing.Some?
    ensures m == CreateFailedMessage <==> editing.None?
  {
    if editing.Some? then UpdateFailedMessage else CreateFailedMessage
  }

  /** `courts.filter((court) => court.status === s).length`. */
  function CountStatus(courts: seq<Court>, s: string): (n: nat)
    ensures n <= |courts|
  {
    if courts == [] then 0
    else CountStatus(courts[1..], s) + (if courts[0].status == s then 1 else 0)
  }

  /** How many courts have none of the three statuses the form offers. */
  function CountOther(courts: seq<Court>): nat
  {
    if courts == [] then 0
    else CountOther(courts[1..]) +
         (if courts[0].status in {"available", "maintenance", "closed"} then 0 else 1)
  }

  /** The three tallies and the courts with any other status make up the
      total: so the tallies never add up to more than the total, and add up
      to exactly the total when every status is one of the three. */
  lemma {:induction false} TalliesPartitionTotal(courts: seq<Court>)
    ensures CountStatus(courts, "available") + CountStatus(courts, "maintenance") +
            CountStatus(courts, "closed") + CountOther(courts) == |courts|
    ensures (forall i :: 0 <= i < |courts| ==> courts[i].status in {"available", "maintenance", "closed"}) ==>
            CountOther(courts) == 0
  {
    if courts != [] {
      TalliesPartitionTotal(courts[1..]);
      assert forall i :: 1 <= i < |courts| ==> courts[1..][i - 1] == courts[i];
    }
  }

  /** The dashboard's state: the courts fetched, the busy flag, the error
      banner, whether the form is shown and which court it edits, the form,
      the selected image file and its preview, and the requests sent so
      far. */
  class Dashboard {
    var courts: seq<Court>
    var loading: bool
    var error: string
    var showForm: bool
    var editingCourt: Option<Court>
    var form: CourtForm
    var selectedFile: Option<string>
    var previewImage: string
    var requests: seq<Request>

    /** A court is edited only while the form is shown. */
    ghost predicate Valid()
      reads this
    {
      editingCourt.Some? ==> showForm
    }

    /** The form state `resetForm` leaves: hidden, editing nothing, blank,
        with no file and no preview. */
    ghost predicate IsReset()
      reads this
    {
      !showForm && editingCourt.None? && selectedFile.None? && previewImage == "" && form == Blank
    }

    constructor ()
      ensures Valid() && IsReset()
      ensures courts == [] && loading && error == "" && requests == []
    {
      courts := [];
      loading := true;
      error := "";
      showForm := false;
      editingCourt := None;
      form := Blank;
      selectedFile := None;
      previewImage := "";
      requests := [];
    }

    /** `fetchCourts`: ask for the courts; take the list (Some) or show
        the fetch error (None); no longer loading. */
    method FetchCourts(response: Option<seq<Court>>)
      requires Valid()
      modifies this
      ensures Valid() && !loading
      ensures requests == old(requests) + [GetAllCourts]
      ensures response.Some? ==> courts == response.value && error == old(error)
      ensures response.None? ==> courts == old(courts) && error == FetchFailedMessage
      ensures showForm == old(showForm) && editingCourt == old(editingCourt) && form == old(form)
      ensures selectedFile == old(selectedFile) && previewImage == old(previewImage)
    {
      requests := requests + [GetAllCourts];
      if response.Some? {
        courts := response.value;
      } else {
        error := FetchFailedMessage;
      }
      loading := false;
    }

    /** `resetForm`. */
    method ResetForm()
      requires Valid()
      modifies this
      ensures Valid() && IsReset()
      ensures courts == old(courts) && loading == old(loading) && error == old(error)
      ensures requests == old(requests)
    {
      showForm := false;
      editingCourt := None;
      selectedFile := None;
      previewImage := "";
      form := Blank;
    }

    /** The "Add New Court" button: show the form as it is. */
    method OpenForm()
      requires Valid()
      modifies this
      ensures Valid() && showForm
      ensures editingCourt == old(editingCourt) && form == old(form)
      ensures selectedFile == old(selectedFile) && previewImage == old(previewImage)
      ensures courts == old(courts) && loading == old(loading) && error == old(error)
      ensures requests == old(requests)
    {
      showForm := true;
    }

    /** `handleEdit`: edit `c`, with its fields in the form, its image as
        the preview and no file selected. */
    method HandleEdit(c: Court)
      requires Valid()
      modifies this
      ensures Valid() && showForm && editingCourt == Some(c)
      ensures form == EditForm(c) && previewImage == c.image && selectedFile.None?
      ensures courts == old(courts) && loading == old(loading) && error == old(error)
      ensures requests == old(requests)
    {
      editingCourt := Some(c);
      form := EditForm(c);
      previewImage := c.image;
      selectedFile := None;
      showForm := true;
    }

    /** `handleChange`: only the named field changes. */
    method HandleChange(field: string, value: string)
      requires Valid()
      modifies this
      ensures Valid() && form == old(form).Set(field, value)
      ensures showForm == old(showForm) && editingCourt == old(editingCourt)
      ensures selectedFile == old(selectedFile) && previewImage == old(previewImage)
      ensures courts == old(courts) && loading == old(loading) && error == old(error)
      ensures requests == old(requests)
    {
      form := form.Set(field, value);
    }

    /** `handleFileChange`, without the preview the file reader delivers
        later: a chosen file becomes the selected file. */
    method HandleFileChange(file: Option<string>)
      requires Valid()
      modifies this
      ensures Valid()
      ensures selectedFile == if file.Some? then file else old(selectedFile)
      ensures previewImage == old(previewImage) && form == old(form)
      ensures showForm == old(showForm) && editingCourt == old(editingCourt)
      ensures courts == old(courts) && loading == old(loading) && error == old(error)
      ensures requests == old(requests)
    {
      if file.Some? {
        selectedFile := file;
      }
    }

    /** `clearImage`: no file, no preview. */
    method ClearImage()
      requires Valid()
      modifies this
      ensures Valid() && selectedFile.None? && previewImage == ""
      ensures form == old(form) && showForm == old(showForm) && editingCourt == old(editingCourt)
      ensures courts == old(courts) && loading == old(loading) && error == old(error)
      ensures requests == old(requests)
    {
      selectedFile := None;
      previewImage := "";
    }

    /** A save goes out only while the dashboard is busy and shows no error. */
    method Send(r: Request)
      requires loading && error == ""
      modifies this`requests
      ensures requests == old(requests) + [r]
    {
      requests := requests + [r];
    }

    /** `handleSubmit`: send an update of the edited court or a create,
        with the image only if a file was selected. On success, refetch
        the courts (`refreshed` is that response) and leave the form as
        `resetForm` does; on failure, keep the form and say which kind of
        save failed. */
    method HandleSubmit(outcome: Outcome, refreshed: Option<seq<Court>>)
      requires Valid()
      modifies this
      ensures Valid() && !loading
      ensures outcome.Succeeded? ==>
                requests == old(requests) + [SubmitRequest(old(editingCourt), old(form), old(selectedFile)), GetAllCourts] &&
                IsReset() &&
                (refreshed.Some? ==> courts == refreshed.value && error == "") &&
                (refreshed.None? ==> courts == old(courts) && error == FetchFailedMessage)
      ensures outcome.Failed? ==>
                requests == old(requests) + [SubmitRequest(old(editingCourt), old(form), old(selectedFile))] &&
                error == SubmitFailure(old(editingCourt)) &&
                courts == old(courts) && form == old(form) && showForm == old(showForm) &&
                editingCourt == old(editingCourt) && selectedFile == old(selectedFile) &&
                previewImage == old(previewImage)
    {
      loading := true;
      error := "";
      Send(SubmitRequest(editingCourt, form, selectedFile));
      if outcome.Succeeded? {
        FetchCourts(refreshed);
        showForm := false;
        editingCourt := None;
        selectedFile := None;
        previewImage := "";
        form := Blank;
      } else {
        error := SubmitFailure(editingCourt);
      }
      loading := false;
    }

    /** `handleDelete`: nothing unless the user confirms; then the delete
        request, and a refetch on success or the delete error on failure. */
    method HandleDelete(courtId: string, confirmed: bool, outcome: Outcome, refreshed: Option<seq<Court>>)
      requires Valid()
      modifies this
      ensures Valid()
      ensures !confirmed ==>
                requests == old(requests) && courts == old(courts) && error == old(error) &&
                loading == old(loading)
      ensures confirmed && outcome.Succeeded? ==>
                requests == old(requests) + [DeleteCourt(courtId), GetAllCourts] && !loading &&
                (refreshed.Some? ==> courts == refreshed.value && error == old(error)) &&
                (refreshed.None? ==> courts == old(courts) && error == FetchFailedMessage)
      ensures confirmed && outcome.Failed? ==>
                requests == old(requests) + [DeleteCourt(courtId)] &&
                courts == old(courts) && error == DeleteFailedMessage && loading == old(loading)
      ensures form == old(form) && showForm == old(showForm) && editingCourt == old(editingCourt)
      ensures selectedFile == old(selectedFile) && previewImage == old(previewImage)
    {
      if !confirmed {
        return;
      }
      requests := requests + [DeleteCourt(courtId)];
      if outcome.Succeeded? {
        FetchCourts(refreshed);
      } else {
        error := DeleteFailedMessage;
      }
    }
  }
}
