/**
 * The logged-in screen (src/components/TutorDashboard.tsx): one flag chooses between
 * the prompt and the listing form, and the form's submit, cancel and the logout
 * button are routed to the top-level view's handlers.
 *
 * A `Dashboard` object stands for one mounting of the component. `AppState` does not
 * create it: the caller makes a fresh one for each mounting, as `LoginCreateLogout`
 * does after logging in. No `Dashboard` method requires `app.isLoggedIn`; the
 * top-level view only mounts the component while it is set. The `id` that the
 * top-level handler takes from the clock is passed in by the caller.
 */
module TutorDashboard {
  import opened Types
  import opened App
  import opened CreateAdvertisement

  /** What the main area shows. */
  datatype Panel = Prompt | CreateForm

  class Dashboard {
    /** The top-level view whose handlers are passed in as `onLogout` and `onCreateAdvertisement`. */
    const app: AppState
    var showCreateForm: bool
    /** The mounted listing form; it exists exactly while `showCreateForm` is set. */
    var form: AdvertisementForm?

    ghost predicate Valid()
      reads this, form
    {
      && (showCreateForm <==> form != null)
      && (form != null ==> form.Valid())
    }

    /** The form is shown iff `showCreateForm` is set; otherwise the prompt is. */
    function Content(): (p: Panel)
      reads this
      ensures p == CreateForm <==> showCreateForm
    {
      if showCreateForm then CreateForm else Prompt
    }

    /** Mounting: the prompt is shown first. */
    constructor(app: AppState)
      ensures Valid()
      ensures this.app == app && !showCreateForm && form == null
    {
      this.app := app;
      showCreateForm := false;
      form := null;
    }

    /** The prompt's "Create Advertisement" button mounts an empty form. */
    method OpenCreateForm()
      requires Valid()
      modifies this
      ensures Valid() && showCreateForm && Content() == CreateForm
      ensures form != null && fresh(form)
      ensures form.formData == InitialForm && form.customInstrument == []
    {
      form := new AdvertisementForm();
      showCreateForm := true;
    }

    /** The form's cancel button: back to the prompt, nothing handed to the store. */
    method Cancel()
      requires Valid()
      modifies this
      ensures Valid() && !showCreateForm && Content() == Prompt
      ensures app.State() == old(app.State())
    {
      showCreateForm := false;
      form := null;
    }

    /** `handleCreate`: forwards the record once to `onCreateAdvertisement`, then returns to the prompt. */
    method HandleCreate(t: NewTutor, id: string)
      requires Valid()
      modifies this, app
      ensures Valid() && !showCreateForm && Content() == Prompt
      ensures app.tutors == old(app.tutors) + [WithId(t, id)]
      ensures app.State() == old(app.State()).(tutors := app.tutors)
    {
      app.HandleCreateAdvertisement(t, id);
      showCreateForm := false;
      form := null;
    }

    /** The form's submit: the record built from the form reaches the store, and the prompt returns. */
    method Submit(hourlyRate: real, experience: int, id: string)
      requires Valid() && showCreateForm
      modifies this, app
      ensures Valid() && !showCreateForm
      ensures old(form) != null
      ensures app.tutors == old(app.tutors) + [WithId(BuildListing(old(form.formData), hourlyRate, experience), id)]
      ensures app.tutors[|app.tutors| - 1].rating == 5.0
      ensures app.State() == old(app.State()).(tutors := app.tutors)
    {
      var t := form.HandleSubmit(hourlyRate, experience);
      HandleCreate(t, id);
    }

    /** The logout button calls only `onLogout`; the dashboard's own state is untouched. */
    method Logout()
      modifies app
      ensures app.State() == old(app.State()).(isLoggedIn := false)
      ensures showCreateForm == old(showCreateForm) && form == old(form)
    {
      app.HandleLogout();
    }
  }

  /**
   * A session: log in, fill in every field the browser requires (name, suburb, rate,
   * experience, bio), tick no instrument and no day, submit, log out. Nothing checks
   * the instrument and day lists, so the listing with neither reaches the store that
   * the browse screen shows again.
   */
  method LoginCreateLogout(seed: seq<Tutor>, name: string, suburb: string, rateText: string,
                           expText: string, bio: string, hourlyRate: real, experience: int, id: string)
    returns (app: AppState)
    requires name != [] && suburb != [] && rateText != [] && expText != [] && bio != []
    ensures app.tutors == seed + [Tutor(id, name, DefaultImage, [], suburb, [], hourlyRate, experience, bio, 5.0)]
    ensures app.CurrentScreen() == Browse(None, false)
  {
    app := new AppState(seed);
    app.OpenLoginModal();
    app.HandleLogin();
    var dashboard := new Dashboard(app);
    dashboard.OpenCreateForm();
    var form := dashboard.form;
    form.SetName(name);
    form.SetSuburb(suburb);
    form.SetHourlyRate(rateText);
    form.SetExperience(expText);
    form.SetBio(bio);
    dashboard.Submit(hourlyRate, experience, id);
    dashboard.Logout();
  }
}
