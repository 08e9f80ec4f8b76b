/**
 * The listing form (src/components/CreateAdvertisement.tsx): the form record and the
 * custom-instrument input the handlers replace field by field, and the record built
 * on submit. The numeric fields are kept as the strings typed; `parseFloat` and
 * `parseInt` are not modelled, so submitting takes their results as parameters.
 */
module CreateAdvertisement {
  import opened Seqs
  import opened Text
  import opened Types
  import opened SelectionList

  /** `formData`. */
  datatype FormData = FormData(
    name: string,
    image: string,
    instruments: seq<string>,
    suburb: string,
    availability: seq<string>,
    hourlyRate: string,
    experience: string,
    bio: string,
    rating: real)

  /** The form as first shown: every text empty, nothing ticked, rating 5.0. */
  const InitialForm: FormData := FormData("", "", [], "", [], "", "", "", 5.0)

  /** The placeholder photo used when no image URL is given. */
  const DefaultImage: string :=
    "https://images.unsplash.com/photo-1636581563713-5ead3fb53a80?crop=entropy&cs=tinysrgb&fit=max&fm=jpg&w=400"

  /**
   * The record `handleSubmit` builds: an empty image URL gives way to the default one,
   * the parsed numbers are taken as given, and every other field is copied. Nothing
   * is checked: empty instrument or day lists go through.
   */
  function BuildListing(form: FormData, hourlyRate: real, experience: int): (t: NewTutor)
    ensures form.image == [] ==> t.image == DefaultImage
    ensures form.image != [] ==> t.image == form.image
    ensures t.image != []
    ensures t.name == form.name && t.suburb == form.suburb && t.bio == form.bio
    ensures t.instruments == form.instruments && t.availability == form.availability
    ensures t.rating == form.rating
    ensures t.hourlyRate == hourlyRate && t.experience == experience
  {
    NewTutor(form.name, if form.image != [] then form.image else DefaultImage, form.instruments,
             form.suburb, form.availability, hourlyRate, experience, form.bio, form.rating)
  }

  /** Submitting the untouched form yields a nameless listing with no instruments, no days, the default photo and rating 5.0. */
  lemma SubmitUntouchedForm(hourlyRate: real, experience: int)
    ensures BuildListing(InitialForm, hourlyRate, experience)
         == NewTutor("", DefaultImage, [], "", [], hourlyRate, experience, "", 5.0)
  {
  }

  /** The mounted form component and its two state hooks. */
  class AdvertisementForm {
    var formData: FormData
    var customInstrument: string

    /**
     * The chip list and the day boxes never hold a value twice, and the rating stays
     * at its initial 5.0: no handler changes it.
     */
    ghost predicate Valid()
      reads this
    {
      && NoDuplicates(formData.instruments) && NoDuplicates(formData.availability)
      && formData.rating == 5.0
    }

    constructor()
      ensures Valid()
      ensures formData == InitialForm && customInstrument == ""
    {
      formData := InitialForm;
      customInstrument := "";
    }

    /** `handleSubmit`: hands exactly one record, built from the current form, to `onCreate`. */
    method HandleSubmit(hourlyRate: real, experience: int) returns (t: NewTutor)
      ensures t == BuildListing(formData, hourlyRate, experience)
      ensures t.instruments == formData.instruments && t.availability == formData.availability
    {
      t := BuildListing(formData, hourlyRate, experience);
    }

    /** `toggleInstrument`: flips a common-instrument checkbox; no other field changes. */
    method ToggleInstrument(instrument: string)
      requires Valid()
      modifies this
      ensures Valid()
      ensures formData == old(formData).(instruments := Toggle(old(formData.instruments), instrument))
      ensures customInstrument == old(customInstrument)
    {
      ToggleKeepsNoDuplicates(formData.instruments, instrument);
      formData := formData.(instruments := Toggle(formData.instruments, instrument));
    }

    /**
     * `addCustomInstrument`: a non-blank input not yet listed is appended, trimmed,
     * and the input is cleared; otherwise neither the list nor the input changes.
     */
    method AddCustomInstrument()
      requires Valid()
      modifies this
      ensures Valid()
      ensures var v := Trim(old(customInstrument));
        if v != [] && v !in old(formData.instruments) then
          && formData == old(formData).(instruments := old(formData.instruments) + [v])
          && customInstrument == []
        else
          && formData == old(formData)
          && customInstrument == old(customInstrument)
    {
      var v := Trim(customInstrument);
      if v != [] && v !in formData.instruments {
        AppendFreshKeepsNoDuplicates(formData.instruments, v);
        formData := formData.(instruments := formData.instruments + [v]);
        customInstrument := [];
      }
    }

    /** `removeInstrument`: the chip's remove button drops every copy of the value. */
    method RemoveInstrument(instrument: string)
      requires Valid()
      modifies this
      ensures Valid()
      ensures formData == old(formData).(instruments := Without(old(formData.instruments), instrument))
      ensures instrument !in formData.instruments
      ensures customInstrument == old(customInstrument)
    {
      formData := formData.(instruments := Without(formData.instruments, instrument));
    }

    /** `toggleDay`: flips a day checkbox; no other field changes. */
    method ToggleDay(day: string)
      requires Valid()
      modifies this
      ensures Valid()
      ensures formData == old(formData).(availability := Toggle(old(formData.availability), day))
      ensures customInstrument == old(customInstrument)
    {
      ToggleKeepsNoDuplicates(formData.availability, day);
      formData := formData.(availability := Toggle(formData.availability, day));
    }

    /** The text inputs' change handlers: each replaces one field with what was typed. */
    method SetName(value: string)
      requires Valid()
      modifies this
      ensures Valid() && formData == old(formData).(name := value) && customInstrument == old(customInstrument)
    {
      formData := formData.(name := value);
    }

    method SetImage(value: string)
      requires Valid()
      modifies this
      ensures Valid() && formData == old(formData).(image := value) && customInstrument == old(customInstrument)
    {
      formData := formData.(image := value);
    }

    method SetSuburb(value: string)
      requires Valid()
      modifies this
      ensures Valid() && formData == old(formData).(suburb := value) && customInstrument == old(customInstrument)
    {
      formData := formData.(suburb := value);
    }

    method SetHourlyRate(value: string)
      requires Valid()
      modifies this
      ensures Valid() && formData == old(formData).(hourlyRate := value) && customInstrument == old(customInstrument)
    {
      formData := formData.(hourlyRate := value);
    }

    method SetExperience(value: string)
      requires Valid()
      modifies this
      ensures Valid() && formData == old(formData).(experience := value) && customInstrument == old(customInstrument)
    {
      formData := formData.(experience := value);
    }

    method SetBio(value: string)
      requires Valid()
      modifies this
      ensures Valid() && formData == old(formData).(bio := value) && customInstrument == old(customInstrument)
    {
      formData := formData.(bio := value);
    }

    method SetCustomInstrument(value: string)
      requires Valid()
      modifies this
      ensures Valid() && formData == old(formData) && customInstrument == value
    {
      customInstrument := value;
    }
  }
}
